# Dental clinic dashboard: chatbot triage, patient registration and billing counters

This project models the decision logic inside `demo.py`, a Streamlit dashboard for a dental clinic, and proves properties about it. Five pieces are modelled:

- **The patient chatbot** (`render_chatbot_paciente`). Each message is lower-cased and tested against keyword rules in a fixed priority order: emergency, pain, severity answer, slot answer, opening hours, thanks, fallback. The first rule that matches picks three things: the reply, the next conversation state (`INIT`, `TRIAGE_DOLOR`, `OFERTA_CITA`, `URGENCIA`) and whether a confirmed appointment is added to the calendar. Each message is also counted in the KPI counters, and both turns go into the message log.
- **New-patient registration** (`render_gestion_pacientes`):
  - the sequential `P%03d` patient ID;
  - the "Alto"/"Bajo" risk flag, derived from keywords in the history and allergies;
  - the privacy-consent field;
  - the append to the patient list.
- **The Aspel invoicing-sync counters.** The synced total grows by the invoiced amount. The pending total shrinks by the same amount but never goes below zero.
- **`color_prediccion`.** This picks the colour of an inventory forecast cell. The checks run "URGENTE", then "Pedir", then "OK".
- **The calendar event colour** for an appointment status.

Modules:

- `Text` models Python's substring test and zero-padded decimal formatting.
- `Agenda` holds the appointment records and the event colour.
- `Chatbot` holds the cascade as a specification function (`Step`) and the session as a class whose methods are proved against it.
- `Patients` covers registration.
- `Billing` covers the sync counters.
- `Inventory` covers the forecast colouring.

Where the source updates session state in place, the model uses a class:

- `Chatbot.ChatSession` for the chat state, counters, message log and appointment list;
- `Patients.PatientRegistry` for the patient list;
- `Billing.AspelKpis` for the two counters.

Everything else is a pure function.

Two behaviours of the cascade follow from how the code is written:

- **The pain test** (demo.py:491) chains three substring tests with `or` and attaches the `INIT` check to the last one with `and`. Python's `and` binds tighter than `or`, so "dolor" and "muela" start pain triage in every state. Only "molestia" is limited to `INIT` (`Chatbot.MentionsPain`).
- **`URGENCIA` is not a final state.** A message received in `URGENCIA` runs through the same cascade as any other. Another emergency message keeps the state in `URGENCIA` (demo.py:485-487). The first message without an emergency keyword leaves it. It goes to `TRIAGE_DOLOR` on "dolor" or "muela" (demo.py:491-493). Otherwise it goes to `INIT`, through the opening-hours, thanks or fallback branch (demo.py:521-529). See `Chatbot.UrgencyIsLeft`.

## Model

| member | source | states |
|---|---|---|
| Text.ScanAgrees | demo.py:485-529 | Python's `sub in s`, modelled as "an occurrence starts at some index", agrees with a left-to-right prefix scan for every pair of strings. |
| Text.PaddedRoundTrip | demo.py:272 | A zero-padded decimal rendering of `n` consists only of digits and reads back as `n`. |
| Agenda.InitialAppointments | demo.py:60-70 | The session starts with six appointments, all dated between ten days before and two days after today. |
| Agenda.EventColorOf | demo.py:359 | An event is green exactly when its status is "Confirmada", orange exactly when it is "Pendiente", and red for every other status. |
| Agenda.InitialColours | demo.py:359 | Of the six initial appointments, three show green and two (the completed one and the cancelled one) show red. |
| Chatbot.Classify | demo.py:485-529 | Each branch is characterised by if-and-only-if, in priority order. Emergency exactly when an emergency keyword appears. Pain exactly when there is none and the pain test holds. Severity or slot answer exactly when neither of those holds and an exact answer arrives in its state. Opening hours, thanks and fallback exactly when none of the earlier tests holds, split by the "horario"/"abren" and "gracias" tests. |
| Chatbot.Step | demo.py:484-529 | Next state, by if-and-only-if: URGENCIA exactly on an emergency keyword. TRIAGE_DOLOR exactly on the pain test. OFERTA_CITA exactly on an exact severity answer in TRIAGE_DOLOR. INIT otherwise. Reply, by if-and-only-if: the urgency alert, the severity question and the slot offer go with those three states. The opening-hours, thanks and not-understood replies go with their keyword tests. A confirmation comes exactly when an appointment is booked. A booking happens exactly for an exact slot answer in OFERTA_CITA, confirms the slot the answer picks and returns to INIT. It is a confirmed 800 "Valoración por Dolor (Chatbot)" appointment for P_EXTERNO, two or three days ahead. |
| Chatbot.AnswersAreKeywordFree | demo.py:485-501 | None of the exact severity or slot answers contains an emergency or pain keyword, so the earlier branches never intercept them. |
| Chatbot.AnswersReachTheirBranch | demo.py:496-518 | In TRIAGE_DOLOR, every exact severity answer moves to OFERTA_CITA without booking. A message books if and only if it is an exact slot answer received in OFERTA_CITA. |
| Chatbot.BookedSlots | demo.py:501-518 | The appointment each slot answer books: "1"/"martes" books Dra. Vega at 17:00 in two days. "2"/"miércoles" books Dr. Salas at 13:00 in three days. "3"/"viernes" books Dra. Vega at 18:00 in three days. |
| Chatbot.ChosenOptions | demo.py:503-505 | The option chosen for each exact slot answer, following the order of the substring tests. |
| Chatbot.SlotDetails | demo.py:510-515 | The doctor, date and time read back from each of the three slot descriptions are the ones the description names. |
| Chatbot.UrgencyIsLeft | demo.py:485-529 | With no emergency keyword, the message after an urgency books nothing. It returns to triage when it mentions "dolor" or "muela" and to INIT otherwise. |
| Chatbot.Replay | demo.py:468-532 | Over a run of messages there are at most as many bookings plus escalations as messages, and every booking is a confirmed P_EXTERNO appointment. |
| Chatbot.ToothacheWalkThrough | demo.py:451-518 | The suggested dialogue ("me duele una muela", "2", "1") books Dra. Vega at 17:00 in two days, raises no alert and ends in INIT. |
| Chatbot.ChatSession.constructor | demo.py:58-119 | A new session starts in INIT, with zero counters, the greeting as its only message and the six initial appointments. |
| Chatbot.ChatSession.HandleMessage | demo.py:468-532 | One message is logged and counted. The next state, reply, appended appointment and counter increments are exactly those of `Step`. The session invariant is kept: alerts plus bookings never exceed messages, the log alternates user and assistant turns after the greeting, and the newest `citasIa` appointments are the chatbot's confirmed bookings. |
| Chatbot.ChatSession.Answer | demo.py:484-529 | The if/elif cascade assigns the reply, state, appointment list and counters that `Step` prescribes and leaves the log and the message count alone. |
| Patients.PatientId | demo.py:272 | A patient ID is "P" followed by digits. Short numbers are padded with zeros to three digits. Longer numbers keep exactly their own digits, with no leading zero. |
| Patients.PatientIdWidth | demo.py:272 | The ID is exactly four characters long if and only if the number is below 1000. |
| Patients.ThousandthId | demo.py:272 | Position 1000 gets "P1000": no padding zero is added once the number has more than three digits. |
| Patients.PatientIdRoundTrip | demo.py:272 | The list position can be read back from the ID. |
| Patients.PatientIdInjective | demo.py:272 | Two positions give the same ID if and only if they are equal. |
| Patients.DistinctIds | demo.py:272 | In a sequentially numbered patient list, no two patients share an ID. |
| Patients.AssessRisk | demo.py:287-289 | The risk flag is never "Medio". It is "Alto" if and only if the lower-cased history contains "hipertensión" or "diabetes", or the lower-cased allergies contain "penicilina". |
| Patients.RiskOnlyRises | demo.py:287-289 | Adding text to the history or the allergies never lowers an "Alto" flag. |
| Patients.InitialIdsSequential | demo.py:51-57 | The five initial patients carry the IDs the registration form would have given them. |
| Patients.FirstRegisteredId | demo.py:272 | The first patient registered in a fresh session gets "P006". |
| Patients.PatientRegistry.constructor | demo.py:50-57 | The list starts with the five initial patients and is sequentially numbered. |
| Patients.PatientRegistry.Register | demo.py:286-297 | Exactly one record is appended and the earlier ones are unchanged. The new record has the next sequential ID, the `AssessRisk` flag, "Firmado" or "Pendiente" by the consent box, zero past treatments, source "Manual" and today's date. The list stays sequentially numbered. |
| Billing.PendingAfterSync | demo.py:651-654 | The pending amount after a sync is never negative. It is the old amount minus the payment, or zero when the payment exceeds it. |
| Billing.SyncsCompose | demo.py:650-654 | Two syncs in a row leave the same pending amount as one sync of their sum. |
| Billing.SyncMovesAmount | demo.py:650-654 | While the pending amount covers the payment, the sum synced plus pending is unchanged. Otherwise the pending amount drops to zero. |
| Billing.AspelKpis.constructor | demo.py:122-123 | The counters start at 12500.50 synced and 4500.00 pending. |
| Billing.AspelKpis.Sync | demo.py:650-654 | The synced total grows by the amount. The pending total becomes `PendingAfterSync` of the old total, so it stays non-negative. |
| Inventory.PredictionStyle | demo.py:30-43 | The urgent style is used exactly when the text contains "URGENTE". The reorder style is used exactly when it contains "Pedir" but not "URGENTE". The healthy style is used exactly when it contains "OK" and neither of the other two. The plain style is used otherwise. |
| Inventory.StyleOnlyEscalates | demo.py:34-39 | Appending text to a forecast never lowers its priority: urgent stays urgent, and reorder becomes reorder or urgent. |
| Inventory.InitialForecastStyles | demo.py:73-75 | The two "Pedir …" forecasts of the initial stock get the reorder style. "¡PEDIDO URGENTE!" gets the urgent style. |

## Left out

- Lower-casing (`str.lower()`) is not modelled. The lower-cased text is passed as an extra parameter (`promptLower`, `historialLower`, `alergiasLower`) beside the raw text, which is what gets stored.
- The chatbot's reply texts are not modelled. Each reply is a tag (`Chatbot.Reply`), and only the confirmation carries data, the chosen slot.
- `today` (`datetime.date.today()`) is a parameter. Dates are integer day numbers, as in Python's `date.toordinal()`.
- The fallback to "INIT" when the session has no chat state is not modelled. The model's session always has a state, because the constructor sets it.
- Chatbot.ChatSession.HandleMessage: the appointment list belongs to the chat session, so bookings made through the agenda page's manual form (demo.py:408-417) are not part of this model. The invariant that the newest `citasIa` appointments are chatbot bookings holds only for the chat session's own updates.
- Billing.AspelKpis.Sync: amounts are exact reals, not Python floats. Rounding is not modelled, and neither is the form's minimum amount of 100.0. `Sync` accepts any amount.
- Inventory.StyleCss: the CSS string is formatted from the chosen style and carries no contract beyond that.
- Streamlit rendering, `time.sleep` spinners, and the simulated WhatsApp, Aspel, X-ray and chatbot-KPI displays are not modelled. They are I/O and have no logic to verify.
- pandas/plotly KPIs, charts, the CSV export, the graphviz diagram, the calendar widget itself and the page router are not modelled. They are presentation, not part of the modelled core.
