/** The patient chatbot's triage and booking dialogue (`render_chatbot_paciente`).
    Each message is matched, in a fixed priority order, against keyword tests on its
    lower-cased text; the first match decides the reply, the next conversation state
    and whether an appointment is booked. */
module Chatbot {
  import opened Text
  import opened Agenda

  /** `chat_externo_state`: "INIT", "TRIAGE_DOLOR", "OFERTA_CITA", "URGENCIA". */
  datatype ChatState = Init | TriageDolor | OfertaCita | Urgencia

  /** The assistant's answers, one tag per branch; `Confirmed` carries the chosen slot. */
  datatype Reply =
    | Greeting
    | UrgencyAlert
    | AskSeverity
    | OfferSlots
    | Confirmed(slot: string)
    | OpeningHours
    | YoureWelcome
    | NotUnderstood

  /** One entry of `chat_externo_messages`: a user turn or an assistant turn. */
  datatype ChatMessage = UserText(text: string) | AssistantReply(reply: Reply)

  datatype Option<T> = None | Some(value: T)

  /** The branch of the cascade that handles a message, in priority order. */
  datatype Branch = Emergency | Pain | Severity | Booking | Hours | Thanks | Fallback

  /** What one message does to the conversation. */
  datatype Outcome = Outcome(next: ChatState, reply: Reply, booking: Option<Appointment>)

  predicate IsEmergency(p: string)
  {
    Contains(p, "emergencia") || Contains(p, "insoportable") || Contains(p, "sangrado")
  }

  /** The pain test as the code groups it: Python's `and` binds tighter than `or`, so
      "dolor" and "muela" match in every state and only "molestia" is restricted to INIT. */
  predicate MentionsPain(p: string, state: ChatState)
  {
    Contains(p, "dolor") || Contains(p, "muela") || (Contains(p, "molestia") && state == Init)
  }

  /** Exact answers to the severity question. */
  const SeverityAnswers: seq<string> := ["1", "leve", "ocasional", "2", "constante", "agudo"]

  /** Exact answers that pick one of the three offered slots. */
  const SlotAnswers: seq<string> := ["1", "martes", "2", "miércoles", "3", "viernes"]

  predicate AsksHours(p: string)
  {
    Contains(p, "horario") || Contains(p, "abren")
  }

  predicate SaysThanks(p: string)
  {
    Contains(p, "gracias")
  }

  /** The three slots offered, by option number. */
  const Options: map<string, string> :=
    map["1" := "Martes 17:00 (Dra. Vega)", "2" := "Miércoles 13:00 (Dr. Salas)", "3" := "Viernes 18:00 (Dra. Vega)"]

  const ChatbotService: string := "Valoración por Dolor (Chatbot)"

  /** The option an answer picks: substring tests on the answer, "1" or "martes" first,
      then "2" or "miércoles", and "3" when neither matched. */
  function ChosenOption(p: string): (o: string)
    ensures o in Options
  {
    if Contains(p, "1") || Contains(p, "martes") then "1"
    else if Contains(p, "2") || Contains(p, "miércoles") then "2"
    else "3"
  }

  /** The booked appointment: doctor, date and time are read back from the slot's description
      by substring tests; patient, status, service and price are fixed. */
  function BookedAppointment(slot: string, today: int): (a: Appointment)
  {
    Appointment(
      "P_EXTERNO",
      if Contains(slot, "Vega") then "Dra. Vega" else "Dr. Salas",
      if Contains(slot, "Martes") then today + 2 else today + 3,
      if Contains(slot, "17:00") then "17:00" else if Contains(slot, "13:00") then "13:00" else "18:00",
      "Confirmada",
      ChatbotService,
      800)
  }

  /** An exact answer to the severity question, received while it is pending. */
  predicate SeverityAnswer(state: ChatState, p: string)
  {
    state == TriageDolor && p in SeverityAnswers
  }

  /** An exact answer picking a slot, received while the slots are on offer. */
  predicate SlotAnswer(state: ChatState, p: string)
  {
    state == OfertaCita && p in SlotAnswers
  }

  /** None of the tests ahead of the opening-hours test holds. */
  predicate NoDialogueMatch(state: ChatState, p: string)
  {
    !IsEmergency(p) && !MentionsPain(p, state) && !SeverityAnswer(state, p) && !SlotAnswer(state, p)
  }

  /** The cascade: the first test that holds picks the branch. */
  function Classify(state: ChatState, p: string): (b: Branch)
    ensures b == Emergency <==> IsEmergency(p)
    ensures b == Pain <==> !IsEmergency(p) && MentionsPain(p, state)
    ensures b == Severity <==> !IsEmergency(p) && !MentionsPain(p, state) && SeverityAnswer(state, p)
    ensures b == Booking <==> !IsEmergency(p) && !MentionsPain(p, state) && SlotAnswer(state, p)
    ensures b == Hours <==> NoDialogueMatch(state, p) && AsksHours(p)
    ensures b == Thanks <==> NoDialogueMatch(state, p) && !AsksHours(p) && SaysThanks(p)
    ensures b == Fallback <==> NoDialogueMatch(state, p) && !AsksHours(p) && !SaysThanks(p)
  {
    if IsEmergency(p) then Emergency
    else if MentionsPain(p, state) then Pain
    else if p in SeverityAnswers && state == TriageDolor then Severity
    else if p in SlotAnswers && state == OfertaCita then Booking
    else if AsksHours(p) then Hours
    else if SaysThanks(p) then Thanks
    else Fallback
  }

  /** The effect of one lower-cased message `p` received in `state`, booking relative to `today`. */
  function Step(state: ChatState, p: string, today: int): (o: Outcome)
    ensures o.next == Urgencia <==> IsEmergency(p)
    ensures o.next == TriageDolor <==> !IsEmergency(p) && MentionsPain(p, state)
    ensures o.next == OfertaCita <==> !IsEmergency(p) && !MentionsPain(p, state) && SeverityAnswer(state, p)
    ensures o.next == Init <==>
      !IsEmergency(p) && !MentionsPain(p, state) && !SeverityAnswer(state, p)
    ensures o.reply == UrgencyAlert <==> o.next == Urgencia
    ensures o.reply == AskSeverity <==> o.next == TriageDolor
    ensures o.reply == OfferSlots <==> o.next == OfertaCita
    ensures o.reply == OpeningHours <==> NoDialogueMatch(state, p) && AsksHours(p)
    ensures o.reply == YoureWelcome <==> NoDialogueMatch(state, p) && !AsksHours(p) && SaysThanks(p)
    ensures o.reply == NotUnderstood <==> NoDialogueMatch(state, p) && !AsksHours(p) && !SaysThanks(p)
    ensures o.reply.Confirmed? <==> o.booking.Some?
    ensures o.booking.Some? <==> !IsEmergency(p) && !MentionsPain(p, state) && SlotAnswer(state, p)
    ensures o.booking.Some? ==> o.next == Init && o.reply == Confirmed(Options[ChosenOption(p)])
    ensures o.booking.Some? ==>
      var a := o.booking.value;
      a.patientId == "P_EXTERNO" && a.status == "Confirmada" && a.cost == 800 &&
      a.service == ChatbotService && (a.date == today + 2 || a.date == today + 3)
  {
    match Classify(state, p)
    case Emergency => Outcome(Urgencia, UrgencyAlert, None)
    case Pain => Outcome(TriageDolor, AskSeverity, None)
    case Severity => Outcome(OfertaCita, OfferSlots, None)
    case Booking =>
      var slot := Options[ChosenOption(p)];
      Outcome(Init, Confirmed(slot), Some(BookedAppointment(slot, today)))
    case Hours => Outcome(Init, OpeningHours, None)
    case Thanks => Outcome(Init, YoureWelcome, None)
    case Fallback => Outcome(Init, NotUnderstood, None)
  }

  /** `a` mentions no emergency or pain keyword. */
  predicate KeywordFree(a: string)
  {
    !IsEmergency(a) && !Contains(a, "dolor") && !Contains(a, "muela") && !Contains(a, "molestia")
  }

  /** `a` is keyword free, witnessed for each keyword (emergencia, insoportable, sangrado,
      dolor, muela, molestia) by its being longer than `a` or by one of its characters
      that `a` lacks. */
  lemma KeywordFreeBy(a: string, e: nat, i: nat, s: nat, d: nat, m: nat, mo: nat)
    requires |a| < 10 || (e < 10 && "emergencia"[e] !in a)
    requires |a| < 12 || (i < 12 && "insoportable"[i] !in a)
    requires |a| < 8 || (s < 8 && "sangrado"[s] !in a)
    requires |a| < 5 || (d < 5 && "dolor"[d] !in a)
    requires |a| < 5 || (m < 5 && "muela"[m] !in a)
    requires |a| < 8 || (mo < 8 && "molestia"[mo] !in a)
    ensures KeywordFree(a)
  {
    NotContained(a, "emergencia", e);
    NotContained(a, "insoportable", i);
    NotContained(a, "sangrado", s);
    NotContained(a, "dolor", d);
    NotContained(a, "muela", m);
    NotContained(a, "molestia", mo);
  }

  /** The answers of at most four characters are keyword free: every keyword is longer. */
  lemma ShortAnswersKeywordFree()
    ensures KeywordFree("1") && KeywordFree("2") && KeywordFree("3") && KeywordFree("leve")
  {
    KeywordFreeBy("1", 0, 0, 0, 0, 0, 0);
    KeywordFreeBy("2", 0, 0, 0, 0, 0, 0);
    KeywordFreeBy("3", 0, 0, 0, 0, 0, 0);
    KeywordFreeBy("leve", 0, 0, 0, 0, 0, 0);
  }

  /** The answers of five to seven characters are keyword free. */
  lemma MiddleAnswersKeywordFree()
    ensures KeywordFree("agudo") && KeywordFree("martes") && KeywordFree("viernes")
  {
    KeywordFreeBy("agudo", 0, 0, 0, 2, 0, 0);
    KeywordFreeBy("martes", 0, 0, 0, 0, 1, 0);
    KeywordFreeBy("viernes", 0, 0, 0, 0, 0, 0);
  }

  /** The nine-character answers are keyword free. */
  lemma LongAnswersKeywordFree()
    ensures KeywordFree("ocasional") && KeywordFree("constante") && KeywordFree("miércoles")
  {
    SeverityWordKeywordFree("ocasional");
    SeverityWordKeywordFree("constante");
    WednesdayAnswerKeywordFree();
  }

  lemma WednesdayAnswerKeywordFree()
    ensures KeywordFree("miércoles")
  {
    KeywordFreeBy("miércoles", 0, 0, 3, 0, 1, 5);
  }

  /** A nine-character severity answer without 'g', 'd', 'm' is keyword free. */
  lemma SeverityWordKeywordFree(a: string)
    requires |a| == 9 && 'g' !in a && 'd' !in a && 'm' !in a
    ensures KeywordFree(a)
  {
    KeywordFreeBy(a, 0, 0, 3, 0, 0, 0);
  }

  /** None of the exact severity or slot answers mentions an emergency or pain keyword. */
  lemma AnswersAreKeywordFree(a: string, state: ChatState)
    requires a in SeverityAnswers || a in SlotAnswers
    ensures !IsEmergency(a) && !MentionsPain(a, state)
  {
    ShortAnswersKeywordFree();
    MiddleAnswersKeywordFree();
    LongAnswersKeywordFree();
  }

  /** In TRIAGE_DOLOR an exact severity answer moves to OFERTA_CITA, and in OFERTA_CITA
      an exact slot answer books; no earlier branch of the cascade can intercept them. */
  lemma AnswersReachTheirBranch(state: ChatState, p: string, today: int)
    ensures state == TriageDolor && p in SeverityAnswers ==>
      Step(state, p, today).next == OfertaCita && Step(state, p, today).booking.None?
    ensures Step(state, p, today).booking.Some? <==> state == OfertaCita && p in SlotAnswers
  {
    if p in SeverityAnswers || p in SlotAnswers {
      AnswersAreKeywordFree(p, state);
    }
  }

  /** Which slot each answer books: "1"/"martes" Dra. Vega at 17:00 in two days,
      "2"/"miércoles" Dr. Salas at 13:00 in three days, "3"/"viernes" Dra. Vega at 18:00 in three days. */
  lemma BookedSlots(p: string, today: int)
    requires p in SlotAnswers
    ensures Step(OfertaCita, p, today).booking == Some(
      if p == "1" || p == "martes" then
        Appointment("P_EXTERNO", "Dra. Vega", today + 2, "17:00", "Confirmada", ChatbotService, 800)
      else if p == "2" || p == "miércoles" then
        Appointment("P_EXTERNO", "Dr. Salas", today + 3, "13:00", "Confirmada", ChatbotService, 800)
      else
        Appointment("P_EXTERNO", "Dra. Vega", today + 3, "18:00", "Confirmada", ChatbotService, 800))
  {
    AnswersReachTheirBranch(OfertaCita, p, today);
    ChosenOptions(p);
    SlotDetails(today);
  }

  /** The option each exact slot answer picks. */
  lemma ChosenOptions(p: string)
    requires p in SlotAnswers
    ensures ChosenOption(p) == if p == "1" || p == "martes" then "1"
      else if p == "2" || p == "miércoles" then "2" else "3"
  {
    if p == "1" || p == "martes" {
      ContainsSelf(p);
    } else if p == "2" || p == "miércoles" {
      ContainsSelf(p);
      CharAbsent(p, "1", 0);
      CharAbsent(p, "martes", 3);
    } else {
      CharAbsent(p, "1", 0);
      CharAbsent(p, "2", 0);
      if p == "3" {
        LongerNotContained(p, "martes");
        LongerNotContained(p, "miércoles");
      } else {
        CharAbsent(p, "martes", 0);
        CharAbsent(p, "miércoles", 0);
      }
    }
  }

  /** Doctor, date and time read back from each of the three slot descriptions. */
  lemma SlotDetails(today: int)
    ensures BookedAppointment(Options["1"], today) ==
      Appointment("P_EXTERNO", "Dra. Vega", today + 2, "17:00", "Confirmada", ChatbotService, 800)
    ensures BookedAppointment(Options["2"], today) ==
      Appointment("P_EXTERNO", "Dr. Salas", today + 3, "13:00", "Confirmada", ChatbotService, 800)
    ensures BookedAppointment(Options["3"], today) ==
      Appointment("P_EXTERNO", "Dra. Vega", today + 3, "18:00", "Confirmada", ChatbotService, 800)
  {
    TuesdaySlot("Martes 17:00 (Dra. Vega)");
    WednesdaySlot("Miércoles 13:00 (Dr. Salas)");
    FridaySlot("Viernes 18:00 (Dra. Vega)");
  }

  lemma TuesdaySlot(d: string)
    requires d == "Martes 17:00 (Dra. Vega)"
    ensures Contains(d, "Vega") && Contains(d, "Martes") && Contains(d, "17:00")
  {
    ContainsAt(d, "Vega", 19);
    ContainsAt(d, "Martes", 0);
    ContainsAt(d, "17:00", 7);
  }

  lemma WednesdaySlot(d: string)
    requires d == "Miércoles 13:00 (Dr. Salas)"
    ensures !Contains(d, "Vega") && !Contains(d, "Martes") && !Contains(d, "17:00") && Contains(d, "13:00")
  {
    ContainsAt(d, "13:00", 10);
    CharAbsent(d, "Vega", 0);
    CharAbsent(d, "Martes", 3);
    CharAbsent(d, "17:00", 1);
  }

  lemma FridaySlot(d: string)
    requires d == "Viernes 18:00 (Dra. Vega)"
    ensures Contains(d, "Vega") && !Contains(d, "Martes") && !Contains(d, "17:00") && !Contains(d, "13:00")
  {
    ContainsAt(d, "Vega", 20);
    CharAbsent(d, "Martes", 0);
    CharAbsent(d, "17:00", 1);
    CharAbsent(d, "13:00", 1);
  }

  /** Outside an emergency, URGENCIA is left on the next message: "dolor" or "muela"
      re-enter triage, every other message returns to INIT. */
  lemma UrgencyIsLeft(p: string, today: int)
    requires !IsEmergency(p)
    ensures Step(Urgencia, p, today).booking.None?
    ensures Step(Urgencia, p, today).next ==
      if Contains(p, "dolor") || Contains(p, "muela") then TriageDolor else Init
  {
    AnswersReachTheirBranch(Urgencia, p, today);
  }

  /** Conversation state, bookings and escalations after a run of lower-cased messages. */
  datatype Trace = Trace(final: ChatState, bookings: seq<Appointment>, escalations: nat)

  /** The effect of a whole run of messages, one `Step` after another. */
  function Replay(state: ChatState, prompts: seq<string>, today: int): (t: Trace)
    ensures |t.bookings| + t.escalations <= |prompts|
    ensures forall k :: 0 <= k < |t.bookings| ==>
      t.bookings[k].patientId == "P_EXTERNO" && t.bookings[k].status == "Confirmada"
    decreases |prompts|
  {
    if |prompts| == 0 then Trace(state, [], 0)
    else
      var o := Step(state, prompts[0], today);
      var rest := Replay(o.next, prompts[1..], today);
      Trace(rest.final,
            (if o.booking.Some? then [o.booking.value] else []) + rest.bookings,
            (if IsEmergency(prompts[0]) then 1 else 0) + rest.escalations)
  }

  /** The walk-through suggested on the chat page: "me duele una muela", then "2", then "1"
      books Dra. Vega at 17:00 in two days and returns to INIT. */
  lemma ToothacheWalkThrough(today: int)
    ensures Replay(Init, ["me duele una muela", "2", "1"], today) == Trace(Init,
      [Appointment("P_EXTERNO", "Dra. Vega", today + 2, "17:00", "Confirmada", ChatbotService, 800)], 0)
  {
    var first := "me duele una muela";
    ContainsAt(first, "muela", 13);
    CharAbsent(first, "emergencia", 4);
    CharAbsent(first, "insoportable", 4);
    CharAbsent(first, "sangrado", 3);
    assert Step(Init, first, today).next == TriageDolor;
    AnswersReachTheirBranch(TriageDolor, "2", today);
    assert Step(TriageDolor, "2", today).next == OfertaCita;
    BookedSlots("1", today);
    AnswersReachTheirBranch(OfertaCita, "1", today);
    var run := ["me duele una muela", "2", "1"];
    assert run[1..] == ["2", "1"] && run[1..][1..] == ["1"] && run[1..][1..][1..] == [];
  }

  /** The message log: the greeting, then user and assistant turns alternating. */
  ghost predicate AlternatingLog(ms: seq<ChatMessage>)
  {
    |ms| > 0 && ms[0] == AssistantReply(Greeting) &&
    forall k :: 0 < k < |ms| ==> (ms[k].UserText? <==> k % 2 == 1)
  }

  /** The last `n` appointments of `citas` are confirmed chatbot bookings. */
  ghost predicate ChatbotTail(citas: seq<Appointment>, n: nat)
  {
    n <= |citas| &&
    forall k :: |citas| - n <= k < |citas| ==>
      citas[k].patientId == "P_EXTERNO" && citas[k].status == "Confirmada"
  }

  /** Appending a user turn and the assistant's answer keeps the log alternating. */
  lemma LogExtends(ms: seq<ChatMessage>, prompt: string, r: Reply)
    requires AlternatingLog(ms) && |ms| % 2 == 1
    ensures AlternatingLog(ms + [UserText(prompt), AssistantReply(r)])
  {
  }

  /** Appending a chatbot booking extends the tail of chatbot bookings by one. */
  lemma TailExtends(citas: seq<Appointment>, n: nat, a: Appointment)
    requires ChatbotTail(citas, n)
    requires a.patientId == "P_EXTERNO" && a.status == "Confirmada"
    ensures ChatbotTail(citas + [a], n + 1)
  {
  }

  /** A message raises an alert or books an appointment, never both. */
  lemma EscalatesOrBooks(state: ChatState, p: string, today: int)
    ensures (if IsEmergency(p) then 1 else 0) + (if Step(state, p, today).booking.Some? then 1 else 0) <= 1
  {
  }

  /** One chat session: the state, the three counters, the shared appointment list
      and the message log, all updated in place by `HandleMessage`. */
  class ChatSession {
    var state: ChatState
    var consultas: nat
    var citasIa: nat
    var urgencias: nat
    var citas: seq<Appointment>
    var messages: seq<ChatMessage>

    /** Every message is counted once and escalates or books at most once; the log is the
        greeting followed by user/assistant pairs; the last `citasIa` appointments are the
        chatbot's confirmed bookings. */
    ghost predicate Valid()
      reads this
    {
      urgencias + citasIa <= consultas &&
      |messages| == 2 * consultas + 1 &&
      AlternatingLog(messages) &&
      ChatbotTail(citas, citasIa)
    }

    /** The session as first opened on `today`. */
    constructor (today: int)
      ensures Valid()
      ensures state == Init && consultas == 0 && citasIa == 0 && urgencias == 0
      ensures citas == InitialAppointments(today) && messages == [AssistantReply(Greeting)]
    {
      state := Init;
      consultas := 0;
      citasIa := 0;
      urgencias := 0;
      citas := InitialAppointments(today);
      messages := [AssistantReply(Greeting)];
    }

    /** Handle one submitted message `prompt`, whose lower-cased text is `promptLower`:
        log it, count it, answer it, log the answer. */
    method HandleMessage(prompt: string, promptLower: string, today: int)
      requires Valid()
      modifies this
      ensures Valid()
      ensures consultas == old(consultas) + 1
      ensures var o := Step(old(state), promptLower, today);
        state == o.next &&
        messages == old(messages) + [UserText(prompt), AssistantReply(o.reply)] &&
        citas == old(citas) + (if o.booking.Some? then [o.booking.value] else []) &&
        citasIa == old(citasIa) + (if o.booking.Some? then 1 else 0) &&
        urgencias == old(urgencias) + (if IsEmergency(promptLower) then 1 else 0)
    {
      ghost var log0 := messages;
      ghost var o := Step(state, promptLower, today);
      EscalatesOrBooks(state, promptLower, today);
      messages := messages + [UserText(prompt)];
      consultas := consultas + 1;
      var response := Answer(promptLower, today);
      messages := messages + [AssistantReply(response)];
      LogExtends(log0, prompt, response);
    }

    /** The reply cascade for the lower-cased message `p`: the first branch whose test
        holds sets the state and, for an emergency or a booking, its counter. */
    method Answer(p: string, today: int) returns (response: Reply)
      requires ChatbotTail(citas, citasIa)
      modifies this
      ensures ChatbotTail(citas, citasIa)
      ensures messages == old(messages) && consultas == old(consultas)
      ensures var o := Step(old(state), p, today);
        response == o.reply && state == o.next &&
        citas == old(citas) + (if o.booking.Some? then [o.booking.value] else []) &&
        citasIa == old(citasIa) + (if o.booking.Some? then 1 else 0) &&
        urgencias == old(urgencias) + (if IsEmergency(p) then 1 else 0)
    {
      var current := state;
      if IsEmergency(p) {
        assert Step(current, p, today) == Outcome(Urgencia, UrgencyAlert, None);
        response := UrgencyAlert;
        state := Urgencia;
        urgencias := urgencias + 1;
      } else if MentionsPain(p, current) {
        assert Step(current, p, today) == Outcome(TriageDolor, AskSeverity, None);
        response := AskSeverity;
        state := TriageDolor;
      } else if p in SeverityAnswers && current == TriageDolor {
        assert Step(current, p, today) == Outcome(OfertaCita, OfferSlots, None);
        response := OfferSlots;
        state := OfertaCita;
      } else if p in SlotAnswers && current == OfertaCita {
        var confirmed := Options[ChosenOption(p)];
        assert Step(current, p, today) ==
          Outcome(Init, Confirmed(confirmed), Some(BookedAppointment(confirmed, today)));
        response := Confirmed(confirmed);
        TailExtends(citas, citasIa, BookedAppointment(confirmed, today));
        citas := citas + [BookedAppointment(confirmed, today)];
        state := Init;
        citasIa := citasIa + 1;
      } else if AsksHours(p) {
        assert Step(current, p, today) == Outcome(Init, OpeningHours, None);
        response := OpeningHours;
        state := Init;
      } else if SaysThanks(p) {
        assert Step(current, p, today) == Outcome(Init, YoureWelcome, None);
        response := YoureWelcome;
        state := Init;
      } else {
        assert Step(current, p, today) == Outcome(Init, NotUnderstood, None);
        response := NotUnderstood;
        state := Init;
      }
    }
  }
}
