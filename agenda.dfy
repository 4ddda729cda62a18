/** The clinic's appointment store (`citas`) and how the calendar colours an
    appointment by its status. Dates are day numbers (Python's `date.toordinal()`). */
module Agenda {

  /** One appointment record: patient ID, doctor, date, "HH:MM" time,
      status ("Confirmada", "Pendiente", "Completada", "Cancelada"), service and price. */
  datatype Appointment = Appointment(
    patientId: string,
    doctor: string,
    date: int,
    time: string,
    status: string,
    service: string,
    cost: int)

  /** The six appointments the session starts with, relative to `today`. */
  function InitialAppointments(today: int): (citas: seq<Appointment>)
    ensures |citas| == 6
    ensures forall k :: 0 <= k < |citas| ==> today - 10 <= citas[k].date <= today + 2
  {
    [ Appointment("P001", "Dr. Salas", today, "10:00", "Confirmada", "Endodoncia", 4500),
      Appointment("P002", "Dra. Vega", today, "12:00", "Confirmada", "Limpieza", 800),
      Appointment("P003", "Dr. Salas", today + 1, "16:00", "Pendiente", "Ortodoncia (Ajuste)", 1500),
      Appointment("P005", "Dra. Vega", today + 2, "11:00", "Confirmada", "Resina (Revisión)", 0),
      Appointment("P001", "Dr. Salas", today - 7, "10:00", "Completada", "Valoración", 800),
      Appointment("P004", "Dra. Vega", today - 10, "14:00", "Cancelada", "Limpieza", 800) ]
  }

  datatype EventColor = Green | Orange | Red

  /** Calendar colour of an appointment: confirmed green, pending orange, any other status red. */
  function EventColorOf(status: string): (c: EventColor)
    ensures c == Green <==> status == "Confirmada"
    ensures c == Orange <==> status == "Pendiente"
    ensures c == Red <==> status != "Confirmada" && status != "Pendiente"
  {
    if status == "Confirmada" then Green
    else if status == "Pendiente" then Orange
    else Red
  }

  /** Of the initial appointments three are shown green, and two (the completed
      and the cancelled one) red. */
  lemma InitialColours(today: int)
    ensures var citas := InitialAppointments(today);
      |set k | 0 <= k < |citas| && EventColorOf(citas[k].status) == Green| == 3 &&
      |set k | 0 <= k < |citas| && EventColorOf(citas[k].status) == Red| == 2
  {
    var citas := InitialAppointments(today);
    assert (set k | 0 <= k < |citas| && EventColorOf(citas[k].status) == Green) == {0, 1, 3};
    assert (set k | 0 <= k < |citas| && EventColorOf(citas[k].status) == Red) == {4, 5};
  }
}
