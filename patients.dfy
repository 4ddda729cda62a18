/** Patient registration in the CRM page (`render_gestion_pacientes`): the new
    patient's ID, the risk flag derived from the medical history and allergies,
    the privacy-consent field, and the append to the patient list. */
module Patients {
  import opened Text

  /** `Riesgo IA`. */
  datatype Risk = Alto | Medio | Bajo

  /** `Aviso_Privacidad`: whether the privacy notice was signed. */
  datatype Consent = Firmado | Pendiente

  /** One entry of `pacientes`; `fechaRegistro` is a day number. */
  datatype Patient = Patient(
    id: string,
    nombre: string,
    historial: string,
    riesgo: Risk,
    telefono: string,
    servicio: string,
    costo: nat,
    fechaRegistro: int,
    tratamientosPasados: nat,
    fuente: string,
    aviso: Consent)

  /** The patient ID for list position `n`: "P" followed by `n` in decimal, zero-padded to
      at least three digits. */
  function PatientId(n: nat): (id: string)
    ensures |id| >= 4 && id[0] == 'P' && AllDigits(id[1..])
    ensures |id| == if |Decimal(n)| >= 3 then 1 + |Decimal(n)| else 4
    ensures |Decimal(n)| >= 3 ==> id[1] != '0'
  {
    "P" + ZeroPad(Decimal(n), 3)
  }

  /** The ID is exactly "P" and three digits while the number stays below 1000. */
  lemma PatientIdWidth(n: nat)
    ensures |PatientId(n)| == 4 <==> n < 1000
  {
    if n >= 1000 {
      assert Decimal(n) == Decimal(n / 10) + [DigitChar(n % 10)];
      assert Decimal(n / 10) == Decimal(n / 100) + [DigitChar(n / 10 % 10)];
      assert |Decimal(n / 100)| >= 2;
    } else if n >= 100 {
      assert Decimal(n) == Decimal(n / 10) + [DigitChar(n % 10)];
      assert Decimal(n / 10) == Decimal(n / 100) + [DigitChar(n / 10 % 10)];
      assert |Decimal(n / 100)| == 1;
    } else if n >= 10 {
      assert Decimal(n) == Decimal(n / 10) + [DigitChar(n % 10)];
      assert |Decimal(n / 10)| == 1;
    }
  }

  /** For a one-digit number the ID is "P00" and the digit. */
  lemma OneDigitId(n: nat)
    requires n < 10
    ensures PatientId(n) == ['P', '0', '0', DigitChar(n)]
  {
    assert Decimal(n) == [DigitChar(n)];
    assert ZeroPad([DigitChar(n)], 3) == ['0', '0'] + [DigitChar(n)];
  }

  /** Past three digits no zero is added: position 1000 gets "P1000". */
  lemma ThousandthId()
    ensures PatientId(1000) == "P1000"
  {
    assert Decimal(1) == "1";
    assert Decimal(10) == "10";
    assert Decimal(100) == "100";
    assert Decimal(1000) == "1000";
  }

  /** The number can be read back from the ID. */
  lemma PatientIdRoundTrip(n: nat)
    ensures DecimalValue(PatientId(n)[1..]) == n
  {
    assert PatientId(n)[1..] == ZeroPad(Decimal(n), 3);
    PaddedRoundTrip(n, 3);
  }

  /** Different list positions give different IDs. */
  lemma PatientIdInjective(a: nat, b: nat)
    ensures PatientId(a) == PatientId(b) <==> a == b
  {
    if PatientId(a) == PatientId(b) {
      PatientIdRoundTrip(a);
      PatientIdRoundTrip(b);
    }
  }

  /** The risk flag: "Alto" when the lower-cased history mentions hypertension or diabetes,
      or the lower-cased allergies mention penicillin; "Bajo" otherwise. */
  function AssessRisk(historialLower: string, alergiasLower: string): (r: Risk)
    ensures r != Medio
    ensures r == Alto <==>
      Contains(historialLower, "hipertensión") || Contains(historialLower, "diabetes") ||
      Contains(alergiasLower, "penicilina")
  {
    if Contains(historialLower, "hipertensión") || Contains(historialLower, "diabetes") ||
       Contains(alergiasLower, "penicilina")
    then Alto
    else Bajo
  }

  /** Writing more into the history or the allergies never lowers the risk flag. */
  lemma RiskOnlyRises(h: string, a: string, moreH: string, moreA: string)
    ensures AssessRisk(h, a) == Alto ==> AssessRisk(h + moreH, a + moreA) == Alto
  {
    if Contains(h, "hipertensión") {
      ContainsInConcat(h, moreH, "hipertensión");
    } else if Contains(h, "diabetes") {
      ContainsInConcat(h, moreH, "diabetes");
    } else if Contains(a, "penicilina") {
      ContainsInConcat(a, moreA, "penicilina");
    }
  }

  /** The five patients the session starts with (registration dates as day numbers). */
  const InitialPatients: seq<Patient> := [
    Patient("P001", "Ana García", "Hipertensión", Alto, "5512345678", "Endodoncia", 4500, 738900, 5, "Recomendación", Firmado),
    Patient("P002", "Luis Martínez", "Ninguno", Bajo, "5598765432", "Limpieza", 800, 739016, 1, "Web", Firmado),
    Patient("P003", "Sofía Hernández", "Diabetes Tipo 2", Alto, "5555667788", "Ortodoncia", 28000, 738844, 8, "Recomendación", Pendiente),
    Patient("P004", "Carlos Vera", "Ninguno", Bajo, "5511223344", "Limpieza", 800, 739160, 2, "Web", Firmado),
    Patient("P005", "María López", "Alergia Penicilina", Medio, "5544332211", "Resina (x2)", 1800, 739164, 1, "Chatbot", Firmado)
  ]

  /** The k-th patient (from 0) carries the ID of position k + 1. */
  ghost predicate SequentialIds(ps: seq<Patient>)
  {
    forall k :: 0 <= k < |ps| ==> ps[k].id == PatientId(k + 1)
  }

  /** Sequentially numbered patients all have different IDs. */
  lemma DistinctIds(ps: seq<Patient>)
    requires SequentialIds(ps)
    ensures forall i, j :: 0 <= i < j < |ps| ==> ps[i].id != ps[j].id
  {
    forall i, j | 0 <= i < j < |ps| ensures ps[i].id != ps[j].id {
      PatientIdInjective(i + 1, j + 1);
    }
  }

  /** Appending the patient numbered after the last keeps the numbering sequential. */
  lemma SequentialIdsExtend(ps: seq<Patient>, p: Patient)
    requires SequentialIds(ps) && p.id == PatientId(|ps| + 1)
    ensures SequentialIds(ps + [p])
  {
    var qs := ps + [p];
    forall k | 0 <= k < |qs| ensures qs[k].id == PatientId(k + 1) {
      if k < |ps| {
        assert qs[k] == ps[k];
      }
    }
  }

  /** The IDs of the initial patients follow the numbering the form uses. */
  lemma InitialIdsSequential()
    ensures SequentialIds(InitialPatients)
  {
    OneDigitId(1);
    OneDigitId(2);
    OneDigitId(3);
    OneDigitId(4);
    OneDigitId(5);
  }

  /** The first patient registered in a fresh session gets "P006". */
  lemma FirstRegisteredId()
    ensures PatientId(|InitialPatients| + 1) == "P006"
  {
    OneDigitId(6);
  }

  /** The patient list, updated in place by the registration form. */
  class PatientRegistry {
    var pacientes: seq<Patient>

    ghost predicate Valid()
      reads this
    {
      SequentialIds(pacientes)
    }

    constructor ()
      ensures Valid() && pacientes == InitialPatients
    {
      pacientes := InitialPatients;
      InitialIdsSequential();
    }

    /** Register a patient from the form; `historialLower` and `alergiasLower` are the
        lower-cased history and allergies, `today` the registration day. */
    method Register(nombre: string, telefono: string, historial: string, historialLower: string,
                    alergiasLower: string, servicio: string, costo: nat, consentimiento: bool, today: int)
      requires Valid()
      modifies this
      ensures Valid()
      ensures |pacientes| == |old(pacientes)| + 1 && pacientes[..|old(pacientes)|] == old(pacientes)
      ensures var p := pacientes[|old(pacientes)|];
        p.id == PatientId(|old(pacientes)| + 1) &&
        p.riesgo == AssessRisk(historialLower, alergiasLower) &&
        p.aviso == (if consentimiento then Firmado else Pendiente) &&
        p.nombre == nombre && p.telefono == telefono && p.historial == historial &&
        p.servicio == servicio && p.costo == costo && p.fechaRegistro == today &&
        p.tratamientosPasados == 0 && p.fuente == "Manual"
    {
      var idNuevo := PatientId(|pacientes| + 1);
      var riesgo := Bajo;
      if Contains(historialLower, "hipertensión") || Contains(historialLower, "diabetes") ||
         Contains(alergiasLower, "penicilina") {
        riesgo := Alto;
      }
      var nuevo := Patient(idNuevo, nombre, historial, riesgo, telefono, servicio, costo, today, 0, "Manual",
                           if consentimiento then Firmado else Pendiente);
      SequentialIdsExtend(pacientes, nuevo);
      pacientes := pacientes + [nuevo];
    }
  }
}
