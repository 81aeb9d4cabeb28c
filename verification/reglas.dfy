/**
 * The licence rules (LicenciaHelper): eligibility of a holder for a class,
 * the validity in years as a function of age, and the expiry date aligned
 * to the holder's birthday. The helper only reads the licence store.
 */
module Reglas {
  import opened Common
  import opened Dates
  import opened EnumClaseLicencia
  import opened Entities
  import opened Licencias

  const EDAD_MINIMA_GENERAL := 17
  const EDAD_MINIMA_PROFESIONAL := 21
  const EDAD_MAXIMA_PROFESIONAL := 65

  /** The professional classes C, D and E. */
  predicate EsProfesional(clase: ClaseLicencia) {
    clase == C || clase == D || clase == E
  }

  /**
   * titularTieneLicenciaB: some class B licence of the holder is active and
   * was issued strictly before the same day one year ago.
   */
  predicate TitularTieneLicenciaB(m: Store, titularId: int, today: Date) {
    var licenciasB := FindByTitularAndClase(m, titularId, B);
    exists id :: id in licenciasB && licenciasB[id].vigente && IsBefore(licenciasB[id].fechaEmision, MinusYears(today, 1))
  }

  /**
   * validarClaseYRestricciones: for C, D and E the age must lie in 21..65 and
   * the class B prerequisite must hold; for A, B, F and G the only rule is an
   * age of at least 17. Every rejection is an InvalidLicense.
   */
  function ValidarClaseYRestricciones(edad: int, clase: ClaseLicencia, m: Store, titularId: int, today: Date): (r: Outcome)
    ensures r == Pass <==>
      if EsProfesional(clase) then EDAD_MINIMA_PROFESIONAL <= edad <= EDAD_MAXIMA_PROFESIONAL && TitularTieneLicenciaB(m, titularId, today)
      else edad >= EDAD_MINIMA_GENERAL
    ensures r.Fail? ==> r.error.InvalidLicense?
  {
    match clase
    case C | D | E =>
      if edad < EDAD_MINIMA_PROFESIONAL then Fail(InvalidLicense(EdadMinimaProfesional))
      else if !TitularTieneLicenciaB(m, titularId, today) then Fail(InvalidLicense(RequiereLicenciaB))
      else if edad > EDAD_MAXIMA_PROFESIONAL then Fail(InvalidLicense(EdadMaximaProfesional))
      else Pass
    case A | B | F | G =>
      if edad < EDAD_MINIMA_GENERAL then Fail(InvalidLicense(EdadMinimaGeneral)) else Pass
  }

  /** The professional checks run in order min-age, prerequisite, max-age: which rule is reported. */
  lemma ProfesionalErrorOrder(edad: int, clase: ClaseLicencia, m: Store, titularId: int, today: Date)
    requires EsProfesional(clase)
    ensures edad < EDAD_MINIMA_PROFESIONAL ==>
      ValidarClaseYRestricciones(edad, clase, m, titularId, today) == Fail(InvalidLicense(EdadMinimaProfesional))
    ensures edad >= EDAD_MINIMA_PROFESIONAL && !TitularTieneLicenciaB(m, titularId, today) ==>
      ValidarClaseYRestricciones(edad, clase, m, titularId, today) == Fail(InvalidLicense(RequiereLicenciaB))
    ensures edad > EDAD_MAXIMA_PROFESIONAL && TitularTieneLicenciaB(m, titularId, today) ==>
      ValidarClaseYRestricciones(edad, clase, m, titularId, today) == Fail(InvalidLicense(EdadMaximaProfesional))
  {
  }

  /** A 70-year-old without the class B prerequisite is told about the prerequisite, not about the age limit. */
  lemma SeventyWithoutBGetsPrerequisiteError(clase: ClaseLicencia, m: Store, titularId: int, today: Date)
    requires EsProfesional(clase)
    requires FindByTitularAndClase(m, titularId, B) == map[]
    ensures ValidarClaseYRestricciones(70, clase, m, titularId, today) == Fail(InvalidLicense(RequiereLicenciaB))
  {
  }

  /** For A, B, F and G there is no upper age and no prerequisite: the store plays no part. */
  lemma GeneralClassesIgnoreHistory(edad: int, clase: ClaseLicencia, m1: Store, m2: Store, titularId: int, today: Date)
    requires !EsProfesional(clase)
    ensures ValidarClaseYRestricciones(edad, clase, m1, titularId, today) == ValidarClaseYRestricciones(edad, clase, m2, titularId, today)
    ensures ValidarClaseYRestricciones(edad, clase, m1, titularId, today) == Pass <==> edad >= 17
  {
  }

  /** An inactive class B licence, or one issued one year ago or later, never satisfies the prerequisite. */
  lemma PrerequisiteNeedsOldActiveB(m: Store, titularId: int, today: Date, id: int, l: Licencia)
    requires !l.vigente || !IsBefore(l.fechaEmision, MinusYears(today, 1))
    ensures TitularTieneLicenciaB(m[id := l], titularId, today) ==> TitularTieneLicenciaB(m - {id}, titularId, today)
  {
    var m' := m[id := l];
    if TitularTieneLicenciaB(m', titularId, today) {
      var bs' := FindByTitularAndClase(m', titularId, B);
      var k :| k in bs' && bs'[k].vigente && IsBefore(bs'[k].fechaEmision, MinusYears(today, 1));
      assert k != id;
      assert k in FindByTitularAndClase(m - {id}, titularId, B);
    }
  }

  /**
   * calcularVigencia: under 21, 3 years if the holder has ever had a class A
   * or B licence (active or not) and 1 otherwise; 5 up to 46, 4 up to 60,
   * 3 up to 70 and 1 beyond.
   */
  function CalcularVigencia(edad: int, m: Store, titularId: int): (v: int)
    ensures v in {1, 3, 4, 5}
  {
    if edad < 21 then
      var yaTiene := ExistsByTitularAndClase(m, titularId, A) || ExistsByTitularAndClase(m, titularId, B);
      if yaTiene then 3 else 1
    else if edad <= 46 then 5
    else if edad <= 60 then 4
    else if edad <= 70 then 3
    else 1
  }

  /** The steps of the validity function fall exactly at 21, 47, 61 and 71. */
  lemma VigenciaBoundaries(m: Store, titularId: int)
    ensures CalcularVigencia(20, m, titularId) in {1, 3}
    ensures CalcularVigencia(21, m, titularId) == 5 && CalcularVigencia(46, m, titularId) == 5
    ensures CalcularVigencia(47, m, titularId) == 4 && CalcularVigencia(60, m, titularId) == 4
    ensures CalcularVigencia(61, m, titularId) == 3 && CalcularVigencia(70, m, titularId) == 3
    ensures CalcularVigencia(71, m, titularId) == 1
  {
  }

  /** Under 21, the validity is 3 exactly when the holder has or had an A or B licence. */
  lemma VigenciaUnder21(edad: int, m: Store, titularId: int)
    requires edad < 21
    ensures CalcularVigencia(edad, m, titularId) == 3 <==>
      FindByTitularAndClase(m, titularId, A) != map[] || FindByTitularAndClase(m, titularId, B) != map[]
    ensures CalcularVigencia(edad, m, titularId) != 3 ==> CalcularVigencia(edad, m, titularId) == 1
  {
    ExistsByTitularAndClaseIsFindNonEmpty(m, titularId, A);
    ExistsByTitularAndClaseIsFindNonEmpty(m, titularId, B);
    assert FindByTitularAndClase(m, titularId, A) != map[] <==> FindByTitularAndClase(m, titularId, A).Keys != {};
    assert FindByTitularAndClase(m, titularId, B) != map[] <==> FindByTitularAndClase(m, titularId, B).Keys != {};
  }

  /** From 21 on the validity depends on the age alone, and never grows with it. */
  lemma VigenciaFrom21(edad: int, mayor: int, m1: Store, m2: Store, titularId: int)
    requires 21 <= edad <= mayor
    ensures CalcularVigencia(edad, m1, titularId) == CalcularVigencia(edad, m2, titularId)
    ensures CalcularVigencia(mayor, m1, titularId) <= CalcularVigencia(edad, m1, titularId)
  {
  }

  /** The expiry sweep never changes a validity: the under-21 test ignores vigente. */
  lemma VigenciaIgnoresSweep(edad: int, m: Store, titularId: int, fecha: Date)
    ensures CalcularVigencia(edad, DeactivateExpiredRows(m, fecha), titularId) == CalcularVigencia(edad, m, titularId)
  {
    ExistsByTitularAndClaseIgnoresSweep(m, fecha, titularId, A);
    ExistsByTitularAndClaseIgnoresSweep(m, fecha, titularId, B);
  }

  /**
   * calcularFechaVencimiento: the issue date moved to the birth month, then
   * to the birth day, then forward by the validity. Moving to 29 February
   * in a common issue year raises DateTimeException.
   */
  function CalcularFechaVencimiento(fechaEmision: Date, fechaNacimiento: Date, vigenciaAnios: int): (r: Result<Date>)
    ensures r.Failure? <==> IsLeapDay(fechaNacimiento) && !IsLeapYear(fechaEmision.year)
    ensures r.Failure? ==> r.error == DateTimeError
    ensures r.Success? ==> r.value.year == fechaEmision.year + vigenciaAnios && r.value.month == fechaNacimiento.month
    ensures r.Success? && (!IsLeapDay(fechaNacimiento) || IsLeapYear(r.value.year)) ==> r.value.day == fechaNacimiento.day
    ensures r.Success? && IsLeapDay(fechaNacimiento) && !IsLeapYear(r.value.year) ==> r.value.day == 28
  {
    var enMes := WithMonth(fechaEmision, fechaNacimiento.month);
    match WithDayOfMonth(enMes, fechaNacimiento.day)
    case Failure(e) => Failure(e)
    case Success(enDia) => Success(PlusYears(enDia, vigenciaAnios))
  }

  /** A birthday other than 29 February: the expiry is that birthday in the year issue year + validity. */
  lemma FechaVencimientoOnBirthday(fechaEmision: Date, fechaNacimiento: Date, vigenciaAnios: int)
    requires !IsLeapDay(fechaNacimiento)
    ensures CalcularFechaVencimiento(fechaEmision, fechaNacimiento, vigenciaAnios)
      == Success(YearMonthDay(fechaEmision.year + vigenciaAnios, fechaNacimiento.month, fechaNacimiento.day))
  {
  }

  /** With a validity of a year or more the expiry is strictly after the issue date, even when this year's birthday has passed. */
  lemma FechaVencimientoIsLater(fechaEmision: Date, fechaNacimiento: Date, vigenciaAnios: int)
    requires vigenciaAnios >= 1
    requires CalcularFechaVencimiento(fechaEmision, fechaNacimiento, vigenciaAnios).Success?
    ensures IsBefore(fechaEmision, CalcularFechaVencimiento(fechaEmision, fechaNacimiento, vigenciaAnios).value)
  {
  }
  /**
   * The as-written expiry cannot be computed for a holder born on
   * 29 February when the issue year is a common year.
   */
  lemma FechaVencimientoLeapDayBirthFails()
    ensures CalcularFechaVencimiento(YearMonthDay(2025, 6, 1), YearMonthDay(2000, 2, 29), 5) == Failure(DateTimeError)
  {
  }

  /**
   * The expiry as evidently intended: the birthday in the year issue year +
   * validity, on 28 February when the birthday is 29 February and that year
   * is a common year.
   */
  function CalcularFechaVencimientoCorregida(fechaEmision: Date, fechaNacimiento: Date, vigenciaAnios: int): (r: Date)
    ensures r.year == fechaEmision.year + vigenciaAnios && r.month == fechaNacimiento.month
    ensures !IsLeapDay(fechaNacimiento) || IsLeapYear(r.year) ==> r.day == fechaNacimiento.day
    ensures IsLeapDay(fechaNacimiento) && !IsLeapYear(r.year) ==> r.day == 28
  {
    var y := fechaEmision.year + vigenciaAnios;
    var n := LengthOfMonth(y, fechaNacimiento.month);
    assert fechaNacimiento.month != 2 ==> n == LengthOfMonth(fechaNacimiento.year, fechaNacimiento.month);
    YearMonthDay(y, fechaNacimiento.month, if fechaNacimiento.day <= n then fechaNacimiento.day else n)
  }

  /** Wherever the as-written expiry is defined, the corrected one is the same date. */
  lemma FechaVencimientoCorregidaAgrees(fechaEmision: Date, fechaNacimiento: Date, vigenciaAnios: int)
    requires CalcularFechaVencimiento(fechaEmision, fechaNacimiento, vigenciaAnios).Success?
    ensures CalcularFechaVencimiento(fechaEmision, fechaNacimiento, vigenciaAnios).value
      == CalcularFechaVencimientoCorregida(fechaEmision, fechaNacimiento, vigenciaAnios)
  {
  }

  /** The corrected expiry of a leap-day birthday issued in a common year. */
  lemma FechaVencimientoCorregidaLeapDayBirth()
    ensures CalcularFechaVencimientoCorregida(YearMonthDay(2025, 6, 1), YearMonthDay(2000, 2, 29), 5) == YearMonthDay(2030, 2, 28)
  {
  }

  /** With a validity of a year or more the corrected expiry is strictly after the issue date. */
  lemma FechaVencimientoCorregidaIsLater(fechaEmision: Date, fechaNacimiento: Date, vigenciaAnios: int)
    requires vigenciaAnios >= 1
    ensures IsBefore(fechaEmision, CalcularFechaVencimientoCorregida(fechaEmision, fechaNacimiento, vigenciaAnios))
  {
  }
}
