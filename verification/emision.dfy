/**
 * The licence service (LicenciaService): issuing a licence, renewing one,
 * issuing a copy, and the read-only reports. Each state-changing operation
 * is specified by a plan function over the stores it reads (the licence
 * that will be saved, or the error that aborts the transaction); the
 * methods carry the operation out step by step on the repositories and are
 * proved to follow their plan. The date of today and the holder's age are
 * inputs.
 */
module ServicioLicencias {
  import opened Common
  import opened Dates
  import opened EnumClaseLicencia
  import opened EnumTipoDocumento
  import opened Entities
  import opened Licencias
  import opened Tarifario
  import opened Costos
  import opened Reglas
  import opened Titulares
  import opened Usuarios

  /** The fields emitirLicencia receives; numeroCopia and motivoCopia are accepted and ignored. */
  datatype LicenciaRecord = LicenciaRecord(
    titularId: int,
    clase: ClaseLicencia,
    numeroCopia: Option<int>,
    motivoCopia: Option<string>,
    emisor: string)

  /** Why a licence is renewed. */
  datatype MotivoRenovacion = VENCIDA | CAMBIO_DATOS

  /** The fields renovarLicencia receives; every Option is a nullable field. */
  datatype RenovarLicenciaRequest = RenovarLicenciaRequest(
    licenciaId: int,
    motivoRenovacion: MotivoRenovacion,
    nuevoNombre: Option<string>,
    nuevoApellido: Option<string>,
    nuevaDireccion: Option<string>,
    numeroCopia: Option<int>,
    motivoCopia: Option<string>,
    licenciaOriginalId: Option<int>)

  /** The fields emitirCopia receives. */
  datatype EmitirCopiaRequest = EmitirCopiaRequest(licenciaOriginalId: int, motivo: string, emisor: string)

  /** What a renewal writes: the holder (with its new data, if any) and the new licence. */
  datatype Renovacion = Renovacion(titular: Titular, nueva: Licencia)

  /** The holder found by document, with every licence of that holder. */
  datatype TitularConLicencias = TitularConLicencias(titular: Titular, licencias: Store)

  /** The fixed price of a copy. */
  const COSTO_COPIA: real := 50.0

  // ---------------------------------------------------------------- issue

  /** The checks of an issue before the tariff: the holder exists, no active unexpired licence of the class, the class rules pass. */
  predicate EmisionElegible(req: LicenciaRecord, today: Date, edad: int, titulares: Holders, licencias: Store) {
    req.titularId in titulares
    && !ExistsByTitularIdAndClaseAndVigenteTrueAndFechaVencimientoAfter(licencias, req.titularId, req.clase, today)
    && ValidarClaseYRestricciones(edad, req.clase, licencias, req.titularId, today) == Pass
  }

  /**
   * emitirLicencia as a plan: the holder must exist; an active licence of the
   * class expiring after today blocks the issue; then the class rules; the
   * validity and expiry; the fee; and last the issuing operator by mail.
   */
  function PlanEmision(req: LicenciaRecord, today: Date, edad: int, titulares: Holders, licencias: Store,
                       usuarios: Accounts, h: CostoLicenciaHelper): (r: Result<Licencia>)
    ensures req.titularId !in titulares ==> r == Failure(NotFound(TitularRecurso))
    ensures req.titularId in titulares && ExistsByTitularIdAndClaseAndVigenteTrueAndFechaVencimientoAfter(licencias, req.titularId, req.clase, today)
      ==> r == Failure(AlreadyExists)
    ensures req.titularId in titulares
      && !ExistsByTitularIdAndClaseAndVigenteTrueAndFechaVencimientoAfter(licencias, req.titularId, req.clase, today)
      && ValidarClaseYRestricciones(edad, req.clase, licencias, req.titularId, today).Fail?
      ==> r == Failure(ValidarClaseYRestricciones(edad, req.clase, licencias, req.titularId, today).error)
    ensures EmisionElegible(req, today, edad, titulares, licencias)
      && h.ObtenerCosto(req.clase, CalcularVigencia(edad, licencias, req.titularId)).Failure?
      ==> r == Failure(h.ObtenerCosto(req.clase, CalcularVigencia(edad, licencias, req.titularId)).error)
    ensures EmisionElegible(req, today, edad, titulares, licencias)
      && h.ObtenerCosto(req.clase, CalcularVigencia(edad, licencias, req.titularId)).Success?
      ==> (|ConMail(usuarios, req.emisor)| == 0 ==> r == Failure(NotFound(EmisorRecurso)))
          && (|ConMail(usuarios, req.emisor)| > 1 ==> r == Failure(IncorrectResultSize))
    ensures r.Success? <==>
      EmisionElegible(req, today, edad, titulares, licencias)
      && h.ObtenerCosto(req.clase, CalcularVigencia(edad, licencias, req.titularId)).Success?
      && |ConMail(usuarios, req.emisor)| == 1
    ensures r.Success? ==>
      var l := r.value;
      l.titularId == req.titularId && l.clase == req.clase && l.vigente
      && l.fechaEmision == today && IsBefore(today, l.fechaVencimiento)
      && l.fechaVencimiento == CalcularFechaVencimientoCorregida(today, titulares[req.titularId].fechaNacimiento, l.vigenciaAnios)
      && l.vigenciaAnios == CalcularVigencia(edad, licencias, req.titularId) && l.vigenciaAnios in {1, 3, 4, 5}
      && h.ObtenerCosto(req.clase, l.vigenciaAnios) == Success(l.costo)
      && l.numeroCopia.None? && l.licenciaOriginalId.None? && l.motivoCopia.None?
      && l.emisorId in usuarios && usuarios[l.emisorId].mail == req.emisor
  {
    if req.titularId !in titulares then Failure(NotFound(TitularRecurso))
    else if ExistsByTitularIdAndClaseAndVigenteTrueAndFechaVencimientoAfter(licencias, req.titularId, req.clase, today) then
      Failure(AlreadyExists)
    else
      var titular := titulares[req.titularId];
      match ValidarClaseYRestricciones(edad, req.clase, licencias, req.titularId, today)
      case Fail(e) => Failure(e)
      case Pass =>
        var vigencia := CalcularVigencia(edad, licencias, req.titularId);
        var vencimiento := CalcularFechaVencimientoCorregida(today, titular.fechaNacimiento, vigencia);
        FechaVencimientoCorregidaIsLater(today, titular.fechaNacimiento, vigencia);
        match h.ObtenerCosto(req.clase, vigencia)
        case Failure(e) => Failure(e)
        case Success(costo) =>
          match FindByMail(usuarios, req.emisor)
          case Failure(e) => Failure(e)
          case Success(None) => Failure(NotFound(EmisorRecurso))
          case Success(Some(emisorId)) =>
            Success(Licencia(req.titularId, req.clase, vigencia, today, vencimiento, costo, None, None, None, true, emisorId))
  }

  /** The operator is looked up last: an unknown or ambiguous mail is reported only for a request every rule accepts. */
  lemma EmisionEmisorCheckedLast(req: LicenciaRecord, today: Date, edad: int, titulares: Holders, licencias: Store,
                                 usuarios: Accounts, h: CostoLicenciaHelper)
    requires PlanEmision(req, today, edad, titulares, licencias, usuarios, h) in
      {Failure(NotFound(EmisorRecurso)), Failure(IncorrectResultSize)}
    ensures req.titularId in titulares
    ensures !ExistsByTitularIdAndClaseAndVigenteTrueAndFechaVencimientoAfter(licencias, req.titularId, req.clase, today)
    ensures ValidarClaseYRestricciones(edad, req.clase, licencias, req.titularId, today) == Pass
    ensures h.ObtenerCosto(req.clase, CalcularVigencia(edad, licencias, req.titularId)).Success?
    ensures !ExistsByMail(usuarios, req.emisor) || FindByMail(usuarios, req.emisor).Failure?
  {
  }

  /** The tariff is looked up after the class rules: a missing tariff is reported only for an eligible, non-duplicate request. */
  lemma EmisionTarifaCheckedAfterRules(req: LicenciaRecord, today: Date, edad: int, titulares: Holders, licencias: Store,
                                       usuarios: Accounts, h: CostoLicenciaHelper)
    requires PlanEmision(req, today, edad, titulares, licencias, usuarios, h) == Failure(NotFound(TarifaRecurso))
    ensures req.titularId in titulares
    ensures !ExistsByTitularIdAndClaseAndVigenteTrueAndFechaVencimientoAfter(licencias, req.titularId, req.clase, today)
    ensures ValidarClaseYRestricciones(edad, req.clase, licencias, req.titularId, today) == Pass
    ensures h.ObtenerCosto(req.clase, CalcularVigencia(edad, licencias, req.titularId)).Failure?
  {
  }

  /** The copy fields of the request play no part in an issue. */
  lemma EmisionIgnoresCopyFields(req: LicenciaRecord, numeroCopia: Option<int>, motivoCopia: Option<string>, today: Date, edad: int,
                                 titulares: Holders, licencias: Store, usuarios: Accounts, h: CostoLicenciaHelper)
    ensures PlanEmision(req.(numeroCopia := numeroCopia, motivoCopia := motivoCopia), today, edad, titulares, licencias, usuarios, h)
      == PlanEmision(req, today, edad, titulares, licencias, usuarios, h)
  {
  }

  /** Once a licence is issued, the same request on the same day is refused as a duplicate. */
  lemma EmisionTwiceIsRefused(req: LicenciaRecord, today: Date, edad: int, titulares: Holders, licencias: Store,
                              usuarios: Accounts, h: CostoLicenciaHelper, id: int)
    requires PlanEmision(req, today, edad, titulares, licencias, usuarios, h).Success?
    requires id !in licencias
    ensures PlanEmision(req, today, edad, titulares,
                        licencias[id := PlanEmision(req, today, edad, titulares, licencias, usuarios, h).value],
                        usuarios, h) == Failure(AlreadyExists)
  {
    var l := PlanEmision(req, today, edad, titulares, licencias, usuarios, h).value;
    var m := licencias[id := l];
    assert m[id].titularId == req.titularId && m[id].clase == req.clase && m[id].vigente && IsAfter(m[id].fechaVencimiento, today);
  }

  /** With the seeded tariffs, a D or F request that passes the class rules fails for want of a tariff. */
  lemma EmisionSeededDOrF(req: LicenciaRecord, today: Date, edad: int, titulares: Holders, licencias: Store,
                          usuarios: Accounts, h: CostoLicenciaHelper)
    requires h.tarifas == Agrupar(SeedRows()) && h.gastosAdmin == GastosAdminPorDefecto
    requires req.clase in {D, F}
    requires req.titularId in titulares
    requires !ExistsByTitularIdAndClaseAndVigenteTrueAndFechaVencimientoAfter(licencias, req.titularId, req.clase, today)
    requires ValidarClaseYRestricciones(edad, req.clase, licencias, req.titularId, today) == Pass
    ensures PlanEmision(req, today, edad, titulares, licencias, usuarios, h) == Failure(NotFound(TarifaRecurso))
  {
    ObtenerCostoSeeded(h, req.clase, CalcularVigencia(edad, licencias, req.titularId));
  }

  /** With the seeded tariffs, an A, B, C, E or G issue never lacks a tariff, and costs the seeded fee plus 8. */
  lemma EmisionSeededAlwaysPriced(req: LicenciaRecord, today: Date, edad: int, titulares: Holders, licencias: Store,
                                  usuarios: Accounts, h: CostoLicenciaHelper)
    requires h.tarifas == Agrupar(SeedRows()) && h.gastosAdmin == GastosAdminPorDefecto
    requires req.clase in {A, B, C, E, G}
    ensures PlanEmision(req, today, edad, titulares, licencias, usuarios, h) != Failure(NotFound(TarifaRecurso))
    ensures PlanEmision(req, today, edad, titulares, licencias, usuarios, h).Success? ==>
      var l := PlanEmision(req, today, edad, titulares, licencias, usuarios, h).value;
      l.costo == SeedPrice(req.clase, l.vigenciaAnios).value + 8.0
  {
    ObtenerCostoSeeded(h, req.clase, CalcularVigencia(edad, licencias, req.titularId));
  }

  /**
   * A first class B licence for a holder born on 1 January 2000, aged 25,
   * issued on 1 June 2025 with the seeded tariffs: five years, expiring on
   * 1 January 2030, at 40 + 8.
   */
  lemma EmisionEjemplo(titular: Titular, operador: Usuario, h: CostoLicenciaHelper)
    requires titular.fechaNacimiento == YearMonthDay(2000, 1, 1)
    requires h.tarifas == Agrupar(SeedRows()) && h.gastosAdmin == GastosAdminPorDefecto
    ensures PlanEmision(LicenciaRecord(1, B, None, None, operador.mail), YearMonthDay(2025, 6, 1), 25,
                        map[1 := titular], map[], map[7 := operador], h)
      == Success(Licencia(1, B, 5, YearMonthDay(2025, 6, 1), YearMonthDay(2030, 1, 1), 48.0, None, None, None, true, 7))
  {
    ObtenerCostoSeeded(h, B, 5);
    var usuarios := map[7 := operador];
    assert ConMail(usuarios, operador.mail) == {7};
  }

  // -------------------------------------------------------------- renewal

  /**
   * validarMotivoRenovacion: VENCIDA needs an expiry strictly before today
   * (the expiry day itself is refused); CAMBIO_DATOS needs an active licence
   * that is not past its expiry.
   */
  function ValidarMotivoRenovacion(l: Licencia, motivo: MotivoRenovacion, today: Date): (r: Outcome)
    ensures r == Pass <==> match motivo
      case VENCIDA => IsBefore(l.fechaVencimiento, today)
      case CAMBIO_DATOS => l.vigente && !IsBefore(l.fechaVencimiento, today)
    ensures r.Fail? ==> r.error.IllegalArgument?
  {
    match motivo
    case VENCIDA =>
      IsBeforeTotal(l.fechaVencimiento, today);
      if IsAfter(l.fechaVencimiento, today) || l.fechaVencimiento == today then Fail(IllegalArgument(NoVencida)) else Pass
    case CAMBIO_DATOS =>
      if !l.vigente then Fail(IllegalArgument(RenovarInactiva))
      else if IsBefore(l.fechaVencimiento, today) then Fail(IllegalArgument(RenovarVencida))
      else Pass
  }

  /** At least one of the holder's fields is to change. */
  predicate TieneAlgunCambio(req: RenovarLicenciaRequest) {
    req.nuevoNombre.Some? || req.nuevoApellido.Some? || req.nuevaDireccion.Some?
  }

  /** validarCamposCambioDatos: a change-of-data renewal that changes nothing is refused. */
  function ValidarCamposCambioDatos(req: RenovarLicenciaRequest): (r: Outcome)
    ensures r == Pass <==> req.motivoRenovacion != CAMBIO_DATOS || TieneAlgunCambio(req)
    ensures r.Fail? ==> r.error == IllegalArgument(SinCambios)
  {
    if req.motivoRenovacion == CAMBIO_DATOS && !(req.nuevoNombre.Some? || req.nuevoApellido.Some? || req.nuevaDireccion.Some?) then
      Fail(IllegalArgument(SinCambios))
    else Pass
  }

  /** validarLicenciaVencida: an expiry after today is an illegal state. */
  function ValidarLicenciaVencida(l: Licencia, today: Date): (r: Outcome)
    ensures r == Pass <==> !IsBefore(today, l.fechaVencimiento)
    ensures r.Fail? ==> r.error == IllegalState
  {
    if IsAfter(l.fechaVencimiento, today) then Fail(IllegalState) else Pass
  }

  /** The illegal-state check can never fire: the motive check has already refused every licence it would refuse. */
  lemma ValidarLicenciaVencidaIsDead(l: Licencia, today: Date)
    requires ValidarMotivoRenovacion(l, VENCIDA, today) == Pass
    ensures ValidarLicenciaVencida(l, today) == Pass
  {
    IsBeforeTotal(l.fechaVencimiento, today);
  }

  /** actualizarDatosTitular: each supplied field replaces the holder's; the others, and every other field, are kept. */
  function ActualizarDatosTitular(t: Titular, req: RenovarLicenciaRequest): (r: Titular)
    ensures r.nombre == (if req.nuevoNombre.Some? then req.nuevoNombre.value else t.nombre)
    ensures r.apellido == (if req.nuevoApellido.Some? then req.nuevoApellido.value else t.apellido)
    ensures r.direccion == (if req.nuevaDireccion.Some? then req.nuevaDireccion.value else t.direccion)
    ensures r.(nombre := t.nombre, apellido := t.apellido, direccion := t.direccion) == t
  {
    var t1 := if req.nuevoNombre.Some? then t.(nombre := req.nuevoNombre.value) else t;
    var t2 := if req.nuevoApellido.Some? then t1.(apellido := req.nuevoApellido.value) else t1;
    if req.nuevaDireccion.Some? then t2.(direccion := req.nuevaDireccion.value) else t2
  }

  /**
   * renovarLicencia as a plan: the licence must exist; the motive checks;
   * the holder's new data (change of data only); then a new licence of the
   * same holder, class and operator, with a validity, expiry and fee
   * computed afresh and the copy fields of the request. Neither the class
   * rules nor the duplicate guard of an issue are applied.
   */
  function PlanRenovacion(req: RenovarLicenciaRequest, today: Date, edad: int, titulares: Holders, licencias: Store,
                          h: CostoLicenciaHelper): (r: Result<Renovacion>)
    requires LicenciasDeTitulares(titulares, licencias)
    ensures req.licenciaId !in licencias ==> r == Failure(NotFound(LicenciaRecurso))
    ensures r.Failure? ==> !r.error.IllegalState? && !r.error.InvalidLicense? && !r.error.AlreadyExists?
    ensures req.licenciaId in licencias && ValidarMotivoRenovacion(licencias[req.licenciaId], req.motivoRenovacion, today).Fail?
      ==> r == Failure(ValidarMotivoRenovacion(licencias[req.licenciaId], req.motivoRenovacion, today).error)
    ensures req.licenciaId in licencias && ValidarMotivoRenovacion(licencias[req.licenciaId], req.motivoRenovacion, today) == Pass
      && ValidarCamposCambioDatos(req).Fail?
      ==> r == Failure(ValidarCamposCambioDatos(req).error)
    ensures req.licenciaId in licencias && ValidarMotivoRenovacion(licencias[req.licenciaId], req.motivoRenovacion, today) == Pass
      && ValidarCamposCambioDatos(req) == Pass
      ==> var costo := h.ObtenerCosto(licencias[req.licenciaId].clase, CalcularVigencia(edad, licencias, licencias[req.licenciaId].titularId));
          (costo.Failure? ==> r == Failure(costo.error))
          && (costo.Success? && req.licenciaOriginalId.Some? && req.licenciaOriginalId.value !in licencias
              ==> r == Failure(NotFound(LicenciaOriginalRecurso)))
    ensures r.Success? <==>
      req.licenciaId in licencias
      && ValidarMotivoRenovacion(licencias[req.licenciaId], req.motivoRenovacion, today) == Pass
      && ValidarCamposCambioDatos(req) == Pass
      && h.ObtenerCosto(licencias[req.licenciaId].clase, CalcularVigencia(edad, licencias, licencias[req.licenciaId].titularId)).Success?
      && (req.licenciaOriginalId.None? || req.licenciaOriginalId.value in licencias)
    ensures r.Success? ==>
      var anterior := licencias[req.licenciaId];
      var l := r.value.nueva;
      l.titularId == anterior.titularId && l.clase == anterior.clase && l.emisorId == anterior.emisorId
      && l.vigente && l.fechaEmision == today && IsBefore(today, l.fechaVencimiento)
      && l.fechaVencimiento == CalcularFechaVencimientoCorregida(today, titulares[anterior.titularId].fechaNacimiento, l.vigenciaAnios)
      && l.vigenciaAnios == CalcularVigencia(edad, licencias, anterior.titularId) && l.vigenciaAnios in {1, 3, 4, 5}
      && h.ObtenerCosto(anterior.clase, l.vigenciaAnios) == Success(l.costo)
      && l.numeroCopia == req.numeroCopia && l.motivoCopia == req.motivoCopia
      && l.licenciaOriginalId == req.licenciaOriginalId
      && (req.licenciaOriginalId.Some? ==> req.licenciaOriginalId.value in licencias)
      && r.value.titular == (if req.motivoRenovacion == CAMBIO_DATOS then ActualizarDatosTitular(titulares[anterior.titularId], req)
                             else titulares[anterior.titularId])
      && r.value.titular.fechaNacimiento == titulares[anterior.titularId].fechaNacimiento
      && r.value.titular.numeroDocumento == titulares[anterior.titularId].numeroDocumento
  {
    if req.licenciaId !in licencias then Failure(NotFound(LicenciaRecurso))
    else
      var anterior := licencias[req.licenciaId];
      match ValidarMotivoRenovacion(anterior, req.motivoRenovacion, today)
      case Fail(e) => Failure(e)
      case Pass =>
        match ValidarCamposCambioDatos(req)
        case Fail(e) => Failure(e)
        case Pass =>
          if req.motivoRenovacion == VENCIDA && ValidarLicenciaVencida(anterior, today).Fail? then Failure(IllegalState)
          else
            var titular := if req.motivoRenovacion == CAMBIO_DATOS then ActualizarDatosTitular(titulares[anterior.titularId], req)
                           else titulares[anterior.titularId];
            var vigencia := CalcularVigencia(edad, licencias, anterior.titularId);
            var vencimiento := CalcularFechaVencimientoCorregida(today, titular.fechaNacimiento, vigencia);
            FechaVencimientoCorregidaIsLater(today, titular.fechaNacimiento, vigencia);
            match h.ObtenerCosto(anterior.clase, vigencia)
            case Failure(e) => Failure(e)
            case Success(costo) =>
              if req.licenciaOriginalId.Some? && req.licenciaOriginalId.value !in licencias then
                Failure(NotFound(LicenciaOriginalRecurso))
              else
                Success(Renovacion(titular,
                  Licencia(anterior.titularId, anterior.clase, vigencia, today, vencimiento, costo,
                           req.numeroCopia, req.licenciaOriginalId, req.motivoCopia, true, anterior.emisorId)))
  }

  /** A licence on its expiry day cannot be renewed as expired, but can still be renewed for a change of data. */
  lemma RenovacionOnExpiryDay(req: RenovarLicenciaRequest, today: Date, edad: int, titulares: Holders, licencias: Store,
                              h: CostoLicenciaHelper)
    requires LicenciasDeTitulares(titulares, licencias)
    requires req.licenciaId in licencias && licencias[req.licenciaId].fechaVencimiento == today
    ensures req.motivoRenovacion == VENCIDA ==>
      PlanRenovacion(req, today, edad, titulares, licencias, h) == Failure(IllegalArgument(NoVencida))
    ensures req.motivoRenovacion == CAMBIO_DATOS && licencias[req.licenciaId].vigente ==>
      ValidarMotivoRenovacion(licencias[req.licenciaId], CAMBIO_DATOS, today) == Pass
  {
  }

  /**
   * An expired licence of a seeded class is always renewed with the seeded
   * tariffs, whatever the holder's age and history: renewal applies no class
   * rule (a 70-year-old keeps a professional class) and no duplicate guard.
   */
  lemma RenovacionVencidaSeeded(req: RenovarLicenciaRequest, today: Date, edad: int, titulares: Holders, licencias: Store,
                                h: CostoLicenciaHelper)
    requires LicenciasDeTitulares(titulares, licencias)
    requires h.tarifas == Agrupar(SeedRows()) && h.gastosAdmin == GastosAdminPorDefecto
    requires req.licenciaId in licencias && licencias[req.licenciaId].clase in {A, B, C, E, G}
    requires req.motivoRenovacion == VENCIDA && IsBefore(licencias[req.licenciaId].fechaVencimiento, today)
    requires req.licenciaOriginalId.None?
    ensures PlanRenovacion(req, today, edad, titulares, licencias, h).Success?
  {
    var anterior := licencias[req.licenciaId];
    ValidarLicenciaVencidaIsDead(anterior, today);
    ObtenerCostoSeeded(h, anterior.clase, CalcularVigencia(edad, licencias, anterior.titularId));
  }

  // ----------------------------------------------------------------- copy

  /**
   * emitirCopia as a plan: the original must exist, be active and not be
   * past its expiry; the operator is looked up by mail; the copy repeats the
   * original's holder, class, validity and expiry, costs 50, and is numbered
   * one more than the original (a first copy is number 1).
   */
  function PlanCopia(req: EmitirCopiaRequest, today: Date, licencias: Store, usuarios: Accounts): (r: Result<Licencia>)
    ensures req.licenciaOriginalId !in licencias ==> r == Failure(NotFound(LicenciaOriginalRecurso))
    ensures req.licenciaOriginalId in licencias ==>
      var o := licencias[req.licenciaOriginalId];
      (!o.vigente || IsBefore(o.fechaVencimiento, today) ==> r == Failure(IllegalArgument(CopiaNoPermitida)))
      && (o.vigente && !IsBefore(o.fechaVencimiento, today) && |ConMail(usuarios, req.emisor)| == 0
          ==> r == Failure(NotFound(EmisorRecurso)))
      && (o.vigente && !IsBefore(o.fechaVencimiento, today) && |ConMail(usuarios, req.emisor)| > 1
          ==> r == Failure(IncorrectResultSize))
    ensures r.Success? <==>
      req.licenciaOriginalId in licencias && licencias[req.licenciaOriginalId].vigente
      && !IsBefore(licencias[req.licenciaOriginalId].fechaVencimiento, today)
      && |ConMail(usuarios, req.emisor)| == 1
    ensures r.Success? ==>
      var o := licencias[req.licenciaOriginalId];
      var c := r.value;
      o.vigente && !IsBefore(o.fechaVencimiento, today)
      && c.titularId == o.titularId && c.clase == o.clase && c.vigenciaAnios == o.vigenciaAnios
      && c.fechaVencimiento == o.fechaVencimiento && c.fechaEmision == today && c.vigente
      && c.costo == COSTO_COPIA
      && c.numeroCopia == Some(o.numeroCopia.GetOr(0) + 1)
      && c.licenciaOriginalId == Some(req.licenciaOriginalId) && c.motivoCopia == Some(req.motivo)
      && c.emisorId in usuarios && usuarios[c.emisorId].mail == req.emisor
  {
    if req.licenciaOriginalId !in licencias then Failure(NotFound(LicenciaOriginalRecurso))
    else
      var original := licencias[req.licenciaOriginalId];
      if !original.vigente || IsBefore(original.fechaVencimiento, today) then Failure(IllegalArgument(CopiaNoPermitida))
      else
        match FindByMail(usuarios, req.emisor)
        case Failure(e) => Failure(e)
        case Success(None) => Failure(NotFound(EmisorRecurso))
        case Success(Some(emisorId)) =>
          var nuevoNroCopia := (if original.numeroCopia.Some? then original.numeroCopia.value else 0) + 1;
          Success(Licencia(original.titularId, original.clase, original.vigenciaAnios, today, original.fechaVencimiento,
                           COSTO_COPIA, Some(nuevoNroCopia), Some(req.licenciaOriginalId), Some(req.motivo), true, emisorId))
  }

  /** A copy is itself copyable the same day, and the copy of a copy is numbered one more again. */
  lemma CopiaDeCopia(req: EmitirCopiaRequest, today: Date, licencias: Store, usuarios: Accounts, id: int, motivo: string)
    requires PlanCopia(req, today, licencias, usuarios).Success?
    requires id !in licencias
    ensures
      var c := PlanCopia(req, today, licencias, usuarios).value;
      var m := licencias[id := c];
      var cc := PlanCopia(EmitirCopiaRequest(id, motivo, req.emisor), today, m, usuarios);
      cc.Success? && cc.value.numeroCopia == Some(c.numeroCopia.value + 1)
      && cc.value.fechaVencimiento == licencias[req.licenciaOriginalId].fechaVencimiento
  {
  }

  /**
   * A copy leaves the original active: the holder then has two active
   * licences of the class, and a new issue of that class stays refused
   * while the original has not expired.
   */
  lemma CopiaKeepsOriginalActive(req: EmitirCopiaRequest, today: Date, licencias: Store, usuarios: Accounts, id: int)
    requires PlanCopia(req, today, licencias, usuarios).Success?
    requires id !in licencias
    ensures
      var o := licencias[req.licenciaOriginalId];
      var m := licencias[id := PlanCopia(req, today, licencias, usuarios).value];
      id != req.licenciaOriginalId && m[req.licenciaOriginalId] == o
      && m[id].vigente && o.vigente && m[id].titularId == o.titularId && m[id].clase == o.clase
      && (IsAfter(o.fechaVencimiento, today) ==>
            ExistsByTitularIdAndClaseAndVigenteTrueAndFechaVencimientoAfter(m, o.titularId, o.clase, today))
  {
    var o := licencias[req.licenciaOriginalId];
    var m := licencias[id := PlanCopia(req, today, licencias, usuarios).value];
    assert m[req.licenciaOriginalId] == o;
  }

  // -------------------------------------------------------------- service

  class LicenciaService {
    const titularRepository: TitularRepository
    const licenciaRepository: LicenciaRepository
    const usuarioRepository: UsuarioRepository
    const costoHelper: CostoLicenciaHelper

    constructor (titularRepository: TitularRepository, licenciaRepository: LicenciaRepository,
                 usuarioRepository: UsuarioRepository, costoHelper: CostoLicenciaHelper)
      ensures this.titularRepository == titularRepository && this.licenciaRepository == licenciaRepository
      ensures this.usuarioRepository == usuarioRepository && this.costoHelper == costoHelper
    {
      this.titularRepository := titularRepository;
      this.licenciaRepository := licenciaRepository;
      this.usuarioRepository := usuarioRepository;
      this.costoHelper := costoHelper;
    }

    /** The repositories are consistent and every licence belongs to a registered holder (the foreign key). */
    ghost predicate Valid()
      reads this, titularRepository, licenciaRepository
    {
      titularRepository.Valid() && licenciaRepository.Valid()
      && LicenciasDeTitulares(titularRepository.titulares, licenciaRepository.licencias)
    }

    /** emitirLicencia: the planned licence is saved under a fresh id; on any error nothing is saved. */
    method EmitirLicencia(req: LicenciaRecord, today: Date, edad: int) returns (r: Result<int>)
      requires Valid()
      modifies licenciaRepository
      ensures Valid()
      ensures var plan := PlanEmision(req, today, edad, titularRepository.titulares, old(licenciaRepository.licencias),
                                      usuarioRepository.usuarios, costoHelper);
        (plan.Failure? ==> r == Failure(plan.error) && licenciaRepository.licencias == old(licenciaRepository.licencias))
        && (plan.Success? ==>
              r.Success? && r.value !in old(licenciaRepository.licencias)
              && licenciaRepository.licencias == old(licenciaRepository.licencias)[r.value := plan.value])
    {
      if req.titularId !in titularRepository.titulares {
        return Failure(NotFound(TitularRecurso));
      }
      var titular := titularRepository.titulares[req.titularId];
      if ExistsByTitularIdAndClaseAndVigenteTrueAndFechaVencimientoAfter(licenciaRepository.licencias, req.titularId, req.clase, today) {
        return Failure(AlreadyExists);
      }
      var validacion := ValidarClaseYRestricciones(edad, req.clase, licenciaRepository.licencias, req.titularId, today);
      if validacion.Fail? {
        return Failure(validacion.error);
      }
      var vigencia := CalcularVigencia(edad, licenciaRepository.licencias, req.titularId);
      var vencimiento := CalcularFechaVencimientoCorregida(today, titular.fechaNacimiento, vigencia);
      var costo := costoHelper.ObtenerCosto(req.clase, vigencia);
      if costo.Failure? {
        return Failure(costo.error);
      }
      var emisor := FindByMail(usuarioRepository.usuarios, req.emisor);
      if emisor.Failure? {
        return Failure(emisor.error);
      }
      if emisor.value.None? {
        return Failure(NotFound(EmisorRecurso));
      }
      var licencia := Licencia(req.titularId, req.clase, vigencia, today, vencimiento, costo.value,
                               None, None, None, true, emisor.value.value);
      var id := licenciaRepository.SaveNew(licencia);
      return Success(id);
    }

    /**
     * renovarLicencia: the old licence is deactivated and the new one saved
     * under a fresh id; a change of data also saves the holder. On any error
     * nothing is saved (the transaction rolls back the holder's new data too).
     */
    method RenovarLicencia(req: RenovarLicenciaRequest, today: Date, edad: int) returns (r: Result<int>)
      requires Valid()
      modifies titularRepository`titulares, licenciaRepository
      ensures Valid()
      ensures var plan := PlanRenovacion(req, today, edad, old(titularRepository.titulares), old(licenciaRepository.licencias), costoHelper);
        if plan.Failure? then
          r == Failure(plan.error)
          && titularRepository.titulares == old(titularRepository.titulares)
          && licenciaRepository.licencias == old(licenciaRepository.licencias)
        else
          var anterior := old(licenciaRepository.licencias)[req.licenciaId];
          r.Success? && r.value !in old(licenciaRepository.licencias)
          && titularRepository.titulares == old(titularRepository.titulares)[anterior.titularId := plan.value.titular]
          && licenciaRepository.licencias
             == old(licenciaRepository.licencias)[req.licenciaId := anterior.(vigente := false)][r.value := plan.value.nueva]
    {
      if req.licenciaId !in licenciaRepository.licencias {
        return Failure(NotFound(LicenciaRecurso));
      }
      var anterior := licenciaRepository.licencias[req.licenciaId];
      var motivo := ValidarMotivoRenovacion(anterior, req.motivoRenovacion, today);
      if motivo.Fail? {
        return Failure(motivo.error);
      }
      var campos := ValidarCamposCambioDatos(req);
      if campos.Fail? {
        return Failure(campos.error);
      }
      if req.motivoRenovacion == VENCIDA && ValidarLicenciaVencida(anterior, today).Fail? {
        return Failure(IllegalState);
      }
      var titular := titularRepository.titulares[anterior.titularId];
      if req.motivoRenovacion == CAMBIO_DATOS {
        titular := ActualizarDatosTitular(titular, req);
      }
      var vigencia := CalcularVigencia(edad, licenciaRepository.licencias, anterior.titularId);
      var vencimiento := CalcularFechaVencimientoCorregida(today, titular.fechaNacimiento, vigencia);
      var costo := costoHelper.ObtenerCosto(anterior.clase, vigencia);
      if costo.Failure? {
        return Failure(costo.error);
      }
      if req.licenciaOriginalId.Some? && req.licenciaOriginalId.value !in licenciaRepository.licencias {
        return Failure(NotFound(LicenciaOriginalRecurso));
      }
      var nueva := Licencia(anterior.titularId, anterior.clase, vigencia, today, vencimiento, costo.value,
                            req.numeroCopia, req.licenciaOriginalId, req.motivoCopia, true, anterior.emisorId);
      ghost var titulares0 := titularRepository.titulares;
      UpdateKeepsDocumentosUnicos(titulares0, anterior.titularId, titular);
      titularRepository.titulares := titularRepository.titulares[anterior.titularId := titular];
      licenciaRepository.SaveExisting(req.licenciaId, anterior.(vigente := false));
      var id := licenciaRepository.SaveNew(nueva);
      return Success(id);
    }

    /** emitirCopia: the planned copy is saved under a fresh id and the original is left as it was. */
    method EmitirCopia(req: EmitirCopiaRequest, today: Date) returns (r: Result<int>)
      requires Valid()
      modifies licenciaRepository
      ensures Valid()
      ensures var plan := PlanCopia(req, today, old(licenciaRepository.licencias), usuarioRepository.usuarios);
        (plan.Failure? ==> r == Failure(plan.error) && licenciaRepository.licencias == old(licenciaRepository.licencias))
        && (plan.Success? ==>
              r.Success? && r.value !in old(licenciaRepository.licencias)
              && licenciaRepository.licencias == old(licenciaRepository.licencias)[r.value := plan.value])
    {
      if req.licenciaOriginalId !in licenciaRepository.licencias {
        return Failure(NotFound(LicenciaOriginalRecurso));
      }
      var original := licenciaRepository.licencias[req.licenciaOriginalId];
      if !original.vigente || IsBefore(original.fechaVencimiento, today) {
        return Failure(IllegalArgument(CopiaNoPermitida));
      }
      var emisor := FindByMail(usuarioRepository.usuarios, req.emisor);
      if emisor.Failure? {
        return Failure(emisor.error);
      }
      if emisor.value.None? {
        return Failure(NotFound(EmisorRecurso));
      }
      var nuevoNroCopia := (if original.numeroCopia.Some? then original.numeroCopia.value else 0) + 1;
      var copia := Licencia(original.titularId, original.clase, original.vigenciaAnios, today, original.fechaVencimiento,
                            COSTO_COPIA, Some(nuevoNroCopia), Some(req.licenciaOriginalId), Some(req.motivo), true, emisor.value.value);
      var id := licenciaRepository.SaveNew(copia);
      return Success(id);
    }

    /** listarLicenciasVencidas: every licence whose expiry is before today, whether or not the sweep has deactivated it. */
    function ListarLicenciasVencidas(today: Date): (r: Store)
      reads this, licenciaRepository
      ensures forall id :: id in r <==> id in licenciaRepository.licencias && IsBefore(licenciaRepository.licencias[id].fechaVencimiento, today)
      ensures forall id :: id in r ==> r[id] == licenciaRepository.licencias[id]
    {
      FindByFechaVencimientoBefore(licenciaRepository.licencias, today)
    }

    /** contarLicenciasVencidas: the size of the list above, never more than the total. */
    function ContarLicenciasVencidas(today: Date): (n: nat)
      reads this, licenciaRepository
      ensures n == |ListarLicenciasVencidas(today)|
      ensures n <= ContarTotalLicenciasEmitidas()
    {
      CountByFechaVencimientoBefore(licenciaRepository.licencias, today)
    }

    /** contarTotalLicenciasEmitidas: every licence ever saved, copies and renewed ones included. */
    function ContarTotalLicenciasEmitidas(): (n: nat)
      reads this, licenciaRepository
      ensures n == |licenciaRepository.licencias.Keys|
    {
      Count(licenciaRepository.licencias)
    }

    /**
     * buscarPorTipoYNumeroDocumento: the licences whose holder has that
     * document, with that holder; NotFound when there is none (a registered
     * holder without licences is not found either).
     */
    function BuscarPorTipoYNumeroDocumento(tipo: TipoDocumento, numero: string): (r: Result<TitularConLicencias>)
      reads this, titularRepository, licenciaRepository
      requires Valid()
      ensures r.Failure? <==> forall lid :: lid in licenciaRepository.licencias ==>
        !TieneDocumento(titularRepository.titulares[licenciaRepository.licencias[lid].titularId], tipo, numero)
      ensures r.Failure? ==> r.error == NotFound(TitularRecurso)
      ensures r.Success? ==>
        TieneDocumento(r.value.titular, tipo, numero) && r.value.licencias != map[]
        && (forall lid :: lid in r.value.licencias <==>
              lid in licenciaRepository.licencias
              && titularRepository.titulares[licenciaRepository.licencias[lid].titularId] == r.value.titular)
        && (forall lid :: lid in r.value.licencias ==> r.value.licencias[lid] == licenciaRepository.licencias[lid])
    {
      var titulares := titularRepository.titulares;
      var licencias := licenciaRepository.licencias;
      var encontradas := FindByTitularTipoDocumentoAndTitularNumeroDocumento(licencias, titulares, tipo, numero);
      if encontradas == map[] then
        assert forall lid :: lid !in encontradas;
        Failure(NotFound(TitularRecurso))
      else
        HolderOfFound(titulares, licencias, tipo, numero);
        var tid := FindByTipoDocumentoAndNumeroDocumento(titulares, tipo, numero).value;
        Success(TitularConLicencias(titulares[tid], encontradas))
    }
  }

  /** The licences found by document all belong to the one holder with that document. */
  lemma HolderOfFound(titulares: Holders, licencias: Store, tipo: TipoDocumento, numero: string)
    requires DocumentosUnicos(titulares) && LicenciasDeTitulares(titulares, licencias)
    requires FindByTitularTipoDocumentoAndTitularNumeroDocumento(licencias, titulares, tipo, numero) != map[]
    ensures FindByTipoDocumentoAndNumeroDocumento(titulares, tipo, numero).Some?
    ensures exists lid :: lid in licencias && TieneDocumento(titulares[licencias[lid].titularId], tipo, numero)
    ensures forall lid :: lid in licencias ==>
      (TieneDocumento(titulares[licencias[lid].titularId], tipo, numero) <==>
       licencias[lid].titularId == FindByTipoDocumentoAndNumeroDocumento(titulares, tipo, numero).value)
  {
    var encontradas := FindByTitularTipoDocumentoAndTitularNumeroDocumento(licencias, titulares, tipo, numero);
    EmptyOrHasElement(encontradas.Keys);
    assert encontradas.Keys != {};
    var lid :| lid in encontradas.Keys;
    assert TieneDocumento(titulares[licencias[lid].titularId], tipo, numero);
  }
}
