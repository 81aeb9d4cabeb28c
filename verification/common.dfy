/** Option/Result wrappers and the error kinds the licence engine raises. */
module Common {

  datatype Option<+T> = None | Some(value: T) {
    function GetOr(default: T): T {
      match this
      case Some(v) => v
      case None => default
    }
  }

  /** Which entity a NotFound (ResourceNotFoundException) refers to. */
  datatype Recurso =
    | TitularRecurso
    | LicenciaRecurso
    | LicenciaOriginalRecurso
    | UsuarioRecurso
    | EmisorRecurso
    | TarifaRecurso

  /** Which eligibility rule an InvalidLicenseException reports. */
  datatype Regla =
    | EdadMinimaProfesional
    | RequiereLicenciaB
    | EdadMaximaProfesional
    | EdadMinimaGeneral

  /** Which check an IllegalArgumentException comes from. */
  datatype Causa =
    | ValorDeEnumDesconocido       // Enum.valueOf with an unknown name
    | NoVencida                    // renewal by VENCIDA of a licence not yet expired
    | RenovarInactiva              // renewal by CAMBIO_DATOS of an inactive licence
    | RenovarVencida               // renewal by CAMBIO_DATOS of an expired licence
    | SinCambios                   // renewal by CAMBIO_DATOS without any new field
    | CopiaNoPermitida             // copy of an expired or inactive licence

  /** The exception kinds of the engine, one constructor per kind. */
  datatype Error =
    | NotFound(recurso: Recurso)
    | AlreadyExists
    | InvalidLicense(regla: Regla)
    | IllegalArgument(causa: Causa)
    | IllegalState                 // LicenciaService.validarLicenciaVencida
    | NullPointer                  // a null String dereferenced
    | DateTimeError                // java.time rejecting a day that does not exist
    | IncorrectResultSize          // a single-result query that matched several rows

  datatype Result<+T> = Success(value: T) | Failure(error: Error)

  /** A check that either passes or raises. */
  datatype Outcome = Pass | Fail(error: Error)
}
