/** The persistent records of the licence registry. */
module Entities {
  import opened Common
  import opened Dates
  import opened EnumClaseLicencia
  import opened EnumTipoDocumento
  import opened EnumGrupoSanguineo
  import opened EnumFactorRh
  import opened EnumRol

  /** A licence holder (Titular with the fields it inherits from Persona); its id is its key in the store. */
  datatype Titular = Titular(
    nombre: string,
    apellido: string,
    fechaNacimiento: Date,
    tipoDocumento: TipoDocumento,
    numeroDocumento: string,
    grupoSanguineo: GrupoSanguineo,
    factorRh: FactorRh,
    direccion: string,
    donanteOrganos: bool)

  /**
   * One issued licence. The holder, the issuing operator and the original
   * licence of a copy or renewal are referred to by their ids.
   */
  datatype Licencia = Licencia(
    titularId: int,
    clase: ClaseLicencia,
    vigenciaAnios: int,
    fechaEmision: Date,
    fechaVencimiento: Date,
    costo: real,
    numeroCopia: Option<int>,
    licenciaOriginalId: Option<int>,
    motivoCopia: Option<string>,
    vigente: bool,
    emisorId: int)

  /** An operator account. */
  datatype Usuario = Usuario(
    nombre: string,
    apellido: string,
    mail: string,
    password: string,
    roles: set<Rol>,
    activo: bool)

  /** One row of the tariff table: the base fee of a class for a validity in years. */
  datatype TarifarioLicencia = TarifarioLicencia(
    claseLicencia: ClaseLicencia,
    vigenciaAnios: int,
    costo: real)
}
