/**
 * The holder registry (TitularRepository and TitularService): holders keyed
 * by id, unique by document number, and the normalisation of the search
 * filters for holders with active licences.
 */
module Titulares {
  import opened Common
  import opened Text
  import opened EnumTipoDocumento
  import opened EnumGrupoSanguineo
  import opened EnumFactorRh
  import opened Entities
  import opened Licencias

  type Holders = map<int, Titular>

  /** The unique constraint on numero_documento: no two holders share a document number, whatever their document types. */
  predicate DocumentosUnicos(m: Holders) {
    forall i, j :: i in m && j in m && m[i].numeroDocumento == m[j].numeroDocumento ==> i == j
  }

  /** existsByNumeroDocumento. */
  predicate ExistsByNumeroDocumento(m: Holders, numero: string) {
    exists id :: id in m && m[id].numeroDocumento == numero
  }

  predicate TieneDocumento(t: Titular, tipo: TipoDocumento, numero: string) {
    t.tipoDocumento == tipo && t.numeroDocumento == numero
  }

  /** findByTipoDocumentoAndNumeroDocumento: the one holder with that document type and number, if any. */
  function FindByTipoDocumentoAndNumeroDocumento(m: Holders, tipo: TipoDocumento, numero: string): (r: Option<int>)
    requires DocumentosUnicos(m)
    ensures r.Some? ==> r.value in m && TieneDocumento(m[r.value], tipo, numero)
    ensures r.None? ==> forall id :: id in m ==> !TieneDocumento(m[id], tipo, numero)
  {
    if exists id :: id in m && TieneDocumento(m[id], tipo, numero) then
      var id :| id in m && TieneDocumento(m[id], tipo, numero);
      Some(id)
    else None
  }

  /** A holder with a number nobody has may join without breaking the unique constraint. */
  lemma CreateKeepsDocumentosUnicos(m: Holders, id: int, t: Titular)
    requires DocumentosUnicos(m) && id !in m
    requires !ExistsByNumeroDocumento(m, t.numeroDocumento)
    ensures DocumentosUnicos(m[id := t])
  {
  }

  /** A holder may be overwritten keeping its own number or taking one nobody has. */
  lemma UpdateKeepsDocumentosUnicos(m: Holders, id: int, t: Titular)
    requires DocumentosUnicos(m) && id in m
    requires m[id].numeroDocumento == t.numeroDocumento || !ExistsByNumeroDocumento(m, t.numeroDocumento)
    ensures DocumentosUnicos(m[id := t])
  {
    var m' := m[id := t];
    forall i, j | i in m' && j in m' && m'[i].numeroDocumento == m'[j].numeroDocumento
      ensures i == j
    {
      if i != id && j != id {
        assert m[i].numeroDocumento == m[j].numeroDocumento;
      }
    }
  }

  /** Every licence belongs to a holder of the registry. */
  ghost predicate LicenciasDeTitulares(titulares: Holders, licencias: Store) {
    forall lid :: lid in licencias ==> licencias[lid].titularId in titulares
  }

  /** Deleting a holder with its licences keeps every remaining licence attached to a remaining holder. */
  lemma EliminarKeepsIntegrity(titulares: Holders, licencias: Store, id: int)
    requires LicenciasDeTitulares(titulares, licencias)
    ensures LicenciasDeTitulares(titulares - {id}, SinTitular(licencias, id))
    ensures forall lid :: lid in SinTitular(licencias, id) ==> SinTitular(licencias, id)[lid].titularId != id
  {
  }

  class TitularRepository {
    var titulares: Holders
    var nextId: int

    /** Generated identities are never reused, and the unique constraint holds. */
    ghost predicate Valid()
      reads this
    {
      (forall id :: id in titulares ==> id < nextId) && DocumentosUnicos(titulares)
    }

    constructor ()
      ensures Valid() && titulares == map[]
    {
      titulares := map[];
      nextId := 1;
    }

    /** count(). */
    function Count(): (n: nat)
      reads this
      ensures n == |titulares.Keys|
    {
      |titulares|
    }
  }

  class TitularService {
    const titularRepository: TitularRepository
    const licenciaRepository: LicenciaRepository

    constructor (titularRepository: TitularRepository, licenciaRepository: LicenciaRepository)
      ensures this.titularRepository == titularRepository && this.licenciaRepository == licenciaRepository
    {
      this.titularRepository := titularRepository;
      this.licenciaRepository := licenciaRepository;
    }

    ghost predicate Valid()
      reads this, titularRepository, licenciaRepository
    {
      titularRepository.Valid() && licenciaRepository.Valid()
    }

    /**
     * createTitular: a document number already in use, under any document
     * type, is AlreadyExists and nothing is saved; otherwise the holder is
     * saved under a fresh id.
     */
    method CreateTitular(record: Titular) returns (r: Result<int>)
      requires titularRepository.Valid()
      modifies titularRepository
      ensures titularRepository.Valid()
      ensures ExistsByNumeroDocumento(old(titularRepository.titulares), record.numeroDocumento) ==>
        r == Failure(AlreadyExists) && titularRepository.titulares == old(titularRepository.titulares)
      ensures !ExistsByNumeroDocumento(old(titularRepository.titulares), record.numeroDocumento) ==>
        r.Success? && r.value !in old(titularRepository.titulares)
        && titularRepository.titulares == old(titularRepository.titulares)[r.value := record]
    {
      if ExistsByNumeroDocumento(titularRepository.titulares, record.numeroDocumento) {
        return Failure(AlreadyExists);
      }
      var id := titularRepository.nextId;
      CreateKeepsDocumentosUnicos(titularRepository.titulares, id, record);
      titularRepository.titulares := titularRepository.titulares[id := record];
      titularRepository.nextId := id + 1;
      r := Success(id);
    }

    /** obtenerPorId. */
    function ObtenerPorId(id: int): (r: Result<Titular>)
      reads titularRepository
      ensures r.Success? <==> id in titularRepository.titulares
      ensures r.Success? ==> r.value == titularRepository.titulares[id]
      ensures r.Failure? ==> r.error == NotFound(TitularRecurso)
    {
      if id in titularRepository.titulares then Success(titularRepository.titulares[id])
      else Failure(NotFound(TitularRecurso))
    }

    /** obtenerPorTipoYNumeroDocumento: NotFound unless some holder has exactly that type and number. */
    function ObtenerPorTipoYNumeroDocumento(tipo: TipoDocumento, numero: string): (r: Result<Titular>)
      requires DocumentosUnicos(titularRepository.titulares)
      reads titularRepository
      ensures r.Success? <==> exists id :: id in titularRepository.titulares && TieneDocumento(titularRepository.titulares[id], tipo, numero)
      ensures r.Success? ==> TieneDocumento(r.value, tipo, numero) && r.value in titularRepository.titulares.Values
      ensures r.Failure? ==> r.error == NotFound(TitularRecurso)
    {
      match FindByTipoDocumentoAndNumeroDocumento(titularRepository.titulares, tipo, numero)
      case None => Failure(NotFound(TitularRecurso))
      case Some(id) => Success(titularRepository.titulares[id])
    }

    /**
     * actualizarTitularPorDocumento: an unknown (type, number) is NotFound;
     * a new number already in use is AlreadyExists, and keeping the same
     * number skips that check; otherwise all nine fields are overwritten.
     */
    method ActualizarTitularPorDocumento(tipo: TipoDocumento, numero: string, updated: Titular) returns (r: Result<Titular>)
      requires titularRepository.Valid()
      modifies titularRepository`titulares
      ensures titularRepository.Valid()
      ensures
        var m := old(titularRepository.titulares);
        match FindByTipoDocumentoAndNumeroDocumento(m, tipo, numero)
        case None =>
          r == Failure(NotFound(TitularRecurso)) && titularRepository.titulares == m
        case Some(id) =>
          if m[id].numeroDocumento != updated.numeroDocumento && ExistsByNumeroDocumento(m, updated.numeroDocumento) then
            r == Failure(AlreadyExists) && titularRepository.titulares == m
          else
            r == Success(updated) && titularRepository.titulares == m[id := updated]
    {
      var existente := FindByTipoDocumentoAndNumeroDocumento(titularRepository.titulares, tipo, numero);
      if existente.None? {
        return Failure(NotFound(TitularRecurso));
      }
      var id := existente.value;
      if titularRepository.titulares[id].numeroDocumento != updated.numeroDocumento
        && ExistsByNumeroDocumento(titularRepository.titulares, updated.numeroDocumento)
      {
        return Failure(AlreadyExists);
      }
      UpdateKeepsDocumentosUnicos(titularRepository.titulares, id, updated);
      titularRepository.titulares := titularRepository.titulares[id := updated];
      r := Success(updated);
    }

    /**
     * eliminarTitular: a missing id is NotFound and nothing is deleted;
     * otherwise the holder is removed and, by the cascade on its licences,
     * every licence of that holder with it.
     */
    method EliminarTitular(id: int) returns (r: Outcome)
      requires Valid()
      modifies titularRepository`titulares, licenciaRepository`licencias
      ensures Valid()
      ensures id !in old(titularRepository.titulares) ==>
        r == Fail(NotFound(TitularRecurso))
        && titularRepository.titulares == old(titularRepository.titulares)
        && licenciaRepository.licencias == old(licenciaRepository.licencias)
      ensures id in old(titularRepository.titulares) ==>
        r == Pass
        && titularRepository.titulares == old(titularRepository.titulares) - {id}
        && licenciaRepository.licencias == SinTitular(old(licenciaRepository.licencias), id)
    {
      if id !in titularRepository.titulares {
        return Fail(NotFound(TitularRecurso));
      }
      titularRepository.titulares := titularRepository.titulares - {id};
      licenciaRepository.DeleteByTitularId(id);
      r := Pass;
    }

    /** contarTitulares. */
    function ContarTitulares(): (n: nat)
      reads titularRepository
      ensures n == |titularRepository.titulares.Keys|
    {
      titularRepository.Count()
    }
  }

  /** The filters of the search for holders with active licences, after normalisation; None is SQL null (no filter). */
  datatype FiltroTitulares = FiltroTitulares(
    nombreApellido: Option<string>,
    grupoSanguineo: Option<seq<GrupoSanguineo>>,
    factorRh: Option<FactorRh>,
    soloDonantes: Option<bool>)

  /** The upper-cased trim of a text is trimmed, has no lower-case letter and equals the trim up to letter case. */
  lemma UpperTrimIsNormal(n: string)
    ensures IsTrimmed(ToUpperCase(Trim(n)))
    ensures forall k :: 0 <= k < |ToUpperCase(Trim(n))| ==> !IsLower(ToUpperCase(Trim(n))[k])
    ensures EqualsIgnoreCase(ToUpperCase(Trim(n)), Trim(n))
  {
    ToUpperCaseOfTrimmed(Trim(n));
  }

  /** The LIKE pattern of the name filter: the trimmed, upper-cased text between two '%'. */
  function NormalizarNombreApellido(nombreApellido: Option<string>): (r: Option<string>)
    ensures r.None? <==> nombreApellido.None?
    ensures r.Some? ==>
      |r.value| >= 2 && r.value[0] == '%' && r.value[|r.value| - 1] == '%'
      && IsTrimmed(r.value[1..|r.value| - 1])
      && (forall k :: 1 <= k < |r.value| - 1 ==> !IsLower(r.value[k]))
      && EqualsIgnoreCase(r.value[1..|r.value| - 1], Trim(nombreApellido.value))
  {
    match nombreApellido
    case None => None
    case Some(n) =>
      var core := ToUpperCase(Trim(n));
      UpperTrimIsNormal(n);
      var p := "%" + core + "%";
      assert p[1..|p| - 1] == core;
      Some(p)
  }

  /** The pattern is stable: the text between the '%' normalises to itself. */
  lemma NombreApellidoPatternIsNormal(n: string)
    ensures var p := NormalizarNombreApellido(Some(n)).value;
      ToUpperCase(Trim(p[1..|p| - 1])) == p[1..|p| - 1]
  {
    NormalizeUpperIdempotent(n);
  }

  /**
   * A parser mapped over a list, as a stream map does it: the first element
   * that fails fails the whole list with its error.
   */
  function ParseAll<T>(params: seq<string>, parse: string -> Result<T>): (r: Result<seq<T>>)
    ensures r.Success? <==> forall i :: 0 <= i < |params| ==> parse(params[i]).Success?
    ensures r.Success? ==> |r.value| == |params| && forall i :: 0 <= i < |params| ==> r.value[i] == parse(params[i]).value
    ensures r.Failure? ==> exists i :: (0 <= i < |params| && parse(params[i]).Failure? && r.error == parse(params[i]).error
      && (forall j :: 0 <= j < i ==> parse(params[j]).Success?))
  {
    if params == [] then Success([])
    else
      match parse(params[0])
      case Failure(e) => Failure(e)
      case Success(g) =>
        assert forall i :: 1 <= i < |params| ==> params[1..][i - 1] == params[i];
        match ParseAll(params[1..], parse)
        case Failure(e) =>
          var i :| 0 <= i < |params| - 1 && parse(params[1..][i]).Failure? && e == parse(params[1..][i]).error
            && forall j :: 0 <= j < i ==> parse(params[1..][j]).Success?;
          assert parse(params[i + 1]).Failure?;
          Failure(e)
        case Success(gs) => Success([g] + gs)
  }

  /** When every element parses, the list parses to those values in order. */
  lemma ParseAllOfParsed<T>(params: seq<string>, parse: string -> Result<T>, xs: seq<T>)
    requires |xs| == |params|
    requires forall i :: 0 <= i < |params| ==> parse(params[i]) == Success(xs[i])
    ensures ParseAll(params, parse) == Success(xs)
  {
    var r := ParseAll(params, parse);
    assert r.Success?;
    assert r.value == xs;
  }

  /** Each blood group name parsed with valueOf after trim and toUpperCase; the first unknown name fails the whole list. */
  function ConvertirGrupos(params: seq<string>): (r: Result<seq<GrupoSanguineo>>)
    ensures r.Success? <==> forall i :: 0 <= i < |params| ==> EnumGrupoSanguineo.From(params[i]).Success?
    ensures r.Success? ==> |r.value| == |params|
    ensures r.Success? ==> forall i :: 0 <= i < |params| ==> r.value[i] == EnumGrupoSanguineo.From(params[i]).value
    ensures r.Failure? ==> r.error == IllegalArgument(ValorDeEnumDesconocido)
  {
    ParseAll(params, EnumGrupoSanguineo.From)
  }

  /** The names of a list of blood groups, in order. */
  function Nombres(gs: seq<GrupoSanguineo>): (r: seq<string>)
    ensures |r| == |gs|
    ensures forall i :: 0 <= i < |gs| ==> r[i] == EnumGrupoSanguineo.Name(gs[i])
  {
    if gs == [] then [] else [EnumGrupoSanguineo.Name(gs[0])] + Nombres(gs[1..])
  }

  /** The names of a list of blood groups convert back to that list. */
  lemma ConvertirGruposOfNames(gs: seq<GrupoSanguineo>)
    ensures ConvertirGrupos(Nombres(gs)) == Success(gs)
  {
    var names := Nombres(gs);
    forall i | 0 <= i < |names|
      ensures EnumGrupoSanguineo.From(names[i]) == Success(gs[i])
    {
      EnumGrupoSanguineo.FromName(gs[i]);
    }
    ParseAllOfParsed(names, EnumGrupoSanguineo.From, gs);
  }

  /** The blood-group filter: null or an empty list is no filter. */
  function NormalizarGrupos(grupos: Option<seq<string>>): (r: Result<Option<seq<GrupoSanguineo>>>)
    ensures grupos.None? || grupos.value == [] ==> r == Success(None)
    ensures grupos.Some? && grupos.value != [] ==>
      (r.Success? <==> ConvertirGrupos(grupos.value).Success?)
      && (r.Success? ==> r.value == Some(ConvertirGrupos(grupos.value).value))
      && (r.Failure? ==> r.error == IllegalArgument(ValorDeEnumDesconocido))
  {
    if grupos.Some? && grupos.value != [] then
      match ConvertirGrupos(grupos.value)
      case Failure(e) => Failure(e)
      case Success(gs) => Success(Some(gs))
    else Success(None)
  }

  /** The Rh filter: null or blank (Character.isWhitespace only) is no filter; anything else is parsed after trim and toUpperCase. */
  function NormalizarFactorRh(factorRh: Option<string>): (r: Result<Option<FactorRh>>)
    ensures factorRh.None? || IsBlank(factorRh.value) ==> r == Success(None)
    ensures factorRh.Some? && !IsBlank(factorRh.value) ==>
      (r.Success? <==> exists f :: EnumFactorRh.Name(f) == ToUpperCase(Trim(factorRh.value)))
      && (r.Success? ==> r.value.Some? && EnumFactorRh.Name(r.value.value) == ToUpperCase(Trim(factorRh.value)))
      && (r.Failure? ==> r.error == IllegalArgument(ValorDeEnumDesconocido))
  {
    if factorRh.Some? && !IsBlank(factorRh.value) then
      match EnumFactorRh.ValueOf(ToUpperCase(Trim(factorRh.value)))
      case Failure(e) => Failure(e)
      case Success(f) => Success(Some(f))
    else Success(None)
  }

  lemma PaddedNegativoIsNotBlank()
    ensures !IsBlank(" negativo ")
  {
    assert !IsWhitespace(" negativo "[1]);
  }

  lemma PaddedNegativoTrims()
    ensures Trim(" negativo ") == "negativo"
  {
    assert " negativo " == " " + "negativo" + " ";
    TrimPadded(" ", "negativo", " ");
  }

  lemma NegativoUpperCases()
    ensures ToUpperCase("negativo") == EnumFactorRh.Name(NEGATIVO)
  {
    ToUpperCaseOfIgnoreCase("negativo", EnumFactorRh.Name(NEGATIVO));
  }

  /** A padded, lower-case Rh name is the filter for that factor. */
  lemma FactorRhParsesPadded()
    ensures NormalizarFactorRh(Some(" negativo ")) == Success(Some(NEGATIVO))
  {
    PaddedNegativoIsNotBlank();
    PaddedNegativoTrims();
    NegativoUpperCases();
    EnumFactorRh.ValueOfName(NEGATIVO);
  }

  lemma ControlCharIsNotBlank()
    ensures !IsBlank("\U{1}")
  {
    assert !IsWhitespace("\U{1}"[0]);
  }

  lemma ControlCharTrimsToEmpty()
    ensures Trim("\U{1}") == ""
  {
    assert TrimLeading("\U{1}") == TrimLeading("\U{1}"[1..]);
  }

  /**
   * The blank test and trim disagree on control chars: U+0001 is not
   * whitespace, so the value is not blank, but trim removes it and the empty
   * name is rejected.
   */
  lemma FactorRhControlCharIsRejected()
    ensures NormalizarFactorRh(Some("\U{1}")) == Failure(IllegalArgument(ValorDeEnumDesconocido))
  {
    assert EnumFactorRh.ValueOf("") == Failure(IllegalArgument(ValorDeEnumDesconocido));
    assert ToUpperCase("") == "";
    ControlCharIsNotBlank();
    ControlCharTrimsToEmpty();
  }

  /**
   * The normalisation of buscarTitularesConLicenciasVigentes: the blood
   * groups are converted first, then the Rh factor, then the name pattern;
   * the donor flag passes as it is.
   */
  function NormalizarFiltros(nombreApellido: Option<string>, grupos: Option<seq<string>>, factorRh: Option<string>, soloDonantes: Option<bool>): (r: Result<FiltroTitulares>)
    ensures r.Success? <==> NormalizarGrupos(grupos).Success? && NormalizarFactorRh(factorRh).Success?
    ensures NormalizarGrupos(grupos).Failure? ==> r == Failure(NormalizarGrupos(grupos).error)
    ensures NormalizarGrupos(grupos).Success? && NormalizarFactorRh(factorRh).Failure? ==>
      r == Failure(NormalizarFactorRh(factorRh).error)
    ensures r.Success? ==> r.value == FiltroTitulares(
      NormalizarNombreApellido(nombreApellido), NormalizarGrupos(grupos).value, NormalizarFactorRh(factorRh).value, soloDonantes)
  {
    match NormalizarGrupos(grupos)
    case Failure(e) => Failure(e)
    case Success(gs) =>
      match NormalizarFactorRh(factorRh)
      case Failure(e) => Failure(e)
      case Success(f) => Success(FiltroTitulares(NormalizarNombreApellido(nombreApellido), gs, f, soloDonantes))
  }

  /** An empty filter request is no filter at all, and never fails. */
  lemma FiltrosVacios(soloDonantes: Option<bool>)
    ensures NormalizarFiltros(None, Some([]), Some(" "), soloDonantes) == Success(FiltroTitulares(None, None, None, soloDonantes))
  {
    assert IsBlank(" ") by { assert IsWhitespace(" "[0]); }
  }
}
