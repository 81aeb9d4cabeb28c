/** The enum TipoDocumento: the four identity-document kinds, and its `from` parser. */
module EnumTipoDocumento {
  import opened Common
  import opened Text

  datatype TipoDocumento = DNI | CEDULA_IDENTIDAD | PASAPORTE | OTRO

  /** Every value, each once. */
  const Values: seq<TipoDocumento> := [DNI, CEDULA_IDENTIDAD, PASAPORTE, OTRO]

  lemma ValuesAreAll()
    ensures |Values| == 4
    ensures forall x :: x in Values
    ensures forall i, j :: 0 <= i < j < |Values| ==> Values[i] != Values[j]
  {
    forall x: TipoDocumento ensures x in Values {
      match x
      case DNI => assert Values[0] == DNI;
      case CEDULA_IDENTIDAD => assert Values[1] == CEDULA_IDENTIDAD;
      case PASAPORTE => assert Values[2] == PASAPORTE;
      case OTRO => assert Values[3] == OTRO;
    }
  }

  /** Enum.name(): a non-empty, trimmed, upper-case identifier. */
  function Name(x: TipoDocumento): (n: string)
    ensures |n| > 0 && IsTrimmed(n)
    ensures forall k :: 0 <= k < |n| ==> !IsLower(n[k])
  {
    match x
    case DNI => "DNI"
    case CEDULA_IDENTIDAD => "CEDULA_IDENTIDAD"
    case PASAPORTE => "PASAPORTE"
    case OTRO => "OTRO"
  }

  /** Enum.valueOf: an exact, case-sensitive match on the name, IllegalArgumentException otherwise. */
  function ValueOf(name: string): (r: Result<TipoDocumento>)
    ensures r.Success? ==> Name(r.value) == name
    ensures r.Failure? ==> r.error == IllegalArgument(ValorDeEnumDesconocido)
    ensures r.Failure? <==> forall x :: Name(x) != name
  {
    if name == "DNI" then Success(DNI)
    else if name == "CEDULA_IDENTIDAD" then Success(CEDULA_IDENTIDAD)
    else if name == "PASAPORTE" then Success(PASAPORTE)
    else if name == "OTRO" then Success(OTRO)
    else Failure(IllegalArgument(ValorDeEnumDesconocido))
  }

  /** TipoDocumento.from: valueOf after trim and toUpperCase. */
  function From(value: string): (r: Result<TipoDocumento>)
    ensures r.Success? ==> EqualsIgnoreCase(Trim(value), Name(r.value))
    ensures r.Failure? ==> r.error == IllegalArgument(ValorDeEnumDesconocido)
  {
    ValueOf(ToUpperCase(Trim(value)))
  }

  /** valueOf inverts name. */
  lemma ValueOfName(x: TipoDocumento)
    ensures ValueOf(Name(x)) == Success(x)
  {
    match x
    case DNI =>
    case CEDULA_IDENTIDAD =>
    case PASAPORTE =>
    case OTRO =>
  }

  /** Surrounding blanks and letter case are ignored. */
  lemma FromIgnoresCaseAndBlanks(x: TipoDocumento, pre: string, s: string, post: string)
    requires AllTrimmable(pre) && AllTrimmable(post)
    requires EqualsIgnoreCase(s, Name(x))
    ensures From(pre + s + post) == Success(x)
  {
    UpperTrimOfPadded(pre, s, post, Name(x));
    ValueOfName(x);
  }

  /** Parsing a value's own name gives that value back. */
  lemma FromName(x: TipoDocumento)
    ensures From(Name(x)) == Success(x)
  {
    assert "" + Name(x) + "" == Name(x);
    FromIgnoresCaseAndBlanks(x, "", Name(x), "");
  }

  lemma PasaporteUpperCases()
    ensures ToUpperCase("Pasaporte") == Name(PASAPORTE)
  {
    ToUpperCaseOfIgnoreCase("Pasaporte", Name(PASAPORTE));
  }

  lemma FromIgnoresCase()
    ensures From("Pasaporte") == Success(PASAPORTE)
  {
    TrimOfTrimmed("Pasaporte");
    PasaporteUpperCases();
    ValueOfName(PASAPORTE);
  }

  /** A trimmed name without lower-case letters reaches valueOf unchanged. */
  lemma FromOfNormal(s: string)
    requires IsTrimmed(s)
    requires forall k :: 0 <= k < |s| ==> !IsLower(s[k])
    ensures From(s) == ValueOf(s)
  {
    TrimOfTrimmed(s);
    ToUpperCaseOfUpper(s);
  }

  lemma FromRejectsUnknownDocument()
    ensures From("CUIT") == Failure(IllegalArgument(ValorDeEnumDesconocido))
  {
    assert ValueOf("CUIT") == Failure(IllegalArgument(ValorDeEnumDesconocido));
    FromOfNormal("CUIT");
  }
}
