/** The enum FactorRh: the two Rh factors, and its `from` parser. */
module EnumFactorRh {
  import opened Common
  import opened Text

  datatype FactorRh = POSITIVO | NEGATIVO

  /** Every value, each once. */
  const Values: seq<FactorRh> := [POSITIVO, NEGATIVO]

  lemma ValuesAreAll()
    ensures |Values| == 2
    ensures forall x :: x in Values
    ensures forall i, j :: 0 <= i < j < |Values| ==> Values[i] != Values[j]
  {
    forall x: FactorRh ensures x in Values {
      match x
      case POSITIVO => assert Values[0] == POSITIVO;
      case NEGATIVO => assert Values[1] == NEGATIVO;
    }
  }

  /** Enum.name(): a non-empty, trimmed, upper-case identifier. */
  function Name(x: FactorRh): (n: string)
    ensures |n| > 0 && IsTrimmed(n)
    ensures forall k :: 0 <= k < |n| ==> !IsLower(n[k])
  {
    match x
    case POSITIVO => "POSITIVO"
    case NEGATIVO => "NEGATIVO"
  }

  /** Enum.valueOf: an exact, case-sensitive match on the name, IllegalArgumentException otherwise. */
  function ValueOf(name: string): (r: Result<FactorRh>)
    ensures r.Success? ==> Name(r.value) == name
    ensures r.Failure? ==> r.error == IllegalArgument(ValorDeEnumDesconocido)
    ensures r.Failure? <==> forall x :: Name(x) != name
  {
    if name == "POSITIVO" then Success(POSITIVO)
    else if name == "NEGATIVO" then Success(NEGATIVO)
    else Failure(IllegalArgument(ValorDeEnumDesconocido))
  }

  /** FactorRh.from: valueOf after trim and toUpperCase. */
  function From(value: string): (r: Result<FactorRh>)
    ensures r.Success? ==> EqualsIgnoreCase(Trim(value), Name(r.value))
    ensures r.Failure? ==> r.error == IllegalArgument(ValorDeEnumDesconocido)
  {
    ValueOf(ToUpperCase(Trim(value)))
  }

  /** valueOf inverts name. */
  lemma ValueOfName(x: FactorRh)
    ensures ValueOf(Name(x)) == Success(x)
  {
    match x
    case POSITIVO =>
    case NEGATIVO =>
  }

  /** Surrounding blanks and letter case are ignored. */
  lemma FromIgnoresCaseAndBlanks(x: FactorRh, pre: string, s: string, post: string)
    requires AllTrimmable(pre) && AllTrimmable(post)
    requires EqualsIgnoreCase(s, Name(x))
    ensures From(pre + s + post) == Success(x)
  {
    UpperTrimOfPadded(pre, s, post, Name(x));
    ValueOfName(x);
  }

  /** Parsing a value's own name gives that value back. */
  lemma FromName(x: FactorRh)
    ensures From(Name(x)) == Success(x)
  {
    assert "" + Name(x) + "" == Name(x);
    FromIgnoresCaseAndBlanks(x, "", Name(x), "");
  }

  lemma FromTrimsAndUpperCases()
    ensures From("\tnegativo ") == Success(NEGATIVO)
  {
    assert "\tnegativo " == "\t" + "negativo" + " ";
    FromIgnoresCaseAndBlanks(NEGATIVO, "\t", "negativo", " ");
  }

  /** A trimmed name without lower-case letters reaches valueOf unchanged. */
  lemma FromOfNormal(s: string)
    requires IsTrimmed(s)
    requires forall k :: 0 <= k < |s| ==> !IsLower(s[k])
    ensures From(s) == ValueOf(s)
  {
    TrimOfTrimmed(s);
    ToUpperCaseOfUpper(s);
  }

  lemma FromRejectsPlusSign()
    ensures From("+") == Failure(IllegalArgument(ValorDeEnumDesconocido))
  {
    assert ValueOf("+") == Failure(IllegalArgument(ValorDeEnumDesconocido));
    FromOfNormal("+");
  }

  lemma FromRejectsMinusSign()
    ensures From("-") == Failure(IllegalArgument(ValorDeEnumDesconocido))
  {
    assert ValueOf("-") == Failure(IllegalArgument(ValorDeEnumDesconocido));
    FromOfNormal("-");
  }
}
