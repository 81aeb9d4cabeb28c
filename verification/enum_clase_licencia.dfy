/** The enum ClaseLicencia: the seven licence classes, and its `from` parser. */
module EnumClaseLicencia {
  import opened Common
  import opened Text

  datatype ClaseLicencia = A | B | C | D | E | F | G

  /** Every value, each once. */
  const Values: seq<ClaseLicencia> := [A, B, C, D, E, F, G]

  lemma ValuesAreAll()
    ensures |Values| == 7
    ensures forall x :: x in Values
    ensures forall i, j :: 0 <= i < j < |Values| ==> Values[i] != Values[j]
  {
    forall x: ClaseLicencia ensures x in Values {
      match x
      case A => assert Values[0] == A;
      case B => assert Values[1] == B;
      case C => assert Values[2] == C;
      case D => assert Values[3] == D;
      case E => assert Values[4] == E;
      case F => assert Values[5] == F;
      case G => assert Values[6] == G;
    }
  }

  /** Enum.name(): a non-empty, trimmed, upper-case identifier. */
  function Name(x: ClaseLicencia): (n: string)
    ensures |n| > 0 && IsTrimmed(n)
    ensures forall k :: 0 <= k < |n| ==> !IsLower(n[k])
  {
    match x
    case A => "A"
    case B => "B"
    case C => "C"
    case D => "D"
    case E => "E"
    case F => "F"
    case G => "G"
  }

  /** Enum.valueOf: an exact, case-sensitive match on the name, IllegalArgumentException otherwise. */
  function ValueOf(name: string): (r: Result<ClaseLicencia>)
    ensures r.Success? ==> Name(r.value) == name
    ensures r.Failure? ==> r.error == IllegalArgument(ValorDeEnumDesconocido)
    ensures r.Failure? <==> forall x :: Name(x) != name
  {
    if name == "A" then Success(A)
    else if name == "B" then Success(B)
    else if name == "C" then Success(C)
    else if name == "D" then Success(D)
    else if name == "E" then Success(E)
    else if name == "F" then Success(F)
    else if name == "G" then Success(G)
    else Failure(IllegalArgument(ValorDeEnumDesconocido))
  }

  /** ClaseLicencia.from: valueOf after trim and toUpperCase. */
  function From(value: string): (r: Result<ClaseLicencia>)
    ensures r.Success? ==> EqualsIgnoreCase(Trim(value), Name(r.value))
    ensures r.Failure? ==> r.error == IllegalArgument(ValorDeEnumDesconocido)
  {
    ValueOf(ToUpperCase(Trim(value)))
  }

  /** valueOf inverts name. */
  lemma ValueOfName(x: ClaseLicencia)
    ensures ValueOf(Name(x)) == Success(x)
  {
    match x
    case A =>
    case B =>
    case C =>
    case D =>
    case E =>
    case F =>
    case G =>
  }

  /** Surrounding blanks and letter case are ignored. */
  lemma FromIgnoresCaseAndBlanks(x: ClaseLicencia, pre: string, s: string, post: string)
    requires AllTrimmable(pre) && AllTrimmable(post)
    requires EqualsIgnoreCase(s, Name(x))
    ensures From(pre + s + post) == Success(x)
  {
    UpperTrimOfPadded(pre, s, post, Name(x));
    ValueOfName(x);
  }

  /** Parsing a value's own name gives that value back. */
  lemma FromName(x: ClaseLicencia)
    ensures From(Name(x)) == Success(x)
  {
    assert "" + Name(x) + "" == Name(x);
    FromIgnoresCaseAndBlanks(x, "", Name(x), "");
  }

  lemma FromTrimsAndUpperCases()
    ensures From(" b ") == Success(B)
  {
    assert " b " == " " + "b" + " ";
    FromIgnoresCaseAndBlanks(B, " ", "b", " ");
  }

  /** A trimmed name without lower-case letters reaches valueOf unchanged. */
  lemma FromOfNormal(s: string)
    requires IsTrimmed(s)
    requires forall k :: 0 <= k < |s| ==> !IsLower(s[k])
    ensures From(s) == ValueOf(s)
  {
    TrimOfTrimmed(s);
    ToUpperCaseOfUpper(s);
  }

  lemma FromRejectsUnknownClass()
    ensures From("H") == Failure(IllegalArgument(ValorDeEnumDesconocido))
  {
    assert ValueOf("H") == Failure(IllegalArgument(ValorDeEnumDesconocido));
    FromOfNormal("H");
  }
}
