/** The enum GrupoSanguineo: the four ABO blood groups, and its `from` parser. */
module EnumGrupoSanguineo {
  import opened Common
  import opened Text

  datatype GrupoSanguineo = A | AB | B | O

  /** Every value, each once. */
  const Values: seq<GrupoSanguineo> := [A, AB, B, O]

  lemma ValuesAreAll()
    ensures |Values| == 4
    ensures forall x :: x in Values
    ensures forall i, j :: 0 <= i < j < |Values| ==> Values[i] != Values[j]
  {
    forall x: GrupoSanguineo ensures x in Values {
      match x
      case A => assert Values[0] == A;
      case AB => assert Values[1] == AB;
      case B => assert Values[2] == B;
      case O => assert Values[3] == O;
    }
  }

  /** Enum.name(): a non-empty, trimmed, upper-case identifier. */
  function Name(x: GrupoSanguineo): (n: string)
    ensures |n| > 0 && IsTrimmed(n)
    ensures forall k :: 0 <= k < |n| ==> !IsLower(n[k])
  {
    match x
    case A => "A"
    case AB => "AB"
    case B => "B"
    case O => "O"
  }

  /** Enum.valueOf: an exact, case-sensitive match on the name, IllegalArgumentException otherwise. */
  function ValueOf(name: string): (r: Result<GrupoSanguineo>)
    ensures r.Success? ==> Name(r.value) == name
    ensures r.Failure? ==> r.error == IllegalArgument(ValorDeEnumDesconocido)
    ensures r.Failure? <==> forall x :: Name(x) != name
  {
    if name == "A" then Success(A)
    else if name == "AB" then Success(AB)
    else if name == "B" then Success(B)
    else if name == "O" then Success(O)
    else Failure(IllegalArgument(ValorDeEnumDesconocido))
  }

  /** GrupoSanguineo.from: valueOf after trim and toUpperCase. */
  function From(value: string): (r: Result<GrupoSanguineo>)
    ensures r.Success? ==> EqualsIgnoreCase(Trim(value), Name(r.value))
    ensures r.Failure? ==> r.error == IllegalArgument(ValorDeEnumDesconocido)
  {
    ValueOf(ToUpperCase(Trim(value)))
  }

  /** valueOf inverts name. */
  lemma ValueOfName(x: GrupoSanguineo)
    ensures ValueOf(Name(x)) == Success(x)
  {
    match x
    case A =>
    case AB =>
    case B =>
    case O =>
  }

  /** Surrounding blanks and letter case are ignored. */
  lemma FromIgnoresCaseAndBlanks(x: GrupoSanguineo, pre: string, s: string, post: string)
    requires AllTrimmable(pre) && AllTrimmable(post)
    requires EqualsIgnoreCase(s, Name(x))
    ensures From(pre + s + post) == Success(x)
  {
    UpperTrimOfPadded(pre, s, post, Name(x));
    ValueOfName(x);
  }

  /** Parsing a value's own name gives that value back. */
  lemma FromName(x: GrupoSanguineo)
    ensures From(Name(x)) == Success(x)
  {
    assert "" + Name(x) + "" == Name(x);
    FromIgnoresCaseAndBlanks(x, "", Name(x), "");
  }

  lemma FromTrimsAndUpperCases()
    ensures From(" ab ") == Success(AB)
  {
    assert " ab " == " " + "ab" + " ";
    FromIgnoresCaseAndBlanks(AB, " ", "ab", " ");
  }

  /** A trimmed name without lower-case letters reaches valueOf unchanged. */
  lemma FromOfNormal(s: string)
    requires IsTrimmed(s)
    requires forall k :: 0 <= k < |s| ==> !IsLower(s[k])
    ensures From(s) == ValueOf(s)
  {
    TrimOfTrimmed(s);
    ToUpperCaseOfUpper(s);
  }

  lemma FromRejectsDigitZero()
    ensures From("0") == Failure(IllegalArgument(ValorDeEnumDesconocido))
  {
    assert ValueOf("0") == Failure(IllegalArgument(ValorDeEnumDesconocido));
    FromOfNormal("0");
  }
}
