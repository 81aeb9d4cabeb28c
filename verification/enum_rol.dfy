/** The enum Rol: the two operator roles, and its `from` parser. */
module EnumRol {
  import opened Common
  import opened Text

  datatype Rol = OPERADOR | SUPER_USER

  /** Every value, each once. */
  const Values: seq<Rol> := [OPERADOR, SUPER_USER]

  lemma ValuesAreAll()
    ensures |Values| == 2
    ensures forall x :: x in Values
    ensures forall i, j :: 0 <= i < j < |Values| ==> Values[i] != Values[j]
  {
    forall x: Rol ensures x in Values {
      match x
      case OPERADOR => assert Values[0] == OPERADOR;
      case SUPER_USER => assert Values[1] == SUPER_USER;
    }
  }

  /** Enum.name(): a non-empty, trimmed, upper-case identifier. */
  function Name(x: Rol): (n: string)
    ensures |n| > 0 && IsTrimmed(n)
    ensures forall k :: 0 <= k < |n| ==> !IsLower(n[k])
  {
    match x
    case OPERADOR => "OPERADOR"
    case SUPER_USER => "SUPER_USER"
  }

  /** Enum.valueOf: an exact, case-sensitive match on the name, IllegalArgumentException otherwise. */
  function ValueOf(name: string): (r: Result<Rol>)
    ensures r.Success? ==> Name(r.value) == name
    ensures r.Failure? ==> r.error == IllegalArgument(ValorDeEnumDesconocido)
    ensures r.Failure? <==> forall x :: Name(x) != name
  {
    if name == "OPERADOR" then Success(OPERADOR)
    else if name == "SUPER_USER" then Success(SUPER_USER)
    else Failure(IllegalArgument(ValorDeEnumDesconocido))
  }

  /** Rol.from: valueOf after trim and toUpperCase. */
  function From(value: string): (r: Result<Rol>)
    ensures r.Success? ==> EqualsIgnoreCase(Trim(value), Name(r.value))
    ensures r.Failure? ==> r.error == IllegalArgument(ValorDeEnumDesconocido)
  {
    ValueOf(ToUpperCase(Trim(value)))
  }

  /** valueOf inverts name. */
  lemma ValueOfName(x: Rol)
    ensures ValueOf(Name(x)) == Success(x)
  {
    match x
    case OPERADOR =>
    case SUPER_USER =>
  }

  /** Surrounding blanks and letter case are ignored. */
  lemma FromIgnoresCaseAndBlanks(x: Rol, pre: string, s: string, post: string)
    requires AllTrimmable(pre) && AllTrimmable(post)
    requires EqualsIgnoreCase(s, Name(x))
    ensures From(pre + s + post) == Success(x)
  {
    UpperTrimOfPadded(pre, s, post, Name(x));
    ValueOfName(x);
  }

  /** Parsing a value's own name gives that value back. */
  lemma FromName(x: Rol)
    ensures From(Name(x)) == Success(x)
  {
    assert "" + Name(x) + "" == Name(x);
    FromIgnoresCaseAndBlanks(x, "", Name(x), "");
  }

  lemma FromTrimsAndUpperCases()
    ensures From(" super_user") == Success(SUPER_USER)
  {
    assert " super_user" == " " + "super_user" + "";
    FromIgnoresCaseAndBlanks(SUPER_USER, " ", "super_user", "");
  }

  /** A trimmed name without lower-case letters reaches valueOf unchanged. */
  lemma FromOfNormal(s: string)
    requires IsTrimmed(s)
    requires forall k :: 0 <= k < |s| ==> !IsLower(s[k])
    ensures From(s) == ValueOf(s)
  {
    TrimOfTrimmed(s);
    ToUpperCaseOfUpper(s);
  }

  lemma FromRejectsUnknownRole()
    ensures From("ADMIN") == Failure(IllegalArgument(ValorDeEnumDesconocido))
  {
    assert ValueOf("ADMIN") == Failure(IllegalArgument(ValorDeEnumDesconocido));
    FromOfNormal("ADMIN");
  }
}
