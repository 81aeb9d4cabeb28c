/**
 * The normalisation the account requests apply when they are built
 * (RegisterRequest and AuthRequest): names are trimmed, the mail is trimmed
 * and lower-cased, and the password is kept exactly as sent. A null field
 * that is normalised makes the construction fail; the validation
 * annotations run afterwards and are not part of this model.
 */
module Solicitudes {
  import opened Common
  import opened Text

  /** A built RegisterRequest; the password may still be null. */
  datatype RegisterRequest = RegisterRequest(nombre: string, apellido: string, mail: string, password: Option<string>)

  /** A built AuthRequest. */
  datatype AuthRequest = AuthRequest(mail: string, password: Option<string>)

  /** The mail form both requests store: without surrounding blanks, without upper-case letters, the same letters otherwise. */
  function NormalizarMail(mail: string): (r: string)
    ensures IsTrimmed(r) && |r| <= |mail|
    ensures forall k :: 0 <= k < |r| ==> !IsUpper(r[k])
    ensures EqualsIgnoreCase(r, Trim(mail))
  {
    ToLowerCase(Trim(mail))
  }

  /** A normalised mail is its own normal form. */
  lemma NormalizarMailIdempotent(mail: string)
    ensures NormalizarMail(NormalizarMail(mail)) == NormalizarMail(mail)
  {
    NormalizeLowerIdempotent(mail);
  }

  /** Chars with the same upper-case form have the same lower-case form. */
  lemma LowerOfSameUpper(a: char, b: char)
    requires UpperChar(a) == UpperChar(b)
    ensures LowerChar(a) == LowerChar(b)
  {
  }

  /** Strings equal up to letter case have the same lower-case form. */
  lemma ToLowerCaseOfIgnoreCase(s1: string, s2: string)
    requires EqualsIgnoreCase(s1, s2)
    ensures ToLowerCase(s1) == ToLowerCase(s2)
  {
    forall k | 0 <= k < |s1|
      ensures ToLowerCase(s1)[k] == ToLowerCase(s2)[k]
    {
      LowerOfSameUpper(s1[k], s2[k]);
    }
  }

  /** Two mails that differ only in surrounding blanks and letter case have the same normal form. */
  lemma NormalizarMailIgnoresCaseAndBlanks(pre1: string, s1: string, post1: string, pre2: string, s2: string, post2: string)
    requires AllTrimmable(pre1) && AllTrimmable(post1) && AllTrimmable(pre2) && AllTrimmable(post2)
    requires IsTrimmed(s1) && IsTrimmed(s2) && EqualsIgnoreCase(s1, s2)
    ensures NormalizarMail(pre1 + s1 + post1) == NormalizarMail(pre2 + s2 + post2)
  {
    TrimPadded(pre1, s1, post1);
    TrimPadded(pre2, s2, post2);
    ToLowerCaseOfIgnoreCase(s1, s2);
  }

  /**
   * The compact constructor of RegisterRequest: a null name, surname or
   * mail fails; otherwise the names are trimmed, the mail normalised and
   * the password kept.
   */
  function NuevoRegisterRequest(nombre: Option<string>, apellido: Option<string>, mail: Option<string>, password: Option<string>)
    : (r: Result<RegisterRequest>)
    ensures r.Failure? <==> nombre.None? || apellido.None? || mail.None?
    ensures r.Failure? ==> r.error == NullPointer
    ensures r.Success? ==>
      r.value.nombre == Trim(nombre.value) && r.value.apellido == Trim(apellido.value)
      && IsTrimmed(r.value.nombre) && IsTrimmed(r.value.apellido)
      && r.value.mail == NormalizarMail(mail.value)
      && r.value.password == password
  {
    if nombre.None? || apellido.None? || mail.None? then Failure(NullPointer)
    else Success(RegisterRequest(Trim(nombre.value), Trim(apellido.value), NormalizarMail(mail.value), password))
  }

  /** Names with surrounding blanks are stored without them. */
  lemma RegisterRequestTrimsNames(pre: string, nombre: string, post: string, apellido: string, mail: string, password: Option<string>)
    requires AllTrimmable(pre) && AllTrimmable(post) && IsTrimmed(nombre)
    ensures NuevoRegisterRequest(Some(pre + nombre + post), Some(apellido), Some(mail), password).value.nombre == nombre
  {
    TrimPadded(pre, nombre, post);
  }

  /** Building a RegisterRequest again from the fields of a built one gives it back. */
  lemma RegisterRequestIdempotent(nombre: Option<string>, apellido: Option<string>, mail: Option<string>, password: Option<string>)
    requires NuevoRegisterRequest(nombre, apellido, mail, password).Success?
    ensures var r := NuevoRegisterRequest(nombre, apellido, mail, password).value;
      NuevoRegisterRequest(Some(r.nombre), Some(r.apellido), Some(r.mail), r.password) == Success(r)
  {
    var r := NuevoRegisterRequest(nombre, apellido, mail, password).value;
    assert r == RegisterRequest(Trim(nombre.value), Trim(apellido.value), NormalizarMail(mail.value), password);
    assert Trim(r.nombre) == r.nombre by { TrimIdempotent(nombre.value); }
    assert Trim(r.apellido) == r.apellido by { TrimIdempotent(apellido.value); }
    assert NormalizarMail(r.mail) == r.mail by { NormalizarMailIdempotent(mail.value); }
  }

  /** The compact constructor of AuthRequest: a null mail fails; otherwise it is normalised, and the password kept. */
  function NuevoAuthRequest(mail: Option<string>, password: Option<string>): (r: Result<AuthRequest>)
    ensures r.Failure? <==> mail.None?
    ensures r.Failure? ==> r.error == NullPointer
    ensures r.Success? ==> r.value.mail == NormalizarMail(mail.value) && r.value.password == password
  {
    if mail.None? then Failure(NullPointer)
    else Success(AuthRequest(NormalizarMail(mail.value), password))
  }

  /** Building an AuthRequest again from the fields of a built one gives it back. */
  lemma AuthRequestIdempotent(mail: Option<string>, password: Option<string>)
    requires NuevoAuthRequest(mail, password).Success?
    ensures var r := NuevoAuthRequest(mail, password).value;
      NuevoAuthRequest(Some(r.mail), r.password) == Success(r)
  {
    NormalizarMailIdempotent(mail.value);
  }

  /**
   * A login whose mail differs from the registered one only in surrounding
   * blanks and letter case carries the same stored mail.
   */
  lemma LoginMatchesRegistration(nombre: string, apellido: string, pre1: string, s1: string, post1: string,
                                 pre2: string, s2: string, post2: string, p1: Option<string>, p2: Option<string>)
    requires AllTrimmable(pre1) && AllTrimmable(post1) && AllTrimmable(pre2) && AllTrimmable(post2)
    requires IsTrimmed(s1) && IsTrimmed(s2) && EqualsIgnoreCase(s1, s2)
    ensures NuevoAuthRequest(Some(pre2 + s2 + post2), p2).value.mail
      == NuevoRegisterRequest(Some(nombre), Some(apellido), Some(pre1 + s1 + post1), p1).value.mail
  {
    NormalizarMailIgnoresCaseAndBlanks(pre1, s1, post1, pre2, s2, post2);
  }
}
