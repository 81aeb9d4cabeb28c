/**
 * The operator registry (UsuarioRepository and UsuarioService): accounts
 * keyed by id, looked up by mail, with hashed passwords and a logical delete.
 */
module Usuarios {
  import opened Common
  import opened Text
  import opened EnumRol
  import opened Entities

  type Accounts = map<int, Usuario>

  /** existsByMail. */
  predicate ExistsByMail(m: Accounts, mail: string) {
    exists id :: id in m && m[id].mail == mail
  }

  /** No two accounts share a mail. Nothing in the store enforces it; crearUsuario and actualizarUsuario keep it, registrar does not. */
  predicate MailsUnicos(m: Accounts) {
    forall i, j :: i in m && j in m && m[i].mail == m[j].mail ==> i == j
  }

  /** The ids of the accounts with a mail. */
  function ConMail(m: Accounts, mail: string): (ids: set<int>)
    ensures forall id :: id in ids <==> id in m && m[id].mail == mail
  {
    set id | id in m && m[id].mail == mail
  }

  lemma EmptyOrHasElement(s: set<int>)
    ensures s == {} || exists x :: x in s
  {
    if forall x :: x !in s {
      assert s == {};
    }
  }

  lemma SingletonHasOneElement(s: set<int>, x: int)
    requires |s| == 1 && x in s
    ensures s == {x}
  {
    assert |s - {x}| == 0;
  }

  /**
   * findByMail: no account is an empty result, one account is that account,
   * and several accounts make the single-result query fail.
   */
  function FindByMail(m: Accounts, mail: string): (r: Result<Option<int>>)
    ensures r == Success(None) <==> !ExistsByMail(m, mail)
    ensures r.Failure? <==> exists i, j :: i in m && j in m && i != j && m[i].mail == mail && m[j].mail == mail
    ensures r.Failure? ==> r.error == IncorrectResultSize
    ensures r.Success? && r.value.Some? ==>
      r.value.value in m && m[r.value.value].mail == mail
      && forall id :: id in m && m[id].mail == mail ==> id == r.value.value
  {
    var ids := ConMail(m, mail);
    if |ids| == 0 then
      assert forall id :: id !in ids;
      Success(None)
    else if |ids| == 1 then
      EmptyOrHasElement(ids);
      var id :| id in ids;
      SingletonHasOneElement(ids, id);
      Success(Some(id))
    else
      EmptyOrHasElement(ids);
      var i :| i in ids;
      assert |ids - {i}| > 0;
      EmptyOrHasElement(ids - {i});
      var j :| j in ids - {i};
      Failure(IncorrectResultSize)
  }

  /** With unique mails the lookup never fails. */
  lemma FindByMailWithUniqueMails(m: Accounts, mail: string)
    requires MailsUnicos(m)
    ensures FindByMail(m, mail).Success?
  {
  }

  /** Two registrations with the same mail make every later lookup by that mail fail. */
  lemma DuplicateMailBreaksFindByMail(u: Usuario, v: Usuario)
    requires u.mail == v.mail
    ensures FindByMail(map[1 := u, 2 := v], u.mail) == Failure(IncorrectResultSize)
  {
    var m := map[1 := u, 2 := v];
    assert m[1].mail == u.mail && m[2].mail == u.mail;
  }

  /** A new account with an unused mail keeps the mails unique. */
  lemma CrearKeepsMailsUnicos(m: Accounts, id: int, u: Usuario)
    requires MailsUnicos(m) && id !in m && !ExistsByMail(m, u.mail)
    ensures MailsUnicos(m[id := u])
  {
  }

  /** Overwriting an account keeping its mail, or taking an unused one, keeps the mails unique. */
  lemma ActualizarKeepsMailsUnicos(m: Accounts, id: int, u: Usuario)
    requires MailsUnicos(m) && id in m
    requires m[id].mail == u.mail || !ExistsByMail(m, u.mail)
    ensures MailsUnicos(m[id := u])
  {
    var m' := m[id := u];
    forall i, j | i in m' && j in m' && m'[i].mail == m'[j].mail
      ensures i == j
    {
      if i != id && j != id {
        assert m[i].mail == m[j].mail;
      }
    }
  }

  /** The store after eliminarUsuario (activo false) or activarUsuario (activo true) on an existing account. */
  function ConActivo(m: Accounts, id: int, activo: bool): (r: Accounts)
    requires id in m
    ensures r.Keys == m.Keys
    ensures r[id].activo == activo && r[id].(activo := m[id].activo) == m[id]
    ensures forall j :: j in m && j != id ==> r[j] == m[j]
  {
    m[id := m[id].(activo := activo)]
  }

  /** Of a delete and a reactivation of one account, the last wins: deleting then reactivating is reactivating. */
  lemma EliminarThenActivar(m: Accounts, id: int)
    requires id in m
    ensures ConActivo(ConActivo(m, id, false), id, true) == ConActivo(m, id, true)
    ensures m[id].activo ==> ConActivo(ConActivo(m, id, false), id, true) == m
  {
  }

  /** A logical delete or a reactivation changes no mail: the lookup by mail gives the same answer before and after. */
  lemma {:induction false} ConActivoKeepsFindByMail(m: Accounts, id: int, activo: bool, mail: string)
    requires id in m
    ensures FindByMail(ConActivo(m, id, activo), mail) == FindByMail(m, mail)
    ensures MailsUnicos(m) ==> MailsUnicos(ConActivo(m, id, activo))
  {
    var r := ConActivo(m, id, activo);
    assert ConMail(r, mail) == ConMail(m, mail);
  }

  /** The fields crearUsuario receives. */
  datatype UsuarioRecord = UsuarioRecord(nombre: string, apellido: string, mail: string, password: string, roles: set<Rol>)

  /** The fields actualizarUsuario receives; the password may be null. */
  datatype UsuarioUpdateRecord = UsuarioUpdateRecord(nombre: string, apellido: string, mail: string, password: Option<string>, roles: set<Rol>)

  /** The password of an update is used only when it is non-null and not blank. */
  predicate PasswordProvided(password: Option<string>) {
    password.Some? && !IsBlank(password.value)
  }

  class UsuarioRepository {
    var usuarios: Accounts
    var nextId: int

    ghost predicate Valid()
      reads this
    {
      forall id :: id in usuarios ==> id < nextId
    }

    constructor ()
      ensures Valid() && usuarios == map[]
    {
      usuarios := map[];
      nextId := 1;
    }

    /** save of a new entity: a fresh id; no other row changes. */
    method SaveNew(u: Usuario) returns (id: int)
      requires Valid()
      modifies this
      ensures Valid()
      ensures id !in old(usuarios) && usuarios == old(usuarios)[id := u]
    {
      id := nextId;
      usuarios := usuarios[id := u];
      nextId := nextId + 1;
    }
  }

  /**
   * The service. The password encoder is a parameter, and so is the value
   * of activo that a freshly built account has.
   */
  class UsuarioService {
    const repo: UsuarioRepository
    const encode: string -> string
    const activoPorDefecto: bool

    constructor (repo: UsuarioRepository, encode: string -> string, activoPorDefecto: bool)
      ensures this.repo == repo && this.encode == encode && this.activoPorDefecto == activoPorDefecto
    {
      this.repo := repo;
      this.encode := encode;
      this.activoPorDefecto := activoPorDefecto;
    }

    /** registrar: the account is saved with its password encoded, with no check on its mail. */
    method Registrar(u: Usuario) returns (id: int)
      requires repo.Valid()
      modifies repo
      ensures repo.Valid()
      ensures id !in old(repo.usuarios)
      ensures repo.usuarios == old(repo.usuarios)[id := u.(password := encode(u.password))]
    {
      id := repo.SaveNew(u.(password := encode(u.password)));
    }

    /**
     * crearUsuario: a mail already registered is AlreadyExists and nothing
     * is saved; otherwise the account is saved with its password encoded.
     */
    method CrearUsuario(record: UsuarioRecord) returns (r: Result<int>)
      requires repo.Valid()
      modifies repo
      ensures repo.Valid()
      ensures ExistsByMail(old(repo.usuarios), record.mail) ==>
        r == Failure(AlreadyExists) && repo.usuarios == old(repo.usuarios)
      ensures !ExistsByMail(old(repo.usuarios), record.mail) ==>
        r.Success? && r.value !in old(repo.usuarios)
        && repo.usuarios == old(repo.usuarios)[r.value :=
          Usuario(record.nombre, record.apellido, record.mail, encode(record.password), record.roles, activoPorDefecto)]
    {
      if ExistsByMail(repo.usuarios, record.mail) {
        return Failure(AlreadyExists);
      }
      var usuario := Usuario(record.nombre, record.apellido, record.mail, record.password, record.roles, activoPorDefecto);
      usuario := usuario.(password := encode(record.password));
      var id := repo.SaveNew(usuario);
      r := Success(id);
    }

    /** listarTodos: the accounts that hold the OPERADOR role, active or not. */
    function ListarTodos(): (r: Accounts)
      reads repo
      ensures forall id :: id in r <==> id in repo.usuarios && OPERADOR in repo.usuarios[id].roles
      ensures forall id :: id in r ==> r[id] == repo.usuarios[id]
    {
      map id | id in repo.usuarios && OPERADOR in repo.usuarios[id].roles :: repo.usuarios[id]
    }

    /**
     * actualizarUsuario: a missing id is NotFound; a new mail used by another
     * account is AlreadyExists; otherwise nombre, apellido, mail and roles are
     * overwritten, activo is kept, and the password is replaced by the
     * encoded new one only when that is non-null and not blank (a null
     * password and a blank one such as "  " both keep the stored hash).
     */
    method ActualizarUsuario(id: int, updated: UsuarioUpdateRecord) returns (r: Result<Usuario>)
      requires repo.Valid()
      modifies repo`usuarios
      ensures repo.Valid()
      ensures id !in old(repo.usuarios) ==>
        r == Failure(NotFound(UsuarioRecurso)) && repo.usuarios == old(repo.usuarios)
      ensures id in old(repo.usuarios) && old(repo.usuarios)[id].mail != updated.mail && ExistsByMail(old(repo.usuarios), updated.mail) ==>
        r == Failure(AlreadyExists) && repo.usuarios == old(repo.usuarios)
      ensures id in old(repo.usuarios) && (old(repo.usuarios)[id].mail == updated.mail || !ExistsByMail(old(repo.usuarios), updated.mail)) ==>
        r.Success? && repo.usuarios == old(repo.usuarios)[id := r.value]
        && r.value.nombre == updated.nombre && r.value.apellido == updated.apellido
        && r.value.mail == updated.mail && r.value.roles == updated.roles
        && r.value.activo == old(repo.usuarios)[id].activo
        && (PasswordProvided(updated.password) ==> r.value.password == encode(updated.password.value))
        && (!PasswordProvided(updated.password) ==> r.value.password == old(repo.usuarios)[id].password)
    {
      if id !in repo.usuarios {
        return Failure(NotFound(UsuarioRecurso));
      }
      var existente := repo.usuarios[id];
      if existente.mail != updated.mail && ExistsByMail(repo.usuarios, updated.mail) {
        return Failure(AlreadyExists);
      }
      existente := existente.(nombre := updated.nombre, apellido := updated.apellido, mail := updated.mail, roles := updated.roles);
      if updated.password.Some? && !IsBlank(updated.password.value) {
        existente := existente.(password := encode(updated.password.value));
      }
      repo.usuarios := repo.usuarios[id := existente];
      r := Success(existente);
    }

    /** eliminarUsuario: a logical delete; the account stays, with activo false. */
    method EliminarUsuario(id: int) returns (r: Outcome)
      requires repo.Valid()
      modifies repo`usuarios
      ensures repo.Valid()
      ensures id !in old(repo.usuarios) ==> r == Fail(NotFound(UsuarioRecurso)) && repo.usuarios == old(repo.usuarios)
      ensures id in old(repo.usuarios) ==>
        r == Pass && repo.usuarios == ConActivo(old(repo.usuarios), id, false)
    {
      if id !in repo.usuarios {
        return Fail(NotFound(UsuarioRecurso));
      }
      repo.usuarios := repo.usuarios[id := repo.usuarios[id].(activo := false)];
      r := Pass;
    }

    /** activarUsuario: activo back to true. */
    method ActivarUsuario(id: int) returns (r: Result<Usuario>)
      requires repo.Valid()
      modifies repo`usuarios
      ensures repo.Valid()
      ensures id !in old(repo.usuarios) ==> r == Failure(NotFound(UsuarioRecurso)) && repo.usuarios == old(repo.usuarios)
      ensures id in old(repo.usuarios) ==>
        r == Success(ConActivo(old(repo.usuarios), id, true)[id]) && repo.usuarios == ConActivo(old(repo.usuarios), id, true)
    {
      if id !in repo.usuarios {
        return Failure(NotFound(UsuarioRecurso));
      }
      var usuario := repo.usuarios[id].(activo := true);
      repo.usuarios := repo.usuarios[id := usuario];
      r := Success(usuario);
    }

    /** obtenerUsuarioPorId. */
    function ObtenerUsuarioPorId(id: int): (r: Result<Usuario>)
      reads repo
      ensures r.Success? <==> id in repo.usuarios
      ensures r.Success? ==> r.value == repo.usuarios[id]
      ensures r.Failure? ==> r.error == NotFound(UsuarioRecurso)
    {
      if id in repo.usuarios then Success(repo.usuarios[id]) else Failure(NotFound(UsuarioRecurso))
    }
  }
}
