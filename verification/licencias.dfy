/**
 * The licence store (LicenciaRepository): the rows keyed by id, the bulk
 * deactivation of expired rows, and the derived queries as filters.
 */
module Licencias {
  import opened Common
  import opened Dates
  import opened EnumClaseLicencia
  import opened EnumTipoDocumento
  import opened Entities

  type Store = map<int, Licencia>

  class LicenciaRepository {
    var licencias: Store
    var nextId: int

    /** Generated identities are never reused. */
    ghost predicate Valid()
      reads this
    {
      forall id :: id in licencias ==> id < nextId
    }

    constructor ()
      ensures Valid() && licencias == map[]
    {
      licencias := map[];
      nextId := 1;
    }

    /** save of a new entity: it receives a fresh identity; no other row changes. */
    method SaveNew(l: Licencia) returns (id: int)
      requires Valid()
      modifies this
      ensures Valid()
      ensures id !in old(licencias) && licencias == old(licencias)[id := l]
    {
      id := nextId;
      licencias := licencias[id := l];
      nextId := nextId + 1;
    }

    /** save of an entity that already has an identity: its row is overwritten. */
    method SaveExisting(id: int, l: Licencia)
      requires Valid() && id in licencias
      modifies this`licencias
      ensures Valid()
      ensures licencias == old(licencias)[id := l]
    {
      licencias := licencias[id := l];
    }

    /** deactivateExpired: UPDATE ... SET vigente = false WHERE vigente = true AND fechaVencimiento < fecha. */
    method DeactivateExpired(fecha: Date)
      requires Valid()
      modifies this`licencias
      ensures Valid()
      ensures licencias == DeactivateExpiredRows(old(licencias), fecha)
    {
      licencias := DeactivateExpiredRows(licencias, fecha);
    }

    /** The cascade of a holder's removal: every licence of that holder is deleted with it. */
    method DeleteByTitularId(titularId: int)
      requires Valid()
      modifies this`licencias
      ensures Valid()
      ensures licencias == SinTitular(old(licencias), titularId)
    {
      licencias := SinTitular(licencias, titularId);
    }
  }

  /** The rows left once a holder's licences are deleted: exactly the rows of other holders, unchanged. */
  function SinTitular(m: Store, titularId: int): (r: Store)
    ensures forall id :: id in r <==> id in m && m[id].titularId != titularId
    ensures forall id :: id in r ==> r[id] == m[id]
  {
    map id | id in m && m[id].titularId != titularId :: m[id]
  }

  predicate IsExpiredAt(l: Licencia, fecha: Date) {
    IsBefore(l.fechaVencimiento, fecha)
  }

  /** The rows after the bulk update of deactivateExpired. */
  function DeactivateExpiredRows(m: Store, fecha: Date): Store {
    map id | id in m :: if m[id].vigente && IsExpiredAt(m[id], fecha) then m[id].(vigente := false) else m[id]
  }

  /** deactivateExpired clears vigente exactly on the active expired rows and touches nothing else. */
  lemma DeactivateExpiredExact(m: Store, fecha: Date, id: int)
    requires id in m
    ensures id in DeactivateExpiredRows(m, fecha)
    ensures DeactivateExpiredRows(m, fecha)[id].vigente == (m[id].vigente && !IsExpiredAt(m[id], fecha))
    ensures DeactivateExpiredRows(m, fecha)[id].(vigente := m[id].vigente) == m[id]
  {
  }

  /** deactivateExpired never sets vigente to true and keeps every row. */
  lemma DeactivateExpiredNeverActivates(m: Store, fecha: Date)
    ensures DeactivateExpiredRows(m, fecha).Keys == m.Keys
    ensures forall id :: id in m && DeactivateExpiredRows(m, fecha)[id].vigente ==> m[id].vigente
  {
  }

  /** Applying deactivateExpired twice with the same date is applying it once. */
  lemma DeactivateExpiredIdempotent(m: Store, fecha: Date)
    ensures DeactivateExpiredRows(DeactivateExpiredRows(m, fecha), fecha) == DeactivateExpiredRows(m, fecha)
  {
  }

  /** count(). */
  function Count(m: Store): (n: nat)
    ensures n == |m.Keys|
  {
    |m|
  }

  /** findByFechaVencimientoBefore: every row whose expiry precedes the date, active or not. */
  function FindByFechaVencimientoBefore(m: Store, fecha: Date): (r: Store)
    ensures forall id :: id in r <==> id in m && IsExpiredAt(m[id], fecha)
    ensures forall id :: id in r ==> r[id] == m[id]
  {
    map id | id in m && IsExpiredAt(m[id], fecha) :: m[id]
  }

  /** countByFechaVencimientoBefore: the number of rows whose expiry precedes the date. */
  function CountByFechaVencimientoBefore(m: Store, fecha: Date): (n: nat)
    ensures n <= |m|
    ensures n == |FindByFechaVencimientoBefore(m, fecha)|
  {
    var ids := set id | id in m && IsExpiredAt(m[id], fecha);
    assert ids <= m.Keys;
    assert ids == FindByFechaVencimientoBefore(m, fecha).Keys;
    Subsize(ids, m.Keys);
    |ids|
  }

  lemma Subsize<T>(a: set<T>, b: set<T>)
    requires a <= b
    ensures |a| <= |b|
  {
    assert b == a + (b - a);
  }

  /** existsByTitularIdAndClaseAndVigenteTrueAndFechaVencimientoAfter. */
  predicate ExistsByTitularIdAndClaseAndVigenteTrueAndFechaVencimientoAfter(m: Store, titularId: int, clase: ClaseLicencia, fecha: Date) {
    exists id :: id in m && m[id].titularId == titularId && m[id].clase == clase && m[id].vigente && IsAfter(m[id].fechaVencimiento, fecha)
  }

  /** findByTitularAndClase: every row of the holder and class, whatever its state and dates. */
  function FindByTitularAndClase(m: Store, titularId: int, clase: ClaseLicencia): (r: Store)
    ensures forall id :: id in r <==> id in m && m[id].titularId == titularId && m[id].clase == clase
    ensures forall id :: id in r ==> r[id] == m[id]
  {
    map id | id in m && m[id].titularId == titularId && m[id].clase == clase :: m[id]
  }

  /** existsByTitularAndClase. */
  predicate ExistsByTitularAndClase(m: Store, titularId: int, clase: ClaseLicencia) {
    exists id :: id in m && m[id].titularId == titularId && m[id].clase == clase
  }

  /** The exists query is the emptiness test of the find query. */
  lemma ExistsByTitularAndClaseIsFindNonEmpty(m: Store, titularId: int, clase: ClaseLicencia)
    ensures ExistsByTitularAndClase(m, titularId, clase) <==> FindByTitularAndClase(m, titularId, clase).Keys != {}
  {
    var r := FindByTitularAndClase(m, titularId, clase);
    if !ExistsByTitularAndClase(m, titularId, clase) {
      assert forall id :: id !in r.Keys;
      assert r.Keys == {};
    } else {
      var id :| id in m && m[id].titularId == titularId && m[id].clase == clase;
      assert id in r.Keys;
    }
  }

  /** An active, unexpired row of the holder and class is in particular a row of the holder and class. */
  lemma ActiveUnexpiredImpliesExists(m: Store, titularId: int, clase: ClaseLicencia, fecha: Date)
    requires ExistsByTitularIdAndClaseAndVigenteTrueAndFechaVencimientoAfter(m, titularId, clase, fecha)
    ensures ExistsByTitularAndClase(m, titularId, clase)
  {
  }

  /** existsByTitularAndClase ignores vigente and dates: the expiry sweep never changes its answer. */
  lemma ExistsByTitularAndClaseIgnoresSweep(m: Store, fecha: Date, titularId: int, clase: ClaseLicencia)
    ensures ExistsByTitularAndClase(DeactivateExpiredRows(m, fecha), titularId, clase) == ExistsByTitularAndClase(m, titularId, clase)
  {
    var s := DeactivateExpiredRows(m, fecha);
    if ExistsByTitularAndClase(m, titularId, clase) {
      var id :| id in m && m[id].titularId == titularId && m[id].clase == clase;
      assert s[id].titularId == titularId && s[id].clase == clase;
    }
  }

  /** findByTitularTipoDocumentoAndTitularNumeroDocumento: the rows whose holder has that document type and number. */
  function FindByTitularTipoDocumentoAndTitularNumeroDocumento(
    m: Store, titulares: map<int, Titular>, tipo: TipoDocumento, numero: string): (r: Store)
    ensures forall id :: id in r <==>
      id in m && m[id].titularId in titulares
      && titulares[m[id].titularId].tipoDocumento == tipo
      && titulares[m[id].titularId].numeroDocumento == numero
    ensures forall id :: id in r ==> r[id] == m[id]
  {
    map id | id in m && m[id].titularId in titulares
      && titulares[m[id].titularId].tipoDocumento == tipo
      && titulares[m[id].titularId].numeroDocumento == numero :: m[id]
  }
}
