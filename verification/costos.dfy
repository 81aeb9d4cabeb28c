/**
 * The licence cost (CostoLicenciaHelper): the tariff rows grouped by class and
 * years once at start-up, then an exact lookup plus the administrative fee.
 */
module Costos {
  import opened Common
  import opened EnumClaseLicencia
  import opened Entities
  import opened Tarifario

  /** class -> (years -> base fee). */
  type Tarifas = map<ClaseLicencia, map<int, real>>

  /** The administrative fee when the property app.licencia.gastos-admin is not set. */
  const GastosAdminPorDefecto: real := 8.0

  predicate Priced(t: Tarifas, clase: ClaseLicencia, anios: int) {
    clase in t && anios in t[clase]
  }

  predicate IsKey(row: TarifarioLicencia, clase: ClaseLicencia, anios: int) {
    row.claseLicencia == clase && row.vigenciaAnios == anios
  }

  /** Some row of the table is for this class and number of years. */
  predicate HasKey(rows: seq<TarifarioLicencia>, clase: ClaseLicencia, anios: int) {
    exists r :: r in rows && IsKey(r, clase, anios)
  }

  /** Adds one row to the grouping; a (class, years) key already present keeps its value (the merge keeps the existing one). */
  function Insertar(t: Tarifas, row: TarifarioLicencia): Tarifas {
    var porVigencia := if row.claseLicencia in t then t[row.claseLicencia] else map[];
    if row.vigenciaAnios in porVigencia then t
    else t[row.claseLicencia := porVigencia[row.vigenciaAnios := row.costo]]
  }

  /** The grouping of init: the rows folded in the order findAll returns them. */
  function Agrupar(rows: seq<TarifarioLicencia>): Tarifas {
    if rows == [] then map[] else Insertar(Agrupar(rows[..|rows| - 1]), rows[|rows| - 1])
  }

  lemma InsertarPriced(t: Tarifas, row: TarifarioLicencia, clase: ClaseLicencia, anios: int)
    ensures Priced(Insertar(t, row), clase, anios) <==> Priced(t, clase, anios) || IsKey(row, clase, anios)
    ensures Priced(t, clase, anios) ==> Insertar(t, row)[clase][anios] == t[clase][anios]
    ensures !Priced(t, clase, anios) && IsKey(row, clase, anios) ==> Insertar(t, row)[clase][anios] == row.costo
  {
  }

  /** A (class, years) pair is priced exactly when some row is for it. */
  lemma {:induction false} AgruparKeys(rows: seq<TarifarioLicencia>, clase: ClaseLicencia, anios: int)
    ensures Priced(Agrupar(rows), clase, anios) <==> HasKey(rows, clase, anios)
  {
    if rows != [] {
      var init, last := rows[..|rows| - 1], rows[|rows| - 1];
      assert rows == init + [last];
      AgruparKeys(init, clase, anios);
      InsertarPriced(Agrupar(init), last, clase, anios);
      if HasKey(rows, clase, anios) && !IsKey(last, clase, anios) {
        var r :| r in rows && IsKey(r, clase, anios);
        assert r in init;
      }
      if HasKey(init, clase, anios) {
        var r :| r in init && IsKey(r, clase, anios);
        assert r in rows;
      }
    }
  }

  /**
   * Duplicate rows: the fee of a pair is the fee of the FIRST row for it,
   * whatever rows for the same pair come after.
   */
  lemma {:induction false} AgruparKeepsFirst(rows: seq<TarifarioLicencia>, i: int)
    requires 0 <= i < |rows|
    requires forall j :: 0 <= j < i ==> !IsKey(rows[j], rows[i].claseLicencia, rows[i].vigenciaAnios)
    ensures Priced(Agrupar(rows), rows[i].claseLicencia, rows[i].vigenciaAnios)
    ensures Agrupar(rows)[rows[i].claseLicencia][rows[i].vigenciaAnios] == rows[i].costo
  {
    var clase, anios := rows[i].claseLicencia, rows[i].vigenciaAnios;
    var init, last := rows[..|rows| - 1], rows[|rows| - 1];
    InsertarPriced(Agrupar(init), last, clase, anios);
    if i == |rows| - 1 {
      AgruparKeys(init, clase, anios);
      assert !HasKey(init, clase, anios) by {
        forall r | r in init
          ensures !IsKey(r, clase, anios)
        {
          var j :| 0 <= j < |init| && init[j] == r;
          assert rows[j] == r;
        }
      }
    } else {
      AgruparKeepsFirst(init, i);
    }
  }

  /** Every fee in the grouping is the fee of some row for its pair: nothing is invented. */
  lemma {:induction false} AgruparFromRows(rows: seq<TarifarioLicencia>, clase: ClaseLicencia, anios: int)
    requires Priced(Agrupar(rows), clase, anios)
    ensures exists r :: r in rows && IsKey(r, clase, anios) && r.costo == Agrupar(rows)[clase][anios]
  {
    var init, last := rows[..|rows| - 1], rows[|rows| - 1];
    assert rows == init + [last];
    InsertarPriced(Agrupar(init), last, clase, anios);
    if Priced(Agrupar(init), clase, anios) {
      AgruparFromRows(init, clase, anios);
      var r :| r in init && IsKey(r, clase, anios) && r.costo == Agrupar(init)[clase][anios];
      assert r in rows;
    } else {
      assert last in rows;
    }
  }

  /** The grouping of the seeded table is the price table: its pairs and its fees. */
  lemma SeededTariffs(clase: ClaseLicencia, anios: int)
    ensures Priced(Agrupar(SeedRows()), clase, anios) <==> SeedPrice(clase, anios).Some?
    ensures Priced(Agrupar(SeedRows()), clase, anios) ==> Agrupar(SeedRows())[clase][anios] == SeedPrice(clase, anios).value
  {
    var t := Agrupar(SeedRows());
    AgruparKeys(SeedRows(), clase, anios);
    SeedRowsInTable();
    if SeedPrice(clase, anios).Some? {
      TableInSeedRows(clase, anios);
    }
    if Priced(t, clase, anios) {
      AgruparFromRows(SeedRows(), clase, anios);
    }
  }

  /** The seeded table prices no class D or F licence, for any number of years. */
  lemma SeededLeavesDAndFUnpriced(anios: int)
    ensures !Priced(Agrupar(SeedRows()), D, anios)
    ensures !Priced(Agrupar(SeedRows()), F, anios)
  {
    SeededTariffs(D, anios);
    SeededTariffs(F, anios);
  }

  /** Every seeded class is priced for exactly 1, 3, 4 and 5 years. */
  lemma SeededYears(clase: ClaseLicencia, anios: int)
    requires clase in {A, B, C, E, G}
    ensures Priced(Agrupar(SeedRows()), clase, anios) <==> anios in {1, 3, 4, 5}
  {
    SeededTariffs(clase, anios);
  }

  /** In the seeded table a longer validity always costs strictly more. */
  lemma SeededFeeIncreasesWithYears(clase: ClaseLicencia, menos: int, mas: int)
    requires Priced(Agrupar(SeedRows()), clase, menos) && Priced(Agrupar(SeedRows()), clase, mas)
    requires menos < mas
    ensures Agrupar(SeedRows())[clase][menos] < Agrupar(SeedRows())[clase][mas]
  {
    SeededTariffs(clase, menos);
    SeededTariffs(clase, mas);
  }

  /** The helper: the administrative fee and the tariff map, both fixed once built. */
  class CostoLicenciaHelper {
    const gastosAdmin: real
    const tarifas: Tarifas

    /** Construction followed by init: the map is the grouping of every row the table holds at that moment. */
    constructor Init(repo: TarifarioLicenciaRepository, gastosAdmin: real)
      ensures this.gastosAdmin == gastosAdmin
      ensures tarifas == Agrupar(repo.rows)
    {
      this.gastosAdmin := gastosAdmin;
      tarifas := Agrupar(repo.rows);
    }

    /**
     * obtenerCosto: the base fee of exactly (clase, anios) plus the
     * administrative fee; a missing class or a missing number of years
     * within the class is NotFound, with no fallback to a nearby pair.
     */
    function ObtenerCosto(clase: ClaseLicencia, anios: int): (r: Result<real>)
      ensures r.Success? <==> Priced(tarifas, clase, anios)
      ensures r.Success? ==> r.value - gastosAdmin == tarifas[clase][anios]
      ensures r.Failure? ==> r.error == NotFound(TarifaRecurso)
    {
      var porVigencia := if clase in tarifas then tarifas[clase] else map[];
      if anios !in porVigencia then Failure(NotFound(TarifaRecurso))
      else Success(porVigencia[anios] + gastosAdmin)
    }
  }

  /** A helper built over the table: its lookups succeed exactly for the pairs some row is for, at that row's first fee plus the administrative fee. */
  lemma ObtenerCostoOverRows(h: CostoLicenciaHelper, rows: seq<TarifarioLicencia>, i: int)
    requires h.tarifas == Agrupar(rows)
    requires 0 <= i < |rows|
    requires forall j :: 0 <= j < i ==> !IsKey(rows[j], rows[i].claseLicencia, rows[i].vigenciaAnios)
    ensures h.ObtenerCosto(rows[i].claseLicencia, rows[i].vigenciaAnios) == Success(rows[i].costo + h.gastosAdmin)
  {
    AgruparKeepsFirst(rows, i);
  }

  /** A helper built over the seeded table with the default fee: exact prices, and no price for D or F. */
  lemma ObtenerCostoSeeded(h: CostoLicenciaHelper, clase: ClaseLicencia, anios: int)
    requires h.tarifas == Agrupar(SeedRows()) && h.gastosAdmin == GastosAdminPorDefecto
    ensures clase in {D, F} ==> h.ObtenerCosto(clase, anios) == Failure(NotFound(TarifaRecurso))
    ensures h.ObtenerCosto(clase, anios).Success? <==> clase !in {D, F} && anios in {1, 3, 4, 5}
    ensures h.ObtenerCosto(clase, anios).Success? ==> h.ObtenerCosto(clase, anios).value == SeedPrice(clase, anios).value + 8.0
  {
    SeededTariffs(clase, anios);
  }
}
