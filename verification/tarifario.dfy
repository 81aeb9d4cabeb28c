/**
 * The tariff table (TarifarioLicenciaRepository) and the start-up runner that
 * seeds it (AppLicenciaApplication.cargaTarifario).
 */
module Tarifario {
  import opened Common
  import opened EnumClaseLicencia
  import opened Entities

  /** The rows of the tariff table, in the order they were saved (the order findAll returns them in). */
  class TarifarioLicenciaRepository {
    var rows: seq<TarifarioLicencia>

    constructor ()
      ensures rows == []
    {
      rows := [];
    }

    /** count(). */
    function Count(): (n: nat)
      reads this
      ensures n == 0 <==> rows == []
    {
      |rows|
    }

    /** save of a new row: it is appended; no other row changes. */
    method Save(row: TarifarioLicencia)
      modifies this
      ensures rows == old(rows) + [row]
    {
      rows := rows + [row];
    }
  }

  /** The twenty rows cargaTarifario saves, in its order: classes A, B, C, E and G, each for 5, 4, 3 and 1 years. */
  function SeedRows(): (r: seq<TarifarioLicencia>)
    ensures |r| == 20
  {
    [ TarifarioLicencia(A, 5, 40.0), TarifarioLicencia(A, 4, 30.0), TarifarioLicencia(A, 3, 25.0), TarifarioLicencia(A, 1, 20.0),
      TarifarioLicencia(B, 5, 40.0), TarifarioLicencia(B, 4, 30.0), TarifarioLicencia(B, 3, 25.0), TarifarioLicencia(B, 1, 20.0),
      TarifarioLicencia(C, 5, 47.0), TarifarioLicencia(C, 4, 35.0), TarifarioLicencia(C, 3, 30.0), TarifarioLicencia(C, 1, 23.0),
      TarifarioLicencia(E, 5, 59.0), TarifarioLicencia(E, 4, 44.0), TarifarioLicencia(E, 3, 39.0), TarifarioLicencia(E, 1, 29.0),
      TarifarioLicencia(G, 5, 40.0), TarifarioLicencia(G, 4, 30.0), TarifarioLicencia(G, 3, 25.0), TarifarioLicencia(G, 1, 20.0) ]
  }

  /**
   * The seeded base fee of a class for a number of years, written as a table
   * by class: A, B and G share one scale, C and E have their own, D and F have none.
   */
  function SeedPrice(clase: ClaseLicencia, anios: int): (p: Option<real>)
    ensures p.Some? ==> anios in {1, 3, 4, 5} && clase !in {D, F}
  {
    match clase
    case A | B | G =>
      if anios == 5 then Some(40.0) else if anios == 4 then Some(30.0)
      else if anios == 3 then Some(25.0) else if anios == 1 then Some(20.0) else None
    case C =>
      if anios == 5 then Some(47.0) else if anios == 4 then Some(35.0)
      else if anios == 3 then Some(30.0) else if anios == 1 then Some(23.0) else None
    case E =>
      if anios == 5 then Some(59.0) else if anios == 4 then Some(44.0)
      else if anios == 3 then Some(39.0) else if anios == 1 then Some(29.0) else None
    case D | F => None
  }

  /** Every seeded row is an entry of the price table. */
  lemma SeedRowsInTable()
    ensures forall r :: r in SeedRows() ==> SeedPrice(r.claseLicencia, r.vigenciaAnios) == Some(r.costo)
  {
    var s := SeedRows();
    forall i | 0 <= i < |s|
      ensures SeedPrice(s[i].claseLicencia, s[i].vigenciaAnios) == Some(s[i].costo)
    {
      if i < 4 {} else if i < 8 {} else if i < 12 {} else if i < 16 {} else {}
    }
  }

  /** Every entry of the price table is a seeded row. */
  lemma TableInSeedRows(c: ClaseLicencia, y: int)
    requires SeedPrice(c, y).Some?
    ensures TarifarioLicencia(c, y, SeedPrice(c, y).value) in SeedRows()
  {
  }

  /** cargaTarifario: on an empty table it saves the seed rows in order; a table that already has rows is left alone. */
  method CargaTarifario(repo: TarifarioLicenciaRepository)
    modifies repo
    ensures old(repo.rows) == [] ==> repo.rows == SeedRows()
    ensures old(repo.rows) != [] ==> repo.rows == old(repo.rows)
  {
    if repo.Count() == 0 {
      var seed := SeedRows();
      for i := 0 to |seed|
        invariant repo.rows == seed[..i]
      {
        repo.Save(seed[i]);
        assert seed[..i + 1] == seed[..i] + [seed[i]];
      }
      assert seed[..|seed|] == seed;
    }
  }
}
