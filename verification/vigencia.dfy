/**
 * The daily expiry sweep (LicenciaVigenciaScheduler): at midnight every
 * active licence whose expiry is before the new day is deactivated. The
 * clock is the parameter today.
 */
module Vigencia {
  import opened Dates
  import opened EnumClaseLicencia
  import opened Licencias

  class LicenciaVigenciaScheduler {
    const licenciaRepository: LicenciaRepository

    constructor (licenciaRepository: LicenciaRepository)
      ensures this.licenciaRepository == licenciaRepository
    {
      this.licenciaRepository := licenciaRepository;
    }

    /**
     * marcarVencidas: the sweep of the store. Afterwards no active licence
     * has an expiry before today; a licence expiring today or later keeps
     * its flag; only flags change.
     */
    method MarcarVencidas(today: Date)
      requires licenciaRepository.Valid()
      modifies licenciaRepository`licencias
      ensures licenciaRepository.Valid()
      ensures licenciaRepository.licencias == DeactivateExpiredRows(old(licenciaRepository.licencias), today)
      ensures licenciaRepository.licencias.Keys == old(licenciaRepository.licencias).Keys
      ensures forall id :: id in licenciaRepository.licencias && licenciaRepository.licencias[id].vigente ==>
        !IsBefore(licenciaRepository.licencias[id].fechaVencimiento, today)
      ensures forall id :: id in licenciaRepository.licencias && !IsBefore(licenciaRepository.licencias[id].fechaVencimiento, today) ==>
        licenciaRepository.licencias[id] == old(licenciaRepository.licencias)[id]
    {
      licenciaRepository.DeactivateExpired(today);
      forall id | id in licenciaRepository.licencias
        ensures licenciaRepository.licencias[id].vigente ==> !IsBefore(licenciaRepository.licencias[id].fechaVencimiento, today)
        ensures !IsBefore(licenciaRepository.licencias[id].fechaVencimiento, today) ==>
          licenciaRepository.licencias[id] == old(licenciaRepository.licencias)[id]
      {
        DeactivateExpiredExact(old(licenciaRepository.licencias), today, id);
      }
    }
  }

  /**
   * The sweep never changes the duplicate guard of an issue on the same day
   * or later: it only deactivates licences that expired before that day,
   * which the guard already ignores.
   */
  lemma SweepKeepsDuplicateGuard(m: Store, sweepDay: Date, today: Date, titularId: int, clase: ClaseLicencia)
    requires !IsBefore(today, sweepDay)
    ensures ExistsByTitularIdAndClaseAndVigenteTrueAndFechaVencimientoAfter(DeactivateExpiredRows(m, sweepDay), titularId, clase, today)
      == ExistsByTitularIdAndClaseAndVigenteTrueAndFechaVencimientoAfter(m, titularId, clase, today)
  {
    var s := DeactivateExpiredRows(m, sweepDay);
    if ExistsByTitularIdAndClaseAndVigenteTrueAndFechaVencimientoAfter(m, titularId, clase, today) {
      var id :| id in m && m[id].titularId == titularId && m[id].clase == clase && m[id].vigente && IsAfter(m[id].fechaVencimiento, today);
      DeactivateExpiredExact(m, sweepDay, id);
      assert s[id] == m[id];
    }
    if ExistsByTitularIdAndClaseAndVigenteTrueAndFechaVencimientoAfter(s, titularId, clase, today) {
      var id :| id in s && s[id].titularId == titularId && s[id].clase == clase && s[id].vigente && IsAfter(s[id].fechaVencimiento, today);
      DeactivateExpiredExact(m, sweepDay, id);
    }
  }

  /** Sweeping twice on the same day is sweeping once; a later sweep after an earlier one is the later sweep alone. */
  lemma SweepsCompose(m: Store, earlier: Date, later: Date)
    requires !IsBefore(later, earlier)
    ensures DeactivateExpiredRows(DeactivateExpiredRows(m, earlier), later) == DeactivateExpiredRows(m, later)
  {
    var a := DeactivateExpiredRows(DeactivateExpiredRows(m, earlier), later);
    var b := DeactivateExpiredRows(m, later);
    forall id | id in m
      ensures a[id] == b[id]
    {
      DeactivateExpiredExact(m, earlier, id);
      DeactivateExpiredExact(DeactivateExpiredRows(m, earlier), later, id);
      DeactivateExpiredExact(m, later, id);
    }
  }
}
