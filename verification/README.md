# Driver's-licence lifecycle engine — a Dafny model

This project models the core of the licence back end of the `app_licencia` Spring application. It covers:

- the rules that decide whether a holder (titular) may receive a licence class, how many years it is valid and when it expires;
- the tariff that prices a licence, and the seed that fills the tariff table;
- the licence service: issue, renewal, copy and the read-only reports;
- the daily expiry sweep;
- the holder and operator registries;
- the small parsers and normalisers the engine depends on (the enum `from` parsers and the account requests).

Each source file becomes a Dafny module in the form the source has:

| module | file | models |
|---|---|---|
| `Common` | common.dfy | `Option`, `Result`, `Outcome` and the error kinds the engine throws (not found, already exists, invalid licence, illegal argument or state, date-time, result size, null) |
| `Text` | text.dfy | `String.trim`, `toUpperCase`, `toLowerCase`, `isBlank` on `seq<char>` |
| `Dates` | dates.dfy | the part of `LocalDate` used: validity, order, `withMonth`, `withDayOfMonth`, `plusYears`, `minusYears` |
| `EnumClaseLicencia`, `EnumTipoDocumento`, `EnumGrupoSanguineo`, `EnumFactorRh`, `EnumRol` | enum_*.dfy | the five enums, `name`, `valueOf` and `from` |
| `Entities` | entities.dfy | the records `Titular`, `Licencia`, `Usuario`, `TarifarioLicencia` |
| `Licencias` | licencias.dfy | the licence store as a class over `map<int, Licencia>`, its bulk update and its derived queries |
| `Tarifario` | tarifario.dfy | the tariff table as a class over a `seq` of rows, and the start-up seed `cargaTarifario` |
| `Costos` | costos.dfy | `CostoLicenciaHelper`: the grouping done by `init` and the lookup `obtenerCosto` |
| `Reglas` | reglas.dfy | `LicenciaHelper`: eligibility, validity in years, expiry date |
| `Titulares` | titulares.dfy | the holder repository and `TitularService`, including the search-filter normalisation |
| `Usuarios` | usuarios.dfy | the operator repository and `UsuarioService` |
| `ServicioLicencias` | emision.dfy | `LicenciaService` |
| `Vigencia` | vigencia.dfy | `LicenciaVigenciaScheduler` |
| `Solicitudes` | solicitudes.dfy | the compact constructors of `RegisterRequest` and `AuthRequest` |

How the model is built:

- **Clock and age.** The clock (`LocalDate.now()`) is the parameter `today`. The holder's age (`getEdad()`) is the parameter `edad`.
- **Money.** Amounts are `real`.
- **Stores.** The licence, holder and account repositories are classes holding a map from generated id to record, plus a `nextId` that is never reused. The tariff repository holds a `seq` of rows, because `init` depends on the order `findAll` returns them in.
- **Operations.** Every state-changing service operation is a method that `modifies` exactly the repositories it saves to. The three licence operations are proved to follow a pure plan function: `PlanEmision`, `PlanRenovacion` or `PlanCopia`. The plan says which error aborts the transaction, or which records are written. The holder and account operations state their new store directly in their postconditions, in terms of the old one. On every error path the method leaves the stores unchanged, which is how the model treats each `@Transactional` operation: as all-or-nothing.
- **Errors.** An exception is a `Failure` carrying the matching error kind.

## Model

Source paths are relative to the repository root.

| member | source | states |
|---|---|---|
| Text.Trim | src/main/java/com/tpagiles/app_licencia/model/enums/ClaseLicencia.java:10 | the result of `trim` starts and ends with a char above U+0020 and is no longer than the input |
| Text.TrimPadded | src/main/java/com/tpagiles/app_licencia/model/enums/ClaseLicencia.java:10 | `trim` removes surrounding chars up to U+0020 of any length and nothing else: trim(pre + s + post) == s for a trimmed s |
| Text.TrimIdempotent | src/main/java/com/tpagiles/app_licencia/dto/RegisterRequest.java:38-39 | trimming a trimmed string changes nothing |
| Text.ToUpperCase | src/main/java/com/tpagiles/app_licencia/model/enums/ClaseLicencia.java:10 | same length, no lower-case letter left, each char equal to the input's up to letter case |
| Text.ToLowerCase | src/main/java/com/tpagiles/app_licencia/dto/RegisterRequest.java:40 | same length, no upper-case letter left, each char equal to the input's up to letter case |
| Text.TrimMapped | src/main/java/com/tpagiles/app_licencia/dto/RegisterRequest.java:40 | trimming commutes with any char mapping that keeps the trim boundary, in particular with both case mappings |
| Text.CaseMappingsKeepTrimmable | src/main/java/com/tpagiles/app_licencia/dto/RegisterRequest.java:40 | neither case mapping moves a char across U+0020 |
| Text.ToLowerCaseIdempotent | src/main/java/com/tpagiles/app_licencia/dto/AuthRequest.java:36 | lower-casing twice is lower-casing once |
| Text.ToUpperCaseOfUpper | src/main/java/com/tpagiles/app_licencia/model/enums/ClaseLicencia.java:10 | a string without lower-case letters is its own upper-case form |
| Text.ToUpperCaseOfIgnoreCase | src/main/java/com/tpagiles/app_licencia/model/enums/ClaseLicencia.java:10 | a string equal to an upper-case name up to letter case upper-cases to exactly that name |
| Text.NormalizeLowerIdempotent | src/main/java/com/tpagiles/app_licencia/dto/RegisterRequest.java:40 | `trim().toLowerCase()` is a normal form: applying it twice is applying it once |
| Text.ToUpperCaseOfTrimmed | src/main/java/com/tpagiles/app_licencia/service/impl/TitularService.java:125 | upper-casing a trimmed text keeps it trimmed and changes nothing but letter case |
| Text.NormalizeUpperIdempotent | src/main/java/com/tpagiles/app_licencia/service/impl/TitularService.java:125 | `trim().toUpperCase()` is a normal form |
| Text.IgnoreCaseKeepsTrimmed | src/main/java/com/tpagiles/app_licencia/model/enums/ClaseLicencia.java:10 | a string equal up to case to a trimmed upper-case name is trimmed too |
| Text.UpperTrimOfPadded | src/main/java/com/tpagiles/app_licencia/model/enums/ClaseLicencia.java:10 | what every enum parser sees: padding and letter case of a name vanish under trim then toUpperCase |
| Text.IsWhitespace | src/main/java/com/tpagiles/app_licencia/service/impl/UsuarioService.java:86 | `Character.isWhitespace`: the Unicode space, line and paragraph separators except the no-break spaces, and the controls U+0009..U+000D and U+001C..U+001F; definition, no contract |
| Text.IsBlank | src/main/java/com/tpagiles/app_licencia/service/impl/UsuarioService.java:86 | `String.isBlank`: every char is whitespace in that sense, so U+0001 is not blank although `trim` removes it (see Titulares.FactorRhControlCharIsRejected); definition, no contract |
| Dates.LengthOfMonth | src/main/java/com/tpagiles/app_licencia/service/helper/LicenciaHelper.java:75-76 | month lengths lie in 28..31, and 29 occurs exactly for February of a leap year |
| Dates.IsBefore | src/main/java/com/tpagiles/app_licencia/service/impl/LicenciaService.java:195 | `LocalDate.isBefore`: the order by year, then month, then day; definition, its properties are Dates.IsBeforeTotal and Dates.IsBeforeTransitive |
| Dates.IsAfter | src/main/java/com/tpagiles/app_licencia/service/impl/LicenciaService.java:165 | `LocalDate.isAfter`: `isBefore` with the operands swapped; definition, no contract |
| Dates.IsBeforeTotal | src/main/java/com/tpagiles/app_licencia/service/impl/LicenciaService.java:181-182 | `isBefore` is a strict total order, so "after or equal" is exactly "not before" |
| Dates.IsBeforeTransitive | src/main/java/com/tpagiles/app_licencia/service/impl/LicenciaService.java:195 | `isBefore` is transitive |
| Dates.WithMonth | src/main/java/com/tpagiles/app_licencia/service/helper/LicenciaHelper.java:75 | `withMonth` keeps the year and the day, clamping the day to the new month's last day |
| Dates.WithDayOfMonth | src/main/java/com/tpagiles/app_licencia/service/helper/LicenciaHelper.java:76 | `withDayOfMonth` succeeds exactly for a day the month has, and otherwise raises the date-time error |
| Dates.PlusYears | src/main/java/com/tpagiles/app_licencia/service/helper/LicenciaHelper.java:77 | `plusYears` keeps month and day, turning 29 February into 28 February in a common year |
| Dates.MinusYears | src/main/java/com/tpagiles/app_licencia/service/helper/LicenciaHelper.java:53 | `minusYears` moves the year back and keeps the month and the day, except that 29 February becomes 28 February when the target year is common |
| Dates.PlusYearsIsLater | src/main/java/com/tpagiles/app_licencia/service/helper/LicenciaHelper.java:77 | adding one year or more always gives a strictly later date |
| EnumClaseLicencia.ValuesAreAll | src/main/java/com/tpagiles/app_licencia/model/enums/ClaseLicencia.java:6 | there are exactly seven classes, A to G, each listed once |
| EnumClaseLicencia.Name | src/main/java/com/tpagiles/app_licencia/model/enums/ClaseLicencia.java:6 | every name is non-empty, trimmed and upper-case |
| EnumClaseLicencia.ValueOf | src/main/java/com/tpagiles/app_licencia/model/enums/ClaseLicencia.java:10 | `valueOf` succeeds exactly on a value's name and returns that value; otherwise it is IllegalArgument |
| EnumClaseLicencia.From | src/main/java/com/tpagiles/app_licencia/model/enums/ClaseLicencia.java:9-11 | a parsed class's name equals the trimmed input up to letter case |
| EnumClaseLicencia.ValueOfName | src/main/java/com/tpagiles/app_licencia/model/enums/ClaseLicencia.java:10 | `valueOf(name(x)) == x` |
| EnumClaseLicencia.FromIgnoresCaseAndBlanks | src/main/java/com/tpagiles/app_licencia/model/enums/ClaseLicencia.java:9-11 | any padding and any letter case of a class name parse to that class |
| EnumClaseLicencia.FromName | src/main/java/com/tpagiles/app_licencia/model/enums/ClaseLicencia.java:9-11 | `from(c.name()) == c` for every class |
| EnumClaseLicencia.FromTrimsAndUpperCases | src/main/java/com/tpagiles/app_licencia/model/enums/ClaseLicencia.java:9-11 | `" b "` parses to B |
| EnumClaseLicencia.FromRejectsUnknownClass | src/main/java/com/tpagiles/app_licencia/model/enums/ClaseLicencia.java:10 | `"H"` is IllegalArgument |
| EnumTipoDocumento.ValuesAreAll | src/main/java/com/tpagiles/app_licencia/model/enums/TipoDocumento.java:6 | exactly DNI, CEDULA_IDENTIDAD, PASAPORTE and OTRO |
| EnumTipoDocumento.Name | src/main/java/com/tpagiles/app_licencia/model/enums/TipoDocumento.java:6 | every name is non-empty, trimmed and upper-case |
| EnumTipoDocumento.ValueOf | src/main/java/com/tpagiles/app_licencia/model/enums/TipoDocumento.java:10 | an exact match on a name, IllegalArgument otherwise |
| EnumTipoDocumento.From | src/main/java/com/tpagiles/app_licencia/model/enums/TipoDocumento.java:8-11 | a parsed type's name equals the trimmed input up to letter case |
| EnumTipoDocumento.ValueOfName | src/main/java/com/tpagiles/app_licencia/model/enums/TipoDocumento.java:10 | `valueOf(name(t)) == t` |
| EnumTipoDocumento.FromIgnoresCaseAndBlanks | src/main/java/com/tpagiles/app_licencia/model/enums/TipoDocumento.java:8-11 | any padding and letter case of a name parse to that type |
| EnumTipoDocumento.FromName | src/main/java/com/tpagiles/app_licencia/model/enums/TipoDocumento.java:8-11 | `from(t.name()) == t` for every type |
| EnumTipoDocumento.FromIgnoresCase | src/main/java/com/tpagiles/app_licencia/model/enums/TipoDocumento.java:8-11 | `from("Pasaporte")` is PASAPORTE: the mixed-case name parses after `toUpperCase` |
| EnumTipoDocumento.FromRejectsUnknownDocument | src/main/java/com/tpagiles/app_licencia/model/enums/TipoDocumento.java:10 | an unknown name is IllegalArgument |
| EnumGrupoSanguineo.ValuesAreAll | src/main/java/com/tpagiles/app_licencia/model/enums/GrupoSanguineo.java:6 | exactly A, AB, B and O |
| EnumGrupoSanguineo.Name | src/main/java/com/tpagiles/app_licencia/model/enums/GrupoSanguineo.java:6 | every name is non-empty, trimmed and upper-case |
| EnumGrupoSanguineo.ValueOf | src/main/java/com/tpagiles/app_licencia/model/enums/GrupoSanguineo.java:10 | an exact match on a name, IllegalArgument otherwise |
| EnumGrupoSanguineo.From | src/main/java/com/tpagiles/app_licencia/model/enums/GrupoSanguineo.java:9-11 | a parsed group's name equals the trimmed input up to letter case |
| EnumGrupoSanguineo.ValueOfName | src/main/java/com/tpagiles/app_licencia/model/enums/GrupoSanguineo.java:10 | `valueOf(name(g)) == g` |
| EnumGrupoSanguineo.FromIgnoresCaseAndBlanks | src/main/java/com/tpagiles/app_licencia/model/enums/GrupoSanguineo.java:9-11 | any padding and letter case of a name parse to that group |
| EnumGrupoSanguineo.FromName | src/main/java/com/tpagiles/app_licencia/model/enums/GrupoSanguineo.java:9-11 | `from(g.name()) == g` for every group |
| EnumGrupoSanguineo.FromTrimsAndUpperCases | src/main/java/com/tpagiles/app_licencia/model/enums/GrupoSanguineo.java:9-11 | a padded lower-case group name parses |
| EnumGrupoSanguineo.FromRejectsDigitZero | src/main/java/com/tpagiles/app_licencia/model/enums/GrupoSanguineo.java:6-10 | the digit `"0"` is IllegalArgument; only the letter O parses |
| EnumFactorRh.ValuesAreAll | src/main/java/com/tpagiles/app_licencia/model/enums/FactorRh.java:6 | exactly POSITIVO and NEGATIVO |
| EnumFactorRh.Name | src/main/java/com/tpagiles/app_licencia/model/enums/FactorRh.java:6 | every name is non-empty, trimmed and upper-case |
| EnumFactorRh.ValueOf | src/main/java/com/tpagiles/app_licencia/model/enums/FactorRh.java:10 | an exact match on a name, IllegalArgument otherwise |
| EnumFactorRh.From | src/main/java/com/tpagiles/app_licencia/model/enums/FactorRh.java:9-11 | a parsed factor's name equals the trimmed input up to letter case |
| EnumFactorRh.ValueOfName | src/main/java/com/tpagiles/app_licencia/model/enums/FactorRh.java:10 | `valueOf(name(f)) == f` |
| EnumFactorRh.FromIgnoresCaseAndBlanks | src/main/java/com/tpagiles/app_licencia/model/enums/FactorRh.java:9-11 | any padding and letter case of a name parse to that factor |
| EnumFactorRh.FromName | src/main/java/com/tpagiles/app_licencia/model/enums/FactorRh.java:9-11 | `from(f.name()) == f` for both factors |
| EnumFactorRh.FromTrimsAndUpperCases | src/main/java/com/tpagiles/app_licencia/model/enums/FactorRh.java:9-11 | a padded lower-case factor name parses |
| EnumFactorRh.FromRejectsPlusSign | src/main/java/com/tpagiles/app_licencia/model/enums/FactorRh.java:10 | `"+"` is IllegalArgument |
| EnumFactorRh.FromRejectsMinusSign | src/main/java/com/tpagiles/app_licencia/model/enums/FactorRh.java:10 | `"-"` is IllegalArgument |
| EnumRol.ValuesAreAll | src/main/java/com/tpagiles/app_licencia/model/enums/Rol.java:6 | exactly OPERADOR and SUPER_USER |
| EnumRol.Name | src/main/java/com/tpagiles/app_licencia/model/enums/Rol.java:6 | every name is non-empty, trimmed and upper-case |
| EnumRol.ValueOf | src/main/java/com/tpagiles/app_licencia/model/enums/Rol.java:10 | an exact match on a name, IllegalArgument otherwise |
| EnumRol.From | src/main/java/com/tpagiles/app_licencia/model/enums/Rol.java:9-11 | a parsed role's name equals the trimmed input up to letter case |
| EnumRol.ValueOfName | src/main/java/com/tpagiles/app_licencia/model/enums/Rol.java:10 | `valueOf(name(r)) == r` |
| EnumRol.FromIgnoresCaseAndBlanks | src/main/java/com/tpagiles/app_licencia/model/enums/Rol.java:9-11 | any padding and letter case of a name parse to that role |
| EnumRol.FromName | src/main/java/com/tpagiles/app_licencia/model/enums/Rol.java:9-11 | `from(r.name()) == r` for both roles |
| EnumRol.FromTrimsAndUpperCases | src/main/java/com/tpagiles/app_licencia/model/enums/Rol.java:9-11 | a padded lower-case role name parses |
| EnumRol.FromRejectsUnknownRole | src/main/java/com/tpagiles/app_licencia/model/enums/Rol.java:10 | `"ADMIN"` is IllegalArgument |
| Licencias.LicenciaRepository.SaveNew | src/main/java/com/tpagiles/app_licencia/service/impl/LicenciaService.java:78 | saving a new licence adds exactly one row under a fresh id; no other row changes |
| Licencias.LicenciaRepository.SaveExisting | src/main/java/com/tpagiles/app_licencia/service/impl/LicenciaService.java:157 | saving a licence that has an id overwrites that row only |
| Licencias.LicenciaRepository.DeactivateExpired | src/main/java/com/tpagiles/app_licencia/repository/LicenciaRepository.java:19-21 | the store after the bulk update is the deactivation of the old store |
| Licencias.LicenciaRepository.DeleteByTitularId | src/main/java/com/tpagiles/app_licencia/model/Titular.java:54 | the cascade removes exactly the holder's licences |
| Licencias.SinTitular | src/main/java/com/tpagiles/app_licencia/model/Titular.java:54 | the rows left are exactly the other holders' rows, unchanged |
| Licencias.IsExpiredAt | src/main/java/com/tpagiles/app_licencia/repository/LicenciaRepository.java:20 | a row is expired at a date when its expiry is strictly before it; definition, no contract |
| Licencias.DeactivateExpiredRows | src/main/java/com/tpagiles/app_licencia/repository/LicenciaRepository.java:19-21 | the rows after the bulk UPDATE: `vigente` cleared on active rows expired at the date; definition, its properties are the three DeactivateExpired lemmas below |
| Licencias.DeactivateExpiredExact | src/main/java/com/tpagiles/app_licencia/repository/LicenciaRepository.java:20 | `vigente` becomes false exactly on active rows expiring before the date; every other field and row is kept |
| Licencias.DeactivateExpiredNeverActivates | src/main/java/com/tpagiles/app_licencia/repository/LicenciaRepository.java:20 | the update keeps every row and never sets `vigente` to true |
| Licencias.DeactivateExpiredIdempotent | src/main/java/com/tpagiles/app_licencia/repository/LicenciaRepository.java:20 | applying the update twice with the same date is applying it once |
| Licencias.Count | src/main/java/com/tpagiles/app_licencia/repository/LicenciaRepository.java:18 | `count()` is the number of stored rows |
| Licencias.FindByFechaVencimientoBefore | src/main/java/com/tpagiles/app_licencia/repository/LicenciaRepository.java:22 | exactly the rows whose expiry is before the date, active or not |
| Licencias.CountByFechaVencimientoBefore | src/main/java/com/tpagiles/app_licencia/repository/LicenciaRepository.java:22-23 | the count equals the size of the find query, and never exceeds the total |
| Licencias.FindByTitularAndClase | src/main/java/com/tpagiles/app_licencia/repository/LicenciaRepository.java:26 | exactly the rows of the holder and class, whatever their state and dates |
| Licencias.ExistsByTitularIdAndClaseAndVigenteTrueAndFechaVencimientoAfter | src/main/java/com/tpagiles/app_licencia/repository/LicenciaRepository.java:24 | the issue guard: some active row of the holder and class expires strictly after the date; definition, its properties are Licencias.ActiveUnexpiredImpliesExists, Vigencia.SweepKeepsDuplicateGuard and ServicioLicencias.EmisionTwiceIsRefused |
| Licencias.ExistsByTitularAndClase | src/main/java/com/tpagiles/app_licencia/repository/LicenciaRepository.java:25 | some row of the holder and class exists, whatever its state; definition, its property is Licencias.ExistsByTitularAndClaseIsFindNonEmpty |
| Licencias.ExistsByTitularAndClaseIsFindNonEmpty | src/main/java/com/tpagiles/app_licencia/repository/LicenciaRepository.java:25-26 | the exists query holds exactly when the find query is non-empty |
| Licencias.ActiveUnexpiredImpliesExists | src/main/java/com/tpagiles/app_licencia/repository/LicenciaRepository.java:24-25 | an active, unexpired row of the holder and class is a row of the holder and class |
| Licencias.ExistsByTitularAndClaseIgnoresSweep | src/main/java/com/tpagiles/app_licencia/repository/LicenciaRepository.java:20-25 | `existsByTitularAndClase` ignores `vigente`: the sweep never changes its answer |
| Licencias.FindByTitularTipoDocumentoAndTitularNumeroDocumento | src/main/java/com/tpagiles/app_licencia/repository/LicenciaRepository.java:27 | exactly the licences whose holder matches both document type and number |
| Tarifario.TarifarioLicenciaRepository.Count | src/main/java/com/tpagiles/app_licencia/AppLicenciaApplication.java:58 | the count is zero exactly when the table is empty |
| Tarifario.TarifarioLicenciaRepository.Save | src/main/java/com/tpagiles/app_licencia/AppLicenciaApplication.java:60 | a saved row is appended and nothing else changes |
| Tarifario.SeedRows | src/main/java/com/tpagiles/app_licencia/AppLicenciaApplication.java:60-83 | the seed has twenty rows |
| Tarifario.SeedPrice | src/main/java/com/tpagiles/app_licencia/AppLicenciaApplication.java:60-83 | only classes other than D and F, and only 1, 3, 4 or 5 years, have a price |
| Tarifario.SeedRowsInTable | src/main/java/com/tpagiles/app_licencia/AppLicenciaApplication.java:60-83 | every seeded row is an entry of the price table by class |
| Tarifario.TableInSeedRows | src/main/java/com/tpagiles/app_licencia/AppLicenciaApplication.java:60-83 | every entry of the price table is a seeded row |
| Tarifario.CargaTarifario | src/main/java/com/tpagiles/app_licencia/AppLicenciaApplication.java:54-86 | an empty table receives exactly the seed rows, in order; a non-empty table is left alone |
| Costos.Insertar | src/main/java/com/tpagiles/app_licencia/service/helper/CostoLicenciaHelper.java:43-50 | one row folded into the grouped map with the keep-the-first merge; definition, its property is Costos.InsertarPriced |
| Costos.Agrupar | src/main/java/com/tpagiles/app_licencia/service/helper/CostoLicenciaHelper.java:41-51 | the grouping of `init`: every row folded in `findAll` order; definition, its properties are Costos.AgruparKeys, Costos.AgruparKeepsFirst and Costos.AgruparFromRows |
| Costos.InsertarPriced | src/main/java/com/tpagiles/app_licencia/service/helper/CostoLicenciaHelper.java:43-50 | adding a row prices its key if it was unpriced and never changes an existing price |
| Costos.AgruparKeys | src/main/java/com/tpagiles/app_licencia/service/helper/CostoLicenciaHelper.java:41-51 | a (class, years) pair is priced exactly when some row is for it |
| Costos.AgruparKeepsFirst | src/main/java/com/tpagiles/app_licencia/service/helper/CostoLicenciaHelper.java:49 | with duplicate rows, the fee of a pair is the fee of the first row for it |
| Costos.AgruparFromRows | src/main/java/com/tpagiles/app_licencia/service/helper/CostoLicenciaHelper.java:41-51 | every fee in the grouping is the fee of a row for its pair: nothing is invented |
| Costos.SeededTariffs | src/main/java/com/tpagiles/app_licencia/AppLicenciaApplication.java:60-83 | the grouping of the seeded table is the price table: the same pairs and the same fees |
| Costos.SeededLeavesDAndFUnpriced | src/main/java/com/tpagiles/app_licencia/AppLicenciaApplication.java:60-83 | no class D or F licence is priced, for any number of years |
| Costos.SeededYears | src/main/java/com/tpagiles/app_licencia/AppLicenciaApplication.java:60-83 | each seeded class is priced for exactly 1, 3, 4 and 5 years, the range of the validity function |
| Costos.SeededFeeIncreasesWithYears | src/main/java/com/tpagiles/app_licencia/AppLicenciaApplication.java:60-83 | within a seeded class the base fee strictly increases with the years |
| Costos.CostoLicenciaHelper.Init | src/main/java/com/tpagiles/app_licencia/service/helper/CostoLicenciaHelper.java:29-54 | the fee is the configured one, and the map is the grouping of all table rows, fixed from then on (`const`) |
| Costos.CostoLicenciaHelper.ObtenerCosto | src/main/java/com/tpagiles/app_licencia/service/helper/CostoLicenciaHelper.java:61-74 | succeeds exactly for a priced pair; total minus base is the administrative fee; otherwise NotFound, with no fallback |
| Costos.ObtenerCostoOverRows | src/main/java/com/tpagiles/app_licencia/service/helper/CostoLicenciaHelper.java:38-74 | over any table, the price of a row's pair is that row's first fee plus the administrative fee |
| Costos.ObtenerCostoSeeded | src/main/java/com/tpagiles/app_licencia/service/helper/CostoLicenciaHelper.java:29-74 | with the seed and the default fee: D and F are NotFound; the rest are priced for 1, 3, 4 and 5 years at seed + 8.0 |
| Reglas.EsProfesional | src/main/java/com/tpagiles/app_licencia/service/helper/LicenciaHelper.java:31 | the class is C, D or E; definition, its property is Reglas.ValidarClaseYRestricciones (the professional rules apply exactly to these classes) |
| Reglas.TitularTieneLicenciaB | src/main/java/com/tpagiles/app_licencia/service/helper/LicenciaHelper.java:49-54 | some active class B licence of the holder was issued strictly before today minus one year; definition, its property is Reglas.PrerequisiteNeedsOldActiveB |
| Reglas.ValidarClaseYRestricciones | src/main/java/com/tpagiles/app_licencia/service/helper/LicenciaHelper.java:27-47 | passes exactly when C/D/E has age 21..65 and the B prerequisite, or A/B/F/G has age ≥ 17; every rejection is InvalidLicense |
| Reglas.ProfesionalErrorOrder | src/main/java/com/tpagiles/app_licencia/service/helper/LicenciaHelper.java:31-39 | professional checks report min-age, then prerequisite, then max-age |
| Reglas.SeventyWithoutBGetsPrerequisiteError | src/main/java/com/tpagiles/app_licencia/service/helper/LicenciaHelper.java:32-39 | a 70-year-old without B gets the prerequisite error, not the age error |
| Reglas.GeneralClassesIgnoreHistory | src/main/java/com/tpagiles/app_licencia/service/helper/LicenciaHelper.java:41-44 | for A, B, F and G the store plays no part and the only rule is age ≥ 17 |
| Reglas.PrerequisiteNeedsOldActiveB | src/main/java/com/tpagiles/app_licencia/service/helper/LicenciaHelper.java:49-54 | an inactive B, or one issued less than a year ago, never satisfies the prerequisite |
| Reglas.CalcularVigencia | src/main/java/com/tpagiles/app_licencia/service/helper/LicenciaHelper.java:56-70 | the validity is always 1, 3, 4 or 5 years |
| Reglas.VigenciaBoundaries | src/main/java/com/tpagiles/app_licencia/service/helper/LicenciaHelper.java:58-69 | the steps fall exactly at 21, 47, 61 and 71 |
| Reglas.VigenciaUnder21 | src/main/java/com/tpagiles/app_licencia/service/helper/LicenciaHelper.java:58-60 | under 21: 3 exactly when the holder has or had an A or B licence, otherwise 1 |
| Reglas.VigenciaFrom21 | src/main/java/com/tpagiles/app_licencia/service/helper/LicenciaHelper.java:61-69 | from 21 on, the validity depends on age alone and never grows with it |
| Reglas.VigenciaIgnoresSweep | src/main/java/com/tpagiles/app_licencia/service/helper/LicenciaHelper.java:59 | the sweep never changes a validity, because the under-21 test ignores `vigente` |
| Reglas.CalcularFechaVencimiento | src/main/java/com/tpagiles/app_licencia/service/helper/LicenciaHelper.java:71-78 | as written: fails exactly for a 29-February birthday in a common issue year; otherwise the birthday in the year issue year + validity |
| Reglas.FechaVencimientoOnBirthday | src/main/java/com/tpagiles/app_licencia/service/helper/LicenciaHelper.java:71-78 | for a birthday other than 29 February, the expiry is (issue year + validity, birth month, birth day) |
| Reglas.FechaVencimientoIsLater | src/main/java/com/tpagiles/app_licencia/service/helper/LicenciaHelper.java:71-78 | with a validity of a year or more, the expiry is strictly after the issue date, even when this year's birthday has passed |
| Reglas.FechaVencimientoLeapDayBirthFails | src/main/java/com/tpagiles/app_licencia/service/helper/LicenciaHelper.java:76 | a holder born 2000-02-29, issued 2025-06-01 for 5 years, gets a date-time error |
| Reglas.CalcularFechaVencimientoCorregida | src/main/java/com/tpagiles/app_licencia/service/helper/LicenciaHelper.java:71-78 | the intended expiry: the birthday in the year issue year + validity, or 28 February for a leap-day birthday in a common year |
| Reglas.FechaVencimientoCorregidaAgrees | src/main/java/com/tpagiles/app_licencia/service/helper/LicenciaHelper.java:71-78 | wherever the as-written expiry is defined, the corrected one is the same date |
| Reglas.FechaVencimientoCorregidaLeapDayBirth | src/main/java/com/tpagiles/app_licencia/service/helper/LicenciaHelper.java:76-77 | the leap-day example expires on 2030-02-28 |
| Reglas.FechaVencimientoCorregidaIsLater | src/main/java/com/tpagiles/app_licencia/service/helper/LicenciaHelper.java:71-78 | the corrected expiry is strictly after the issue date for every validity of a year or more |
| Titulares.ExistsByNumeroDocumento | src/main/java/com/tpagiles/app_licencia/repository/TitularRepository.java:18 | some holder has the number, under any document type; definition, used by the create and update guards |
| Titulares.FindByTipoDocumentoAndNumeroDocumento | src/main/java/com/tpagiles/app_licencia/repository/TitularRepository.java:19 | finds a holder with exactly that type and number, or says that none has them |
| Titulares.CreateKeepsDocumentosUnicos | src/main/java/com/tpagiles/app_licencia/service/impl/TitularService.java:26-31 | creating a holder with an unused number keeps document numbers unique |
| Titulares.UpdateKeepsDocumentosUnicos | src/main/java/com/tpagiles/app_licencia/service/impl/TitularService.java:59-75 | an update that keeps its number, or takes an unused one, keeps document numbers unique |
| Titulares.EliminarKeepsIntegrity | src/main/java/com/tpagiles/app_licencia/model/Titular.java:54 | after deletion with cascade, every remaining licence belongs to a remaining holder |
| Titulares.TitularRepository.Count | src/main/java/com/tpagiles/app_licencia/service/impl/TitularService.java:89 | `count()` is the number of holders |
| Titulares.TitularService.CreateTitular | src/main/java/com/tpagiles/app_licencia/service/impl/TitularService.java:25-33 | a number in use under any type is AlreadyExists with nothing saved; otherwise one holder is added under a fresh id |
| Titulares.TitularService.ObtenerPorId | src/main/java/com/tpagiles/app_licencia/service/impl/TitularService.java:37-41 | returns the stored holder, or NotFound when the id is absent |
| Titulares.TitularService.ObtenerPorTipoYNumeroDocumento | src/main/java/com/tpagiles/app_licencia/service/impl/TitularService.java:94-100 | succeeds exactly when a holder has that type and number, and returns it; otherwise NotFound |
| Titulares.TitularService.ActualizarTitularPorDocumento | src/main/java/com/tpagiles/app_licencia/service/impl/TitularService.java:50-76 | unknown document is NotFound; a changed number in use is AlreadyExists; otherwise all nine fields are replaced and no other holder changes |
| Titulares.TitularService.EliminarTitular | src/main/java/com/tpagiles/app_licencia/service/impl/TitularService.java:79-84 | a missing id is NotFound with nothing deleted; otherwise the holder and exactly its licences are removed |
| Titulares.TitularService.ContarTitulares | src/main/java/com/tpagiles/app_licencia/service/impl/TitularService.java:88-90 | the number of holders |
| Titulares.UpperTrimIsNormal | src/main/java/com/tpagiles/app_licencia/service/impl/TitularService.java:125 | `trim().toUpperCase()` yields a trimmed, upper-case text equal to the trimmed input up to case |
| Titulares.NormalizarNombreApellido | src/main/java/com/tpagiles/app_licencia/service/impl/TitularService.java:125 | null stays null; otherwise the trimmed, upper-cased text between two `%` |
| Titulares.NombreApellidoPatternIsNormal | src/main/java/com/tpagiles/app_licencia/service/impl/TitularService.java:125 | the text inside the pattern is its own normal form |
| Titulares.ParseAll | src/main/java/com/tpagiles/app_licencia/service/impl/TitularService.java:113-115 | a stream map of a parser: succeeds exactly when every element parses, giving the parse of each element in order; otherwise fails with the error of the first element that does not parse |
| Titulares.ParseAllOfParsed | src/main/java/com/tpagiles/app_licencia/service/impl/TitularService.java:113-115 | when each element parses to a given value, the list parses to exactly those values |
| Titulares.ConvertirGrupos | src/main/java/com/tpagiles/app_licencia/service/impl/TitularService.java:113-115 | succeeds exactly when every element parses as a group after trim and toUpperCase; each result element is the group of the matching parameter; otherwise IllegalArgument |
| Titulares.Nombres | src/main/java/com/tpagiles/app_licencia/model/enums/GrupoSanguineo.java:6 | the names of a list of groups, element by element |
| Titulares.ConvertirGruposOfNames | src/main/java/com/tpagiles/app_licencia/service/impl/TitularService.java:113-115 | converting the names of a group list gives the list back |
| Titulares.NormalizarGrupos | src/main/java/com/tpagiles/app_licencia/service/impl/TitularService.java:111-116 | a null or empty list is no filter; otherwise the converted list or its error |
| Titulares.NormalizarFactorRh | src/main/java/com/tpagiles/app_licencia/service/impl/TitularService.java:119-122 | null or blank is no filter; otherwise the factor whose name is the trimmed, upper-cased text, or IllegalArgument |
| Titulares.FactorRhParsesPadded | src/main/java/com/tpagiles/app_licencia/service/impl/TitularService.java:119-122 | `" negativo "` is the NEGATIVO filter |
| Titulares.FactorRhControlCharIsRejected | src/main/java/com/tpagiles/app_licencia/service/impl/TitularService.java:120-121 | U+0001 is not blank but trims to empty, so it is rejected |
| Titulares.NormalizarFiltros | src/main/java/com/tpagiles/app_licencia/service/impl/TitularService.java:104-130 | fails exactly when the groups or the factor fail; a bad group list reports its own error, and with good groups a bad factor reports the factor's error; otherwise the four normalised filters |
| Titulares.FiltrosVacios | src/main/java/com/tpagiles/app_licencia/service/impl/TitularService.java:111-128 | an empty list, a blank factor and no name are no filter at all |
| Usuarios.ExistsByMail | src/main/java/com/tpagiles/app_licencia/repository/UsuarioRepository.java:11 | some account has the mail; definition, tied to the lookup by Usuarios.FindByMail |
| Usuarios.ConMail | src/main/java/com/tpagiles/app_licencia/repository/UsuarioRepository.java:10 | exactly the accounts with that mail |
| Usuarios.FindByMail | src/main/java/com/tpagiles/app_licencia/repository/UsuarioRepository.java:10 | empty when no account has the mail; the one account when exactly one has it; a result-size error when several have it |
| Usuarios.FindByMailWithUniqueMails | src/main/java/com/tpagiles/app_licencia/repository/UsuarioRepository.java:10 | with unique mails the lookup never fails |
| Usuarios.DuplicateMailBreaksFindByMail | src/main/java/com/tpagiles/app_licencia/service/impl/UsuarioService.java:38-41 | two accounts with one mail make the lookup by that mail fail |
| Usuarios.CrearKeepsMailsUnicos | src/main/java/com/tpagiles/app_licencia/service/impl/UsuarioService.java:46-53 | creating with an unused mail keeps mails unique |
| Usuarios.ActualizarKeepsMailsUnicos | src/main/java/com/tpagiles/app_licencia/service/impl/UsuarioService.java:75-90 | an update that keeps its mail, or takes an unused one, keeps mails unique |
| Usuarios.UsuarioRepository.SaveNew | src/main/java/com/tpagiles/app_licencia/service/impl/UsuarioService.java:40 | a new account is added under a fresh id and nothing else changes |
| Usuarios.UsuarioService.Registrar | src/main/java/com/tpagiles/app_licencia/service/impl/UsuarioService.java:38-41 | saves the account with its password encoded, with no check on the mail |
| Usuarios.UsuarioService.CrearUsuario | src/main/java/com/tpagiles/app_licencia/service/impl/UsuarioService.java:45-55 | a registered mail is AlreadyExists with nothing saved; otherwise one account is added with its password encoded |
| Usuarios.UsuarioService.ListarTodos | src/main/java/com/tpagiles/app_licencia/service/impl/UsuarioService.java:60-66 | exactly the accounts holding OPERADOR, active or not |
| Usuarios.PasswordProvided | src/main/java/com/tpagiles/app_licencia/service/impl/UsuarioService.java:86 | a password was sent and is not blank; definition, its property is Usuarios.UsuarioService.ActualizarUsuario (a provided password is re-encoded, otherwise the stored hash is kept) |
| Usuarios.UsuarioService.ActualizarUsuario | src/main/java/com/tpagiles/app_licencia/service/impl/UsuarioService.java:71-92 | NotFound; or AlreadyExists for a mail in use; otherwise name, surname, mail and roles replaced, `activo` kept, and the password re-encoded only when non-null and not blank |
| Usuarios.UsuarioService.EliminarUsuario | src/main/java/com/tpagiles/app_licencia/service/impl/UsuarioService.java:96-101 | NotFound with the store unchanged, or the store becomes Usuarios.ConActivo with `activo` false |
| Usuarios.UsuarioService.ActivarUsuario | src/main/java/com/tpagiles/app_licencia/service/impl/UsuarioService.java:113-119 | NotFound with the store unchanged, or the store becomes Usuarios.ConActivo with `activo` true and that account is returned |
| Usuarios.UsuarioService.ObtenerUsuarioPorId | src/main/java/com/tpagiles/app_licencia/service/impl/UsuarioService.java:105-109 | returns the stored account, or NotFound |
| Usuarios.EliminarThenActivar | src/main/java/com/tpagiles/app_licencia/service/impl/UsuarioService.java:96-119 | on the store, eliminarUsuario then activarUsuario equals activarUsuario alone, and gives the store back when the account was active |
| Usuarios.ConActivo | src/main/java/com/tpagiles/app_licencia/service/impl/UsuarioService.java:96-119 | the store after a logical delete or a reactivation: same ids, only that account's `activo` changed |
| Usuarios.ConActivoKeepsFindByMail | src/main/java/com/tpagiles/app_licencia/service/impl/UsuarioService.java:96-119 | a delete or reactivation changes no mail: `findByMail` answers the same, and unique mails stay unique |
| ServicioLicencias.PlanEmision | src/main/java/com/tpagiles/app_licencia/service/impl/LicenciaService.java:41-79 | unknown holder is NotFound; an active same-class licence expiring after today is AlreadyExists; past those, a failing class rule returns that rule's InvalidLicense error; past the rules, a tariff miss returns the tariff's error; past the tariff, no account with the operator mail is NotFound(emisor) and several are IncorrectResultSize; success holds exactly when the holder exists, no duplicate blocks, the class rules pass, the tariff prices the computed validity and exactly one account has the operator mail; the licence is active, issued today, expires on the holder's birthday in the year of issue plus the validity (the corrected helper), is priced by the tariff and names that operator |
| ServicioLicencias.EmisionEmisorCheckedLast | src/main/java/com/tpagiles/app_licencia/service/impl/LicenciaService.java:42-65 | an unknown or ambiguous operator is reported only when every rule and the tariff accept |
| ServicioLicencias.EmisionTarifaCheckedAfterRules | src/main/java/com/tpagiles/app_licencia/service/impl/LicenciaService.java:42-58 | a missing tariff is reported only for an eligible, non-duplicate request |
| ServicioLicencias.EmisionIgnoresCopyFields | src/main/java/com/tpagiles/app_licencia/service/impl/LicenciaService.java:67-76 | the request's copy fields play no part in an issue |
| ServicioLicencias.EmisionTwiceIsRefused | src/main/java/com/tpagiles/app_licencia/service/impl/LicenciaService.java:43-49 | after an issue, the same request on the same day is AlreadyExists |
| ServicioLicencias.EmisionSeededDOrF | src/main/java/com/tpagiles/app_licencia/AppLicenciaApplication.java:60-83 | with the seed, an eligible D or F request fails at the tariff with NotFound |
| ServicioLicencias.EmisionSeededAlwaysPriced | src/main/java/com/tpagiles/app_licencia/service/impl/LicenciaService.java:52-58 | with the seed, an A/B/C/E/G issue never lacks a tariff and costs seed + 8.0 |
| ServicioLicencias.EmisionEjemplo | src/main/java/com/tpagiles/app_licencia/service/impl/LicenciaService.java:41-79 | a first B licence at age 25 issued 2025-06-01 for someone born 2000-01-01: 5 years, expiring 2030-01-01, cost 48.0 |
| ServicioLicencias.ValidarMotivoRenovacion | src/main/java/com/tpagiles/app_licencia/service/impl/LicenciaService.java:178-204 | VENCIDA passes exactly when the expiry is before today; CAMBIO_DATOS exactly for an active licence not past expiry; failures are IllegalArgument |
| ServicioLicencias.TieneAlgunCambio | src/main/java/com/tpagiles/app_licencia/service/impl/LicenciaService.java:208-210 | a new name, surname or address was given; definition, its property is ServicioLicencias.ValidarCamposCambioDatos (a data-change renewal passes exactly when it holds) |
| ServicioLicencias.ValidarCamposCambioDatos | src/main/java/com/tpagiles/app_licencia/service/impl/LicenciaService.java:206-218 | fails exactly for a change-of-data request that changes no field |
| ServicioLicencias.ValidarLicenciaVencida | src/main/java/com/tpagiles/app_licencia/service/impl/LicenciaService.java:164-168 | passes exactly when the expiry is not after today; otherwise IllegalState |
| ServicioLicencias.ValidarLicenciaVencidaIsDead | src/main/java/com/tpagiles/app_licencia/service/impl/LicenciaService.java:143-187 | once the motive check passes, the illegal-state check cannot fire |
| ServicioLicencias.ActualizarDatosTitular | src/main/java/com/tpagiles/app_licencia/service/impl/LicenciaService.java:170-176 | each non-null field replaces the holder's; every other field is kept |
| ServicioLicencias.PlanRenovacion | src/main/java/com/tpagiles/app_licencia/service/impl/LicenciaService.java:133-162 | unknown licence is NotFound; a failing motive check returns its error; past it, a failing field check returns its error; past both, a tariff miss returns the tariff's error, and a given original id that is not stored is NotFound(licencia original); no class-rule, duplicate or illegal-state error can occur; success holds exactly when the licence exists, both validators pass, the tariff prices the recomputed validity and a given original id is stored; the new licence is active, of the same holder, class and operator, expires on the holder's birthday in the year of issue plus the validity, is priced by the tariff and carries the request's copy fields |
| ServicioLicencias.RenovacionOnExpiryDay | src/main/java/com/tpagiles/app_licencia/service/impl/LicenciaService.java:180-199 | on its expiry day a licence cannot be renewed as VENCIDA, but an active one can be renewed for CAMBIO_DATOS |
| ServicioLicencias.RenovacionVencidaSeeded | src/main/java/com/tpagiles/app_licencia/service/impl/LicenciaService.java:133-162 | an expired A/B/C/E/G licence always renews under the seed, whatever the age |
| ServicioLicencias.COSTO_COPIA | src/main/java/com/tpagiles/app_licencia/service/impl/LicenciaService.java:280 | the fixed price of a copy, 50.0; constant, its property is ServicioLicencias.PlanCopia (every copy costs it) |
| ServicioLicencias.PlanCopia | src/main/java/com/tpagiles/app_licencia/service/impl/LicenciaService.java:257-289 | unknown original is NotFound; an inactive or expired one is IllegalArgument; past those, no account with the operator mail is NotFound(emisor) and several are IncorrectResultSize; success holds exactly when the original is stored, active and unexpired and exactly one account has the operator mail; a copy repeats holder, class, validity and expiry, costs COSTO_COPIA (50), is numbered original + 1 and links to the original |
| ServicioLicencias.CopiaDeCopia | src/main/java/com/tpagiles/app_licencia/service/impl/LicenciaService.java:263-283 | a copy can be copied the same day, numbered one more again, with the same expiry |
| ServicioLicencias.CopiaKeepsOriginalActive | src/main/java/com/tpagiles/app_licencia/service/impl/LicenciaService.java:274-288 | the original stays active next to its copy, so the issue guard still refuses that class |
| ServicioLicencias.LicenciaService.EmitirLicencia | src/main/java/com/tpagiles/app_licencia/service/impl/LicenciaService.java:41-79 | on the plan's error nothing is saved; otherwise exactly the planned licence is added under a fresh id |
| ServicioLicencias.LicenciaService.RenovarLicencia | src/main/java/com/tpagiles/app_licencia/service/impl/LicenciaService.java:133-162 | on error nothing changes (the holder's new data included); otherwise the holder is updated, the old licence deactivated and the new one added |
| ServicioLicencias.LicenciaService.EmitirCopia | src/main/java/com/tpagiles/app_licencia/service/impl/LicenciaService.java:257-289 | on error nothing is saved; otherwise exactly the planned copy is added and the original is untouched |
| ServicioLicencias.LicenciaService.ListarLicenciasVencidas | src/main/java/com/tpagiles/app_licencia/service/impl/LicenciaService.java:83-88 | exactly the licences expiring before today, deactivated or not |
| ServicioLicencias.LicenciaService.ContarLicenciasVencidas | src/main/java/com/tpagiles/app_licencia/service/impl/LicenciaService.java:92-94 | the size of that list, never more than the total |
| ServicioLicencias.LicenciaService.ContarTotalLicenciasEmitidas | src/main/java/com/tpagiles/app_licencia/service/impl/LicenciaService.java:98-100 | the number of stored licences |
| ServicioLicencias.LicenciaService.BuscarPorTipoYNumeroDocumento | src/main/java/com/tpagiles/app_licencia/service/impl/LicenciaService.java:103-129 | NotFound exactly when no licence's holder has the document; otherwise that holder with exactly its licences |
| ServicioLicencias.HolderOfFound | src/main/java/com/tpagiles/app_licencia/service/impl/LicenciaService.java:118-119 | all licences found by document belong to the one holder with that document |
| Vigencia.LicenciaVigenciaScheduler.MarcarVencidas | src/main/java/com/tpagiles/app_licencia/scheduler/LicenciaVigenciaScheduler.java:21-23 | afterwards no active licence expires before today, licences expiring today or later are unchanged, and no row is added or removed |
| Vigencia.SweepKeepsDuplicateGuard | src/main/java/com/tpagiles/app_licencia/scheduler/LicenciaVigenciaScheduler.java:22 | a sweep never changes the issue guard for the same day or later |
| Vigencia.SweepsCompose | src/main/java/com/tpagiles/app_licencia/scheduler/LicenciaVigenciaScheduler.java:22 | sweeping twice on one day is sweeping once; a later sweep subsumes an earlier one |
| Solicitudes.NormalizarMail | src/main/java/com/tpagiles/app_licencia/dto/RegisterRequest.java:40 | the stored mail is trimmed, has no upper-case letter, and equals the trimmed input up to case |
| Solicitudes.NormalizarMailIdempotent | src/main/java/com/tpagiles/app_licencia/dto/RegisterRequest.java:40 | normalising a normalised mail changes nothing |
| Solicitudes.LowerOfSameUpper | src/main/java/com/tpagiles/app_licencia/dto/AuthRequest.java:36 | chars equal up to case lower-case to the same char |
| Solicitudes.ToLowerCaseOfIgnoreCase | src/main/java/com/tpagiles/app_licencia/dto/AuthRequest.java:36 | strings equal up to case lower-case to the same string |
| Solicitudes.NormalizarMailIgnoresCaseAndBlanks | src/main/java/com/tpagiles/app_licencia/dto/AuthRequest.java:36 | mails differing only in padding and case have the same stored form |
| Solicitudes.NuevoRegisterRequest | src/main/java/com/tpagiles/app_licencia/dto/RegisterRequest.java:37-42 | a null name, surname or mail fails; otherwise the name and surname are the trimmed inputs, the mail is normalised and the password kept |
| Solicitudes.RegisterRequestTrimsNames | src/main/java/com/tpagiles/app_licencia/dto/RegisterRequest.java:38 | a padded name is stored without its padding |
| Solicitudes.RegisterRequestIdempotent | src/main/java/com/tpagiles/app_licencia/dto/RegisterRequest.java:37-42 | rebuilding from a built request gives the same request |
| Solicitudes.NuevoAuthRequest | src/main/java/com/tpagiles/app_licencia/dto/AuthRequest.java:35-38 | a null mail fails; otherwise the mail is normalised and the password kept |
| Solicitudes.AuthRequestIdempotent | src/main/java/com/tpagiles/app_licencia/dto/AuthRequest.java:35-38 | rebuilding from a built request gives the same request |
| Solicitudes.LoginMatchesRegistration | src/main/java/com/tpagiles/app_licencia/dto/AuthRequest.java:36 | a login mail differing from the registered one only in padding and case is stored the same way |

## Left out

- Clock: `LocalDate.now()` is the parameter `today`. Where the source calls it twice in one operation, the model uses one value for both calls, so a run across midnight is not modelled.
- Holder age: `getEdad()` is not defined in `Titular.java` or in `Persona.java`. Age is the parameter `edad` and is not related to the birth date.
- Case mapping and `trim` are modelled on ASCII letters; `String.toUpperCase`/`toLowerCase` of other Unicode letters and locales are not modelled.
- `double` amounts are `real`: no floating-point rounding.
- `LocalDate` range limits (years beyond ±999,999,999) and `int` overflow of `numeroCopia` are not modelled (integers are unbounded).
- Lists returned by the repositories are maps keyed by id, so their order is not modelled. The holder `buscarPorTipoYNumeroDocumento` takes from the first licence is modelled as the holder that has the document. This is the same holder, because document numbers are unique.
- Persistence and transactions: each `@Transactional` operation is atomic and sequential; concurrency, isolation and the `@Scheduled` cron trigger are not modelled.
- HTTP layer, controllers, DTO validation annotations and response mappers are not modelled; `LicenciaRecord.numeroCopia`/`motivoCopia` are accepted and ignored, as the service does.
- `TitularService.listarTodos` (a plain `findAll`) and the JPQL join `findTitularesConLicenciasVigentes` are not modelled; only the normalisation of its parameters is.
- `UsuarioService.loadUserByUsername`, the JWT and security configuration, and `cargaUsuarios` are not modelled.
- The password encoder is an uninterpreted function given to the service.
- The initial value of `activo` for a new account is given to the service, because the shown `Usuario.java` does not match the fields the service uses. The model follows the service.
- `MotivoRenovacion.java` is not part of this model. The reason is modelled as exactly `VENCIDA` or `CAMBIO_DATOS`, so the `default` branch of `validarMotivoRenovacion` and a null reason are not modelled.
- A null element inside the blood-group filter list (a `NullPointerException` in `trim`) is not modelled: the list holds strings.
- The start-up order of `CostoLicenciaHelper.init` and `cargaTarifario` is not modelled. The helper is built from whatever rows the table holds at that moment (`Costos.CostoLicenciaHelper.Init`), and the seeded lemmas assume those are the seed rows.
- ServicioLicencias.PlanEmision: computes the expiry with `Reglas.CalcularFechaVencimientoCorregida` rather than the as-written `calcularFechaVencimiento`, so the date-time exception for holders born on 29 February is not part of the issue path (see Findings).
- ServicioLicencias.PlanRenovacion: computes the expiry with the corrected function as well, for the same reason.
- The frontend under `src/main/resources/static` is not modelled.

## Findings

| source | as written | input that shows it | evidently intended | confidence | as-written member | corrected member |
|---|---|---|---|---|---|---|
| src/main/java/com/tpagiles/app_licencia/service/helper/LicenciaHelper.java:74-77 | `fechaEmision.withMonth(m).withDayOfMonth(d).plusYears(v)` moves to the birthday in the issue year first; `withDayOfMonth(29)` on February of a common year throws `DateTimeException` | holder born 2000-02-29, licence issued 2025-06-01 with a validity of 5 years | the birthday in 2030, clamped to 2030-02-28 as `plusYears` would do; issue and renewal succeed | high, not executed | Reglas.FechaVencimientoLeapDayBirthFails | Reglas.CalcularFechaVencimientoCorregida |
