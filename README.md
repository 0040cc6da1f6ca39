# Basketball league administration: a verified model of its core

The system manages basketball teams (`Equipo`) and matches (`Partido`) in
two stacks that share one data model:

- a Java Spring frontend that asks a Flask API first and falls back to its
  own JPA database when the API is unreachable;
- the Flask API, backed by SQLAlchemy over SQLite.

This project models the behaviour of both in Dafny and proves what each
layer promises.

- **Entities.** The Java entities are classes with in-place methods. Each
  is proved against a record of its state (`Snapshot()`). A match holds
  references to its two team objects, so `registrarResultado` credits the
  winner and charges the loser on those objects; aliased references are
  handled too. The Python models are separate classes: their
  `registrar_resultado` never touches a team.
- **Score arithmetic.** The win ratio and the match margin both stacks
  compute are `WinRatio.Ratio` (over exact reals) and `WinRatio.Margin`;
  the Java and Python classes call these.
- **Java services.** The services work over a store
  `Db(equipos: map<int, EquipoRecord>, partidos: map<int, PartidoRow>)`
  with IDENTITY counters. The HTTP call to the API is an oracle value
  `Remote<T> = Failed | NullBody | Body(T)`. The health of the local
  database is an oracle value `StoreFault = Healthy | ReadFails | WriteFails`.
  Each service method is proved against a specification function
  (`Registered`, `Saved`, `FoundEquipo`, ...). Those functions state the
  fallback, the guards and exactly which failures are rewrapped.
- **JSON mappers.** `mapToEquipo` and `mapToPartido` work over the Java
  values Jackson produces (`JavaJson.JValue`). `Long.parseLong` and
  `LocalDateTime.parse` are parameters that may fail.
- **Controller and errors.** The match controller's guard-and-wrap logic,
  the global exception handler and the three exception classes are
  modelled as written. The handler's response is a JSON map or an error
  page model.
- **Repositories.** The Spring Data queries are specification functions
  over a sequence of rows: filters, and sorts proved to be permutations.
- **Flask API.** The database is `PyDb`, two maps keyed by SQLite rowid.
  - The constraints SQLite enforces at commit are `PyStore.Integrity`:
    NOT NULL columns and the unique team name. Foreign keys are not
    enforced.
  - A commit is `PyStore.Commit(staged, accepted)`. It installs the staged
    state exactly when the constraints hold and the oracle `accepted`
    says the database took it. Otherwise the session rolls back.
  - `request.get_json()` is a `Payload`. It is `None` when the body is
    missing or not JSON; the handler then fails and answers 500.
  - `datetime.fromisoformat` is a parameter that may fail.
  - Every handler is a method from (store, payload) to (reply, store').
    Its contract gives the order of the checks, and it states that a
    refused request leaves the store as it was.
- **Team deletion in the API.** SQLAlchemy's default for a relationship
  without a delete cascade is to null the foreign key of every match that
  names the team. Those columns are NOT NULL, so deleting a team that
  still has a match fails at commit and answers 500.
- **Seeding.** `init_db` fills an empty team table with eight teams. It is
  proved idempotent.

## Model

| member | source | states |
|---|---|---|
| EquipoEntity.Equipo.Empty | frontend/src/main/java/es/ubu/baloncesto/model/Equipo.java:81-83 | a default team has every reference null and no game played |
| EquipoEntity.Equipo.constructor | frontend/src/main/java/es/ubu/baloncesto/model/Equipo.java:92-100 | stores name, city and coach as given, with no id and 0 wins / 0 losses |
| EquipoEntity.Equipo.RegistrarVictoria | frontend/src/main/java/es/ubu/baloncesto/model/Equipo.java:253-256 | exactly one more win; every other field, losses included, unchanged |
| EquipoEntity.Equipo.RegistrarDerrota | frontend/src/main/java/es/ubu/baloncesto/model/Equipo.java:262-265 | exactly one more loss; every other field, wins included, unchanged |
| EquipoEntity.EquipoText | frontend/src/main/java/es/ubu/baloncesto/model/Equipo.java:288-291 | the text is the name (Java's "null" for none), then " (", then the city, then ")" |
| EquipoEntity.EquipoTextInjective | frontend/src/main/java/es/ubu/baloncesto/model/Equipo.java:288-291 | two teams of one city print alike only if their names print alike |
| WinRatio.Ratio | frontend/src/main/java/es/ubu/baloncesto/model/Equipo.java:272-280 | 0 for no games, otherwise the value whose product with the games played is the wins |
| WinRatio.RatioWithinUnitInterval | frontend/src/main/java/es/ubu/baloncesto/model/Equipo.java:267-280 | with non-negative counters the ratio lies in [0, 1] |
| WinRatio.RatioVictoriaNotLower | frontend/src/main/java/es/ubu/baloncesto/model/Equipo.java:253-280 | registering a win never lowers the ratio |
| WinRatio.RatioDerrotaNotHigher | frontend/src/main/java/es/ubu/baloncesto/model/Equipo.java:262-280 | registering a loss never raises the ratio |
| PartidoEntity.Partido.Empty | frontend/src/main/java/es/ubu/baloncesto/model/Partido.java:79-81 | a default match has no teams, no date, 0-0 and is not finalised |
| PartidoEntity.Partido.Create | frontend/src/main/java/es/ubu/baloncesto/model/Partido.java:90-110 | null team: IllegalArgumentException; the same object on both sides (reference identity): IllegalArgumentException; otherwise a fresh 0-0 unfinished match with those teams and date |
| PartidoEntity.Partido.RegistrarResultado | frontend/src/main/java/es/ubu/baloncesto/model/Partido.java:248-272 | a negative score throws with match and teams unchanged; otherwise both scores set and finalised; the winner's team gets +1 win and the loser's +1 loss (also when both sides alias one object); a tie touches no team; a null team on a decisive result throws after the scores are set |
| PartidoEntity.Partido.Ganador | frontend/src/main/java/es/ubu/baloncesto/model/Partido.java:289-304 | no winner before the end or on a tie; otherwise exactly the side with more points |
| WinRatio.Margin | frontend/src/main/java/es/ubu/baloncesto/model/Partido.java:311-314 | `Math.abs` of the score difference: never negative, one of the two differences, and zero exactly on a tie |
| PartidoEntity.PartidoText | frontend/src/main/java/es/ubu/baloncesto/model/Partido.java:322-337 | the text is the home name, " vs " and the away name, followed by more text exactly when the match is finished |
| PartidoEntity.Partido.ToString | frontend/src/main/java/es/ubu/baloncesto/model/Partido.java:321-337 | a text exists exactly when both team references are non-null (NullPointerException otherwise), and it is `PartidoText` of the two names, the flag and the scores |
| PartidoEntity.PartidoTextFinishedExtends | frontend/src/main/java/es/ubu/baloncesto/model/Partido.java:321-337 | a finished match's text is the unfinished text followed by " (pl - pv)" |
| PartidoEntity.DiferenciaZeroIffTie | frontend/src/main/java/es/ubu/baloncesto/model/Partido.java:289-314 | the margin is 0 exactly on a tie, and a positive margin on a finished match names the higher scorer as winner |
| PartidoEntity.RegistrarDecisivo | frontend/src/main/java/es/ubu/baloncesto/model/Partido.java:248-304 | between two distinct teams a decisive result returns the winner, which gains exactly one win while the other side gains exactly one loss |
| PartidoEntity.RegistrarDosVeces | frontend/src/main/java/es/ubu/baloncesto/model/Partido.java:248-272 | the entity has no already-finalised guard: recording a home win twice credits the home team two wins and the visitor two losses |
| Exceptions.ApiException | frontend/src/main/java/es/ubu/baloncesto/exception/ApiException.java:34-41 | keeps message and URL, no status code, no cause |
| Exceptions.ApiExceptionWithCause | frontend/src/main/java/es/ubu/baloncesto/exception/ApiException.java:50-57 | keeps message, cause and URL, no status code |
| Exceptions.ApiExceptionWithStatus | frontend/src/main/java/es/ubu/baloncesto/exception/ApiException.java:67-73 | keeps message, cause, URL and status code verbatim |
| Exceptions.ApiConstructorsKeepFields | frontend/src/main/java/es/ubu/baloncesto/exception/ApiException.java:34-73 | the two shorter constructors leave the status null, the longest stores it, and all three store the URL |
| Exceptions.ApiToString | frontend/src/main/java/es/ubu/baloncesto/exception/ApiException.java:99-110 | the text starts with "ApiException: " and ends with "]" |
| Exceptions.ApiToStringLayout | frontend/src/main/java/es/ubu/baloncesto/exception/ApiException.java:101-110 | without a status the text is prefix, message, " [API: ", URL, "]"; with one, ", Estado: " and the code come before "]" |
| Exceptions.DatabaseException | frontend/src/main/java/es/ubu/baloncesto/exception/DatabaseException.java:28-33 | keeps the message; no SQL code, no cause |
| Exceptions.DatabaseExceptionWithCause | frontend/src/main/java/es/ubu/baloncesto/exception/DatabaseException.java:41-46 | keeps message and cause; no SQL code |
| Exceptions.DatabaseExceptionWithCode | frontend/src/main/java/es/ubu/baloncesto/exception/DatabaseException.java:55-60 | keeps message, cause and SQL code verbatim |
| Exceptions.DatabaseToString | frontend/src/main/java/es/ubu/baloncesto/exception/DatabaseException.java:77-84 | the text starts with "DatabaseException: " |
| Exceptions.DatabaseToStringDecodes | frontend/src/main/java/es/ubu/baloncesto/exception/DatabaseException.java:77-84 | without a code the text after the prefix is the message; with one it is the message, " [SQL: ", the code and "]" |
| Exceptions.DatabaseToStringInjective | frontend/src/main/java/es/ubu/baloncesto/exception/DatabaseException.java:77-84 | with equal SQL codes, equal texts mean equal messages |
| Exceptions.FileException | frontend/src/main/java/es/ubu/baloncesto/exception/FileException.java:29-35 | keeps message and path; no cause |
| Exceptions.FileExceptionWithCause | frontend/src/main/java/es/ubu/baloncesto/exception/FileException.java:43-48 | keeps message, cause and path |
| Exceptions.FilePathRoundTrip | frontend/src/main/java/es/ubu/baloncesto/exception/FileException.java:29-57 | both constructors report back the message given and `getFilePath` returns the path given |
| Exceptions.FileToString | frontend/src/main/java/es/ubu/baloncesto/exception/FileException.java:65-68 | the text starts with "FileException: " and ends with "]" |
| Exceptions.FileToStringDecodes | frontend/src/main/java/es/ubu/baloncesto/exception/FileException.java:65-68 | message and path can both be read back from the text |
| Exceptions.ToStringIdentifiesClass | frontend/src/main/java/es/ubu/baloncesto/exception/ApiException.java:99-110 | the texts of the three exception classes never coincide |
| ExceptionHandler.AcceptMentioningJsonIsAjax | frontend/src/main/java/es/ubu/baloncesto/exception/GlobalExceptionHandler.java:196-205 | an Accept header containing "application/json" anywhere makes a request AJAX, whatever X-Requested-With says |
| ExceptionHandler.RequestedWithIsExact | frontend/src/main/java/es/ubu/baloncesto/exception/GlobalExceptionHandler.java:196-205 | without Accept, a request is AJAX exactly when X-Requested-With is "XMLHttpRequest", compared case-sensitively |
| ExceptionHandler.ApiStatus | frontend/src/main/java/es/ubu/baloncesto/exception/GlobalExceptionHandler.java:117-126 | 404 exactly for upstream 404, 403 exactly for 401 or 403, 502 for every other code and for none |
| ExceptionHandler.HandleFileException | frontend/src/main/java/es/ubu/baloncesto/exception/GlobalExceptionHandler.java:39-64 | JSON exactly for AJAX requests, status 500 in both forms, the file path in the JSON and the page details |
| ExceptionHandler.HandleDatabaseException | frontend/src/main/java/es/ubu/baloncesto/exception/GlobalExceptionHandler.java:73-102 | status 500; the JSON has `sqlCode` and the page has "SQL: " details exactly when the exception has a code |
| ExceptionHandler.ApiDetails | frontend/src/main/java/es/ubu/baloncesto/exception/GlobalExceptionHandler.java:145-148 | the details start with "API: " and the URL, followed by ", Estado: " and the code exactly when a code exists |
| ExceptionHandler.HandleApiException | frontend/src/main/java/es/ubu/baloncesto/exception/GlobalExceptionHandler.java:111-155 | JSON and page carry the same mapped status; the JSON has `statusCode` exactly when the exception has one |
| ExceptionHandler.HandleGenericException | frontend/src/main/java/es/ubu/baloncesto/exception/GlobalExceptionHandler.java:164-188 | status 500; the JSON is the fixed error and message and never shows the exception's message; the page details are class name, ": " and message |
| ExceptionHandler.Handle | frontend/src/main/java/es/ubu/baloncesto/exception/GlobalExceptionHandler.java:111-188 | JSON exactly for AJAX requests; the mapped API status for an ApiException, 500 for every other exception |
| JavaJson.JacksonInteger | frontend/src/main/java/es/ubu/baloncesto/service/PartidoServiceImpl.java:269-278 | a JSON integer becomes an Integer within 32 bits, a Long within 64 bits, otherwise a BigInteger |
| JavaJson.ReadId | frontend/src/main/java/es/ubu/baloncesto/service/PartidoServiceImpl.java:269-278 | no key: null id; Integer or Long: that value; String: parsed, NumberFormatException when it does not parse; any other type: null |
| JavaJson.CastString | frontend/src/main/java/es/ubu/baloncesto/service/EquipoServiceImpl.java:164-175 | a string or null passes the cast; anything else is a ClassCastException |
| JavaJson.IntegerField | frontend/src/main/java/es/ubu/baloncesto/service/PartidoServiceImpl.java:316-328 | a value exactly when the key holds an Integer |
| JavaJson.IntegerOrLongField | frontend/src/main/java/es/ubu/baloncesto/service/PartidoServiceImpl.java:287-313 | a value exactly when the key holds an Integer or a Long |
| EquipoRepository.NombreContaining | frontend/src/main/java/es/ubu/baloncesto/repository/EquipoRepository.java:20-26 | exactly the teams whose name contains the argument |
| EquipoRepository.NamedExactly | frontend/src/main/java/es/ubu/baloncesto/repository/EquipoRepository.java:28-34 | exactly the teams with that name |
| EquipoRepository.FindByNombre | frontend/src/main/java/es/ubu/baloncesto/repository/EquipoRepository.java:28-34 | null exactly when no team has the name; a team with that name otherwise; an error exactly when several share it |
| EquipoRepository.FindByNombreUnique | frontend/src/main/java/es/ubu/baloncesto/repository/EquipoRepository.java:28-34 | with unique names at most one team matches and the lookup never fails |
| EquipoRepository.ByCiudad | frontend/src/main/java/es/ubu/baloncesto/repository/EquipoRepository.java:36-42 | exactly the teams whose city equals the argument (null matches null) |
| EquipoRepository.InsertByVictorias | frontend/src/main/java/es/ubu/baloncesto/repository/EquipoRepository.java:44-49 | inserting adds exactly that team to the multiset |
| EquipoRepository.InsertByVictoriasSorted | frontend/src/main/java/es/ubu/baloncesto/repository/EquipoRepository.java:44-49 | inserting into a list sorted by wins, most first, keeps it sorted |
| EquipoRepository.OrderByVictoriasDesc | frontend/src/main/java/es/ubu/baloncesto/repository/EquipoRepository.java:44-49 | a permutation of all teams with wins never increasing |
| PartidoRepository.ByEquipoLocalOrEquipoVisitante | frontend/src/main/java/es/ubu/baloncesto/repository/PartidoRepository.java:22-29 | exactly the matches with the first team at home or the second away |
| PartidoRepository.ByEquipoLocal | frontend/src/main/java/es/ubu/baloncesto/repository/PartidoRepository.java:31-37 | exactly the matches with the team at home |
| PartidoRepository.ByEquipoVisitante | frontend/src/main/java/es/ubu/baloncesto/repository/PartidoRepository.java:39-45 | exactly the matches with the team away |
| PartidoRepository.ByEquipoEitherRole | frontend/src/main/java/es/ubu/baloncesto/repository/PartidoRepository.java:22-29 | asked with the same team twice, the query returns exactly the matches where it plays either role |
| PartidoRepository.ByFecha | frontend/src/main/java/es/ubu/baloncesto/repository/PartidoRepository.java:47-53 | exactly the matches at that instant |
| PartidoRepository.ByFechaBetween | frontend/src/main/java/es/ubu/baloncesto/repository/PartidoRepository.java:55-62 | exactly the matches dated between the two bounds, both included |
| PartidoRepository.FinalizadoTrue | frontend/src/main/java/es/ubu/baloncesto/repository/PartidoRepository.java:64-69 | exactly the finished matches |
| PartidoRepository.FinalizadoFalse | frontend/src/main/java/es/ubu/baloncesto/repository/PartidoRepository.java:71-76 | exactly the pending matches |
| PartidoRepository.FinalizadoPartition | frontend/src/main/java/es/ubu/baloncesto/repository/PartidoRepository.java:64-76 | finished and pending matches split the table: together they are all rows, and no row is in both |
| PartidoRepository.FechaLeTotal | frontend/src/main/java/es/ubu/baloncesto/repository/PartidoRepository.java:78-83 | any two dates are ordered one way or the other |
| PartidoRepository.FechaLeTransitive | frontend/src/main/java/es/ubu/baloncesto/repository/PartidoRepository.java:78-83 | the date order is transitive |
| PartidoRepository.InsertByFecha | frontend/src/main/java/es/ubu/baloncesto/repository/PartidoRepository.java:78-83 | inserting adds exactly that match to the multiset |
| PartidoRepository.InsertByFechaSorted | frontend/src/main/java/es/ubu/baloncesto/repository/PartidoRepository.java:78-83 | inserting into a list sorted by date keeps it sorted |
| PartidoRepository.OrderByFechaAsc | frontend/src/main/java/es/ubu/baloncesto/repository/PartidoRepository.java:78-83 | a permutation of all matches with dates never decreasing |
| EquipoService.Update | frontend/src/main/java/es/ubu/baloncesto/service/EquipoServiceImpl.java:238-268 | unknown id: the not-found exception unwrapped; a read or write failure: wrapped; otherwise name, city and coach overwritten (even with null), id and counters kept, and nothing else in the store changes |
| EquipoService.RegistrarVictoria | frontend/src/main/java/es/ubu/baloncesto/service/EquipoServiceImpl.java:275-303 | the stored team is saved with exactly one more win; not-found passes through, other failures are wrapped with their cause and leave the store as it was |
| EquipoService.RegistrarDerrota | frontend/src/main/java/es/ubu/baloncesto/service/EquipoServiceImpl.java:310-338 | the stored team is saved with exactly one more loss; not-found passes through, other failures are wrapped with their cause and leave the store as it was |
| EquipoService.OptionalString | frontend/src/main/java/es/ubu/baloncesto/service/EquipoServiceImpl.java:164-175 | an absent key leaves the field null; a present one goes through the String cast |
| EquipoService.MappedEquipo | frontend/src/main/java/es/ubu/baloncesto/service/EquipoServiceImpl.java:149-178 | the mapped team has 0 wins and 0 losses, the id as read and each string field only when its key is present; it fails exactly on a bad id or a non-string field |
| EquipoService.MapToEquipo | frontend/src/main/java/es/ubu/baloncesto/service/EquipoServiceImpl.java:149-178 | the step-by-step setter calls build exactly the team `MappedEquipo` describes |
| EquipoService.MappedEquipoIgnoresCounters | frontend/src/main/java/es/ubu/baloncesto/service/EquipoServiceImpl.java:149-178 | whatever wins and losses the JSON carries, the mapped team is the same |
| EquipoService.MappedAll | frontend/src/main/java/es/ubu/baloncesto/service/EquipoServiceImpl.java:80-87 | one team per element, in order, exactly when every element maps |
| EquipoService.MappedAllFailsFrom | frontend/src/main/java/es/ubu/baloncesto/service/EquipoServiceImpl.java:80-87 | one element that does not map makes the whole answer unmappable |
| EquipoService.LocalFindAll | frontend/src/main/java/es/ubu/baloncesto/service/EquipoServiceImpl.java:95-100 | every stored team once, or a wrapped failure exactly when the read fails |
| EquipoService.FindAll | frontend/src/main/java/es/ubu/baloncesto/service/EquipoServiceImpl.java:67-102 | a null body gives an empty list; a mappable body gives its teams in order; a failed call or an element that does not map falls back to the local store |
| EquipoService.FoundEquipo | frontend/src/main/java/es/ubu/baloncesto/service/EquipoServiceImpl.java:109-141 | a null body means "not found"; a mappable body is the answer; otherwise the local lookup by id |
| EquipoService.FindById | frontend/src/main/java/es/ubu/baloncesto/service/EquipoServiceImpl.java:109-141 | the code computes exactly `FoundEquipo` |
| PartidoService.ResolveAll | frontend/src/main/java/es/ubu/baloncesto/service/PartidoServiceImpl.java:95-106 | one loaded match per stored row, with its teams, in listing order |
| PartidoService.ReadFecha | frontend/src/main/java/es/ubu/baloncesto/service/PartidoServiceImpl.java:281-284 | no key: no date; otherwise the parse of the string, failing when it is not a string or does not parse |
| PartidoService.ReadTeam | frontend/src/main/java/es/ubu/baloncesto/service/PartidoServiceImpl.java:287-313 | a side is built only when its name key is present, with the name as cast and the id only when boxed as Integer or Long |
| PartidoService.MappedPartido | frontend/src/main/java/es/ubu/baloncesto/service/PartidoServiceImpl.java:265-339 | the mapped match: id as read, date and each team only when their keys are present, scores only when Integer (else 0), finalised only for a Boolean true; fails exactly when id, date or a team name cannot be read |
| PartidoService.MapTeam | frontend/src/main/java/es/ubu/baloncesto/service/PartidoServiceImpl.java:287-313 | the fresh team object holds exactly what `ReadTeam` describes |
| PartidoService.SetId | frontend/src/main/java/es/ubu/baloncesto/service/PartidoServiceImpl.java:269-278 | the id set, or the error raised, is exactly what `ReadId` gives; the teams stay put |
| PartidoService.SetFecha | frontend/src/main/java/es/ubu/baloncesto/service/PartidoServiceImpl.java:281-284 | the date set, or the error raised, is exactly what `ReadFecha` gives |
| PartidoService.SetResult | frontend/src/main/java/es/ubu/baloncesto/service/PartidoServiceImpl.java:316-336 | scores copied only when boxed as Integer, finalised only for a Boolean true, the defaults kept otherwise |
| PartidoService.MapToPartido | frontend/src/main/java/es/ubu/baloncesto/service/PartidoServiceImpl.java:265-339 | the setter sequence builds exactly the match `MappedPartido` describes |
| PartidoService.MappedAll | frontend/src/main/java/es/ubu/baloncesto/service/PartidoServiceImpl.java:85-91 | one match per element, in order, exactly when every element maps |
| PartidoService.MappedAllFailsFrom | frontend/src/main/java/es/ubu/baloncesto/service/PartidoServiceImpl.java:85-91 | one element that does not map makes the whole answer unmappable |
| PartidoService.LocalFindAll | frontend/src/main/java/es/ubu/baloncesto/service/PartidoServiceImpl.java:95-106 | every stored match once, with its teams, or a wrapped failure exactly when the read fails |
| PartidoService.FindAll | frontend/src/main/java/es/ubu/baloncesto/service/PartidoServiceImpl.java:72-107 | a null body gives an empty list; a mappable body gives its matches in order; otherwise the local fallback |
| PartidoService.FoundPartido | frontend/src/main/java/es/ubu/baloncesto/service/PartidoServiceImpl.java:114-146 | a null body means "not found"; a mappable body is the answer; otherwise the local lookup by id |
| PartidoService.FindById | frontend/src/main/java/es/ubu/baloncesto/service/PartidoServiceImpl.java:114-146 | the code computes exactly `FoundPartido` |
| PartidoService.LocalSave | frontend/src/main/java/es/ubu/baloncesto/service/PartidoServiceImpl.java:180-191 | a healthy store with storable team references saves the match under a fresh id and changes no team; any failure is wrapped and leaves the store as it was |
| PartidoService.Saved | frontend/src/main/java/es/ubu/baloncesto/service/PartidoServiceImpl.java:153-192 | a usable API answer is returned with the local store untouched; a failed call or a null body falls back to the local save |
| PartidoService.Save | frontend/src/main/java/es/ubu/baloncesto/service/PartidoServiceImpl.java:153-192 | the code computes exactly `Saved` |
| PartidoService.SavedLocallyAddsOneRow | frontend/src/main/java/es/ubu/baloncesto/service/PartidoServiceImpl.java:180-191 | offline, a new match between two stored teams adds exactly one row under an unused id |
| PartidoService.Credited | frontend/src/main/java/es/ubu/baloncesto/model/Partido.java:262-271 | after a result the winner's row has one more win, the loser's one more loss, and every other row and field is as before |
| PartidoService.LocalResultado | frontend/src/main/java/es/ubu/baloncesto/service/PartidoServiceImpl.java:229-254 | unknown id and already-finalised match fail with the store unchanged, rewrapped as "Error al registrar resultado para partido con ID"; otherwise the match is scored and finalised and the teams credited |
| PartidoService.LoadPartido | frontend/src/main/java/es/ubu/baloncesto/service/PartidoServiceImpl.java:231 | the stored match is loaded as a fresh object with its fields and teams as stored, one team object when both keys name the same team |
| PartidoService.RegistrarResultadoLocal | frontend/src/main/java/es/ubu/baloncesto/service/PartidoServiceImpl.java:229-254 | loading the match and its teams, calling the entity and saving computes exactly `LocalResultado` |
| PartidoService.SavedTeamsAreCredited | frontend/src/main/java/es/ubu/baloncesto/service/PartidoServiceImpl.java:248-251 | the entity's per-object effects, saved back, give exactly `Credited` |
| PartidoService.Registered | frontend/src/main/java/es/ubu/baloncesto/service/PartidoServiceImpl.java:199-257 | a mappable API answer is returned with the store untouched; a failed call, a null body or one that does not map falls back to `LocalResultado` |
| PartidoService.RegistrarResultado | frontend/src/main/java/es/ubu/baloncesto/service/PartidoServiceImpl.java:199-257 | the code computes exactly `Registered` |
| PartidoService.LocalResultadoOnce | frontend/src/main/java/es/ubu/baloncesto/service/PartidoServiceImpl.java:242-245 | once a result is recorded locally, a second attempt fails and changes nothing |
| PartidoService.LocalResultadoTieKeepsTeams | frontend/src/main/java/es/ubu/baloncesto/service/PartidoServiceImpl.java:248-251 | a tie finishes the match without touching any team |
| PartidoService.Deleted | frontend/src/main/java/es/ubu/baloncesto/service/PartidoServiceImpl.java:420-438 | a successful API call changes nothing locally; otherwise the row is removed, or a wrapped failure leaves the store as it was |
| PartidoService.DeleteById | frontend/src/main/java/es/ubu/baloncesto/service/PartidoServiceImpl.java:420-438 | the code computes exactly `Deleted` |
| PartidoService.DayBoundsAsWritten | frontend/src/main/java/es/ubu/baloncesto/service/PartidoServiceImpl.java:369-373 | the range as written: midnight to 23:59:59.000 of the same day |
| PartidoService.DayBoundsAsWrittenMissLastSecond | frontend/src/main/java/es/ubu/baloncesto/service/PartidoServiceImpl.java:369-373 | a match at 23:59:59.5 on the queried day is not found by that range |
| PartidoService.DayBounds | frontend/src/main/java/es/ubu/baloncesto/service/PartidoServiceImpl.java:369-373 | a valid instant lies between the bounds exactly when it is on the queried day |
| PartidoService.FindByFecha | frontend/src/main/java/es/ubu/baloncesto/service/PartidoServiceImpl.java:363-379 | fails, wrapped with the rendered date, exactly when the read fails; otherwise the stored matches, with their teams, between the two bounds as written |
| PartidoService.FindByFechaFound | frontend/src/main/java/es/ubu/baloncesto/service/PartidoServiceImpl.java:368-373 | as written, a stored match is found exactly when its date is on the queried day and no later than 23:59:59.000 |
| PartidoService.FindByFechaWholeDay | frontend/src/main/java/es/ubu/baloncesto/service/PartidoServiceImpl.java:363-379 | the intended query: the same failure, otherwise the stored matches between the whole-day bounds |
| PartidoService.FindByFechaSameDay | frontend/src/main/java/es/ubu/baloncesto/service/PartidoServiceImpl.java:363-379 | with the intended bounds a stored match is found exactly when its date falls on the queried day |
| PartidoController.Rewrapped | frontend/src/main/java/es/ubu/baloncesto/controller/PartidoController.java:142-146 | a DatabaseException whose cause is the original and whose message is the prefix followed by the original message |
| PartidoController.BuildPartido | frontend/src/main/java/es/ubu/baloncesto/controller/PartidoController.java:132-135 | the new match holds the two teams found and the date, with no id and no score |
| PartidoController.GuardarPartido | frontend/src/main/java/es/ubu/baloncesto/controller/PartidoController.java:110-147 | equal ids are refused before any lookup; a missing team saves nothing; otherwise the match with both teams and the date is saved and the page redirects; every failure is rewrapped with "Error al guardar partido: " |
| PartidoController.GuardarPartidoOffline | frontend/src/main/java/es/ubu/baloncesto/controller/PartidoController.java:123-141 | with the API down, saving a match between two stored teams adds exactly one row under an unused id |
| PartidoController.MostrarFormularioResultado | frontend/src/main/java/es/ubu/baloncesto/controller/PartidoController.java:156-174 | the form for a found match; a DatabaseException naming the id when it is absent; a lookup failure propagates |
| PartidoController.RegistrarResultado | frontend/src/main/java/es/ubu/baloncesto/controller/PartidoController.java:184-206 | a negative score is refused before the service is called; otherwise the service's effect, with every failure rewrapped and the store left as it was |
| PartidoController.EliminarPartido | frontend/src/main/java/es/ubu/baloncesto/controller/PartidoController.java:214-227 | the service's deletion, its failure rewrapped with "Error al eliminar partido: " |
| PyModels.AsNumber | api/routes.py:329 | the number a value stands for in a comparison (a bool as 0 or 1), or none where Python raises a TypeError |
| PyModels.PyEqEquivalence | api/models.py:169-172 | Python's `==` on payload values, with `True == 1`, is reflexive, symmetric and transitive |
| PyModels.Equipo.constructor | api/models.py:54-69 | a new team keeps the three given fields, has no id yet and 0 wins / 0 losses |
| PyModels.Equipo.RegistrarVictoria | api/models.py:71-80 | exactly one more win, returned; nothing else changes |
| PyModels.Equipo.RegistrarDerrota | api/models.py:82-91 | exactly one more loss, returned; nothing else changes |
| PyModels.Equipo.CalcularPorcentajeVictorias | api/models.py:93-103 | 0.0 before any game, a proportion in [0, 1] for non-negative counters, and the same ratio as the Java entity's (`WinRatio.Ratio`) |
| PyModels.Equipo.ToDict | api/models.py:105-121 | the stored fields with the ratio of the same counters |
| PyModels.Partido.Create | api/models.py:159-181 | a ValueError exactly when the two ids compare equal under Python's `==`; otherwise a fresh unfinished 0-0 match |
| PyModels.Partido.RegistrarResultado | api/models.py:183-206 | a negative score raises before any field changes; otherwise both scores set, finalised and True returned |
| PyModels.Partido.GanadorId | api/models.py:208-223 | no winner exactly before the end or on a tie; otherwise the id on the side with more points |
| PyModels.Partido.DiferenciaPuntos | api/models.py:225-232 | the absolute value of the score difference: never negative, zero exactly on a tie, and the same margin as the Java entity's (`WinRatio.Margin`) |
| PyModels.Partido.ToDict | api/models.py:234-252 | the stored fields, with winner and margin as the two methods compute them |
| PyModels.DictWinnerIffMargin | api/models.py:234-252 | a finished match's dictionary names a winner exactly when the margin is positive, and the winner is one of its two teams |
| PyModels.RegistrarYLeer | api/models.py:183-252 | a recorded result reads back from `to_dict` with its scores, the winner unless tied, and the margin |
| PyStore.NextRowId | api/routes.py:141-147 | a new row's id is one past the largest in use, 1 in an empty table, so it never collides |
| PyStore.Flush | api/init_db.py:41-50 | rows queued with `db.session.add` get rowids at flush in the order they were added; rows already stored keep their ids and values |
| PyStore.FlushAddsEveryRow | api/init_db.py:41-50 | every queued row gets an id of its own: the table grows by exactly the number of rows flushed |
| PyStore.Commit | api/routes.py:148-151 | the staged state is installed exactly when the constraints hold and the database accepts it; otherwise the session rolls back |
| PyStore.RemovalKeepsIntegrity | api/routes.py:352-361 | removing a row keeps every constraint |
| FlaskRoutes.StoreEquipoIntegrity | api/models.py:39 | writing a team row keeps the constraints exactly when its NOT NULL columns are filled and its name is free |
| FlaskRoutes.StorePartidoIntegrity | api/routes.py:280-290 | writing a match row keeps the constraints exactly when both team ids are non-null |
| FlaskRoutes.CreateEquipo | api/routes.py:120-151 | no JSON: 500; a missing key: 400; otherwise 201 with a new 0/0 team under the next rowid exactly when the commit succeeds (unique name, non-null fields), else 500; the store changes only on 201 |
| FlaskRoutes.Updated | api/routes.py:174-181 | each of the three fields takes the payload's value exactly when its key is present; the counters never change |
| FlaskRoutes.UpdateEquipo | api/routes.py:153-188 | unknown id: 404 before the payload is read; no JSON: 500; otherwise the team becomes `Updated` when the commit succeeds, else 500 with nothing changed |
| FlaskRoutes.Unlinked | api/routes.py:203-212 | a match naming the deleted team loses that team id; any other match is unchanged |
| FlaskRoutes.DeletionStagedIntegrity | api/routes.py:203-212 | the staged deletion passes the constraints exactly when no match names the team, and then it only removes that team |
| FlaskRoutes.DeleteEquipo | api/routes.py:190-216 | unknown id: 404; otherwise 200 exactly when the commit succeeds and no match names the team, removing exactly that team; else 500 with nothing changed |
| FlaskRoutes.CreatePartido | api/routes.py:259-294 | checks in order: no JSON 500, missing keys 400, equal ids 400, bad date 500; 201 with a new unfinished 0-0 match under the next rowid exactly when the commit succeeds; the store changes only on 201 |
| FlaskRoutes.JudgeScores | api/routes.py:321-326 | `puntos_local < 0 or puntos_visitante < 0` with short-circuit: a TypeError exactly when an operand it reaches is not a number; negative exactly when a reached score is below 0 |
| FlaskRoutes.RegistrarResultado | api/routes.py:296-337 | checks in order: unknown id 404, finalised 400, no JSON 500, missing keys 400, a non-number 500, negative 400; success scores and finalises the match; the team table never changes and the store changes only on 200 |
| FlaskRoutes.DeletePartido | api/routes.py:339-365 | unknown id: 404; otherwise exactly that match is removed when the commit succeeds, else 500 with nothing changed |
| InitDb.SeedRow | api/init_db.py:23-32 | each seeded team has its listed name, all NOT NULL columns filled and 0 wins / 0 losses |
| InitDb.SeedRows | api/init_db.py:41-47 | after n seeds an empty table holds exactly ids 1..n, the i-th seed under id i |
| InitDb.Seeded | api/init_db.py:35-50 | the store changes exactly when the team table was empty and the commit succeeds, and then holds exactly the eight seeds; matches are untouched |
| InitDb.SeedRowsNextId | api/init_db.py:41-50 | once n seeds are stored under ids 1..n, the next row takes id n + 1 |
| InitDb.FlushSeeds | api/init_db.py:41-50 | flushing the queued seed rows into an empty table numbers them 1..n in the order they were added, which is `SeedRows` |
| InitDb.SeededCommit | api/init_db.py:49-50 | committing the seeded table into an empty one succeeds exactly when the database accepts it, with the result `Seeded` describes |
| InitDb.SeedNamesDistinct | api/init_db.py:24-31 | the eight seed names are pairwise distinct |
| InitDb.SeededIntegrity | api/models.py:39 | the seeded table satisfies the unique-name and NOT NULL constraints |
| InitDb.InitDb | api/init_db.py:16-50 | with an empty team table the loop queues the eight seeds and the commit numbers and stores them, computing exactly `Seeded`; it fails exactly when a needed commit is refused, and the store it leaves always satisfies the constraints |
| InitDb.SeededIdempotent | api/init_db.py:35-38 | running the seeding twice leaves the same store as running it once (the first run that commits wins) |

## Left out

- HTTP calls to the API (RestTemplate) and the Pokémon endpoints and
  simulated-error endpoints (api/routes.py:44-77, 367-421, and the API
  controller): they are network I/O. The outcome of a call is an oracle
  parameter.
- The read-only Flask endpoints `get_equipos`, `get_equipo`, `get_partidos`
  and `get_partido` (api/routes.py:81-118, 220-257): they only serialise
  what `to_dict` produces, which is modelled.
- The `details` text of a 500 answer (`str(e)` of a database or Python
  exception) is not modelled: the exception text comes from code outside
  this model.
- `fecha_creacion` in both stacks and `Partido.estaListo`: they read the
  wall clock.
- The ISO rendering of dates in `to_dict`: a date stays a date-time value.
- SQLite's integer affinity, which turns a numeric string id into an
  integer, is not modelled. Neither is the storage of booleans as 1/0 when
  names are compared for uniqueness.
- JSON floats in a payload, and request bodies that are JSON but not
  objects, are not modelled.
- EquipoService `findByNombreContaining`, `save` and `deleteById`, and
  PartidoService `findByEquipo`, `findByFinalizadoTrue` and
  `findByFinalizadoFalse`: these only pass a repository query through the
  same API-then-local fallback shape that `findAll` and `findById` already
  model. The queries themselves are modelled in the repository modules.
- Spring Data `deleteById` of an unknown id: modelled as doing nothing locally.
- The order of a local `findAll`, which JPA leaves unspecified: the model
  lists rows by ascending id.
- Framework configuration, login, the home page, the browser script,
  logging, the service interfaces and server bootstrapping: they have no
  behaviour of their own.
- EquipoEntity.Equipo.RegistrarVictoria: does not model 32-bit `int`
  wrap-around of the counters, because integers are unbounded here.
- PartidoEntity.Partido.RegistrarResultado: does not model 32-bit `int`
  wrap-around of the counters, for the same reason.
- WinRatio.Ratio: an exact real, not a Java double, so rounding is not
  modelled.
- PyModels.Equipo.CalcularPorcentajeVictorias: an exact real, not a Python
  float.
- ExceptionHandler.HandleFileException: the error page sets a `status`
  model attribute but not the HTTP status, and the model reports only the
  attribute. The same holds for the other three handlers.
- ExceptionHandler.HandleGenericException: the exception classes are only
  those the core raises; other JVM exception types are not modelled.
- EquipoEntity.Equipo.ToString has no contract of its own; the text is
  `EquipoText`, and the properties are stated there.
- PartidoEntity.PartidoText: the score suffix is stated by
  `PartidoTextFinishedExtends`; the scores inside it come from
  `IntToString`, whose contract states only digits and sign, not a parse
  back to the number.
- EquipoEntity.Equipo.CalcularPorcentajeVictorias and
  PartidoEntity.Partido.DiferenciaPuntos carry no contracts of their own:
  each calls `WinRatio.Ratio` or `WinRatio.Margin`, where the properties
  are stated.
- `IsAjaxRequest` is a predicate; its two directions are stated by
  `AcceptMentioningJsonIsAjax` and `RequestedWithIsExact`.

## Findings

| source | as written | input that shows it | evidently intended | confidence | as-written member | corrected member |
|---|---|---|---|---|---|---|
| frontend/src/main/java/es/ubu/baloncesto/service/PartidoServiceImpl.java:369-373 | `findByFecha` queries from `atTime(0, 0, 0)` to `atTime(23, 59, 59)`, so the upper bound has no fraction of a second | a match dated 23:59:59.5 on the queried day | every match of that calendar day, up to its last nanosecond | not executed | PartidoService.DayBoundsAsWrittenMissLastSecond | PartidoService.FindByFechaWholeDay |

`PartidoService.FindByFecha` models the query as written, and
`PartidoService.FindByFechaFound` states which matches it finds.
`PartidoService.FindByFechaWholeDay` is the corrected query;
`PartidoService.FindByFechaSameDay` proves that it finds exactly the matches
of the queried day.
