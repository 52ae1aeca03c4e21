# Movie catalogue API and user repository, modelled in Dafny

This project models two small CRUD services. Under their Spring and JPA
plumbing, each is a short decision procedure over an id-to-record table.

* **The movie REST controller** (`MovieRestApi`). `GET /movies` lists movies,
  filtered by the first non-blank of title, director and category.
  `POST /movies` creates a movie. `GET`, `PUT` and `DELETE /movies/{id}` read,
  replace and delete one movie, and `PUT /movies/{id}/title` renames one.
  The listing endpoint has no error case: it applies at most one filter
  (none when all three are null or blank) and answers 200 with every
  matching row. Each single-movie endpoint runs a fixed sequence of guards.
  The order of those guards decides between 400, 404 and 409. A guard may
  look a row up in the movies table; the one write, if any, comes after the
  last guard.
* **The user repository** (`UserRepository`). It declares three derived
  equality queries on the user table. Its custom implementation
  `UserRepositoryImpl` has one insert and two find-then-mutate operations.
  Those look up the managed `User` entity, assign its fields in place, and
  return whether the user existed.

Files:

* `tables.dfy` (module `Tables`): the one filter behind every derived
  `findAllBy*` query. It keeps the rows whose column equals a value.
* `kotlin.dfy` (module `Kotlin`): nullable values (`Option`), `isNullOrBlank`
  and `isNullOrEmpty`, and `String.toLong` (the JVM's `Long.parseLong` in
  radix 10). It also has `Long.toString` and the lemma that `toLong` undoes
  `toString` on every `Long`. The converse does not hold, because `toLong`
  accepts leading zeros and a '+' sign.
* `movies_api.dfy` (module `MoviesApi`): the repository's equality queries. It
  has one pure function per endpoint (`...Outcome`), giving the status code
  and the table afterwards. The `MovieRestApi` class holds the table. Its
  methods run the guards with early returns in the source's order, and each
  is proved equal to its endpoint function. The module ends with lemmas that
  relate several requests.
* `user_repository.dfy` (module `UserDb`): the three `findAllBy*` queries. It
  has the specification of the two mutators on the abstract table, the `User`
  entity class, and `UserRepositoryImpl`. The repository's methods mutate
  entity objects in place and are proved against that specification through
  the `Table()` view.

Modelling choices:

* A persistence-layer constraint violation comes from the record being
  written, so it is modelled as a predicate on the row, `accepts`. A row it
  rejects gives 400 and leaves the table unchanged.
* The database's identity generation is a parameter, `generatedId`. It must
  be an id the table does not yet hold.
* The body-id/path-id check in `updateMovie` compares the two ids as strings,
  as the code does (`MovieRestApi.kt:166`). So a body id `"7"` against a path
  id `"07"` is 409, although both parse to 7 (`TextualIdConflict`).
* `get` accepts `screeningFromTime` and `screeningToTime` but never filters on
  them. The model keeps this behaviour (`ScreeningTimesIgnored`).
* `createMovie` treats only a null or empty id as absent. A client id of
  `" "` is rejected with 400.
* `deleteMovie` answers 400 for an unparsable path id. `getMovie` answers 404
  for an unparsable path id. `updateMovie` parses the body id, not the path
  id: it answers 404 for an unparsable body id, and 409 when only the path id
  is unparsable (`UnparsablePathIdConflicts`).

## Model

| member | source | states |
|---|---|---|
| `Kotlin.ParseLong` | movies/src/main/kotlin/org/pg6100/movies/api/MovieRestApi.kt:128 | `toLong` rejects the empty string, a lone sign and any non-digit after the first character. A digit string, or '+' followed by digits, gives its value when that is at most `Long.MAX_VALUE` and is rejected otherwise; leading zeros are allowed. '-' followed by digits gives the negated value when it is at least `Long.MIN_VALUE`. A result is always a `Long`. |
| `Kotlin.IsNullOrBlank` | movies/src/main/kotlin/org/pg6100/movies/api/MovieRestApi.kt:56-65 | `isNullOrBlank`: every null or empty string is blank, and a string is not blank exactly when some character of it is not JVM whitespace. This decides which filter `get` applies. |
| `Kotlin.IsNullOrEmpty` | movies/src/main/kotlin/org/pg6100/movies/api/MovieRestApi.kt:87 | `isNullOrEmpty` holds exactly for null and the empty string. |
| `Kotlin.WhitespaceIsBlankNotEmpty` | movies/src/main/kotlin/org/pg6100/movies/api/MovieRestApi.kt:87 | A whitespace-only string such as `" "` is blank but not empty, so `createMovie` treats it as a client-supplied id. |
| `MoviesApi.ParseId` | movies/src/main/kotlin/org/pg6100/movies/api/MovieRestApi.kt:128 | `id!!.toLong()`: a null id fails, a present id parses as `toLong` does, and a result is always a `Long`. The same step appears at lines 156 and 250. |
| `MoviesApi.FindAllByTitle` | movies/src/main/kotlin/org/pg6100/movies/api/MovieRestApi.kt:63 | The result is a sub-table of the store. It holds exactly the rows whose title equals the argument. |
| `MoviesApi.FindAllByDirector` | movies/src/main/kotlin/org/pg6100/movies/api/MovieRestApi.kt:67 | The result is a sub-table of the store. It holds exactly the rows whose director equals the argument. |
| `MoviesApi.FindAllByCategory` | movies/src/main/kotlin/org/pg6100/movies/api/MovieRestApi.kt:71 | The result is a sub-table of the store. It holds exactly the rows whose category equals the argument. |
| `MoviesApi.GetOutcome` | movies/src/main/kotlin/org/pg6100/movies/api/MovieRestApi.kt:56-72 | All three filters null or blank gives the whole table. Otherwise the first non-blank of title, director and category decides which rows are selected. The result is always a sub-table. |
| `MoviesApi.ScreeningTimesIgnored` | movies/src/main/kotlin/org/pg6100/movies/api/MovieRestApi.kt:45-72 | The screening-time parameters never change the listing. |
| `MoviesApi.MovieRestApi.Get` | movies/src/main/kotlin/org/pg6100/movies/api/MovieRestApi.kt:31-75 | The listing endpoint always answers 200 with `GetOutcome` of the current table. |
| `MoviesApi.GetMovieOutcome` | movies/src/main/kotlin/org/pg6100/movies/api/MovieRestApi.kt:125-137 | 200 with the stored row if and only if the path id parses as a `Long` that has a row. Otherwise 404 with no body. |
| `MoviesApi.MovieRestApi.GetMovie` | movies/src/main/kotlin/org/pg6100/movies/api/MovieRestApi.kt:118-138 | Answers as `GetMovieOutcome` does. It has no `modifies` clause, so the table is untouched. |
| `MoviesApi.CreateMovieOutcome` | movies/src/main/kotlin/org/pg6100/movies/api/MovieRestApi.kt:87-114 | A non-empty client id gives 400, and so does a missing field. 201 comes back if and only if the id is null or empty, all fields are present and the row is accepted. Then the fresh id is returned and the table gains exactly that row. On 400 the table is unchanged. |
| `MoviesApi.MovieRestApi.CreateMovie` | movies/src/main/kotlin/org/pg6100/movies/api/MovieRestApi.kt:77-115 | The guard sequence gives the status, id and new table of `CreateMovieOutcome`. Every stored id stays a `Long`. |
| `MoviesApi.UpdateMovieOutcome` | movies/src/main/kotlin/org/pg6100/movies/api/MovieRestApi.kt:153-199 | The first matching guard decides, in this order: an unparsable body id gives 404; differing id texts give 409 (whether or not the row exists); an absent row gives 404; a missing field gives 400; a row the persistence layer rejects gives 400. 204 holds if and only if all guards pass, and then only that row is replaced and its id kept. On any error the table is unchanged. |
| `MoviesApi.MovieRestApi.UpdateMovie` | movies/src/main/kotlin/org/pg6100/movies/api/MovieRestApi.kt:141-200 | The early-return guards give the status and new table of `UpdateMovieOutcome`. |
| `MoviesApi.TextualIdConflict` | movies/src/main/kotlin/org/pg6100/movies/api/MovieRestApi.kt:166-171 | A path id of "0" followed by the body's digit id parses to the same number, yet the update answers 409 and changes nothing. |
| `MoviesApi.UpdateMovieIdempotent` | movies/src/main/kotlin/org/pg6100/movies/api/MovieRestApi.kt:186-199 | Repeating a successful update answers 204 again and leaves the same table. |
| `MoviesApi.UpdateTitleOutcome` | movies/src/main/kotlin/org/pg6100/movies/api/MovieRestApi.kt:214-237 | A null id gives 400 and an absent id gives 404. A row whose new title the persistence layer rejects gives 400. 204 holds if and only if the row exists and the renamed row is accepted. Then only that row's title changes; its other fields and the other rows stay. On any error the table is unchanged. |
| `MoviesApi.MovieRestApi.UpdateTitle` | movies/src/main/kotlin/org/pg6100/movies/api/MovieRestApi.kt:202-238 | The early-return guards give the status and new table of `UpdateTitleOutcome`. |
| `MoviesApi.DeleteMovieOutcome` | movies/src/main/kotlin/org/pg6100/movies/api/MovieRestApi.kt:247-263 | An unparsable id gives 400 and an absent id gives 404 (each if and only if), with the table unchanged. On 204 exactly that id is removed and every other row is kept. |
| `MoviesApi.MovieRestApi.DeleteMovie` | movies/src/main/kotlin/org/pg6100/movies/api/MovieRestApi.kt:240-264 | The early-return guards give the status and new table of `DeleteMovieOutcome`. |
| `MoviesApi.UnparsablePathIdConflicts` | movies/src/main/kotlin/org/pg6100/movies/api/MovieRestApi.kt:153-171 | When the body id parses and the path id does not, the update answers 409 with the table unchanged, because only the body id is parsed and the ids are compared as text. |
| `MoviesApi.MovieRestApi.StoredMovieIsFound` | movies/src/main/kotlin/org/pg6100/movies/api/MovieRestApi.kt:125-137 | Every row the controller holds can be fetched: GET at its id printed in decimal answers 200 with that row. This uses `Valid()`, which keeps every stored id a `Long`. |
| `MoviesApi.DeletedMovieIsGone` | movies/src/main/kotlin/org/pg6100/movies/api/MovieRestApi.kt:247-263 | After a successful delete, GET of the same id gives 404, and so does a second DELETE. |
| `MoviesApi.CreatedMovieIsFound` | movies/src/main/kotlin/org/pg6100/movies/api/MovieRestApi.kt:99-137 | After a 201, GET at the returned id (printed in decimal) gives 200 with exactly the created fields. |
| `MoviesApi.MovieRestApi.constructor` | movies/src/main/kotlin/org/pg6100/movies/api/MovieRestApi.kt:26-29 | The controller starts over whatever table the injected repository holds, provided every id in it is a `Long`, and with the given constraint predicate. |
| `UserDb.FindAllByUsername` | UserDetails/src/main/kotlin/backend/db/UserRepository.kt:16 | The result holds exactly the users whose username equals the argument, with their stored rows. |
| `UserDb.FindAllByMail` | UserDetails/src/main/kotlin/backend/db/UserRepository.kt:18 | The result holds exactly the users whose mail equals the argument, with their stored rows. |
| `UserDb.FindAllByAddress` | UserDetails/src/main/kotlin/backend/db/UserRepository.kt:20 | The result holds exactly the users whose address equals the argument, with their stored rows. |
| `UserDb.UpdateUsernameOutcome` | UserDetails/src/main/kotlin/backend/db/UserRepository.kt:51-55 | Returns true if and only if the id exists. If not, the table is unchanged. If so, only that user's username changes; its mail, address and id and all other users stay. |
| `UserDb.UpdateOutcome` | UserDetails/src/main/kotlin/backend/db/UserRepository.kt:57-66 | Returns true if and only if the id exists. If not, the table is unchanged. If so, that user's three fields are all replaced; its id and all other users stay. |
| `UserDb.UpdateWithCurrentValuesIsNoOp` | UserDetails/src/main/kotlin/backend/db/UserRepository.kt:61-65 | Updating a user with its current values returns true and leaves the table equal. |
| `UserDb.UpdateIsIdempotent` | UserDetails/src/main/kotlin/backend/db/UserRepository.kt:61-65 | Applying the same update twice gives what applying it once gives. |
| `UserDb.UpdateUsernameIsPartialUpdate` | UserDetails/src/main/kotlin/backend/db/UserRepository.kt:51-66 | `updateUsername` equals `update` with the user's current mail and address. |
| `UserDb.User.constructor` | UserDetails/src/main/kotlin/backend/db/UserRepository.kt:46 | A new entity has the given fields and no id until it is persisted. |
| `UserDb.UserRepositoryImpl.constructor` | UserDetails/src/main/kotlin/backend/db/UserRepository.kt:40-43 | The persistence context starts with whatever entities the injected `EntityManager` manages, provided each carries the id it is stored under. |
| `UserDb.UserRepositoryImpl.CreateUser` | UserDetails/src/main/kotlin/backend/db/UserRepository.kt:45-49 | Persists a new entity under the generated id and returns that id, which was not in the table. The table gains exactly that row and existing users are untouched. |
| `UserDb.UserRepositoryImpl.UpdateUsername` | UserDetails/src/main/kotlin/backend/db/UserRepository.kt:51-55 | Assigning the found entity's username in place gives the result and table of `UpdateUsernameOutcome`. No other entity changes. |
| `UserDb.UserRepositoryImpl.Update` | UserDetails/src/main/kotlin/backend/db/UserRepository.kt:57-66 | Assigning the found entity's three fields in place gives the result and table of `UpdateOutcome`. No other entity changes. |

## Left out

- Spring and Swagger annotations, request routing, media-type negotiation and `ResponseEntity` construction are not modelled. An endpoint returns a plain status code and payload.
- Exceptions other than constraint violations are not modelled. They are re-thrown to the framework and become 500 (`MovieRestApi.kt:111`, `196`, `234`). So is the root-cause inspection that separates them.
- The source of `MoviesRepository`, `MovieDto`, `MovieConverter` and of the `Movie` and `User` entities is not shown; the model defines its own versions of them. `MovieDto` is a record of nullable fields with the id as text, and the conversion between DTO and entity is the identity.
- The `Movie` entity is assumed to hold exactly title, director, category and the two screening times, with its generated `Long` id as the table key.
- The `User` entity is assumed to hold a username, a mail and an address, and a nullable id that is null until `persist` assigns the generated id.
- The repository's derived queries are modelled as equality filters, and its writes as single table updates.
- `findAll` and the `findAllBy*` queries return a table keyed by id, so the order of the returned list is not modelled.
- `ZonedDateTime` values are opaque instants (`int`). They are never parsed or compared.
- Transactions are not modelled: `@Transactional` boundaries, rollback and flush timing. The `EntityManager` internals are left out too.
- How the database generates ids is not modelled. The generated id is a parameter that must be absent from the table.
- Constraint violations on the user table are not modelled. `createUser`, `updateUsername` and `update` would all propagate them, but the `User` entity's source is not shown and no constraint is visible in the repository.
- Thread-per-request concurrency is left out. It is the host framework's.
- Spring's binding of `updateTitle`'s numeric path variable happens before the method runs, so it is not modelled. The model takes the already-bound nullable `Long`.
- Kotlin.ParseLong: accepts ASCII digits only. `Character.digit` also accepts other Unicode decimal digits (for example Arabic-Indic digits), and those are not modelled.
- Strings are sequences of Unicode scalar values rather than UTF-16 code units. `Kotlin.IsWhitespace` uses the current Unicode separator set, so it leaves out U+180E, which older JVMs count as a space.
