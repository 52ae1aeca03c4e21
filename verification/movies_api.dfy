/** The movie catalogue endpoints of `MovieRestApi`. The listing endpoint
    has no error case: it applies at most one filter and answers with every
    matching row. Each single-movie endpoint binds its request and runs a
    fixed sequence of guards that picks the status code; a guard may look a
    row up in the movies table, and the one write, if any, comes after the
    last guard.

    The module holds, first, the table queries of `MoviesRepository`; then
    one pure function per endpoint (`...Outcome`), the specification, which
    says which status comes back and what the table is afterwards; then the
    controller class, whose methods run the guards step by step against the
    table they hold and are proved to agree with those functions; and last,
    lemmas that relate several requests. */
module MoviesApi {
  import opened Kotlin
  import opened Tables

  /** The HTTP status codes the controller answers with. */
  const OK := 200
  const CREATED := 201
  const NO_CONTENT := 204
  const BAD_REQUEST := 400
  const NOT_FOUND := 404
  const CONFLICT := 409

  /** A `ZonedDateTime`. The controller only stores and returns screening
      times, so they are held as opaque instants. */
  type Timestamp = int

  /** A row of the movies table, without its id (the id is the row's key). */
  datatype Movie = Movie(
    title: string,
    director: string,
    category: string,
    screeningFromTime: Timestamp,
    screeningToTime: Timestamp)

  /** The movies table: id to row. */
  type Store = map<int, Movie>

  /** The request body of the create and update endpoints: every field may be
      missing, and the id travels as text. */
  datatype MovieDto = MovieDto(
    movieId: Option<string>,
    title: Option<string>,
    director: Option<string>,
    category: Option<string>,
    screeningFromTime: Option<Timestamp>,
    screeningToTime: Option<Timestamp>)

  /** None of the five required movie fields is null. */
  predicate HasAllFields(dto: MovieDto) {
    && dto.title.Some?
    && dto.director.Some?
    && dto.category.Some?
    && dto.screeningFromTime.Some?
    && dto.screeningToTime.Some?
  }

  /** The row a complete request body describes. */
  function RecordOf(dto: MovieDto): Movie
    requires HasAllFields(dto)
  {
    Movie(dto.title.value, dto.director.value, dto.category.value,
          dto.screeningFromTime.value, dto.screeningToTime.value)
  }

  /** `id!!.toLong()`: a null id and an unparsable one both fail. */
  function ParseId(id: Option<string>): (r: Option<int>)
    ensures id.None? ==> r.None?
    ensures id.Some? ==> r == ParseLong(id.value)
    ensures r.Some? ==> InLongRange(r.value)
  {
    if id.None? then None else ParseLong(id.value)
  }

  /** A response that may carry a body. */
  datatype Response<T> = Response(status: int, body: Option<T>)

  /** What the create endpoint answers, and the table after it. */
  datatype Created = Created(status: int, id: Option<int>, after: Store)

  /** What an update or delete endpoint answers, and the table after it. */
  datatype Effect = Effect(status: int, after: Store)

  // ---------------------------------------------------------------------
  // MoviesRepository's derived queries: equality filters on one column.
  // ---------------------------------------------------------------------

  /** `findAllByTitle`: exactly the rows whose title equals `title`. */
  function FindAllByTitle(store: Store, title: string): (r: Store)
    ensures forall id | id in r :: id in store && r[id] == store[id]
    ensures forall id | id in store :: id in r <==> store[id].title == title
  {
    Where(store, (m: Movie) => m.title == title)
  }

  /** `findAllByDirector`: exactly the rows whose director equals `director`. */
  function FindAllByDirector(store: Store, director: string): (r: Store)
    ensures forall id | id in r :: id in store && r[id] == store[id]
    ensures forall id | id in store :: id in r <==> store[id].director == director
  {
    Where(store, (m: Movie) => m.director == director)
  }

  /** `findAllByCategory`: exactly the rows whose category equals `category`. */
  function FindAllByCategory(store: Store, category: string): (r: Store)
    ensures forall id | id in r :: id in store && r[id] == store[id]
    ensures forall id | id in store :: id in r <==> store[id].category == category
  {
    Where(store, (m: Movie) => m.category == category)
  }

  // ---------------------------------------------------------------------
  // The endpoints as functions of the table and the bound request.
  // ---------------------------------------------------------------------

  /** GET /movies. The first of title, director, category that is not null
      or blank selects the rows with that value; when all three are null or
      blank, every row. The two screening times are accepted and never used. */
  function GetOutcome(store: Store, title: Option<string>, director: Option<string>,
                      category: Option<string>, screeningFromTime: Option<Timestamp>,
                      screeningToTime: Option<Timestamp>): (r: Store)
    ensures forall id | id in r :: id in store && r[id] == store[id]
    ensures IsNullOrBlank(title) && IsNullOrBlank(director) && IsNullOrBlank(category) ==> r == store
    ensures !IsNullOrBlank(title) ==>
      forall id | id in store :: id in r <==> store[id].title == title.value
    ensures IsNullOrBlank(title) && !IsNullOrBlank(director) ==>
      forall id | id in store :: id in r <==> store[id].director == director.value
    ensures IsNullOrBlank(title) && IsNullOrBlank(director) && !IsNullOrBlank(category) ==>
      forall id | id in store :: id in r <==> store[id].category == category.value
  {
    if IsNullOrBlank(title) && IsNullOrBlank(director) && IsNullOrBlank(category) then
      store
    else if !IsNullOrBlank(title) then
      FindAllByTitle(store, title.value)
    else if !IsNullOrBlank(director) then
      FindAllByDirector(store, director.value)
    else
      FindAllByCategory(store, category.value)
  }

  /** GET /movies/{id}: the row, or 404 when the id is not a `Long` or no row has it. */
  function GetMovieOutcome(store: Store, pathId: Option<string>): (r: Response<Movie>)
    ensures r.status == OK || r.status == NOT_FOUND
    ensures r.status == OK <==> ParseId(pathId).Some? && ParseId(pathId).value in store
    ensures r.status == OK ==> r.body == Some(store[ParseId(pathId).value])
    ensures r.status == NOT_FOUND ==> r.body.None?
  {
    var id := ParseId(pathId);
    if id.None? then Response(NOT_FOUND, None)
    else if id.value !in store then Response(NOT_FOUND, None)
    else Response(OK, Some(store[id.value]))
  }

  /** POST /movies. A client-chosen id (anything but null or "") and a missing
      field are each 400, and so is a row the persistence layer rejects;
      otherwise the row is stored under the id the database generates and
      that id comes back with 201. Every failure leaves the table as it was. */
  function CreateMovieOutcome(store: Store, dto: MovieDto, generatedId: int,
                              accepts: Movie -> bool): (r: Created)
    requires generatedId !in store
    ensures r.status == CREATED || r.status == BAD_REQUEST
    ensures !IsNullOrEmpty(dto.movieId) ==> r.status == BAD_REQUEST
    ensures !HasAllFields(dto) ==> r.status == BAD_REQUEST
    ensures r.status == CREATED <==>
      IsNullOrEmpty(dto.movieId) && HasAllFields(dto) && accepts(RecordOf(dto))
    ensures r.status == CREATED ==>
      && r.id == Some(generatedId)
      && r.after.Keys == store.Keys + {generatedId}
      && r.after[generatedId] == RecordOf(dto)
      && forall id | id in store :: r.after[id] == store[id]
    ensures r.status != CREATED ==> r.id.None? && r.after == store
  {
    if !IsNullOrEmpty(dto.movieId) then Created(BAD_REQUEST, None, store)
    else if !HasAllFields(dto) then Created(BAD_REQUEST, None, store)
    else if !accepts(RecordOf(dto)) then Created(BAD_REQUEST, None, store)
    else Created(CREATED, Some(generatedId), store[generatedId := RecordOf(dto)])
  }

  /** PUT /movies/{id}. The guards run in this order and the first that fires
      decides: a null or unparsable body id is 404; a body id whose TEXT
      differs from the path id is 409, whether or not the row exists; an id
      with no row is 404; a missing field is 400; a rejected row is 400.
      Otherwise the row is replaced under the same id and the answer is 204.
      Every failure leaves the table as it was. */
  function UpdateMovieOutcome(store: Store, pathId: Option<string>, dto: MovieDto,
                              accepts: Movie -> bool): (r: Effect)
    ensures r.status in {NO_CONTENT, BAD_REQUEST, NOT_FOUND, CONFLICT}
    ensures r.status != NO_CONTENT ==> r.after == store
    ensures ParseId(dto.movieId).None? ==> r.status == NOT_FOUND
    ensures ParseId(dto.movieId).Some? && dto.movieId != pathId ==> r.status == CONFLICT
    ensures ParseId(dto.movieId).Some? && dto.movieId == pathId && ParseId(dto.movieId).value !in store
      ==> r.status == NOT_FOUND
    ensures ParseId(dto.movieId).Some? && dto.movieId == pathId && ParseId(dto.movieId).value in store
            && !HasAllFields(dto)
      ==> r.status == BAD_REQUEST
    ensures ParseId(dto.movieId).Some? && dto.movieId == pathId && ParseId(dto.movieId).value in store
            && HasAllFields(dto) && !accepts(RecordOf(dto))
      ==> r.status == BAD_REQUEST
    ensures r.status == NO_CONTENT <==>
      && ParseId(dto.movieId).Some?
      && dto.movieId == pathId
      && ParseId(dto.movieId).value in store
      && HasAllFields(dto)
      && accepts(RecordOf(dto))
    ensures r.status == NO_CONTENT ==>
      && r.after.Keys == store.Keys
      && r.after[ParseId(dto.movieId).value] == RecordOf(dto)
      && forall id | id in store && id != ParseId(dto.movieId).value :: r.after[id] == store[id]
  {
    var dtoId := ParseId(dto.movieId);
    if dtoId.None? then Effect(NOT_FOUND, store)
    else if dto.movieId != pathId then Effect(CONFLICT, store)
    else if dtoId.value !in store then Effect(NOT_FOUND, store)
    else if !HasAllFields(dto) then Effect(BAD_REQUEST, store)
    else if !accepts(RecordOf(dto)) then Effect(BAD_REQUEST, store)
    else Effect(NO_CONTENT, store[dtoId.value := RecordOf(dto)])
  }

  /** PUT /movies/{id}/title. A null id is 400, an id with no row 404, a row
      the new title makes unacceptable 400; otherwise only that row's title
      changes and the answer is 204. Every failure leaves the table as it was. */
  function UpdateTitleOutcome(store: Store, id: Option<int>, title: string,
                              accepts: Movie -> bool): (r: Effect)
    ensures r.status in {NO_CONTENT, BAD_REQUEST, NOT_FOUND}
    ensures r.status != NO_CONTENT ==> r.after == store
    ensures id.None? ==> r.status == BAD_REQUEST
    ensures id.Some? && id.value !in store ==> r.status == NOT_FOUND
    ensures id.Some? && id.value in store && !accepts(store[id.value].(title := title))
      ==> r.status == BAD_REQUEST
    ensures r.status == NO_CONTENT <==>
      id.Some? && id.value in store && accepts(store[id.value].(title := title))
    ensures r.status == NO_CONTENT ==>
      && r.after.Keys == store.Keys
      && r.after[id.value].title == title
      && r.after[id.value].director == store[id.value].director
      && r.after[id.value].category == store[id.value].category
      && r.after[id.value].screeningFromTime == store[id.value].screeningFromTime
      && r.after[id.value].screeningToTime == store[id.value].screeningToTime
      && forall k | k in store && k != id.value :: r.after[k] == store[k]
  {
    if id.None? then Effect(BAD_REQUEST, store)
    else if id.value !in store then Effect(NOT_FOUND, store)
    else
      var renamed := store[id.value].(title := title);
      if !accepts(renamed) then Effect(BAD_REQUEST, store)
      else Effect(NO_CONTENT, store[id.value := renamed])
  }

  /** DELETE /movies/{id}. An unparsable id is 400 (where GET answers 404),
      an id with no row 404; otherwise that row, and only that row, is gone
      and the answer is 204. */
  function DeleteMovieOutcome(store: Store, pathId: Option<string>): (r: Effect)
    ensures r.status in {NO_CONTENT, BAD_REQUEST, NOT_FOUND}
    ensures r.status != NO_CONTENT ==> r.after == store
    ensures ParseId(pathId).None? <==> r.status == BAD_REQUEST
    ensures ParseId(pathId).Some? && ParseId(pathId).value !in store <==> r.status == NOT_FOUND
    ensures r.status == NO_CONTENT ==>
      && r.after.Keys == store.Keys - {ParseId(pathId).value}
      && forall k | k in r.after :: r.after[k] == store[k]
  {
    var id := ParseId(pathId);
    if id.None? then Effect(BAD_REQUEST, store)
    else if id.value !in store then Effect(NOT_FOUND, store)
    else Effect(NO_CONTENT, store - {id.value})
  }

  // ---------------------------------------------------------------------
  // The controller.
  // ---------------------------------------------------------------------

  class MovieRestApi {
    /** The movies table behind `MoviesRepository`, keyed by id. */
    var store: Store
    /** The persistence layer's constraints: writing a row for which this is
        false raises a ConstraintViolationException. */
    const accepts: Movie -> bool

    /** Every id in the table is a `Long`. */
    ghost predicate Valid()
      reads this
    {
      forall id | id in store :: InLongRange(id)
    }

    /** The controller over the table the injected repository already holds. */
    constructor(initial: Store, accepts: Movie -> bool)
      requires forall id | id in initial :: InLongRange(id)
      ensures Valid() && store == initial && this.accepts == accepts
    {
      store := initial;
      this.accepts := accepts;
    }

    /** Every stored row can be fetched at its id as a client prints it. */
    lemma StoredMovieIsFound(id: int)
      requires Valid() && id in store
      ensures GetMovieOutcome(store, Some(DecimalString(id))) == Response(OK, Some(store[id]))
    {
      ParseLongRoundTrip(id);
    }

    /** `get`: the listing; always 200. */
    method Get(title: Option<string>, director: Option<string>, category: Option<string>,
               screeningFromTime: Option<Timestamp>, screeningToTime: Option<Timestamp>)
      returns (status: int, movies: Store)
      ensures status == OK
      ensures movies == GetOutcome(store, title, director, category, screeningFromTime, screeningToTime)
    {
      if IsNullOrBlank(title) && IsNullOrBlank(director) && IsNullOrBlank(category) {
        movies := store;
      } else if !IsNullOrBlank(title) {
        movies := FindAllByTitle(store, title.value);
      } else if !IsNullOrBlank(director) {
        movies := FindAllByDirector(store, director.value);
      } else {
        movies := FindAllByCategory(store, category.value);
      }
      status := OK;
    }

    /** `getMovie`. */
    method GetMovie(pathId: Option<string>) returns (status: int, movie: Option<Movie>)
      ensures Response(status, movie) == GetMovieOutcome(store, pathId)
    {
      var id := ParseId(pathId);
      if id.None? {
        return NOT_FOUND, None;
      }
      if id.value !in store {
        return NOT_FOUND, None;
      }
      return OK, Some(store[id.value]);
    }

    /** `createMovie`; `generatedId` is the identity the database assigns. */
    method CreateMovie(dto: MovieDto, generatedId: int) returns (status: int, id: Option<int>)
      requires Valid()
      requires generatedId !in store && InLongRange(generatedId)
      modifies this
      ensures Valid()
      ensures Created(status, id, store) == CreateMovieOutcome(old(store), dto, generatedId, accepts)
    {
      if !IsNullOrEmpty(dto.movieId) {
        return BAD_REQUEST, None;
      }
      if dto.title.None? || dto.director.None? || dto.category.None?
         || dto.screeningFromTime.None? || dto.screeningToTime.None? {
        return BAD_REQUEST, None;
      }
      var movie := Movie(dto.title.value, dto.director.value, dto.category.value,
                         dto.screeningFromTime.value, dto.screeningToTime.value);
      if !accepts(movie) {
        return BAD_REQUEST, None;
      }
      store := store[generatedId := movie];
      return CREATED, Some(generatedId);
    }

    /** `updateMovie`. */
    method UpdateMovie(pathId: Option<string>, dto: MovieDto) returns (status: int)
      requires Valid()
      modifies this
      ensures Valid()
      ensures Effect(status, store) == UpdateMovieOutcome(old(store), pathId, dto, accepts)
    {
      var dtoId := ParseId(dto.movieId);
      if dtoId.None? {
        return NOT_FOUND;
      }
      if dto.movieId != pathId {
        return CONFLICT;
      }
      if dtoId.value !in store {
        return NOT_FOUND;
      }
      if dto.title.None? || dto.director.None? || dto.category.None?
         || dto.screeningFromTime.None? || dto.screeningToTime.None? {
        return BAD_REQUEST;
      }
      var movie := Movie(dto.title.value, dto.director.value, dto.category.value,
                         dto.screeningFromTime.value, dto.screeningToTime.value);
      if !accepts(movie) {
        return BAD_REQUEST;
      }
      store := store[dtoId.value := movie];
      return NO_CONTENT;
    }

    /** `updateTitle`. */
    method UpdateTitle(id: Option<int>, title: string) returns (status: int)
      requires Valid()
      modifies this
      ensures Valid()
      ensures Effect(status, store) == UpdateTitleOutcome(old(store), id, title, accepts)
    {
      if id.None? {
        return BAD_REQUEST;
      }
      if id.value !in store {
        return NOT_FOUND;
      }
      var renamed := store[id.value].(title := title);
      if !accepts(renamed) {
        return BAD_REQUEST;
      }
      store := store[id.value := renamed];
      return NO_CONTENT;
    }

    /** `deleteMovie`. */
    method DeleteMovie(pathId: Option<string>) returns (status: int)
      requires Valid()
      modifies this
      ensures Valid()
      ensures Effect(status, store) == DeleteMovieOutcome(old(store), pathId)
    {
      var id := ParseId(pathId);
      if id.None? {
        return BAD_REQUEST;
      }
      if id.value !in store {
        return NOT_FOUND;
      }
      store := store - {id.value};
      return NO_CONTENT;
    }
  }

  // ---------------------------------------------------------------------
  // Properties that relate several requests.
  // ---------------------------------------------------------------------

  /** The screening-time query parameters never change the listing. */
  lemma ScreeningTimesIgnored(store: Store, title: Option<string>, director: Option<string>,
                              category: Option<string>, from1: Option<Timestamp>, to1: Option<Timestamp>,
                              from2: Option<Timestamp>, to2: Option<Timestamp>)
    ensures GetOutcome(store, title, director, category, from1, to1)
         == GetOutcome(store, title, director, category, from2, to2)
  {
  }

  /** A movie just created can be fetched at /movies/{id}, where {id} is the
      returned id as the client prints it, and comes back with the fields
      it was created with. */
  lemma CreatedMovieIsFound(store: Store, dto: MovieDto, generatedId: int, accepts: Movie -> bool)
    requires generatedId !in store && InLongRange(generatedId)
    requires CreateMovieOutcome(store, dto, generatedId, accepts).status == CREATED
    ensures var c := CreateMovieOutcome(store, dto, generatedId, accepts);
      HasAllFields(dto) &&
      GetMovieOutcome(c.after, Some(DecimalString(c.id.value))) == Response(OK, Some(RecordOf(dto)))
  {
    ParseLongRoundTrip(generatedId);
  }

  /** After a successful delete, the same id is no longer found, and a second
      delete of it answers 404. */
  lemma DeletedMovieIsGone(store: Store, pathId: Option<string>)
    requires DeleteMovieOutcome(store, pathId).status == NO_CONTENT
    ensures var after := DeleteMovieOutcome(store, pathId).after;
      && GetMovieOutcome(after, pathId).status == NOT_FOUND
      && DeleteMovieOutcome(after, pathId).status == NOT_FOUND
  {
  }

  /** The id check of PUT compares text: a body id "7" against a path id "07"
      is a conflict although both name the same movie, and even when that
      movie exists and the body is complete. */
  lemma TextualIdConflict(store: Store, digits: string, dto: MovieDto, accepts: Movie -> bool)
    requires |digits| > 0 && AllDigits(digits)
    requires dto.movieId == Some(digits) && ParseLong(digits).Some?
    ensures ParseId(Some("0" + digits)) == ParseId(dto.movieId)
    ensures UpdateMovieOutcome(store, Some("0" + digits), dto, accepts) == Effect(CONFLICT, store)
  {
    LeadingZeroIgnored(digits);
  }

  /** PUT parses only the body id: an unparsable path id with a parsable body
      id gets past the parse and is a conflict, not 404. */
  lemma UnparsablePathIdConflicts(store: Store, pathId: Option<string>, dto: MovieDto,
                                  accepts: Movie -> bool)
    requires ParseId(pathId).None? && ParseId(dto.movieId).Some?
    ensures UpdateMovieOutcome(store, pathId, dto, accepts) == Effect(CONFLICT, store)
  {
  }

  /** Repeating a successful PUT answers 204 again and leaves the table as the
      first one left it. */
  lemma UpdateMovieIdempotent(store: Store, pathId: Option<string>, dto: MovieDto, accepts: Movie -> bool)
    requires UpdateMovieOutcome(store, pathId, dto, accepts).status == NO_CONTENT
    ensures var once := UpdateMovieOutcome(store, pathId, dto, accepts).after;
      UpdateMovieOutcome(once, pathId, dto, accepts) == Effect(NO_CONTENT, once)
  {
  }
}
