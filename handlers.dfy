/** The decision logic of the three request handlers: the two detail routes,
    which answer from the store, and the home route, whose data comes from
    the upstream catalog and the store and whose catch block renders an
    empty listing with the error message. Responses are values; sending them
    is left to the web framework. */
module Handlers {
  import opened Wrappers
  import opened SortOrder
  import opened Store

  /** What a detail route sends. `Ok` is the rendered detail view with the
      record and its genre names; `NoResponse` is a request that the route
      leaves unanswered. */
  datatype Response =
    | NotFound404(body: string)
    | Ok(record: Row, genreNames: seq<string>)
    | Error500(body: string)
    | NoResponse

  const SeriesNotFound: string := "Series not found"
  const MovieNotFound: string := "Movie not found"
  const InternalError: string := "Internal Server Error"

  /** The TypeError thrown when a genre query returns no row and the code
      reads `.genre` of `undefined`. */
  const GenreFieldError: string := "Cannot read properties of undefined (reading 'genre')"

  /** The try block both detail routes share: the SELECT by external id,
      the early 404 when it returns no row, and the genre resolution of the
      first row. A failing query or a missing genre row throws. */
  function DetailTry(rows: seq<Row>, genres: seq<GenreRow>, outage: Option<string>,
                     id: int, notFoundBody: string): (r: Attempt<Response>)
    ensures outage.Some? ==> r == Threw(outage.value)
    ensures outage.None? && (forall i :: 0 <= i < |rows| ==> rows[i].externalId != id) ==>
      r == Done(NotFound404(notFoundBody))
    ensures r.Done? ==> r.value.NotFound404? || r.value.Ok?
    ensures r.Done? && r.value.Ok? ==>
      r.value.record in rows && r.value.record.externalId == id &&
      |r.value.genreNames| == |r.value.record.genre| &&
      forall g :: 0 <= g < |r.value.record.genre| ==>
        LookupGenre(genres, r.value.record.genre[g]) == Some(r.value.genreNames[g])
    ensures outage.None? && r.Threw? ==> r.message == GenreFieldError
  {
    if outage.Some? then Threw(outage.value)
    else
      var matches := SelectById(rows, id);
      SelectEmptyIff(rows, id);
      if |matches| == 0 then Done(NotFound404(notFoundBody))
      else
        match ResolveGenres(genres, matches[0].genre)
        case None => Threw(GenreFieldError)
        case Some(names) => Done(Ok(matches[0], names))
  }

  /** GET /series/:id: the catch block answers 500 "Internal Server Error". */
  function SeriesDetail(db: Db, id: int): (r: Response)
    ensures !r.NoResponse?
    ensures r.NotFound404? ==> r.body == SeriesNotFound
    ensures r.Error500? ==> r.body == InternalError
  {
    match DetailTry(db.series, db.genres, db.outage, id, SeriesNotFound)
    case Done(response) => response
    case Threw(_) => Error500(InternalError)
  }

  /** GET /movies/:id: the catch block only logs, so nothing is sent. */
  function MovieDetail(db: Db, id: int): (r: Response)
    ensures !r.Error500?
    ensures r.NotFound404? ==> r.body == MovieNotFound
  {
    match DetailTry(db.movies, db.genres, db.outage, id, MovieNotFound)
    case Done(response) => response
    case Threw(_) => NoResponse
  }

  // ---------------------------------------------------------------------
  // Properties of the detail routes

  /** When the first row with the id is row k, the try block shows that row
      with its genre names when every genre id resolves, and throws the
      genre TypeError otherwise. */
  lemma DetailFound(rows: seq<Row>, genres: seq<GenreRow>, id: int, notFoundBody: string, k: nat)
    requires FirstWithId(rows, id, k)
    ensures var r := DetailTry(rows, genres, None, id, notFoundBody);
      if AllGenresKnown(genres, rows[k].genre) then
        r.Done? && r.value.Ok? && r.value.record == rows[k]
      else
        r == Threw(GenreFieldError)
  {
    SelectHeadIsFirst(rows, id, k);
  }

  /** An id with no series row gives 404 "Series not found", whatever the
      genres table holds: no genre lookup decides the outcome. */
  lemma SeriesNotFoundIgnoresGenres(db: Db, id: int, otherGenres: seq<GenreRow>)
    requires db.outage.None?
    requires forall i :: 0 <= i < |db.series| ==> db.series[i].externalId != id
    ensures SeriesDetail(db, id) == NotFound404("Series not found")
    ensures SeriesDetail(db.(genres := otherGenres), id) == NotFound404("Series not found")
  {
  }

  /** An id with no movie row gives 404 "Movie not found", whatever the
      genres table holds. */
  lemma MovieNotFoundIgnoresGenres(db: Db, id: int, otherGenres: seq<GenreRow>)
    requires db.outage.None?
    requires forall i :: 0 <= i < |db.movies| ==> db.movies[i].externalId != id
    ensures MovieDetail(db, id) == NotFound404("Movie not found")
    ensures MovieDetail(db.(genres := otherGenres), id) == NotFound404("Movie not found")
  {
  }

  /** A series found: the first matching row is shown with one name per
      genre id, in the same order, each the name of the first genre row
      with that id; if some genre id has no row the answer is 500. */
  lemma SeriesFound(db: Db, id: int, k: nat)
    requires db.outage.None?
    requires FirstWithId(db.series, id, k)
    ensures var r := SeriesDetail(db, id);
      if AllGenresKnown(db.genres, db.series[k].genre) then
        r.Ok? && r.record == db.series[k] &&
        |r.genreNames| == |db.series[k].genre| &&
        forall g :: 0 <= g < |r.genreNames| ==>
          LookupGenre(db.genres, db.series[k].genre[g]) == Some(r.genreNames[g])
      else
        r == Error500("Internal Server Error")
  {
    DetailFound(db.series, db.genres, id, SeriesNotFound, k);
  }

  /** A movie found: as for series, except that a missing genre row leaves
      the request without a response. */
  lemma MovieFound(db: Db, id: int, k: nat)
    requires db.outage.None?
    requires FirstWithId(db.movies, id, k)
    ensures var r := MovieDetail(db, id);
      if AllGenresKnown(db.genres, db.movies[k].genre) then
        r.Ok? && r.record == db.movies[k] &&
        |r.genreNames| == |db.movies[k].genre| &&
        forall g :: 0 <= g < |r.genreNames| ==>
          LookupGenre(db.genres, db.movies[k].genre[g]) == Some(r.genreNames[g])
      else
        r == NoResponse
  {
    DetailFound(db.movies, db.genres, id, MovieNotFound, k);
  }

  /** A failing database gives 500 on the series route and no response on
      the movies route. */
  lemma DetailOutage(db: Db, id: int)
    requires db.outage.Some?
    ensures SeriesDetail(db, id) == Error500("Internal Server Error")
    ensures MovieDetail(db, id) == NoResponse
  {
  }

  /** The two routes take the same decisions over their own tables: they
      show the same record and names, both answer 404, or the series route
      answers 500 exactly where the movies route sends nothing. */
  lemma RoutesAgree(db: Db, id: int)
    ensures var s := SeriesDetail(db.(series := db.movies), id);
      var m := MovieDetail(db, id);
      (s.Ok? <==> m.Ok?) && (s.Ok? ==> s == m) &&
      (s.NotFound404? <==> m.NotFound404?) &&
      (s.Error500? <==> m.NoResponse?)
  {
  }

  /** The id 999999 with no row on either table: both routes answer 404
      with their plain-text bodies. */
  lemma UnknownIdExample(record: Row)
    requires record.externalId == 1399
    ensures var db := Db([record], [record], [GenreRow(12, "Adventure")], None);
      SeriesDetail(db, 999999) == NotFound404("Series not found") &&
      MovieDetail(db, 999999) == NotFound404("Movie not found")
  {
  }

  /** A record whose genre ids are [12, 14] while only 12 ("Adventure") has
      a genre row: the series route answers 500, the movies route sends
      nothing. */
  lemma MissingGenreExample(record: Row)
    requires record.externalId == 1399 && record.genre == [12, 14]
    ensures var db := Db([record], [record], [GenreRow(12, "Adventure")], None);
      SeriesDetail(db, 1399) == Error500("Internal Server Error") &&
      MovieDetail(db, 1399) == NoResponse
  {
    var db := Db([record], [record], [GenreRow(12, "Adventure")], None);
    assert FirstWithId(db.series, 1399, 0);
    assert LookupGenre(db.genres, 14).None?;
    assert !AllGenresKnown(db.genres, record.genre) by {
      assert record.genre[1] == 14;
    }
    SeriesFound(db, 1399, 0);
    MovieFound(db, 1399, 0);
  }

  // ---------------------------------------------------------------------
  // The home route

  /** The two `results` arrays of the upstream answers; None where a body
      has no `results` field. */
  datatype Favorites = Favorites(seriesResults: Option<seq<Row>>, movieResults: Option<seq<Row>>)

  /** The data the listing view is rendered with. */
  datatype HomeView = HomeView(series: seq<Row>, movies: seq<Row>, error: Option<string>)

  /** The TypeError thrown by `forEach` on a missing `results` array. */
  const ForEachError: string := "Cannot read properties of undefined (reading 'forEach')"

  /** The two listing queries of the home route for its `sort` parameter. */
  function ListingQueries(sortParam: Option<string>): (queries: (string, string))
    ensures queries.0 == "SELECT * FROM series " + Render(OrderingTable(SortChoice(sortParam), SeriesKind))
    ensures queries.1 == "SELECT * FROM movies " + Render(OrderingTable(SortChoice(sortParam), MoviesKind))
  {
    var choice := SortChoice(sortParam);
    ClauseFollowsTable(choice, "series");
    ClauseFollowsTable(choice, "movies");
    ("SELECT * FROM series " + OrderByClause(choice, "series"),
     "SELECT * FROM movies " + OrderByClause(choice, "movies"))
  }

  /** GET /: the awaited steps are the upstream fetch, the two DELETEs and
      the two SELECTs; the first that throws sends the request to the catch
      block. The inserts in between are queued on the connection but not
      awaited; the model assumes every insert succeeds (a rejected one ends
      the process, see README). Concurrent home requests can interleave their
      DELETEs and inserts, so the rows the SELECTs return are an input
      (`seriesRead`, `movieRead`): the model does not say how they relate to
      the fetched favorites. */
  function Home(fetched: Attempt<Favorites>, outage: Option<string>,
                seriesRead: seq<Row>, movieRead: seq<Row>): (view: HomeView)
    ensures view.error.Some? ==> view.series == [] && view.movies == []
    ensures view.error.None? <==>
      fetched.Done? && outage.None? &&
      fetched.value.seriesResults.Some? && fetched.value.movieResults.Some?
    ensures view.error.None? ==> view.series == seriesRead && view.movies == movieRead
    ensures fetched.Threw? ==> view.error == Some(fetched.message)
    ensures fetched.Done? && outage.Some? ==> view.error == outage
    ensures fetched.Done? && outage.None? && view.error.Some? ==> view.error == Some(ForEachError)
  {
    match fetched
    case Threw(message) => HomeView([], [], Some(message))
    case Done(favorites) =>
      if outage.Some? then HomeView([], [], outage)
      else if favorites.seriesResults.None? || favorites.movieResults.None? then
        HomeView([], [], Some(ForEachError))
      else
        HomeView(seriesRead, movieRead, None)
  }
}
