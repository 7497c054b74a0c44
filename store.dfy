/** The relational store as the detail handlers see it, held in memory: a
    series table, a movies table and the genre lookup table, each a sequence
    of rows in the order the database returns them. The two SELECT
    statements of the detail routes become filters over these sequences, and
    the per-id genre lookup (`result.rows[0].genre`) becomes `LookupGenre`,
    which has no value when the genre query returns no row. */
module Store {
  import opened Wrappers

  /** One row of the series or movies table. For series `title` holds the
      `name` column, `date` the `first_air_date` column and `externalId`
      the `series_id` column; for movies they hold `title`, `release_date`
      and `movie_id`. `genre` is the array-of-ids column. */
  datatype Row = Row(
    title: string,
    overview: string,
    posterPath: string,
    voteAverage: real,
    date: string,
    externalId: int,
    genre: seq<int>)

  /** One row of the genres table: `type_id` and `genre`. */
  datatype GenreRow = GenreRow(typeId: int, genre: string)

  /** The database: its three tables, and `outage` holding the error message
      every query fails with while the connection is unusable. */
  datatype Db = Db(
    series: seq<Row>,
    movies: seq<Row>,
    genres: seq<GenreRow>,
    outage: Option<string>)

  /** `SELECT * FROM <table> WHERE <id column> = id`: the rows with that
      external id, in table order. */
  function SelectById(rows: seq<Row>, id: int): (matches: seq<Row>)
    ensures |matches| <= |rows|
    ensures forall r :: r in matches ==> r in rows && r.externalId == id
    ensures forall i :: 0 <= i < |rows| && rows[i].externalId == id ==> rows[i] in matches
  {
    if rows == [] then []
    else if rows[0].externalId == id then [rows[0]] + SelectById(rows[1..], id)
    else SelectById(rows[1..], id)
  }

  /** `SELECT genre FROM genres WHERE type_id = gid`: the names of the
      genre rows with that type id, in table order. */
  function SelectGenre(genres: seq<GenreRow>, gid: int): (names: seq<string>)
    ensures |names| <= |genres|
    ensures forall n :: n in names ==> GenreRow(gid, n) in genres
    ensures forall j :: 0 <= j < |genres| && genres[j].typeId == gid ==> genres[j].genre in names
  {
    if genres == [] then []
    else if genres[0].typeId == gid then [genres[0].genre] + SelectGenre(genres[1..], gid)
    else SelectGenre(genres[1..], gid)
  }

  /** `result.rows[0].genre` for one genre id: the name of the first row,
      or None where the code reads a field of `undefined` and throws. */
  function LookupGenre(genres: seq<GenreRow>, gid: int): (name: Option<string>)
    ensures name.None? <==> forall j :: 0 <= j < |genres| ==> genres[j].typeId != gid
    ensures name.Some? ==> GenreRow(gid, name.value) in genres
  {
    var names := SelectGenre(genres, gid);
    if |names| == 0 then None
    else
      assert GenreRow(gid, names[0]) in genres;
      Some(names[0])
  }

  /** Every genre id of a record has a row in the genres table. */
  predicate AllGenresKnown(genres: seq<GenreRow>, ids: seq<int>) {
    forall i :: 0 <= i < |ids| ==> LookupGenre(genres, ids[i]).Some?
  }

  /** The genre names of a record, resolved id by id in the order of `ids`.
      `Promise.all` over the per-id lookups fulfils with the names in the
      order of the ids and rejects as soon as one lookup throws; the outcome
      is the same as resolving the ids one after another, which is what this
      function does. None when some id has no genre row. */
  function ResolveGenres(genres: seq<GenreRow>, ids: seq<int>): (names: Option<seq<string>>)
    ensures names.Some? <==> AllGenresKnown(genres, ids)
    ensures names.Some? ==> |names.value| == |ids|
    ensures names.Some? ==> forall i :: 0 <= i < |ids| ==> LookupGenre(genres, ids[i]) == Some(names.value[i])
  {
    if ids == [] then Some([])
    else
      match LookupGenre(genres, ids[0])
      case None => None
      case Some(first) =>
        match ResolveGenres(genres, ids[1..])
        case None => None
        case Some(rest) => Some([first] + rest)
  }

  /** Row k is the first row of the table with external id `id`. */
  predicate FirstWithId(rows: seq<Row>, id: int, k: nat) {
    k < |rows| && rows[k].externalId == id &&
    forall j :: 0 <= j < k ==> rows[j].externalId != id
  }

  // ---------------------------------------------------------------------
  // Properties

  /** The first row a SELECT by id returns is the first row of the table
      with that id. */
  lemma {:induction false} SelectHeadIsFirst(rows: seq<Row>, id: int, k: nat)
    requires FirstWithId(rows, id, k)
    ensures SelectById(rows, id) != [] && SelectById(rows, id)[0] == rows[k]
  {
    if k > 0 {
      SelectHeadIsFirst(rows[1..], id, k - 1);
    }
  }

  /** A SELECT by id returns nothing exactly when no row has that id. */
  lemma {:induction false} SelectEmptyIff(rows: seq<Row>, id: int)
    ensures SelectById(rows, id) == [] <==> forall i :: 0 <= i < |rows| ==> rows[i].externalId != id
  {
    if rows != [] {
      SelectEmptyIff(rows[1..], id);
      assert forall i :: 1 <= i < |rows| ==> rows[i] == rows[1..][i - 1];
    }
  }

  /** A record stored exactly once is the only row its SELECT returns. */
  lemma {:induction false} SelectUnique(rows: seq<Row>, id: int, k: nat)
    requires k < |rows| && rows[k].externalId == id
    requires forall j :: 0 <= j < |rows| && j != k ==> rows[j].externalId != id
    ensures SelectById(rows, id) == [rows[k]]
  {
    if k > 0 {
      SelectUnique(rows[1..], id, k - 1);
    } else {
      SelectEmptyIff(rows[1..], id);
    }
  }

  /** The looked-up name is the name of the first genre row with that id. */
  lemma {:induction false} LookupIsFirstRow(genres: seq<GenreRow>, gid: int, k: nat)
    requires k < |genres| && genres[k].typeId == gid
    requires forall j :: 0 <= j < k ==> genres[j].typeId != gid
    ensures LookupGenre(genres, gid) == Some(genres[k].genre)
  {
    if k > 0 {
      LookupIsFirstRow(genres[1..], gid, k - 1);
    }
  }
}
