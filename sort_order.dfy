/** The sort resolver of the listing page: a sort key chosen by the user and a
    table name are mapped to the ORDER BY clause appended to the listing query.
    The function `OrderByClause` is the code as written; `OrderingTable` is the
    ordering table stated over columns and directions, and the lemma
    `ClauseFollowsTable` connects the two. */
module SortOrder {
  import opened Wrappers

  /** The text every clause starts with. */
  const Prefix: string := "ORDER BY "

  /** The sort choice used by the home handler: the `sort` query parameter,
      or "default" when it is absent or empty (JavaScript's `||` treats the
      empty string as false). */
  function SortChoice(sortParam: Option<string>): (choice: string)
    ensures choice != ""
    ensures sortParam.Some? && sortParam.value != "" ==> choice == sortParam.value
    ensures sortParam.None? || sortParam.value == "" ==> choice == "default"
  {
    match sortParam
    case None => "default"
    case Some(s) => if s == "" then "default" else s
  }

  /** The clause for a sort key and a table name, as `getOrderByClause`
      computes it: "title" and "date" depend on whether the table is
      "series", every other key falls through to the rating order. */
  function OrderByClause(sortChoice: string, table: string): (clause: string)
    ensures |clause| > |Prefix| && clause[..|Prefix|] == Prefix
  {
    if sortChoice == "title" then
      (if table == "series" then "ORDER BY name ASC" else "ORDER BY title ASC")
    else if sortChoice == "date" then
      (if table == "series" then "ORDER BY first_air_date DESC" else "ORDER BY release_date DESC")
    else if sortChoice == "rating" then
      "ORDER BY vote_average DESC"
    else
      "ORDER BY vote_average DESC"
  }

  // ---------------------------------------------------------------------
  // The ordering table, stated over columns and directions

  datatype Col = Name | Title | FirstAirDate | ReleaseDate | VoteAverage
  datatype Dir = Asc | Desc
  datatype OrderSpec = OrderBy(column: Col, direction: Dir)

  /** The two kinds of listing; any table name other than "series" is
      treated like the movies table by the code. */
  datatype Kind = SeriesKind | MoviesKind

  function KindOf(table: string): Kind {
    if table == "series" then SeriesKind else MoviesKind
  }

  function ColumnName(c: Col): string {
    match c
    case Name => "name"
    case Title => "title"
    case FirstAirDate => "first_air_date"
    case ReleaseDate => "release_date"
    case VoteAverage => "vote_average"
  }

  function DirectionName(d: Dir): string {
    match d
    case Asc => "ASC"
    case Desc => "DESC"
  }

  function Render(spec: OrderSpec): string {
    Prefix + ColumnName(spec.column) + " " + DirectionName(spec.direction)
  }

  /** The ordering table: title ascending by the kind's title column, date
      descending by the kind's date column, anything else by rating
      descending. */
  function OrderingTable(sortKey: string, kind: Kind): OrderSpec {
    if sortKey == "title" then OrderBy(if kind == SeriesKind then Name else Title, Asc)
    else if sortKey == "date" then OrderBy(if kind == SeriesKind then FirstAirDate else ReleaseDate, Desc)
    else OrderBy(VoteAverage, Desc)
  }

  /** The columns of each table's schema. */
  predicate ColumnOf(c: Col, kind: Kind) {
    match kind
    case SeriesKind => c in {Name, FirstAirDate, VoteAverage}
    case MoviesKind => c in {Title, ReleaseDate, VoteAverage}
  }

  // ---------------------------------------------------------------------
  // Properties

  /** The five clauses the ordering table can render, as literals. */
  lemma RenderedClauses()
    ensures Render(OrderBy(Name, Asc)) == "ORDER BY name ASC"
    ensures Render(OrderBy(Title, Asc)) == "ORDER BY title ASC"
    ensures Render(OrderBy(FirstAirDate, Desc)) == "ORDER BY first_air_date DESC"
    ensures Render(OrderBy(ReleaseDate, Desc)) == "ORDER BY release_date DESC"
    ensures Render(OrderBy(VoteAverage, Desc)) == "ORDER BY vote_average DESC"
  {
    assert Prefix + "name" + " " + "ASC" == "ORDER BY name ASC";
    assert Prefix + "title" + " " + "ASC" == "ORDER BY title ASC";
    assert Prefix + "first_air_date" + " " + "DESC" == "ORDER BY first_air_date DESC";
    assert Prefix + "release_date" + " " + "DESC" == "ORDER BY release_date DESC";
    assert Prefix + "vote_average" + " " + "DESC" == "ORDER BY vote_average DESC";
  }

  /** The code agrees with the ordering table for every key and table. */
  lemma ClauseFollowsTable(sortChoice: string, table: string)
    ensures OrderByClause(sortChoice, table) == Render(OrderingTable(sortChoice, KindOf(table)))
  {
    RenderedClauses();
    var kind := KindOf(table);
    if sortChoice == "title" {
      assert OrderingTable(sortChoice, kind) == OrderBy(if table == "series" then Name else Title, Asc);
    } else if sortChoice == "date" {
      assert OrderingTable(sortChoice, kind) ==
        OrderBy(if table == "series" then FirstAirDate else ReleaseDate, Desc);
    } else {
      assert OrderingTable(sortChoice, kind) == OrderBy(VoteAverage, Desc);
    }
  }

  /** The rows of the table, spelled out as the clause strings. */
  lemma ClauseCases(table: string)
    ensures OrderByClause("title", table) ==
      (if table == "series" then "ORDER BY name ASC" else "ORDER BY title ASC")
    ensures OrderByClause("date", table) ==
      (if table == "series" then "ORDER BY first_air_date DESC" else "ORDER BY release_date DESC")
    ensures OrderByClause("rating", table) == "ORDER BY vote_average DESC"
  {
  }

  /** Every key other than "title", "date" and "rating" gives the rating
      clause, including the "default" the home handler substitutes. */
  lemma UnknownKeyIsRating(sortChoice: string, table: string)
    requires sortChoice != "title" && sortChoice != "date" && sortChoice != "rating"
    ensures OrderByClause(sortChoice, table) == OrderByClause("rating", table)
    ensures OrderByClause(sortChoice, table) == "ORDER BY vote_average DESC"
  {
  }

  /** When no `sort` parameter is given the listing is ordered by rating,
      descending, for both tables. */
  lemma MissingSortIsRating(table: string)
    ensures OrderByClause(SortChoice(None), table) == "ORDER BY vote_average DESC"
  {
  }

  /** The series and movies clauses differ exactly for "title" and "date". */
  lemma TablesDifferOnlyForTitleAndDate(sortChoice: string)
    ensures OrderByClause(sortChoice, "series") != OrderByClause(sortChoice, "movies")
        <==> sortChoice == "title" || sortChoice == "date"
  {
  }

  /** The clause for a table names one of that table's own columns: the
      home handler's two queries are well-formed for their tables. */
  lemma ClauseNamesOwnColumn(sortChoice: string, table: string)
    ensures exists spec: OrderSpec ::
      ColumnOf(spec.column, KindOf(table)) && OrderByClause(sortChoice, table) == Render(spec)
  {
    ClauseFollowsTable(sortChoice, table);
    var spec := OrderingTable(sortChoice, KindOf(table));
    assert ColumnOf(spec.column, KindOf(table));
    assert OrderByClause(sortChoice, table) == Render(spec);
  }

  /** Title ordering is the only ascending one: a clause ends in " ASC"
      exactly when the key is "title". */
  lemma AscendingOnlyForTitle(sortChoice: string, table: string)
    ensures var c := OrderByClause(sortChoice, table);
      c[|c| - 4..] == " ASC" <==> sortChoice == "title"
  {
  }
}
