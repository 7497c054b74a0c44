# movie-tracker: a Dafny model of the sort resolver and the request decisions

movie-tracker is a small Express server. It copies a user's favourite series
and movies from the TMDB catalog into a Postgres database, then serves sorted
listing pages and detail pages from that database. This project models the
logic of `index.js` that does not depend on the network or on Postgres:

- **`SortOrder`** (`sort_order.dfy`): `getOrderByClause`, which maps the sort
  choice and a table name to the `ORDER BY` clause of the listing query. It
  also models the `req.query.sort || "default"` substitution. The ordering
  table is written a second time as structured values (`OrderingTable`, over
  columns and directions). The lemma `ClauseFollowsTable` proves that the
  code agrees with that table.
- **`Store`** (`store.dfy`): the three tables as in-memory sequences of rows,
  kept in the order the database returns them. The two `SELECT … WHERE`
  queries of the detail routes are filters over these sequences.
  `result.rows[0].genre` is `LookupGenre`, which has no value where the code
  would read a field of `undefined`. The `Promise.all` over the genre ids is
  `ResolveGenres`, a sequential map that fails if any single id fails.
- **`Handlers`** (`handlers.dfy`): the decisions of `GET /series/:id`,
  `GET /movies/:id` and `GET /`. The two detail routes share one try block,
  `DetailTry`. Each route has its own catch: the series route answers 500,
  and the movies route sends nothing. For the home route, the model states
  the view data and the two listing queries.
- **`Wrappers`** (`wrappers.dfy`): `Option`, and `Attempt`, which is either
  a completed step or a thrown error with its message.

The database is `Db(series, movies, genres, outage)`. When `outage` holds a
message, every query throws that message. The request id is an integer.

Two behaviours of the code are worth stating plainly:

- The movies route's catch block (index.js:176-178) only logs the error
  and sends no response, where a 500 would be expected. A missing genre
  row or a failing query therefore leaves the request unanswered.
  `MovieDetail` returns `NoResponse` in that case.
- An upstream failure leaves the tables untouched, because the fetch
  (index.js:54-57) comes before the DELETEs (index.js:64-65). Only a
  failure after index.js:64 leaves the tables emptied. The model makes no
  claim about the tables after the home route. It only describes the view.

## Model

| member | source | states |
|---|---|---|
| SortOrder.SortChoice | index.js:62 | the sort choice is the `sort` parameter when one is given and non-empty, and "default" when it is missing or empty |
| SortOrder.OrderByClause | index.js:37-50 | every clause, for every key and table, begins with "ORDER BY " and has more after it: the resolver is total |
| SortOrder.ClauseFollowsTable | index.js:37-50 | for every key and table name, the clause is the rendering of the ordering table's entry: name/title ascending for "title", first_air_date/release_date descending for "date", vote_average descending otherwise; a table name other than "series" gets the movie columns |
| SortOrder.ClauseCases | index.js:39-46 | the three named keys give exactly "ORDER BY name ASC" / "ORDER BY title ASC", "ORDER BY first_air_date DESC" / "ORDER BY release_date DESC", and "ORDER BY vote_average DESC" for either table |
| SortOrder.UnknownKeyIsRating | index.js:45-48 | every key other than "title", "date" and "rating" gives the same clause as "rating", which is "ORDER BY vote_average DESC" |
| SortOrder.MissingSortIsRating | index.js:47-48 | with no `sort` parameter, both tables are ordered by vote_average descending |
| SortOrder.TablesDifferOnlyForTitleAndDate | index.js:37-50 | the series clause and the movies clause differ if and only if the key is "title" or "date" |
| SortOrder.ClauseNamesOwnColumn | index.js:37-50 | every clause is the rendering of a column of its own table's schema: a series column for "series", a movies column for any other table name |
| SortOrder.AscendingOnlyForTitle | index.js:37-50 | a clause ends in " ASC" if and only if the key is "title"; every other order is descending |
| Store.SelectById | index.js:121-124 | the rows returned are table rows with the requested external id, and every table row with that id is among them |
| Store.SelectGenre | index.js:133-136 | every name returned belongs to a genre row with that type id, and every such row's name is returned |
| Store.LookupGenre | index.js:133-137 | the lookup fails if and only if no genre row has the id; on success the name comes from a genre row with that id |
| Store.ResolveGenres | index.js:131-139 | resolution succeeds if and only if every id has a genre row; then it gives one name per id, in the ids' order, each the lookup of that id |
| Store.SelectHeadIsFirst | index.js:121-132 | the record shown, `rows[0]` of the query, is the first table row with the requested id |
| Store.SelectEmptyIff | index.js:121-126 | the SELECT returns no row if and only if no table row has the id |
| Store.SelectUnique | index.js:121-124 | an id stored in exactly one row selects exactly that row |
| Store.LookupIsFirstRow | index.js:133-137 | the looked-up genre name is the name of the first genre row with that id |
| Handlers.DetailTry | index.js:119-143 | an unusable database throws its message; an id with no row returns a 404 with the given body; a shown record is a table row with the id, shown with its genre names pointwise; a throw from a usable database is the genre TypeError |
| Handlers.SeriesDetail | index.js:118-148 | the series route always answers: a 404 carries "Series not found" and a 500 carries "Internal Server Error" |
| Handlers.MovieDetail | index.js:150-179 | the movies route never answers 500, and a 404 carries "Movie not found" |
| Handlers.DetailFound | index.js:126-143 | when row k is the first row with the id, the try block shows row k if every genre id resolves, and otherwise throws the genre TypeError |
| Handlers.SeriesNotFoundIgnoresGenres | index.js:126-129 | an id with no series row gives 404 "Series not found" whatever the genres table holds, since the 404 comes before any genre lookup |
| Handlers.MovieNotFoundIgnoresGenres | index.js:158-161 | an id with no movie row gives 404 "Movie not found" whatever the genres table holds |
| Handlers.SeriesFound | index.js:131-147 | a found series shows its first matching row with one genre name per id, in order, each from the matching genre row; a genre id with no row gives 500 "Internal Server Error" |
| Handlers.MovieFound | index.js:163-178 | a found movie shows its first matching row with one genre name per id, in order; a genre id with no row leaves the request without a response |
| Handlers.DetailOutage | index.js:144-147 | when every query fails, the series route answers 500 and the movies route sends nothing |
| Handlers.RoutesAgree | index.js:118-179 | over the same rows both routes show the same record and names or both answer 404, and the series route answers 500 exactly where the movies route sends nothing |
| Handlers.UnknownIdExample | index.js:126-129 | id 999999 with no row gives 404 "Series not found" and 404 "Movie not found" |
| Handlers.MissingGenreExample | index.js:137 | genre ids [12, 14] with only 12 → "Adventure" known: the series route gives 500 and the movies route sends nothing |
| Handlers.ListingQueries | index.js:97-105 | each listing query selects from its own table, with the ordering table's entry for the resolved sort choice and that table |
| Handlers.Home | index.js:52-116 | an error view always has empty lists; the view has no error if and only if the fetch succeeded, the database is usable and both `results` arrays exist; without an error it shows the rows the SELECTs returned; an upstream failure shows its own message |

## Left out

- HTTP server setup, middleware, static files, `app.listen` and EJS rendering (index.js:31-35, index.js:181-183). These are framework glue. Every route calls `res.render` without a callback (index.js:107, index.js:110, index.js:143, index.js:175), so a template error goes to Express's default error handler, which answers 500; it never reaches the route's own catch. The model's `Ok` and home views leave that case out, so a render failure on the movies route (a 500) is not modelled.
- The axios calls, the account URLs and the bearer token (index.js:15-27, index.js:54-57). These are network and configuration. The fetch is an `Attempt<Favorites>` parameter of `Home`. `Promise.all` rejects with whichever request fails first in time, and the model takes that message as given.
- The `pg` client and connection (index.js:7-13, index.js:29). A database that cannot answer is `Db.outage`; every query then throws its message. Failures of single queries are not distinguished.
- Handlers.Home: the delete-then-insert refresh (index.js:64-95) is not modelled as a change to the tables. Each `forEach(async …)` callback calls `db.query` at once, so every INSERT is queued on the single `pg.Client` ahead of the SELECTs, and within one request the SELECTs see every insert that succeeded. Nothing is promised about what they see because concurrent home requests share that connection and can interleave their DELETEs and INSERTs. The rows the SELECTs return are therefore parameters, and so is the order Postgres gives them. The state of the tables after the home route is not stated.
- Handlers.Home: the no-error case assumes every INSERT succeeds. A rejected INSERT (for example an empty date string sent to a date column) is awaited only inside its `async` callback (index.js:68, index.js:83); the promise that callback returns to `forEach` is neither awaited nor caught. On current Node versions that unhandled rejection ends the process: no view is rendered, and the server no longer answers later requests. The model does not include that outcome.
- Sorting itself: Postgres orders the rows, using a floating-point `vote_average` and dates. The model only produces the clause text.
- Row order without ORDER BY: the detail queries have no ORDER BY, so `rows[0]` is whichever row Postgres returns first. The model takes the table's sequence order as that order.
- The `sort` parameter as an array (a repeated `?sort=`) or an object: such a value matches no case and falls into the default branch. The model takes `sort` as a string, so it covers only that behaviour of the default branch.
- The path parameter `:id` is a string that Postgres casts to the id column's type. The model's id is an integer. A non-numeric id makes the query throw; that is the catch path, covered by `Db.outage`.
- Handlers.DetailTry, Handlers.SeriesDetail, Handlers.MovieDetail: an id outside the range of the id column's integer type (for example `99999999999` against an `integer` column) also makes the SELECT at index.js:121-124 or index.js:153-156 throw, giving 500 on the series route and no response on the movies route. The model's id is unbounded, and with a usable database it answers 404 there. The column's type is not part of the code, so the model does not fix a range.
- A NULL `genre` column would make `.map` throw. The model's rows always have a genre sequence.
- `console.log` and `console.error` output.
