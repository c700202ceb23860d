# Course catalogue REST API: a Dafny model

This project models the core of a small REST service for course offerings. The service has two layers:

- **The data-access layer.** `CourseDao` and its SQL implementation `Sql2oCourseDao` run the six operations (`create`, `read`, `readAll`, `readAll(titleQuery)`, `update` and `delete`) against one relational table, `courses(offeringName VARCHAR(15) NOT NULL PRIMARY KEY, title VARCHAR(50) NOT NULL)`. Each operation ends in one of three ways: a course (or a list), `null` for "no such row", or a `DaoException` that wraps a store failure.
- **The HTTP routes.** The routes under `/api/courses` call that layer and turn its outcome into a status code and a JSON body. The `ApiError` handler writes error bodies of the form `{"status": "<code>", "error": "<message>"}`.

Files:

- `model.dfy`: the `Course` record, the column widths, and `Option` (which stands for a nullable Java reference).
- `text.dfy`: substring search, ASCII lower-casing, and decimal rendering with its parser.
- `table.dfy`: what each SQL statement does to the table, written as functions on the sequence of rows, together with the lemmas that relate them. These cover the schema invariant, create-then-read, update-then-read, delete-then-read, and the exactness of the title search.
- `dao.dfy`: the class `CourseDao`. Its field `rows` is the stored table, and its methods change that field as the INSERT, UPDATE and DELETE statements change the table. `Valid()` is the schema invariant.
- `server.dfy`: the route handlers and the `ApiError` handler. Status codes follow RFC 9110: 200 (section 15.3.1), 201 (section 15.3.2), 400 (section 15.5.1), 404 (section 15.5.5) and 500 (section 15.6.1).
- `scenarios.dfy`: the HTTP tests' course lifecycle, replayed on the model.
- `findings.dfy`: the title search as written (a case-sensitive `LIKE`) next to the corrected one.

The store's availability is a parameter of every call: `Connection = Open | Refused(reason)`. A request body arrives already decoded, as one of three values: `Decoded(offeringName?, title?)`, `SyntaxError(message)`, or `NullBody` (an empty body decodes to `null`). A handler returns one of two replies. `Respond(response)` is a response the handler builds itself. `FrameworkDefault(why)` marks an exception that escapes the handler, or a `null` return, whose response the web framework decides.

Modelling choices where the source leaves the behaviour to the database:

- An INSERT checks constraints in this order: the column widths, then NOT NULL, then the primary key.
- An UPDATE checks its title only on a row it matched. So `update` of a missing key returns `null` even when the title is null or too long.
- A null key in `WHERE offeringName = :name` matches no row.
- A null `titleQuery` is spliced into the LIKE pattern as the text `null`, because that is what Java string concatenation produces.

Where the program's own tests and its routes disagree, the model follows the routes:

- `ServerTest.java:99-115` expects DELETE to answer 200 for a stored key and 404 for a missing one. The route at `Server.java:75-78` is a stub that returns `null`, so the model leaves the reply to the framework.
- `Sql2oCourseDaoTest.java:124-133` and `ServerTest.java:60-67` expect the title search to ignore case. The statement at `Sql2oCourseDao.java:64` is a case-sensitive `LIKE`. This is the one place where the model does not follow the code as written: the DAO and the route use the case-insensitive rule, and the statement as written is modelled beside it (see "## Findings").

## Model

| member | source | states |
|---|---|---|
| `Table.ValidTableUnique` | src/main/java/util/Database.java:70-73 | a table satisfying the invariant obeys the schema: no two rows share an offeringName (PRIMARY KEY), and every row fits VARCHAR(15) and VARCHAR(50) |
| `Table.UniqueValidTable` | src/main/java/util/Database.java:70-73 | conversely, every table the schema admits (keys distinct, every row within its column widths) satisfies the invariant, so `Valid()` rules out no legal table |
| `Table.Find` | src/main/java/dao/Sql2oCourseDao.java:42-46 | a key lookup returns a stored row that carries that key, and it returns nothing exactly when no row carries the key |
| `Table.FindUnique` | src/main/java/dao/CourseDao.java:23-30 | in a valid table, a lookup by a stored course's key returns that course |
| `Table.InsertViolation` | src/main/java/util/Database.java:70-73 | an INSERT is accepted exactly when both values are non-null, both fit their columns and the key is new; a duplicate is reported only for a present key, and a null key is reported as a NOT NULL violation |
| `Table.AppendFind` | src/main/java/dao/Sql2oCourseDao.java:27-39 | inserting a course with a new key keeps the table valid and adds exactly that key; reading the new key returns the new course, and every other key reads back what it did before |
| `Table.TitleViolation` | src/main/java/util/Database.java:72 | `SET title` is accepted exactly when the title is non-null and at most 50 characters |
| `Table.SetTitleAt` | src/main/java/dao/Sql2oCourseDao.java:71-82 | UPDATE keeps every row in place with its offeringName; matched rows get the new title, and other rows keep theirs |
| `Table.SetTitleValid` | src/main/java/dao/Sql2oCourseDao.java:71-82 | UPDATE keeps the key set, and with a title that fits its column it keeps the table valid |
| `Table.SetTitleFind` | src/main/java/dao/CourseDao.java:49-57 | after an update, the updated key reads back its new title, and every other key reads back what it did before |
| `Table.SetTitleAbsent` | src/main/java/dao/Sql2oCourseDao.java:71-82 | an UPDATE whose key matches no row leaves the table exactly as it was |
| `Table.SetTitleCurrent` | src/main/java/dao/Sql2oCourseDao.java:72-74 | writing back a row's current title leaves a valid table unchanged |
| `Table.RemoveFind` | src/main/java/dao/Sql2oCourseDao.java:86-96 | DELETE removes exactly the named key from the key set; every other key reads back what it did before, and the table stays valid |
| `Table.RemoveOne` | src/main/java/dao/CourseDao.java:59-66 | deleting a present key takes away exactly one row, the one a read of that key returned, and no other row (a multiset equation) |
| `Table.RemoveAbsent` | src/main/java/dao/Sql2oCourseDao.java:86-96 | a DELETE whose key matches no row leaves the table exactly as it was |
| `Table.RemoveAppended` | src/main/java/dao/Sql2oCourseDao.java:86-96 | deleting a key that was just inserted gives back the table as it was before the insert |
| `Table.MatchingExact` | src/main/java/dao/CourseDao.java:40-47 | a title search returns a row exactly when the row is stored and its title contains the query, ignoring case |
| `Table.NoMatchIsEmpty` | src/test/java/dao/Sql2oCourseDaoTest.java:135-141 | a query that no title contains returns the empty list |
| `Table.EmptyQueryMatchesAll` | src/main/java/dao/Sql2oCourseDao.java:64 | the empty query, whose pattern is `'%%'`, returns the whole table in order |
| `Text.ContainsAt` | src/test/java/dao/Sql2oCourseDaoTest.java:131 | substring containment holds exactly when some position of the string starts a copy of the query |
| `Text.DecimalString` | src/main/java/api/Server.java:30 | `status + ""` renders at least one digit, only digits, and no leading zero unless the value is zero |
| `Text.ContainsLower` | src/main/java/dao/CourseDao.java:40-47 | a title that contains the query with the same case also contains it ignoring case |
| `Text.ParseDecimalString` | src/main/java/api/Server.java:30 | parsing the decimal rendering of a status code gives back that code |
| `Dao.CourseDao.constructor` | src/main/java/dao/Sql2oCourseDao.java:15-24 | a DAO over a store whose `courses` table satisfies the schema |
| `Dao.CourseDao.Create` | src/main/java/dao/Sql2oCourseDao.java:27-39 | on success it appends a course equal to the inputs and returns it, and reading the key then returns it; on a refused connection, a null or over-long field, or a duplicate key, it throws a `DaoException` with the store's message, and the table is unchanged |
| `Dao.CourseDao.Read` | src/main/java/dao/Sql2oCourseDao.java:41-50 | it returns the stored course with that key, or `null` when no row carries the key (a null key included); it throws "Unable to read a course with offeringName <key>" only when the store fails |
| `Dao.CourseDao.ReadAll` | src/main/java/dao/Sql2oCourseDao.java:52-59 | it returns exactly the stored rows in table order, or throws "Unable to read courses from the database" |
| `Dao.CourseDao.ReadAllByTitle` | src/main/java/dao/Sql2oCourseDao.java:61-68 | it returns exactly the stored rows whose title contains the query ignoring case, in table order, with a null query searched as "null"; otherwise it throws the search failure message |
| `Dao.CourseDao.Update` | src/main/java/dao/Sql2oCourseDao.java:70-83 | it replaces only the matched row's title and returns that row; a missing key gives `null` and no change; a null or over-long title on a present key throws "Unable to update the course" with no change; offeringName and every other row are kept |
| `Dao.CourseDao.Delete` | src/main/java/dao/Sql2oCourseDao.java:85-98 | it removes the present key's row and returns that row's last value, with nothing else lost; an absent key gives `null` and no change; a store failure throws "Unable to delete the course" |
| `Api.HandleApiError` | src/main/java/api/Server.java:28-35 | the response has the error's status and a JSON content type; its body is a map with exactly "status" and "error", "error" is the message, and "status" parses back to the code |
| `Api.NotFoundBody` | src/main/java/api/Server.java:28-35 | a not-found error gets the body `{"status": "404", "error": "Resource not found"}` |
| `Api.DaoFailure` | src/main/java/api/Server.java:48-49 | a `DaoException` inside a route becomes status 500 whose "error" is the exception's message |
| `Api.GetCourses` | src/main/java/api/Server.java:37-51 | with a `title` parameter it answers 200 with exactly the rows whose title contains it ignoring case, otherwise 200 with the whole table; a store failure gives 500 with the DAO's message |
| `Api.GetCourse` | src/main/java/api/Server.java:52-64 | it answers 200 with the stored course for the key, 404 "Resource not found" when the key is absent, and 500 when the store fails |
| `Api.PostCourse` | src/main/java/api/Server.java:65-74 | on success it answers 201, echoes the decoded body and appends it; a missing key, a duplicate key, or any other create failure answers 500 with the DAO's message and leaves the table unchanged; a null or unparsable body escapes the handler |
| `Api.DeleteCourse` | src/main/java/api/Server.java:75-78 | the stub returns null without touching the table, so the framework decides the response |
| `Api.PutCourse` | src/main/java/api/Server.java:79-94 | a body key that differs from the path answers 400 before the table is touched; otherwise it answers 200 with the updated course, 404 for an absent key, and 500 on a DAO failure or a syntax error; a body without a key escapes the handler |
| `Scenarios.CourseLifecycle` | src/test/java/api/ServerTest.java:43-97 | starting from an empty table: a POST answers 201 with the echo; a GET of that key answers 200 with the same course; a PUT under another key answers 400; an unknown key answers 404; a duplicate POST and a POST without a key answer 500; a PUT with a new title answers 200 |
| `LikeSearch.MatchingAsWrittenExact` | src/main/java/dao/Sql2oCourseDao.java:64 | the case-sensitive search returns a row exactly when the row is stored and its title contains the query with the same case |
| `LikeSearch.AsWrittenWithinCorrected` | src/main/java/dao/Sql2oCourseDao.java:64 | every row the search as written returns, the corrected search returns too: the case-sensitive statement can only miss rows, never add them |
| `LikeSearch.AsWrittenFindsNoData` | src/main/java/dao/Sql2oCourseDao.java:64 | on the tests' fixture, the search as written returns the empty list for "data" |
| `LikeSearch.CorrectedFindsData` | src/test/java/dao/Sql2oCourseDaoTest.java:124-133 | on the fixture, the case-insensitive search for "data" returns "DATA STRUCTURES" and "Databases", and every title it returns contains "data" ignoring case |
| `LikeSearch.SearchDataOnFixture` | src/test/java/dao/Sql2oCourseDaoTest.java:124-133 | for "data" on the fixture, the search as written is empty while the corrected search is not |

## Left out

- SQL text, Sql2o/JDBC connections and try-with-resources: the table is the sequence `rows`, and every way the store can fail is the single `Refused(reason)` of the connection parameter.
- JSON encoding and decoding: a request body arrives as `RequestBody`, and a response body is the abstract `Json`.
- Route registration, the `after` filter (modelled only as the JSON content type on every response), and `Server.stop`.
- `DATABASE_URL` parsing, the `PORT` lookup, schema bootstrap and seeding (`util/Database.java`), the demo script (`Demo.java`) and the sample list (`util/DataStore.java`). These are configuration and I/O. The constructor takes any table that satisfies the schema.
- The response the framework gives a `FrameworkDefault` reply. This covers the DELETE stub's `null`, a POST body that does not parse or decodes to null, and a PUT body without a key. Each gets the web framework's own default response (for a `null` result its not-found page, for an escaped exception its internal-error page). None of them gets the JSON error body or a DAO-driven 200 or 404.
- `Dao.CourseDao.ReadAllByTitle` uses the corrected case-insensitive rule from the "## Findings" row, not the case-sensitive `LIKE` the statement runs. The statement as written is `LikeSearch.MatchingAsWritten`.
- `Api.GetCourses` inherits that choice: its `title` search is the case-insensitive one, not the case-sensitive `LIKE`.
- `Dao.CourseDao.ReadAllByTitle`: the title query is concatenated into the SQL text, so its characters are not taken literally. A `'` (as in "Children's") ends the string literal. Usually that makes a syntax error, which throws "Unable to read courses from the database with given title" and leads to a 500, and a crafted query can inject SQL. Inside the pattern, `%` and `_` act as wildcards and `\` is LIKE's default escape character. With an open connection the model always returns `Ok` with plain substring containment.
- Case folding is ASCII only. Java's `toLowerCase` and a locale-aware case-insensitive match also fold non-ASCII letters.
- PostgreSQL's rule that an over-long value whose excess is only trailing spaces is silently truncated. The model reports every over-long value as an error.
- `Dao.FaultMessage` uses the database's phrase for each broken constraint. Sql2o's exact wrapping text is not modelled.
- `Dao.CourseDao.Update` keeps the updated row at its old position. A plain `SELECT *` guarantees no order, and after an UPDATE PostgreSQL may return the new row version elsewhere.
- `Api.ApiError` status codes are `nat`. Every code the routes use is positive, so Java's `int` sign is never exercised.
- Concurrency: each request is handled on its own, and two racing creates of one key are left to the store's primary key.

## Findings

| source | as written | input that shows it | evidently intended | confidence | as-written member | corrected member |
|---|---|---|---|---|---|---|
| src/main/java/dao/Sql2oCourseDao.java:64 | `title LIKE '%q%'`, which is case-sensitive in PostgreSQL | the tests' fixture (Sql2oCourseDaoTest.java:42-49) with the query "data": no title contains lower-case "data" | "title containing titleQuery" ignoring case, as the interface comment (CourseDao.java:40-47) and the tests (Sql2oCourseDaoTest.java:124-133, ServerTest.java:60-67) expect; the test asserts a non-empty result | not executed; depends on PostgreSQL's LIKE being case-sensitive | `LikeSearch.AsWrittenFindsNoData` | `LikeSearch.CorrectedFindsData` |
