/** The data-access contract for courses and its SQL implementation: six operations, each one
    statement against the `courses` table, each ending in a value, an explicit absence (`None`,
    the Java `null`), or a thrown `DaoException` that wraps the store's failure. */
module Dao {
  import opened Model
  import opened Table

  /** Whether the store answers the one statement a call runs: `Refused` stands for every
      failure to open the connection or to complete the round trip. */
  datatype Connection = Open | Refused(reason: string)

  /** The failure a `Sql2oException` reports. */
  datatype StoreFault = Unavailable(reason: string) | Violated(violation: Violation)

  /** A `DaoException`: a human-readable message and the store failure it wraps. */
  datatype DaoException = DaoException(message: string, cause: StoreFault)

  /** The end of one DAO call: it returned a value, or it threw a `DaoException`. */
  datatype Outcome<+T> = Ok(value: T) | Thrown(error: DaoException)

  /** The messages the implementation gives its exceptions (`create` passes the store's own). */
  const ReadFailed := "Unable to read a course with offeringName "
  const ReadAllFailed := "Unable to read courses from the database"
  const SearchFailed := "Unable to read courses from the database with given title"
  const UpdateFailed := "Unable to update the course"
  const DeleteFailed := "Unable to delete the course"

  /** The store's message for a failure: the connection error as reported, or the database's
      wording for the broken constraint. */
  function FaultMessage(f: StoreFault): string {
    match f
    case Unavailable(reason) => reason
    case Violated(OfferingNameTooLong) => "value too long for type character varying(15)"
    case Violated(TitleTooLong) => "value too long for type character varying(50)"
    case Violated(NullOfferingName) => "null value in column \"offeringname\" violates not-null constraint"
    case Violated(NullTitle) => "null value in column \"title\" violates not-null constraint"
    case Violated(DuplicateKey) => "duplicate key value violates unique constraint \"courses_pkey\""
  }

  /** Why an INSERT of the given values fails, if it does. */
  function CreateFault(rows: seq<Course>, conn: Connection, offeringName: Option<string>, title: Option<string>): Option<StoreFault> {
    if conn.Refused? then Some(Unavailable(conn.reason))
    else match InsertViolation(rows, offeringName, title)
      case Some(v) => Some(Violated(v))
      case None => None
  }

  /** `WHERE offeringName = :name` selects a row: a null key compares equal to nothing. */
  predicate Selects(rows: seq<Course>, offeringName: Option<string>) {
    offeringName.Some? && offeringName.value in Keys(rows)
  }

  /** `Sql2oCourseDao` together with the `courses` table its store handle reaches. */
  class CourseDao {
    /** The rows of the table, in the order a plain `SELECT *` returns them. */
    var rows: seq<Course>

    /** The schema holds: keys unique, fields within their widths. */
    ghost predicate Valid()
      reads this
    {
      ValidTable(rows)
    }

    /** A DAO whose store holds a `courses` table with the given rows. */
    constructor (initial: seq<Course>)
      requires ValidTable(initial)
      ensures Valid() && rows == initial
    {
      rows := initial;
    }

    /** `create`: INSERT ... RETURNING. On success the new row is appended and returned, equal to
        the inputs, and reading its key gives it back; on any failure nothing is inserted. */
    method Create(conn: Connection, offeringName: Option<string>, title: Option<string>) returns (r: Outcome<Option<Course>>)
      requires Valid()
      modifies this
      ensures Valid()
      ensures r.Ok? <==> CreateFault(old(rows), conn, offeringName, title).None?
      ensures r.Ok? ==>
        var c := Course(offeringName.value, title.value);
        && r.value == Some(c)
        && rows == old(rows) + [c]
        && Find(rows, c.offeringName) == Some(c)
        && (forall n :: n != c.offeringName ==> Find(rows, n) == Find(old(rows), n))
      ensures r.Thrown? ==>
        var f := CreateFault(old(rows), conn, offeringName, title).value;
        r.error == DaoException(FaultMessage(f), f) && rows == old(rows)
    {
      var fault := CreateFault(rows, conn, offeringName, title);
      if fault.Some? {
        r := Thrown(DaoException(FaultMessage(fault.value), fault.value));
      } else {
        var c := Course(offeringName.value, title.value);
        AppendFind(rows, c);
        rows := rows + [c];
        r := Ok(Some(c));
      }
    }

    /** `read`: the course stored under the key, or `None` when no row carries it (a null key
        included); it throws only when the store fails. */
    method Read(conn: Connection, offeringName: Option<string>) returns (r: Outcome<Option<Course>>)
      requires Valid()
      ensures conn.Refused? ==> r == Thrown(DaoException(ReadFailed + JavaString(offeringName), Unavailable(conn.reason)))
      ensures conn.Open? ==> r.Ok? && (r.value.Some? <==> Selects(rows, offeringName))
      ensures conn.Open? && offeringName.Some? ==> r == Ok(Find(rows, offeringName.value))
      ensures r.Ok? && r.value.Some? ==> r.value.value in rows && r.value.value.offeringName == offeringName.value
    {
      if conn.Refused? {
        r := Thrown(DaoException(ReadFailed + JavaString(offeringName), Unavailable(conn.reason)));
      } else if offeringName.None? {
        r := Ok(None);
      } else {
        r := Ok(Find(rows, offeringName.value));
      }
    }

    /** `readAll()`: every stored row, in table order. */
    method ReadAll(conn: Connection) returns (r: Outcome<seq<Course>>)
      requires Valid()
      ensures conn.Refused? ==> r == Thrown(DaoException(ReadAllFailed, Unavailable(conn.reason)))
      ensures conn.Open? ==> r == Ok(rows)
    {
      if conn.Refused? {
        r := Thrown(DaoException(ReadAllFailed, Unavailable(conn.reason)));
      } else {
        r := Ok(rows);
      }
    }

    /** `readAll(titleQuery)`: the rows whose title contains the query, ignoring case, in table
        order. A null query is spliced into the pattern as the text "null". */
    method ReadAllByTitle(conn: Connection, titleQuery: Option<string>) returns (r: Outcome<seq<Course>>)
      requires Valid()
      ensures conn.Refused? ==> r == Thrown(DaoException(SearchFailed, Unavailable(conn.reason)))
      ensures conn.Open? ==> r == Ok(Matching(rows, JavaString(titleQuery)))
      ensures conn.Open? ==> forall c :: c in r.value <==> c in rows && TitleMatches(c.title, JavaString(titleQuery))
    {
      if conn.Refused? {
        r := Thrown(DaoException(SearchFailed, Unavailable(conn.reason)));
      } else {
        MatchingExact(rows, JavaString(titleQuery));
        r := Ok(Matching(rows, JavaString(titleQuery)));
      }
    }

    /** `update`: UPDATE ... RETURNING. A key that selects no row gives `None` and changes nothing,
        whatever the title; on a selected row a null or over-long title throws and changes nothing;
        otherwise that row's title is replaced, its key and every other row are kept. */
    method Update(conn: Connection, offeringName: Option<string>, title: Option<string>) returns (r: Outcome<Option<Course>>)
      requires Valid()
      modifies this
      ensures Valid()
      ensures conn.Refused? ==> r == Thrown(DaoException(UpdateFailed, Unavailable(conn.reason))) && rows == old(rows)
      ensures conn.Open? && !Selects(old(rows), offeringName) ==> r == Ok(None) && rows == old(rows)
      ensures conn.Open? && Selects(old(rows), offeringName) && TitleViolation(title).Some? ==>
        r == Thrown(DaoException(UpdateFailed, Violated(TitleViolation(title).value))) && rows == old(rows)
      ensures conn.Open? && Selects(old(rows), offeringName) && TitleViolation(title).None? ==>
        && r == Ok(Some(Course(offeringName.value, title.value)))
        && rows == SetTitle(old(rows), offeringName.value, title.value)
        && Keys(rows) == Keys(old(rows))
        && Find(rows, offeringName.value) == r.value
        && (forall n :: n != offeringName.value ==> Find(rows, n) == Find(old(rows), n))
    {
      if conn.Refused? {
        r := Thrown(DaoException(UpdateFailed, Unavailable(conn.reason)));
      } else if !Selects(rows, offeringName) {
        r := Ok(None);
      } else if TitleViolation(title).Some? {
        r := Thrown(DaoException(UpdateFailed, Violated(TitleViolation(title).value)));
      } else {
        SetTitleValid(rows, offeringName.value, title.value);
        SetTitleFind(rows, offeringName.value, title.value);
        rows := SetTitle(rows, offeringName.value, title.value);
        r := Ok(Some(Course(offeringName.value, title.value)));
      }
    }

    /** `delete`: DELETE ... RETURNING. A selected row is removed and returned as it last was,
        and nothing else is lost; a key that selects no row gives `None` and changes nothing. */
    method Delete(conn: Connection, offeringName: Option<string>) returns (r: Outcome<Option<Course>>)
      requires Valid()
      modifies this
      ensures Valid()
      ensures conn.Refused? ==> r == Thrown(DaoException(DeleteFailed, Unavailable(conn.reason))) && rows == old(rows)
      ensures conn.Open? && !Selects(old(rows), offeringName) ==> r == Ok(None) && rows == old(rows)
      ensures conn.Open? && Selects(old(rows), offeringName) ==>
        && r == Ok(Find(old(rows), offeringName.value))
        && r.value.Some? && r.value.value in old(rows) && r.value.value.offeringName == offeringName.value
        && rows == Remove(old(rows), offeringName.value)
        && Keys(rows) == Keys(old(rows)) - {offeringName.value}
        && multiset(old(rows)) == multiset(rows) + multiset{r.value.value}
    {
      if conn.Refused? {
        r := Thrown(DaoException(DeleteFailed, Unavailable(conn.reason)));
      } else if !Selects(rows, offeringName) {
        r := Ok(None);
      } else {
        RemoveFind(rows, offeringName.value);
        RemoveOne(rows, offeringName.value);
        r := Ok(Find(rows, offeringName.value));
        rows := Remove(rows, offeringName.value);
      }
    }
  }
}
