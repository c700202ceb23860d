/** The `Course` entity and the limits that the `courses` table schema puts on it. */
module Model {

  /** A Java reference that may be null: `None` stands for `null`. */
  datatype Option<+T> = None | Some(value: T)

  /** One course offering. Both columns are NOT NULL, so a stored course has no null field;
      a request body that may lack a field is a separate type (`Api.RequestBody`). */
  datatype Course = Course(offeringName: string, title: string)

  /** Column widths of the schema: `offeringName VARCHAR(15)`, `title VARCHAR(50)`. */
  const MaxOfferingNameLength: nat := 15
  const MaxTitleLength: nat := 50

  /** Both fields fit their VARCHAR columns. */
  predicate FitsSchema(c: Course) {
    |c.offeringName| <= MaxOfferingNameLength && |c.title| <= MaxTitleLength
  }

  /** The text Java's string concatenation produces for a possibly-null String. */
  function JavaString(s: Option<string>): string {
    match s
    case Some(v) => v
    case None => "null"
  }
}
