/** The HTTP routes under `/api/courses`: each handler decodes its request, calls the data-access
    layer, and turns the outcome into a status code and a JSON body. Statuses follow RFC 9110. */
module Api {
  import opened Model
  import opened Text
  import opened Table
  import opened Dao

  const StatusOk: nat := 200                   // RFC 9110, section 15.3.1
  const StatusCreated: nat := 201              // RFC 9110, section 15.3.2
  const StatusBadRequest: nat := 400           // RFC 9110, section 15.5.1
  const StatusNotFound: nat := 404             // RFC 9110, section 15.5.5
  const StatusInternalServerError: nat := 500  // RFC 9110, section 15.6.1

  const JsonType := "application/json"
  const NotFoundMessage := "Resource not found"
  const MismatchMessage := "offering name does not match the resource identifier"

  /** The JSON a response carries: one course, a list of courses, or a string-to-string map. */
  datatype Json = CourseObject(course: Course) | CourseArray(courses: seq<Course>) | StringMap(entries: map<string, string>)

  /** What the JSON decoder makes of a request body: a course whose fields may be missing,
      a syntax error with its message, or nothing at all (an empty body decodes to null). */
  datatype RequestBody = Decoded(offeringName: Option<string>, title: Option<string>) | SyntaxError(message: string) | NullBody

  datatype Response = Response(status: nat, contentType: string, body: Json)

  /** An `ApiError`: a message and the HTTP status it is to be reported with. */
  datatype ApiError = ApiError(message: string, status: nat)

  /** Why a handler leaves the request to the web framework's own default handling. */
  datatype Unhandled = NullPointer | JsonSyntax | NullReturn

  /** A handler either produces a response itself (directly, or through the `ApiError`
      handler), or it ends in a way whose response the framework decides. */
  datatype Reply = Respond(response: Response) | FrameworkDefault(why: Unhandled)

  /** The `exception(ApiError.class, ...)` handler: the error's status, a JSON content type, and
      the body `{"status": "<code>", "error": "<message>"}` whose status field reads back as the
      code. */
  function HandleApiError(e: ApiError): (r: Response)
    ensures r.status == e.status && r.contentType == JsonType
    ensures r.body.StringMap? && r.body.entries.Keys == {"status", "error"}
    ensures r.body.entries["error"] == e.message
    ensures IsDigits(r.body.entries["status"]) && ParseDecimal(r.body.entries["status"]) == e.status
  {
    ParseDecimalString(e.status);
    Response(e.status, JsonType, StringMap(map["status" := DecimalString(e.status), "error" := e.message]))
  }

  /** The body the `ApiError` handler gives a request that found nothing: `{"status": "404",
      "error": "Resource not found"}`. */
  lemma NotFoundBody()
    ensures HandleApiError(ApiError(NotFoundMessage, StatusNotFound)).body
         == StringMap(map["status" := "404", "error" := "Resource not found"])
  {
    assert DecimalString(4) == "4";
    assert DecimalString(40) == "40";
    assert DecimalString(404) == "404";
  }

  /** A DAO failure inside a route: status 500 carrying the exception's message. */
  function DaoFailure(e: DaoException): (r: Reply)
    ensures r.Respond? && r.response.status == StatusInternalServerError
    ensures r.response.body.StringMap? && "error" in r.response.body.entries
    ensures r.response.body.entries["error"] == e.message
  {
    Respond(HandleApiError(ApiError(e.message, StatusInternalServerError)))
  }

  /** GET /api/courses[?title=q]: the search when a `title` parameter is present, otherwise the
      whole table; 200 with the list, or 500 when the store fails. */
  method GetCourses(dao: CourseDao, conn: Connection, titleParam: Option<string>) returns (reply: Reply)
    requires dao.Valid()
    ensures conn.Refused? && titleParam.None? ==>
      reply == DaoFailure(DaoException(ReadAllFailed, Unavailable(conn.reason)))
    ensures conn.Refused? && titleParam.Some? ==>
      reply == DaoFailure(DaoException(SearchFailed, Unavailable(conn.reason)))
    ensures conn.Open? ==>
      && reply.Respond? && reply.response.status == StatusOk
      && reply.response.contentType == JsonType && reply.response.body.CourseArray?
    ensures conn.Open? && titleParam.None? ==> reply.response.body.courses == dao.rows
    ensures conn.Open? && titleParam.Some? ==> reply.response.body.courses == Matching(dao.rows, titleParam.value)
    ensures conn.Open? && titleParam.Some? ==>
      forall c :: c in reply.response.body.courses <==> c in dao.rows && TitleMatches(c.title, titleParam.value)
  {
    var courses;
    if titleParam.Some? {
      courses := dao.ReadAllByTitle(conn, titleParam);
    } else {
      courses := dao.ReadAll(conn);
    }
    match courses
    case Thrown(e) => reply := DaoFailure(e);
    case Ok(list) => reply := Respond(Response(StatusOk, JsonType, CourseArray(list)));
  }

  /** GET /api/courses/:offeringName: 200 with the stored course, 404 "Resource not found" when
      no row carries the key, 500 when the store fails. */
  method GetCourse(dao: CourseDao, conn: Connection, offeringName: string) returns (reply: Reply)
    requires dao.Valid()
    ensures conn.Refused? ==>
      reply == DaoFailure(DaoException(ReadFailed + offeringName, Unavailable(conn.reason)))
    ensures conn.Open? && offeringName !in Keys(dao.rows) ==>
      reply == Respond(HandleApiError(ApiError(NotFoundMessage, StatusNotFound)))
    ensures conn.Open? && offeringName in Keys(dao.rows) ==>
      && reply.Respond? && reply.response.status == StatusOk && reply.response.contentType == JsonType
      && reply.response.body.CourseObject?
      && reply.response.body.course in dao.rows && reply.response.body.course.offeringName == offeringName
      && Find(dao.rows, offeringName) == Some(reply.response.body.course)
  {
    var found := dao.Read(conn, Some(offeringName));
    match found
    case Thrown(e) => reply := DaoFailure(e);
    case Ok(None) => reply := Respond(HandleApiError(ApiError(NotFoundMessage, StatusNotFound)));
    case Ok(Some(c)) => reply := Respond(Response(StatusOk, JsonType, CourseObject(c)));
  }

  /** POST /api/courses: create the decoded course; 201 echoing the decoded body, or 500 with the
      DAO's message (a missing field, an over-long field or a duplicate key). A body that decodes
      to null or does not parse escapes the handler. */
  method PostCourse(dao: CourseDao, conn: Connection, body: RequestBody) returns (reply: Reply)
    requires dao.Valid()
    modifies dao
    ensures dao.Valid()
    ensures body.NullBody? ==> reply == FrameworkDefault(NullPointer) && dao.rows == old(dao.rows)
    ensures body.SyntaxError? ==> reply == FrameworkDefault(JsonSyntax) && dao.rows == old(dao.rows)
    ensures body.Decoded? && (body.offeringName.None? || body.offeringName.value in Keys(old(dao.rows))) ==>
      reply.Respond? && reply.response.status == StatusInternalServerError && dao.rows == old(dao.rows)
    ensures body.Decoded? ==>
      match CreateFault(old(dao.rows), conn, body.offeringName, body.title)
      case Some(f) =>
        && reply == DaoFailure(DaoException(FaultMessage(f), f))
        && dao.rows == old(dao.rows)
      case None =>
        var c := Course(body.offeringName.value, body.title.value);
        && reply == Respond(Response(StatusCreated, JsonType, CourseObject(c)))
        && dao.rows == old(dao.rows) + [c]
  {
    match body
    case NullBody => reply := FrameworkDefault(NullPointer);
    case SyntaxError(_) => reply := FrameworkDefault(JsonSyntax);
    case Decoded(name, title) =>
      var created := dao.Create(conn, name, title);
      if created.Thrown? {
        reply := DaoFailure(created.error);
      } else {
        reply := Respond(Response(StatusCreated, JsonType, CourseObject(Course(name.value, title.value))));
      }
  }

  /** DELETE /api/courses/:offeringName is not implemented: the handler returns null without
      touching the table, and the framework decides the response. */
  method DeleteCourse(dao: CourseDao, offeringName: string) returns (reply: Reply)
    requires dao.Valid()
    ensures reply == FrameworkDefault(NullReturn)
  {
    reply := FrameworkDefault(NullReturn);
  }

  /** PUT /api/courses/:offeringName: the body's key must equal the path's (else 400, checked
      before the table is touched); then update the title: 200 with the updated course, 404 when
      no row carries the key, 500 on a DAO failure or a body that does not parse. */
  method PutCourse(dao: CourseDao, conn: Connection, offeringName: string, body: RequestBody) returns (reply: Reply)
    requires dao.Valid()
    modifies dao
    ensures dao.Valid()
    ensures body.NullBody? ==> reply == FrameworkDefault(NullPointer) && dao.rows == old(dao.rows)
    ensures body.SyntaxError? ==>
      reply == Respond(HandleApiError(ApiError(body.message, StatusInternalServerError))) && dao.rows == old(dao.rows)
    ensures body.Decoded? && body.offeringName.None? ==> reply == FrameworkDefault(NullPointer) && dao.rows == old(dao.rows)
    ensures body.Decoded? && body.offeringName.Some? && body.offeringName.value != offeringName ==>
      reply == Respond(HandleApiError(ApiError(MismatchMessage, StatusBadRequest))) && dao.rows == old(dao.rows)
    ensures body.Decoded? && body.offeringName == Some(offeringName) ==>
      if conn.Refused? then
        reply == DaoFailure(DaoException(UpdateFailed, Unavailable(conn.reason))) && dao.rows == old(dao.rows)
      else if offeringName !in Keys(old(dao.rows)) then
        reply == Respond(HandleApiError(ApiError(NotFoundMessage, StatusNotFound))) && dao.rows == old(dao.rows)
      else if TitleViolation(body.title).Some? then
        reply == DaoFailure(DaoException(UpdateFailed, Violated(TitleViolation(body.title).value)))
        && dao.rows == old(dao.rows)
      else
        && reply == Respond(Response(StatusOk, JsonType, CourseObject(Course(offeringName, body.title.value))))
        && dao.rows == SetTitle(old(dao.rows), offeringName, body.title.value)
  {
    match body
    case NullBody => reply := FrameworkDefault(NullPointer);
    case SyntaxError(message) => reply := Respond(HandleApiError(ApiError(message, StatusInternalServerError)));
    case Decoded(name, title) =>
      if name.None? {
        reply := FrameworkDefault(NullPointer);
      } else if name.value != offeringName {
        reply := Respond(HandleApiError(ApiError(MismatchMessage, StatusBadRequest)));
      } else {
        var updated := dao.Update(conn, name, title);
        match updated
        case Thrown(e) => reply := DaoFailure(e);
        case Ok(None) => reply := Respond(HandleApiError(ApiError(NotFoundMessage, StatusNotFound)));
        case Ok(Some(c)) => reply := Respond(Response(StatusOk, JsonType, CourseObject(c)));
      }
  }
}
