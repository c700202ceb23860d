/** The HTTP tests' course lifecycle, replayed against the model from an empty table. */
module Scenarios {
  import opened Model
  import opened Table
  import opened Dao
  import opened Api

  /** POST a new course, read it back, try to PUT it under another key, read a key that is not
      there, POST the same key again and a body without a key, and finally PUT a new title. */
  method CourseLifecycle() returns (post: Reply, get: Reply, mismatch: Reply, missing: Reply,
                                    duplicate: Reply, incomplete: Reply, put: Reply)
    ensures post == Respond(Response(StatusCreated, JsonType,
              CourseObject(Course("EN.601.421", "Object-Oriented Software Engineering"))))
    ensures get == Respond(Response(StatusOk, JsonType,
              CourseObject(Course("EN.601.421", "Object-Oriented Software Engineering"))))
    ensures mismatch.Respond? && mismatch.response.status == StatusBadRequest
    ensures missing == Respond(HandleApiError(ApiError("Resource not found", 404)))
    ensures duplicate.Respond? && duplicate.response.status == StatusInternalServerError
    ensures incomplete.Respond? && incomplete.response.status == StatusInternalServerError
    ensures put == Respond(Response(StatusOk, JsonType, CourseObject(Course("EN.601.421", "OOSE"))))
  {
    var dao := new CourseDao([]);
    var name, title := "EN.601.421", "Object-Oriented Software Engineering";
    post := PostCourse(dao, Open, Decoded(Some(name), Some(title)));
    assert dao.rows == [Course(name, title)];
    get := GetCourse(dao, Open, name);
    mismatch := PutCourse(dao, Open, name, Decoded(Some("EN.601.999"), Some(title)));
    assert "EN.000.999" !in Keys(dao.rows);
    missing := GetCourse(dao, Open, "EN.000.999");
    duplicate := PostCourse(dao, Open, Decoded(Some(name), Some("Data Structures")));
    incomplete := PostCourse(dao, Open, Decoded(None, Some("Made-up model.Course")));
    put := PutCourse(dao, Open, name, Decoded(Some(name), Some("OOSE")));
  }
}
