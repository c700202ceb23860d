/** The title search as written: `title LIKE '%q%'`. PostgreSQL's LIKE compares case-sensitively,
    so the search finds a row only when its title contains the query with the same case; the
    interface promises "title containing titleQuery" and the tests check containment after
    lower-casing both sides. On the tests' own fixture the query "data" then finds nothing. The
    rest of the model searches case-insensitively (`Table.TitleMatches`). */
module LikeSearch {
  import opened Model
  import opened Text
  import opened Table

  /** `title LIKE '%' || q || '%'` with no wildcard inside `q`: case-sensitive containment. */
  predicate LikeAsWritten(title: string, query: string) {
    Contains(title, query)
  }

  /** The rows the statement as written returns, in table order. */
  function MatchingAsWritten(rows: seq<Course>, query: string): seq<Course> {
    if rows == [] then []
    else (if LikeAsWritten(rows[0].title, query) then [rows[0]] else []) + MatchingAsWritten(rows[1..], query)
  }

  /** The rows of the data-access tests' fixture, in insertion order. */
  const Fixture: seq<Course> := [
    Course("EN.500.112", "GATEWAY COMPUTING: JAVA"),
    Course("EN.601.220", "INTERMEDIATE PROGRAMMING"),
    Course("EN.601.226", "DATA STRUCTURES"),
    Course("EN.601.229", "COMPUTER SYSTEM FUNDAMENTALS"),
    Course("EN.601.230", "AUTOMATA and COMPUTATION THEORY"),
    Course("EN.601.315", "Databases"),
    Course("EN.601.476", "Machine Learning: Data to Models"),
    Course("EN.601.676", "Machine Learning: Data to Models")
  ]

  /** A string that lacks the query's first character does not contain the query. */
  lemma {:induction false} FirstCharAbsent(s: string, q: string)
    requires q != [] && q[0] !in s
    ensures !Contains(s, q)
    decreases |s|
  {
    if s != [] {
      assert forall c :: c in s[1..] ==> c in s;
      FirstCharAbsent(s[1..], q);
    }
  }

  /** An occurrence cannot start inside a prefix that lacks the query's first character. */
  lemma {:induction false} SkipPrefix(a: string, b: string, q: string)
    requires q != [] && q[0] !in a && Contains(a + b, q)
    ensures Contains(b, q)
    decreases |a|
  {
    if a != [] {
      assert (a + b)[0] == a[0];
      assert (a + b)[1..] == a[1..] + b;
      assert forall c :: c in a[1..] ==> c in a;
      SkipPrefix(a[1..], b, q);
    } else {
      assert a + b == b;
    }
  }

  /** A title that splits as `a + b`, where `a` lacks 'd', `b` starts with 'd' but not with
      "da", and the rest of `b` lacks 'd', does not contain "data". */
  lemma LacksDataAfterSplit(a: string, b: string)
    requires 'd' !in a && |b| >= 2 && b[0] == 'd' && b[1] != 'a' && 'd' !in b[1..]
    ensures !LikeAsWritten(a + b, "data")
  {
    FirstCharAbsent(b[1..], "data");
    if Contains(a + b, "data") {
      SkipPrefix(a, b, "data");
    }
  }

  /** The same, for a title and the index of its only lower-case 'd'. */
  lemma LacksDataAt(t: string, k: nat)
    requires k + 1 < |t| && 'd' !in t[..k] && t[k] == 'd' && t[k + 1] != 'a' && 'd' !in t[k + 1..]
    ensures !LikeAsWritten(t, "data")
  {
    assert t[k..][1..] == t[k + 1..];
    LacksDataAfterSplit(t[..k], t[k..]);
    assert t == t[..k] + t[k..];
  }

  /** Five of the fixture's titles lack a lower-case 'd' altogether. */
  lemma TitleWithoutLowerD(t: string)
    requires t in ["GATEWAY COMPUTING: JAVA", "INTERMEDIATE PROGRAMMING", "DATA STRUCTURES",
                   "COMPUTER SYSTEM FUNDAMENTALS", "Databases"]
    ensures !LikeAsWritten(t, "data")
  {
    FirstCharAbsent(t, "data");
  }

  /** The two fixture titles with a lower-case 'd' have no "da" in them. */
  lemma TitleWithLoneLowerD(t: string)
    requires t in ["AUTOMATA and COMPUTATION THEORY", "Machine Learning: Data to Models"]
    ensures !LikeAsWritten(t, "data")
  {
    if t == "AUTOMATA and COMPUTATION THEORY" {
      LacksDataAt("AUTOMATA and COMPUTATION THEORY", 11);
    } else {
      LacksDataAt("Machine Learning: Data to Models", 28);
    }
  }

  /** The search as written returns exactly the stored rows whose title contains the query
      with the same case. */
  lemma {:induction false} MatchingAsWrittenExact(rows: seq<Course>, query: string)
    ensures forall c :: c in MatchingAsWritten(rows, query) <==> c in rows && LikeAsWritten(c.title, query)
  {
    if rows != [] {
      MatchingAsWrittenExact(rows[1..], query);
      assert rows == [rows[0]] + rows[1..];
    }
  }

  /** Every row the search as written returns, the corrected search returns too, so the
      statement as written can only miss rows, never add them. */
  lemma AsWrittenWithinCorrected(rows: seq<Course>, query: string)
    ensures forall c :: c in MatchingAsWritten(rows, query) ==> c in Matching(rows, query)
  {
    MatchingAsWrittenExact(rows, query);
    MatchingExact(rows, query);
    forall c | c in MatchingAsWritten(rows, query) ensures c in Matching(rows, query) {
      ContainsLower(c.title, query);
    }
  }

  /** As written, `readAll("data")` on the fixture returns the empty list. */
  lemma AsWrittenFindsNoData()
    ensures MatchingAsWritten(Fixture, "data") == []
  {
    TitleWithoutLowerD("GATEWAY COMPUTING: JAVA");
    TitleWithoutLowerD("INTERMEDIATE PROGRAMMING");
    TitleWithoutLowerD("DATA STRUCTURES");
    TitleWithoutLowerD("COMPUTER SYSTEM FUNDAMENTALS");
    TitleWithoutLowerD("Databases");
    TitleWithLoneLowerD("AUTOMATA and COMPUTATION THEORY");
    TitleWithLoneLowerD("Machine Learning: Data to Models");
    MatchingAsWrittenExact(Fixture, "data");
  }

  /** "data" occurs, ignoring case, in "DATA STRUCTURES" and in "Databases". */
  lemma TitlesContainDataIgnoringCase()
    ensures TitleMatches("DATA STRUCTURES", "data") && TitleMatches("Databases", "data")
  {
    assert Lower("data") <= Lower("DATA STRUCTURES");
    assert Lower("data") <= Lower("Databases");
  }

  /** The corrected search on the fixture: a non-empty list whose titles all contain "data"
      ignoring case, among them "DATA STRUCTURES" and "Databases". */
  lemma CorrectedFindsData()
    ensures Fixture[2] in Matching(Fixture, "data") && Fixture[5] in Matching(Fixture, "data")
    ensures forall c :: c in Matching(Fixture, "data") ==> ContainsIgnoreCase(c.title, "data")
  {
    TitlesContainDataIgnoringCase();
    MatchingExact(Fixture, "data");
  }

  /** The discrepancy: on the fixture the search as written returns the empty list, while the
      test expects a non-empty list whose titles all contain "data" ignoring case, which the
      corrected search returns. */
  lemma SearchDataOnFixture()
    ensures MatchingAsWritten(Fixture, "data") == []
    ensures Matching(Fixture, "data") != []
    ensures forall c :: c in Matching(Fixture, "data") ==> ContainsIgnoreCase(c.title, "data")
  {
    AsWrittenFindsNoData();
    CorrectedFindsData();
  }
}
