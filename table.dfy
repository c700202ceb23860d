/** What the SQL statements of the data-access layer do to the `courses` table, stated on the
    sequence of its rows (the order a plain `SELECT *` returns them in). */
module Table {
  import opened Model
  import opened Text

  /** The offering names present in the table. */
  function Keys(rows: seq<Course>): set<string> {
    set c | c in rows :: c.offeringName
  }

  /** The schema's invariant: every row fits its VARCHAR columns and no offering name
      occurs twice (`PRIMARY KEY`); NOT NULL holds by the type of `Course`. */
  predicate ValidTable(rows: seq<Course>) {
    rows == [] || (FitsSchema(rows[0]) && rows[0].offeringName !in Keys(rows[1..]) && ValidTable(rows[1..]))
  }

  lemma KeysCons(rows: seq<Course>)
    requires rows != []
    ensures Keys(rows) == {rows[0].offeringName} + Keys(rows[1..])
  {
    assert rows == [rows[0]] + rows[1..];
  }

  /** The recursive invariant says what the schema says: distinct rows have distinct keys and
      every row fits the column widths. */
  lemma {:induction false} ValidTableUnique(rows: seq<Course>)
    requires ValidTable(rows)
    ensures forall i, j :: 0 <= i < j < |rows| ==> rows[i].offeringName != rows[j].offeringName
    ensures forall i :: 0 <= i < |rows| ==> FitsSchema(rows[i])
  {
    if rows != [] {
      ValidTableUnique(rows[1..]);
      forall j | 0 < j < |rows| ensures rows[0].offeringName != rows[j].offeringName {
        assert rows[j] in rows[1..];
      }
      forall i, j | 0 <= i < j < |rows| ensures rows[i].offeringName != rows[j].offeringName {
        if i > 0 {
          assert rows[i] == rows[1..][i - 1] && rows[j] == rows[1..][j - 1];
        }
      }
      forall i | 0 <= i < |rows| ensures FitsSchema(rows[i]) {
        if i > 0 {
          assert rows[i] == rows[1..][i - 1];
        }
      }
    }
  }

  /** Conversely, every table the schema admits satisfies the recursive invariant. */
  lemma {:induction false} UniqueValidTable(rows: seq<Course>)
    requires forall i, j :: 0 <= i < j < |rows| ==> rows[i].offeringName != rows[j].offeringName
    requires forall i :: 0 <= i < |rows| ==> FitsSchema(rows[i])
    ensures ValidTable(rows)
  {
    if rows != [] {
      var tail := rows[1..];
      forall i, j | 0 <= i < j < |tail| ensures tail[i].offeringName != tail[j].offeringName {
        assert tail[i] == rows[i + 1] && tail[j] == rows[j + 1];
      }
      forall i | 0 <= i < |tail| ensures FitsSchema(tail[i]) {
        assert tail[i] == rows[i + 1];
      }
      UniqueValidTable(tail);
      assert FitsSchema(rows[0]);
      forall c | c in tail ensures c.offeringName != rows[0].offeringName {
        var k :| 0 <= k < |tail| && tail[k] == c;
        assert rows[k + 1] == c;
      }
    }
  }

  /** `SELECT * FROM courses WHERE offeringName = :name`, first row: the row stored under
      `name`, or nothing when no row carries that key. */
  function Find(rows: seq<Course>, name: string): (r: Option<Course>)
    ensures r.Some? ==> r.value in rows && r.value.offeringName == name
    ensures r.None? <==> name !in Keys(rows)
  {
    if rows == [] then None
    else if rows[0].offeringName == name then Some(rows[0])
    else (KeysCons(rows); Find(rows[1..], name))
  }

  /** In a valid table the row carrying a key is the one `Find` returns. */
  lemma {:induction false} FindUnique(rows: seq<Course>, c: Course)
    requires ValidTable(rows) && c in rows
    ensures Find(rows, c.offeringName) == Some(c)
  {
    if rows[0] != c {
      assert c in rows[1..];
      FindUnique(rows[1..], c);
    }
  }

  /** The row an INSERT adds: appending a row with a fresh key keeps the table valid, the new
      key finds the new row, and every other key finds what it found before. */
  lemma {:induction false} AppendFind(rows: seq<Course>, c: Course)
    requires ValidTable(rows) && FitsSchema(c) && c.offeringName !in Keys(rows)
    ensures ValidTable(rows + [c])
    ensures Keys(rows + [c]) == Keys(rows) + {c.offeringName}
    ensures Find(rows + [c], c.offeringName) == Some(c)
    ensures forall n :: n != c.offeringName ==> Find(rows + [c], n) == Find(rows, n)
  {
    if rows == [] {
      assert [] + [c] == [c];
    } else {
      KeysCons(rows);
      AppendFind(rows[1..], c);
      assert (rows + [c])[1..] == rows[1..] + [c];
      KeysCons(rows + [c]);
    }
  }

  /** The constraints a write to the table can break. */
  datatype Violation = OfferingNameTooLong | TitleTooLong | NullOfferingName | NullTitle | DuplicateKey

  /** The constraint that `INSERT INTO courses(offeringName, title)` of the given values breaks,
      if any, in the order the database meets them: the column widths while the values are cast
      to the column types, then NOT NULL, then the primary key. */
  function InsertViolation(rows: seq<Course>, name: Option<string>, title: Option<string>): (v: Option<Violation>)
    ensures v.None? <==> name.Some? && title.Some? && FitsSchema(Course(name.value, title.value)) && name.value !in Keys(rows)
    ensures v == Some(DuplicateKey) ==> name.Some? && name.value in Keys(rows)
    ensures v == Some(NullOfferingName) <==> name.None? && (title.Some? ==> |title.value| <= MaxTitleLength)
  {
    if name.Some? && |name.value| > MaxOfferingNameLength then Some(OfferingNameTooLong)
    else if title.Some? && |title.value| > MaxTitleLength then Some(TitleTooLong)
    else if name.None? then Some(NullOfferingName)
    else if title.None? then Some(NullTitle)
    else if name.value in Keys(rows) then Some(DuplicateKey)
    else None
  }

  /** The constraint that `SET title = :title` breaks on a matched row, if any. */
  function TitleViolation(title: Option<string>): (v: Option<Violation>)
    ensures v.None? <==> title.Some? && |title.value| <= MaxTitleLength
  {
    if title.None? then Some(NullTitle)
    else if |title.value| > MaxTitleLength then Some(TitleTooLong)
    else None
  }

  /** `UPDATE courses SET title = :title WHERE offeringName = :name`, applied row by row. */
  function SetTitle(rows: seq<Course>, name: string, title: string): seq<Course> {
    if rows == [] then []
    else [if rows[0].offeringName == name then Course(name, title) else rows[0]] + SetTitle(rows[1..], name, title)
  }

  /** UPDATE touches only the title: every row keeps its position and its offering name, the
      matched rows get the new title and every other row is left as it was. */
  lemma {:induction false} SetTitleAt(rows: seq<Course>, name: string, title: string)
    ensures |SetTitle(rows, name, title)| == |rows|
    ensures forall i :: 0 <= i < |rows| ==>
      SetTitle(rows, name, title)[i].offeringName == rows[i].offeringName &&
      SetTitle(rows, name, title)[i].title == (if rows[i].offeringName == name then title else rows[i].title)
  {
    if rows != [] {
      SetTitleAt(rows[1..], name, title);
      var r := SetTitle(rows, name, title);
      forall i | 0 < i < |rows|
        ensures r[i].offeringName == rows[i].offeringName
        ensures r[i].title == (if rows[i].offeringName == name then title else rows[i].title)
      {
        assert r[i] == SetTitle(rows[1..], name, title)[i - 1];
      }
    }
  }

  /** UPDATE keeps the key set, and with a title that fits its column it keeps the table valid. */
  lemma {:induction false} SetTitleValid(rows: seq<Course>, name: string, title: string)
    ensures Keys(SetTitle(rows, name, title)) == Keys(rows)
    ensures ValidTable(rows) && |title| <= MaxTitleLength ==> ValidTable(SetTitle(rows, name, title))
  {
    if rows != [] {
      SetTitleValid(rows[1..], name, title);
      var r := SetTitle(rows, name, title);
      assert r[1..] == SetTitle(rows[1..], name, title);
      KeysCons(rows);
      KeysCons(r);
    }
  }

  /** After UPDATE the matched key reads back the new title, and every other key reads back
      what it read before. */
  lemma {:induction false} SetTitleFind(rows: seq<Course>, name: string, title: string)
    ensures name in Keys(rows) ==> Find(SetTitle(rows, name, title), name) == Some(Course(name, title))
    ensures forall n :: n != name ==> Find(SetTitle(rows, name, title), n) == Find(rows, n)
  {
    if rows != [] {
      SetTitleFind(rows[1..], name, title);
      KeysCons(rows);
      var r := SetTitle(rows, name, title);
      assert r[1..] == SetTitle(rows[1..], name, title);
    }
  }

  /** An UPDATE whose key matches no row leaves the table exactly as it was. */
  lemma {:induction false} SetTitleAbsent(rows: seq<Course>, name: string, title: string)
    requires name !in Keys(rows)
    ensures SetTitle(rows, name, title) == rows
  {
    if rows != [] {
      KeysCons(rows);
      SetTitleAbsent(rows[1..], name, title);
    }
  }

  /** `DELETE FROM courses WHERE offeringName = :name`. */
  function Remove(rows: seq<Course>, name: string): seq<Course> {
    if rows == [] then []
    else if rows[0].offeringName == name then Remove(rows[1..], name)
    else [rows[0]] + Remove(rows[1..], name)
  }

  /** DELETE removes exactly the key it names: that key is gone, every other key reads back what
      it read before, and the table stays valid. */
  lemma {:induction false} RemoveFind(rows: seq<Course>, name: string)
    ensures Keys(Remove(rows, name)) == Keys(rows) - {name}
    ensures forall n :: n != name ==> Find(Remove(rows, name), n) == Find(rows, n)
    ensures ValidTable(rows) ==> ValidTable(Remove(rows, name))
  {
    if rows != [] {
      RemoveFind(rows[1..], name);
      KeysCons(rows);
      var r := Remove(rows, name);
      if rows[0].offeringName != name {
        assert r[1..] == Remove(rows[1..], name);
        KeysCons(r);
      }
    }
  }

  /** In a valid table DELETE of a present key takes away exactly one row, the one `Find`
      returned; nothing else is lost or added. */
  lemma {:induction false} RemoveOne(rows: seq<Course>, name: string)
    requires ValidTable(rows) && name in Keys(rows)
    ensures multiset(rows) == multiset(Remove(rows, name)) + multiset{Find(rows, name).value}
    ensures |Remove(rows, name)| == |rows| - 1
  {
    KeysCons(rows);
    assert rows == [rows[0]] + rows[1..];
    if rows[0].offeringName == name {
      RemoveAbsent(rows[1..], name);
    } else {
      RemoveOne(rows[1..], name);
    }
  }

  /** A DELETE whose key matches no row leaves the table exactly as it was. */
  lemma {:induction false} RemoveAbsent(rows: seq<Course>, name: string)
    requires name !in Keys(rows)
    ensures Remove(rows, name) == rows
  {
    if rows != [] {
      KeysCons(rows);
      RemoveAbsent(rows[1..], name);
    }
  }

  /** DELETE undoes a successful INSERT: removing the key just appended gives back the table
      as it was before. */
  lemma {:induction false} RemoveAppended(rows: seq<Course>, c: Course)
    requires c.offeringName !in Keys(rows)
    ensures Remove(rows + [c], c.offeringName) == rows
  {
    if rows == [] {
      assert [] + [c] == [c];
    } else {
      KeysCons(rows);
      assert (rows + [c])[1..] == rows[1..] + [c];
      RemoveAppended(rows[1..], c);
    }
  }

  /** An UPDATE that writes back the title a row already has leaves a valid table unchanged. */
  lemma {:induction false} SetTitleCurrent(rows: seq<Course>, c: Course)
    requires ValidTable(rows) && c in rows
    ensures SetTitle(rows, c.offeringName, c.title) == rows
  {
    if rows[0] == c {
      SetTitleAbsent(rows[1..], c.offeringName, c.title);
    } else {
      assert c in rows[1..];
      SetTitleCurrent(rows[1..], c);
    }
  }

  /** The title filter of `readAll(titleQuery)`: the title contains the query, ignoring case. */
  predicate TitleMatches(title: string, query: string) {
    ContainsIgnoreCase(title, query)
  }

  /** The rows a title search returns, in table order. */
  function Matching(rows: seq<Course>, query: string): seq<Course> {
    if rows == [] then []
    else (if TitleMatches(rows[0].title, query) then [rows[0]] else []) + Matching(rows[1..], query)
  }

  /** A title search returns exactly the rows whose title contains the query: nothing that does
      not match, and every row that does. */
  lemma {:induction false} MatchingExact(rows: seq<Course>, query: string)
    ensures forall c :: c in Matching(rows, query) <==> c in rows && TitleMatches(c.title, query)
  {
    if rows != [] {
      MatchingExact(rows[1..], query);
      assert rows == [rows[0]] + rows[1..];
    }
  }

  /** A query no title contains yields the empty list. */
  lemma {:induction false} NoMatchIsEmpty(rows: seq<Course>, query: string)
    requires forall c :: c in rows ==> !TitleMatches(c.title, query)
    ensures Matching(rows, query) == []
  {
    if rows != [] {
      assert rows[0] in rows && forall c :: c in rows[1..] ==> c in rows;
      NoMatchIsEmpty(rows[1..], query);
    }
  }

  /** The empty query (`LIKE '%%'`) returns the whole table, in order. */
  lemma {:induction false} EmptyQueryMatchesAll(rows: seq<Course>)
    ensures Matching(rows, "") == rows
  {
    if rows != [] {
      assert Lower("") == "";
      assert TitleMatches(rows[0].title, "");
      EmptyQueryMatchesAll(rows[1..]);
    }
  }
}
