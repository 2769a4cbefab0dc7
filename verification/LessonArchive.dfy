/** The archive files that take what HOT memory has no room for. */
module LessonArchive {
  import opened Texts
  import opened Lessons

  /** File contents by file name. */
  type Archive = map<Text, Text>

  function ArchiveLine(l: Lesson): Text {
    Lit("- (") + l.topic + Lit(") [") + l.id + Lit("] ") + l.text
  }

  function ArchiveLines(overflow: seq<Lesson>): seq<Text> {
    seq(|overflow|, i requires 0 <= i < |overflow| => ArchiveLine(overflow[i]))
  }

  function Block(overflow: seq<Lesson>): Text {
    Join(ArchiveLines(overflow)) + [NEWLINE]
  }

  /** The day of the newest lesson that overflows. */
  function FileOf(overflow: seq<Lesson>): Text
    requires overflow != []
  {
    var time := if overflow[0].createdAt == [] then Lit("archive") else overflow[0].createdAt;
    if |time| <= 10 then time else time[..10]
  }

  /** The file is named by the day: the first ten units of the time, or "archive" without one. */
  lemma FileOfIs(overflow: seq<Lesson>)
    requires overflow != []
    ensures var time := overflow[0].createdAt;
      && (|time| > 10 ==> FileOf(overflow) == time[..10])
      && (1 <= |time| <= 10 ==> FileOf(overflow) == time)
      && (time == [] ==> FileOf(overflow) == Lit("archive"))
  {}

  function Content(a: Archive, file: Text): Text {
    if file in a then a[file] else []
  }

  /** appendFile, creating the file when it is missing. */
  function Filed(was: Archive, overflow: seq<Lesson>): Archive {
    if overflow == [] then was
    else was[FileOf(overflow) := Content(was, FileOf(overflow)) + Block(overflow)]
  }

  lemma FiledKeeps(was: Archive, overflow: seq<Lesson>, file: Text)
    ensures Content(was, file) <= Content(Filed(was, overflow), file)
  {}

  // ------------------------------------------------------------------ lines found again

  /** Somewhere in the text stands the line, ended by a line break. */
  ghost predicate Holds(t: Text, line: Text) {
    exists i :: HoldsAt(t, line, i)
  }

  predicate HoldsAt(t: Text, line: Text, i: int) {
    0 <= i && i + |line| < |t| && t[i..i + |line|] == line && t[i + |line|] == NEWLINE
  }

  lemma HoldsBefore(a: Text, b: Text, line: Text)
    requires Holds(a, line)
    ensures Holds(a + b, line)
  {
    var i :| HoldsAt(a, line, i);
    assert (a + b)[i..i + |line|] == a[i..i + |line|];
    assert HoldsAt(a + b, line, i);
  }

  lemma HoldsLast(a: Text, line: Text)
    ensures Holds(a + line + [NEWLINE], line)
  {
    assert (a + line + [NEWLINE])[|a|..|a| + |line|] == line;
    assert HoldsAt(a + line + [NEWLINE], line, |a|);
  }

  lemma {:induction false} JoinHolds(pieces: seq<Text>, k: nat)
    requires k < |pieces|
    ensures Holds(Join(pieces) + [NEWLINE], pieces[k])
  {
    hide Holds;
    var last := pieces[|pieces| - 1];
    if |pieces| == 1 {
      HoldsLast([], last);
      assert [] + last + [NEWLINE] == last + [NEWLINE];
    } else {
      var front := Join(pieces[..|pieces| - 1]) + [NEWLINE];
      if k < |pieces| - 1 {
        JoinHolds(pieces[..|pieces| - 1], k);
        HoldsBefore(front, last + [NEWLINE], pieces[k]);
        assert front + last + [NEWLINE] == front + (last + [NEWLINE]);
      } else {
        HoldsLast(front, last);
      }
    }
  }

  lemma HotHolds(excluded: nat, kept: seq<Lesson>, k: nat)
    requires k < |kept|
    ensures Holds(Join(Pieces(excluded, kept)), LessonLine(kept[k]))
  {
    hide Holds, LessonLine, Marker;
    var pieces := Pieces(excluded, kept);
    var front := Header() + Marker(excluded) + LessonLines(kept);
    assert pieces[..|pieces| - 1] == front && pieces[|pieces| - 1] == [];
    assert Join(pieces) == Join(front) + [NEWLINE] + [];
    var at := |Header() + Marker(excluded)| + k;
    assert front[at] == LessonLine(kept[k]);
    JoinHolds(front, at);
    assert Join(front) + [NEWLINE] + [] == Join(front) + [NEWLINE];
  }

  lemma FiledHolds(was: Archive, overflow: seq<Lesson>, k: nat)
    requires k < |overflow|
    ensures Holds(Content(Filed(was, overflow), FileOf(overflow)), ArchiveLine(overflow[k]))
  {
    hide Holds, ArchiveLine, FileOf, Join;
    JoinHolds(ArchiveLines(overflow), k);
    HoldsBehind(Content(was, FileOf(overflow)), Block(overflow), ArchiveLine(overflow[k]));
  }

  lemma HoldsBehind(a: Text, b: Text, line: Text)
    requires Holds(b, line)
    ensures Holds(a + b, line)
  {
    var i :| HoldsAt(b, line, i);
    assert (a + b)[|a| + i..|a| + i + |line|] == b[i..i + |line|];
    assert HoldsAt(a + b, line, |a| + i);
  }
}
