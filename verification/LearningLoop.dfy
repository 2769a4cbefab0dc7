/** The learning loop's commands: each loads the ledger, decides, and saves ledger and memory together. */
module LearningLoop {
  import opened Options
  import opened Texts
  import opened LessonWords
  import opened Lessons
  import opened LessonIds
  import opened LessonArchive

  datatype Command =
    | Propose(text: Option<Text>, matter: Option<Text>, topic: Option<Text>, feedback: Option<Text>,
              entities: seq<Text>, now: Text)
    | Accept(id: Option<Text>, now: Text)
    | Reject(id: Option<Text>)
    | Render

  datatype Reply =
    | Refused
    | Violates(violations: seq<Text>)
    | Withheld(reasons: seq<Text>)
    | Duplicate
    | Done(id: Text)
    | Rewritten

  const MAX_LINES := 100

  function WithoutHyphens(t: Text): Text {
    if t == [] then [] else (if t[0] == HYPHEN then [] else [t[0]]) + WithoutHyphens(t[1..])
  }

  /** The day of an ISO time, without hyphens. */
  function DateOf(now: Text): Text {
    WithoutHyphens(if |now| <= 10 then now else now[..10])
  }

  function OrElse(t: Option<Text>, default: Text): Text {
    if t.Some? then t.value else default
  }

  predicate Blank(t: Option<Text>) {
    t.None? || t.value == [] || Trim(t.value) == []
  }

  function Proposed(p: Screens, lessons: seq<Lesson>, cmd: Command): Lesson
    requires cmd.Propose? && cmd.text.Some? && cmd.matter.Some?
  {
    Lesson(NextLessonId(p, lessons, DateOf(cmd.now)), cmd.now, cmd.text.value, OrElse(cmd.topic, Lit("general")),
           Pending,
           cmd.matter.value, OrElse(cmd.feedback, []), cmd.entities, None)
  }

  /** The first lesson with the id. */
  function Find(lessons: seq<Lesson>, id: Text, from: nat): (r: Option<nat>)
    requires from <= |lessons|
    ensures r.Some? ==> from <= r.value < |lessons| && lessons[r.value].id == id
    ensures r.None? ==> forall i :: from <= i < |lessons| ==> lessons[i].id != id
    decreases |lessons| - from
  {
    if from == |lessons| then None
    else if lessons[from].id == id then Some(from)
    else Find(lessons, id, from + 1)
  }

  function Target(lessons: seq<Lesson>, id: Option<Text>): (r: Option<nat>)
    ensures r.Some? ==> r.value < |lessons| && id == Some(lessons[r.value].id)
  {
    if id.None? || id.value == [] then None else Find(lessons, id.value, 0)
  }

  /** The screen at acceptance: the lesson's own parties and every party of the ledger. */
  ghost predicate PassesWall(p: Screens, lessons: seq<Lesson>, l: Lesson) {
    Clears(p, l.text, l.entities) && ClearsLedger(p, l.text, lessons)
  }

  function WithBlock(lessons: seq<Lesson>, id: Text, block: Option<Blocked>): seq<Lesson> {
    seq(|lessons|, i requires 0 <= i < |lessons| =>
      if lessons[i].id == id then lessons[i].(blocked := block) else lessons[i])
  }

  function Moved(lessons: seq<Lesson>, id: Text, status: Status): Option<seq<Lesson>> {
    var next := SetStatus(lessons, id, status);
    if next.None? then None else Some(WithBlock(next.value, id, None))
  }

  /** The ledger a command saves; None when it saves nothing. */
  ghost function After(p: Screens, lessons: seq<Lesson>, cmd: Command, reasons: seq<Text>): Option<seq<Lesson>> {
    match cmd
    case Propose(text, matter, _, _, entities, _) =>
      if Blank(text) || Blank(matter) || !Clears(p, text.value, entities) then None
      else AppendLesson(p, lessons, Proposed(p, lessons, cmd))
    case Accept(id, now) =>
      var k := Target(lessons, id);
      if k.None? then None
      else if lessons[k.value].status.Pending? && !PassesWall(p, lessons, lessons[k.value]) then
        Some(WithBlock(lessons, id.value, Some(Blocked(now, reasons))))
      else Moved(lessons, id.value, Accepted)
    case Reject(id) =>
      if Target(lessons, id).None? then None else Moved(lessons, id.value, Rejected)
    case Render => Some(lessons)
  }

  /** The memory file is a rendering of the ledger. */
  ghost predicate Reflects(p: Screens, lessons: seq<Lesson>, memory: Option<Text>) {
    if memory.None? then lessons == []
    else exists order :: SortOf(lessons, order) && memory.value == Rendered(p, lessons, order, MAX_LINES).hot
  }

  /** One save: the memory file and the archive come from one rendering of the ledger. */
  ghost predicate Saved(p: Screens, lessons: seq<Lesson>, memory: Option<Text>, was: Archive, now: Archive) {
    memory.Some? && exists order :: SavedBy(p, lessons, memory.value, was, now, order)
  }

  ghost predicate SavedBy(p: Screens, lessons: seq<Lesson>, hot: Text, was: Archive, now: Archive, order: seq<Lesson>) {
    var r := Rendered(p, lessons, order, MAX_LINES);
    SortOf(lessons, order) && hot == r.hot && now == Filed(was, r.overflow)
  }

  lemma SavedReflects(p: Screens, lessons: seq<Lesson>, memory: Option<Text>, was: Archive, now: Archive)
    requires Saved(p, lessons, memory, was, now)
    ensures Reflects(p, lessons, memory)
  {
    hide Rendered, SortOf;
  }

  /** After a save every clear accepted lesson stands in the memory file or in an archive file. */
  lemma NothingDropped(p: Screens, lessons: seq<Lesson>, memory: Option<Text>, was: Archive, now: Archive, l: Lesson)
    requires Saved(p, lessons, memory, was, now) && l in lessons && IsClear(p, lessons, l)
    ensures Holds(memory.value, LessonLine(l)) || exists file :: file in now && Holds(now[file], ArchiveLine(l))
  {
    var order :| SavedBy(p, lessons, memory.value, was, now, order);
    var r := Rendered(p, lessons, order, MAX_LINES);
    RenderScreens(p, lessons, order, MAX_LINES, l);
    hide SortOf, ClearsLedger, Holds, LessonLine, ArchiveLine, Join, Pieces, FileOf, Block;
    if l in r.kept {
      var k :| 0 <= k < |r.kept| && r.kept[k] == l;
      HotHolds(|r.excluded|, r.kept, k);
    } else {
      var k :| 0 <= k < |r.overflow| && r.overflow[k] == l;
      FiledHolds(was, r.overflow, k);
      assert FileOf(r.overflow) in now;
    }
  }

  /** With one-line lessons the memory file has at most 100 lines, and exactly 100 when anything went to the archive. */
  lemma MemoryFits(p: Screens, lessons: seq<Lesson>, memory: Option<Text>, was: Archive, now: Archive)
    requires Saved(p, lessons, memory, was, now)
    requires forall i :: 0 <= i < |lessons| && IsClear(p, lessons, lessons[i]) ==> OneLine(lessons[i])
    ensures LineCount(memory.value) <= 100 && (now != was ==> LineCount(memory.value) == 100)
  {
    var order :| SavedBy(p, lessons, memory.value, was, now, order);
    hide SortOf, Rendered, LineCount, IsClear, OneLine;
    HotLinesIff(p, lessons, order, MAX_LINES);
    FixedFew(|Rendered(p, lessons, order, MAX_LINES).excluded|);
    if now != was { FullWhenOverflowing(p, lessons, order); }
  }

  lemma FixedFew(excluded: nat)
    ensures FixedLines(excluded) <= 7
  {}

  lemma FullWhenOverflowing(p: Screens, lessons: seq<Lesson>, order: seq<Lesson>)
    requires SortOf(lessons, order) && Rendered(p, lessons, order, MAX_LINES).overflow != []
    requires forall i :: 0 <= i < |lessons| && IsClear(p, lessons, lessons[i]) ==> OneLine(lessons[i])
    ensures LineCount(Rendered(p, lessons, order, MAX_LINES).hot) >= MAX_LINES
  {
    HotLines(p, lessons, order, MAX_LINES);
    KeptFits(p, lessons, order, MAX_LINES);
    hide SortOf, Rendered, LineCount, IsClear, OneLine, LessonLines, NewlinesIn;
  }

  /** Whatever a save does, what an archive file held stays at its beginning. */
  lemma ArchiveOnlyGrows(p: Screens, lessons: seq<Lesson>, memory: Option<Text>, was: Archive, now: Archive, file: Text)
    requires Saved(p, lessons, memory, was, now)
    ensures Content(was, file) <= Content(now, file)
  {
    var order :| SavedBy(p, lessons, memory.value, was, now, order);
    FiledKeeps(was, Rendered(p, lessons, order, MAX_LINES).overflow, file);
  }

  /** The codes of what the screen found in a lesson held back at acceptance. */
  ghost predicate IsReason(p: Screens, lessons: seq<Lesson>, l: Lesson, c: Text) {
    || (exists e :: WallParty(lessons, l, e) && Hit(p, l.text, e).Some? && Code(Hit(p, l.text, e).value) == c)
    || (exists i :: 0 <= i < |p.patterns(l.text)| && Code(PatternViolation(p.patterns(l.text)[i])) == c)
  }

  predicate WallParty(lessons: seq<Lesson>, l: Lesson, e: Text) {
    e in l.entities || Known(lessons, e)
  }

  ghost predicate AreReasons(p: Screens, lessons: seq<Lesson>, cmd: Command, reasons: seq<Text>) {
    cmd.Accept? && Target(lessons, cmd.id).Some? && NoRepeats(reasons)
    && (forall c :: c in reasons <==> IsReason(p, lessons, lessons[Target(lessons, cmd.id).value], c))
  }

  // -------------------------------------------------- what a command does, spelled out

  /** Given, and not only of spaces. */
  predicate Stated(t: Option<Text>) {
    t.Some? && exists k :: 0 <= k < |t.value| && !IsSpace(t.value[k])
  }

  lemma BlankIs(t: Option<Text>)
    ensures Blank(t) <==> !Stated(t)
  {
    hide IsSpace, Trim;
    if t.Some? { var i, j := TrimIs(t.value); }
  }

  /** Some of these parties is named in the text, or a pattern shows. */
  ghost predicate Identifies(p: Screens, text: Text, entities: iset<Text>) {
    p.patterns(text) != [] || exists e :: e in entities && (NameStands(p, text, e) || NameWordStands(p, text, e))
  }

  /** The parties an acceptance is screened against. */
  ghost function WallParties(lessons: seq<Lesson>, own: seq<Text>): iset<Text> {
    iset e: Text | e in own || (e != [] && exists i :: 0 <= i < |lessons| && e in lessons[i].entities)
  }

  /** Every lesson of this id takes the status and loses its block record; all else stays. */
  predicate Took(was: seq<Lesson>, now: seq<Lesson>, id: Text, status: Status) {
    |now| == |was| && forall i :: 0 <= i < |was| ==>
      now[i] == if was[i].id == id then was[i].(status := status, blocked := None) else was[i]
  }

  /** Every lesson of this id gets the block record; all else stays. */
  predicate Held(was: seq<Lesson>, now: seq<Lesson>, id: Text, block: Blocked) {
    |now| == |was| && forall i :: 0 <= i < |was| ==>
      now[i] == if was[i].id == id then was[i].(blocked := Some(block)) else was[i]
  }

  /** k is the first lesson of this id. */
  predicate IsFirst(lessons: seq<Lesson>, id: Option<Text>, k: int) {
    && 0 <= k < |lessons| && id == Some(lessons[k].id) && lessons[k].id != []
    && forall i :: 0 <= i < k ==> lessons[i].id != lessons[k].id
  }

  predicate AllPending(lessons: seq<Lesson>, id: Text) {
    forall i :: 0 <= i < |lessons| && lessons[i].id == id ==> lessons[i].status.Pending?
  }

  ghost predicate IsProposed(p: Screens, was: seq<Lesson>, cmd: Command, reply: Reply, now: seq<Lesson>)
    requires cmd.Propose?
  {
    if !Stated(cmd.text) || !Stated(cmd.matter) then reply == Refused && now == was
    else if Identifies(p, cmd.text.value, (iset e | e in cmd.entities)) then reply.Violates? && now == was
    else if exists i :: 0 <= i < |was| && p.normalize(was[i].text) == p.normalize(cmd.text.value) then
      reply == Duplicate && now == was
    else
      && reply.Done? && |now| == |was| + 1 && now[..|was|] == was && now[|was|].id == reply.id
      && now[|was|].createdAt == cmd.now && now[|was|].text == cmd.text.value && now[|was|].status == Pending
      && now[|was|].topic == (if cmd.topic.Some? then cmd.topic.value else Lit("general"))
      && now[|was|].matter == cmd.matter.value
      && now[|was|].feedback == (if cmd.feedback.Some? then cmd.feedback.value else [])
      && now[|was|].entities == cmd.entities && now[|was|].blocked == None
  }

  ghost predicate IsAccepting(p: Screens, was: seq<Lesson>, cmd: Command, reply: Reply, now: seq<Lesson>)
    requires cmd.Accept?
  {
    && ((forall k :: !IsFirst(was, cmd.id, k)) ==> reply == Refused && now == was)
    && forall k :: IsFirst(was, cmd.id, k) ==>
      if !was[k].status.Pending? then reply == Refused && now == was
      else if Identifies(p, was[k].text, WallParties(was, was[k].entities)) then
        reply.Withheld? && Held(was, now, cmd.id.value, Blocked(cmd.now, reply.reasons))
      else if AllPending(was, cmd.id.value) then reply == Done(cmd.id.value) && Took(was, now, cmd.id.value, Accepted)
      else reply == Refused && now == was
  }

  ghost predicate IsRejecting(was: seq<Lesson>, cmd: Command, reply: Reply, now: seq<Lesson>)
    requires cmd.Reject?
  {
    if (exists k :: IsFirst(was, cmd.id, k)) && AllPending(was, cmd.id.value)
    then reply == Done(cmd.id.value) && Took(was, now, cmd.id.value, Rejected)
    else reply == Refused && now == was
  }

  /** Reply and new ledger are those of the command. */
  ghost predicate IsReply(p: Screens, was: seq<Lesson>, cmd: Command, reply: Reply, now: seq<Lesson>) {
    match cmd
    case Propose(_, _, _, _, _, _) => IsProposed(p, was, cmd, reply, now)
    case Accept(_, _) => IsAccepting(p, was, cmd, reply, now)
    case Reject(_) => IsRejecting(was, cmd, reply, now)
    case Render => reply == Rewritten && now == was
  }

  lemma IdentifiesIs(p: Screens, text: Text, entities: seq<Text>)
    ensures Clears(p, text, entities) <==> !Identifies(p, text, (iset e | e in entities))
  {
    hide NameStands, NameWordStands, Reports;
    SanitizeSpelled(p, text, entities);
  }

  lemma WallIdentifies(p: Screens, lessons: seq<Lesson>, l: Lesson)
    ensures PassesWall(p, lessons, l) <==> !Identifies(p, l.text, WallParties(lessons, l.entities))
  {
    hide NameStands, NameWordStands, Hit;
    forall e ensures Hit(p, l.text, e).Some? <==> NameStands(p, l.text, e) || NameWordStands(p, l.text, e) {
      HitIs(p, l.text, e);
    }
    forall e ensures e in WallParties(lessons, l.entities) <==> e in l.entities || Known(lessons, e) {}
    hide WallParties, Known;
    assert Clears(p, l.text, l.entities) <==>
      p.patterns(l.text) == [] && forall e :: e in l.entities ==> Hit(p, l.text, e).None?;
  }

  /** What a proposal leads to, by what was checked. */
  lemma ProposalReplies(p: Screens, was: seq<Lesson>, cmd: Command, reply: Reply, now: seq<Lesson>)
    requires cmd.Propose?
    requires
      if Blank(cmd.text) || Blank(cmd.matter) then reply == Refused && now == was
      else if !Clears(p, cmd.text.value, cmd.entities) then reply.Violates? && now == was
      else if Said(p, was, cmd.text.value) then reply == Duplicate && now == was
      else reply == Done(Proposed(p, was, cmd).id) && now == was + [Proposed(p, was, cmd)]
    ensures IsReply(p, was, cmd, reply, now)
  {
    hide Blank, Clears, NextLessonId, Identifies, Stated, Lit;
    BlankIs(cmd.text);
    BlankIs(cmd.matter);
    if Stated(cmd.text) && Stated(cmd.matter) {
      StatedGiven(cmd.text);
      StatedGiven(cmd.matter);
      IdentifiesIs(p, cmd.text.value, cmd.entities);
    }
  }

  lemma StatedGiven(t: Option<Text>)
    requires Stated(t)
    ensures t.Some?
  {}

  predicate Targets(lessons: seq<Lesson>, id: Option<Text>, k: int) {
    Target(lessons, id).Some? && Target(lessons, id).value == k
  }

  lemma TargetIsFirst(lessons: seq<Lesson>, id: Option<Text>, k: int)
    ensures IsFirst(lessons, id, k) <==> Targets(lessons, id, k)
  {
    hide Find;
    if id.Some? && id.value != [] { FindIsFirst(lessons, id.value, 0); }
  }

  lemma FindIsFirst(lessons: seq<Lesson>, id: Text, from: nat)
    requires from <= |lessons|
    ensures var r := Find(lessons, id, from);
      && (r.Some? ==> from <= r.value < |lessons| && lessons[r.value].id == id)
      && (r.Some? ==> forall i :: from <= i < r.value ==> lessons[i].id != id)
      && (r.None? ==> forall i :: from <= i < |lessons| ==> lessons[i].id != id)
    decreases |lessons| - from
  {
    if from < |lessons| && lessons[from].id != id { FindIsFirst(lessons, id, from + 1); }
  }

  lemma MovedTakes(lessons: seq<Lesson>, id: Text, status: Status)
    requires status.Accepted? || status.Rejected?
    ensures Moved(lessons, id, status).Some? <==> AllPending(lessons, id)
    ensures Moved(lessons, id, status).Some? ==> Took(lessons, Moved(lessons, id, status).value, id, status)
  {}

  /** What an acceptance leads to, by what was checked. */
  lemma AcceptReplies(p: Screens, was: seq<Lesson>, cmd: Command, reply: Reply, now: seq<Lesson>)
    requires cmd.Accept?
    requires
      var k := Target(was, cmd.id);
      if k.None? then reply == Refused && now == was
      else if was[k.value].status.Pending? && !PassesWall(p, was, was[k.value]) then
        reply.Withheld? && now == WithBlock(was, cmd.id.value, Some(Blocked(cmd.now, reply.reasons)))
      else if Moved(was, cmd.id.value, Accepted).None? then reply == Refused && now == was
      else reply == Done(cmd.id.value) && now == Moved(was, cmd.id.value, Accepted).value
    ensures IsReply(p, was, cmd, reply, now)
  {
    forall k ensures IsFirst(was, cmd.id, k) <==> Targets(was, cmd.id, k) { TargetIsFirst(was, cmd.id, k); }
    hide IsFirst, Identifies, WallParties, PassesWall, Moved, Target;
    if Target(was, cmd.id).Some? {
      var k := Target(was, cmd.id).value;
      assert Targets(was, cmd.id, k) && IsFirst(was, cmd.id, k);
      WallIdentifies(p, was, was[k]);
      MovedTakes(was, cmd.id.value, Accepted);
      assert !was[k].status.Pending? ==> !AllPending(was, cmd.id.value);
    }
  }

  lemma RejectReplies(p: Screens, was: seq<Lesson>, cmd: Command, reply: Reply, now: seq<Lesson>)
    requires cmd.Reject?
    requires
      if Target(was, cmd.id).None? || Moved(was, cmd.id.value, Rejected).None? then reply == Refused && now == was
      else reply == Done(cmd.id.value) && now == Moved(was, cmd.id.value, Rejected).value
    ensures IsReply(p, was, cmd, reply, now)
  {
    forall k ensures IsFirst(was, cmd.id, k) <==> Targets(was, cmd.id, k) { TargetIsFirst(was, cmd.id, k); }
    hide IsFirst, Moved, Target;
    if Target(was, cmd.id).Some? {
      assert Targets(was, cmd.id, Target(was, cmd.id).value);
      MovedTakes(was, cmd.id.value, Rejected);
    }
  }

  lemma RenderReplies(p: Screens, lessons: seq<Lesson>)
    ensures IsReply(p, lessons, Render, Rewritten, lessons)
  {}

  /** The files of a store. */
  datatype Files = Files(ledger: seq<Lesson>, memory: Option<Text>, archive: Archive)

  /** Reply and files after a command; memory and archive are saved exactly when the ledger is. */
  ghost predicate Ran(p: Screens, was: Files, cmd: Command, reply: Reply, reasons: seq<Text>, now: Files) {
    var next := After(p, was.ledger, cmd, reasons);
    && IsReply(p, was.ledger, cmd, reply, now.ledger)
    && (cmd.Propose? && reply.Done? ==> reply.id == NextLessonId(p, was.ledger, DateOf(cmd.now)))
    && (reply.Withheld? ==> reply.reasons == reasons && AreReasons(p, was.ledger, cmd, reasons))
    && (next.Some? <==> reply.Done? || reply.Rewritten? || reply.Withheld?)
    && (if next.Some? then now.ledger == next.value && Saved(p, now.ledger, now.memory, was.archive, now.archive)
        else now == was)
  }

  /** The screen at acceptance, with the reasons for holding a lesson back. */
  method ScreenAgain(p: Screens, lessons: seq<Lesson>, target: Lesson) returns (ok: bool, codes: seq<Text>)
    ensures ok <==> PassesWall(p, lessons, target)
    ensures !ok ==> NoRepeats(codes) && forall c :: c in codes <==> IsReason(p, lessons, target, c)
  {
    hide Clears, IsScreening, IsReason, Code, Known, PassesWall;
    var known := LedgerEntities(lessons);
    var all := target.entities + known;
    var violations: seq<Text>;
    ok, violations := SanitizeLesson(p, target.text, all);
    WallIs(p, lessons, target, known);
    codes := RedactViolations(violations);
    ReasonsAre(p, lessons, target, known, codes);
  }

  class Store {
    const p: Screens
    var ledger: seq<Lesson>
    var memory: Option<Text>
    var archive: Archive

    function View(): Files
      reads this
    {
      Files(ledger, memory, archive)
    }

    ghost predicate InStep()
      reads this
    {
      Reflects(p, ledger, memory)
    }

    constructor (p: Screens)
      ensures this.p == p && ledger == [] && memory == None && archive == map[] && InStep()
    {
      this.p := p;
      ledger := [];
      memory := None;
      archive := map[];
    }

    /** Ledger and memory are always written together; what has no room in HOT is appended to the archive. */
    method Save(lessons: seq<Lesson>)
      modifies this
      ensures ledger == lessons && Saved(p, ledger, memory, old(archive), archive) && InStep()
    {
      hide Rendered, SortOf, Join, FileOf;
      ledger := lessons;
      var r, order := RenderHotMemory(p, lessons, MAX_LINES);
      memory := Some(r.hot);
      if |r.overflow| > 0 {
        var file := FileOf(r.overflow);
        archive := archive[file := Content(archive, file) + Block(r.overflow)];
      }
      assert SavedBy(p, lessons, r.hot, old(archive), archive, order);
      SavedReflects(p, lessons, memory, old(archive), archive);
    }

    method Run(cmd: Command) returns (reply: Reply, ghost reasons: seq<Text>)
      modifies this
      ensures Ran(p, old(View()), cmd, reply, reasons, View())
      ensures old(InStep()) || After(p, old(ledger), cmd, reasons).Some? ==> InStep()
    {
      hide Ran, After, InStep;
      match cmd {
        case Propose(_, _, _, _, _, _) => reply, reasons := Propose(cmd);
        case Accept(_, _) => reply, reasons := Accept(cmd);
        case Reject(_) => reply, reasons := Reject(cmd);
        case Render => reply, reasons := Render(cmd);
      }
    }

    method Propose(cmd: Command) returns (reply: Reply, ghost reasons: seq<Text>)
      requires cmd.Propose?
      modifies this
      ensures Ran(p, old(View()), cmd, reply, reasons, View())
      ensures old(InStep()) || After(p, old(ledger), cmd, reasons).Some? ==> InStep()
    {
      hide Clears, IsScreening, Reflects, Saved, NextLessonId, IsReply, AreReasons;
      reasons := [];
      var lessons := ledger;
      if Blank(cmd.text) || Blank(cmd.matter) {
        ProposalReplies(p, lessons, cmd, Refused, lessons);
        return Refused, reasons;
      }
      var ok, violations := SanitizeLesson(p, cmd.text.value, cmd.entities);
      if !ok {
        ProposalReplies(p, lessons, cmd, Violates(violations), lessons);
        return Violates(violations), reasons;
      }
      var lesson := Proposed(p, lessons, cmd);
      var next := AppendLesson(p, lessons, lesson);
      if next.None? {
        ProposalReplies(p, lessons, cmd, Duplicate, lessons);
        return Duplicate, reasons;
      }
      ProposalReplies(p, lessons, cmd, Done(lesson.id), next.value);
      Save(next.value);
      return Done(lesson.id), reasons;
    }

    method Accept(cmd: Command) returns (reply: Reply, ghost reasons: seq<Text>)
      requires cmd.Accept?
      modifies this
      ensures Ran(p, old(View()), cmd, reply, reasons, View())
      ensures old(InStep()) || After(p, old(ledger), cmd, reasons).Some? ==> InStep()
    {
      hide Reflects, Saved, IsReason, IsReply, PassesWall, Find, Target, WithBlock, Moved, NoRepeats;
      reasons := [];
      var lessons := ledger;
      var k := Target(lessons, cmd.id);
      if k.None? {
        AcceptReplies(p, lessons, cmd, Refused, lessons);
        return Refused, reasons;
      }
      var target := lessons[k.value];
      if target.status.Pending? {
        var ok, codes := ScreenAgain(p, lessons, target);
        if !ok {
          reasons := codes;
          var held := WithBlock(lessons, cmd.id.value, Some(Blocked(cmd.now, codes)));
          AcceptReplies(p, lessons, cmd, Withheld(codes), held);
          Save(held);
          return Withheld(codes), reasons;
        }
      }
      var next := Moved(lessons, cmd.id.value, Accepted);
      if next.None? {
        AcceptReplies(p, lessons, cmd, Refused, lessons);
        return Refused, reasons;
      }
      AcceptReplies(p, lessons, cmd, Done(cmd.id.value), next.value);
      Save(next.value);
      return Done(cmd.id.value), reasons;
    }

    method Reject(cmd: Command) returns (reply: Reply, ghost reasons: seq<Text>)
      requires cmd.Reject?
      modifies this
      ensures Ran(p, old(View()), cmd, reply, reasons, View())
      ensures old(InStep()) || After(p, old(ledger), cmd, reasons).Some? ==> InStep()
    {
      hide Reflects, Saved, IsReply, Find, Target, Moved, AreReasons;
      reasons := [];
      var lessons := ledger;
      if Target(lessons, cmd.id).None? {
        RejectReplies(p, lessons, cmd, Refused, lessons);
        return Refused, reasons;
      }
      var next := Moved(lessons, cmd.id.value, Rejected);
      if next.None? {
        RejectReplies(p, lessons, cmd, Refused, lessons);
        return Refused, reasons;
      }
      RejectReplies(p, lessons, cmd, Done(cmd.id.value), next.value);
      Save(next.value);
      return Done(cmd.id.value), reasons;
    }

    method Render(cmd: Command) returns (reply: Reply, ghost reasons: seq<Text>)
      requires cmd.Render?
      modifies this
      ensures Ran(p, old(View()), cmd, reply, reasons, View())
      ensures old(InStep()) || After(p, old(ledger), cmd, reasons).Some? ==> InStep()
    {
      hide Reflects, Saved, IsReply, AreReasons;
      reasons := [];
      RenderReplies(p, ledger);
      Save(ledger);
      return Rewritten, reasons;
    }
  }

  lemma WallIs(p: Screens, lessons: seq<Lesson>, l: Lesson, known: seq<Text>)
    requires forall e :: e in known <==> Known(lessons, e)
    ensures Clears(p, l.text, l.entities + known) <==> PassesWall(p, lessons, l)
  {
    hide ClearsLedger, Hit, Known;
    ClearsKnown(p, l.text, lessons, known);
    var all := l.entities + known;
    if Clears(p, l.text, all) {
      assert forall i :: 0 <= i < |l.entities| ==> all[i] == l.entities[i];
      assert forall i :: 0 <= i < |known| ==> all[|l.entities| + i] == known[i];
    }
  }

  lemma {:induction false} HitsAre(p: Screens, text: Text, entities: seq<Text>, v: Text)
    ensures v in Hits(p, text, entities) <==> exists i :: 0 <= i < |entities| && Hit(p, text, entities[i]) == Some(v)
  {
    hide Hit;
    if entities != [] {
      HitsAre(p, text, entities[..|entities| - 1], v);
    }
  }

  /** What the screen finds in a lesson held back, party by party and pattern by pattern. */
  function WallHits(p: Screens, l: Lesson, known: seq<Text>): seq<Text> {
    Hits(p, l.text, l.entities + known) + PatternsIn(p.patterns(l.text))
  }

  lemma ReasonsAre(p: Screens, lessons: seq<Lesson>, l: Lesson, known: seq<Text>, codes: seq<Text>)
    requires forall e :: e in known <==> Known(lessons, e)
    requires var vs := WallHits(p, l, known); forall c :: c in codes <==> exists i :: 0 <= i < |vs| && Code(vs[i]) == c
    ensures forall c :: c in codes <==> IsReason(p, lessons, l, c)
  {
    hide WallHits, IsReason, Known, Code;
    var vs := WallHits(p, l, known);
    forall c ensures c in codes <==> IsReason(p, lessons, l, c) {
      if c in codes {
        var i :| 0 <= i < |vs| && Code(vs[i]) == c;
        CodeIsReason(p, lessons, l, known, i);
      }
      if IsReason(p, lessons, l, c) {
        var i := ReasonIsCode(p, lessons, l, known, c);
      }
    }
  }

  lemma CodeIsReason(p: Screens, lessons: seq<Lesson>, l: Lesson, known: seq<Text>, i: nat)
    requires (forall e :: e in known <==> Known(lessons, e)) && i < |WallHits(p, l, known)|
    ensures IsReason(p, lessons, l, Code(WallHits(p, l, known)[i]))
  {
    hide Hit, Code, Known, Hits;
    var all, labels := l.entities + known, p.patterns(l.text);
    var hits, v := Hits(p, l.text, all), WallHits(p, l, known)[i];
    if i < |hits| {
      assert v == hits[i];
      HitsAre(p, l.text, all, v);
      var j :| 0 <= j < |all| && Hit(p, l.text, all[j]) == Some(v);
      assert all[j] in l.entities || all[j] in known;
      assert WallParty(lessons, l, all[j]);
    } else {
      assert v == PatternViolation(labels[i - |hits|]);
    }
  }

  lemma ReasonIsCode(p: Screens, lessons: seq<Lesson>, l: Lesson, known: seq<Text>, c: Text) returns (i: nat)
    requires (forall e :: e in known <==> Known(lessons, e)) && IsReason(p, lessons, l, c)
    ensures i < |WallHits(p, l, known)| && Code(WallHits(p, l, known)[i]) == c
  {
    hide Hit, Code, Known, Hits;
    var all, labels := l.entities + known, p.patterns(l.text);
    var hits := Hits(p, l.text, all);
    if e :| WallParty(lessons, l, e) && Hit(p, l.text, e).Some? && Code(Hit(p, l.text, e).value) == c {
      assert e in l.entities || e in known;
      assert e in all;
      var j :| 0 <= j < |all| && all[j] == e;
      HitsAre(p, l.text, all, Hit(p, l.text, e).value);
      i :| 0 <= i < |hits| && hits[i] == Hit(p, l.text, e).value;
    } else {
      var k :| 0 <= k < |labels| && Code(PatternViolation(labels[k])) == c;
      i := |hits| + k;
      assert WallHits(p, l, known)[i] == PatternViolation(labels[k]);
    }
  }

  // ------------------------------------------------------------------------- over runs

  datatype Event = Event(cmd: Command, reasons: seq<Text>)

  ghost function Then(p: Screens, lessons: seq<Lesson>, e: Event): seq<Lesson> {
    var next := After(p, lessons, e.cmd, e.reasons);
    if next.Some? then next.value else lessons
  }

  /** The ledger after the first n commands of a run from an empty store. */
  ghost function LedgerAfter(p: Screens, run: seq<Event>, n: nat): seq<Lesson>
    requires n <= |run|
  {
    if n == 0 then [] else Then(p, LedgerAfter(p, run, n - 1), run[n - 1])
  }

  predicate DistinctIds(lessons: seq<Lesson>) {
    forall i, j :: 0 <= i < j < |lessons| ==> lessons[i].id != lessons[j].id
  }

  predicate DistinctTexts(p: Screens, lessons: seq<Lesson>) {
    forall i, j :: 0 <= i < j < |lessons| ==> p.normalize(lessons[i].text) != p.normalize(lessons[j].text)
  }

  predicate OwnPartiesClear(p: Screens, lessons: seq<Lesson>) {
    forall i :: 0 <= i < |lessons| ==> Clears(p, lessons[i].text, lessons[i].entities)
  }

  predicate Sound(p: Screens, lessons: seq<Lesson>) {
    DistinctTexts(p, lessons) && OwnPartiesClear(p, lessons)
  }

  /** Ids are distinct, and all were made with numbers no higher than the ledger is long. */
  ghost predicate OwnIds(lessons: seq<Lesson>) {
    DistinctIds(lessons) && Numbered(lessons)
  }

  predicate StatusMoves(a: Status, b: Status) {
    a == b || (a.Pending? && (b.Accepted? || b.Rejected?))
  }

  /** b is what became of a: all of it kept but the block record and, by an allowed move, the status. */
  predicate Becomes(a: Lesson, b: Lesson) {
    StatusMoves(a.status, b.status) && b == a.(status := b.status, blocked := b.blocked)
  }

  predicate Grows(from: seq<Lesson>, to: seq<Lesson>) {
    |from| <= |to| && forall i :: 0 <= i < |from| ==> Becomes(from[i], to[i])
  }

  lemma StepGrows(p: Screens, lessons: seq<Lesson>, e: Event)
    ensures Grows(lessons, Then(p, lessons, e))
  {
    hide Clears, ClearsLedger, Said, PassesWall, Blank;
  }

  lemma StepSound(p: Screens, lessons: seq<Lesson>, e: Event)
    requires Sound(p, lessons)
    ensures Sound(p, Then(p, lessons, e))
  {
    var next := Then(p, lessons, e);
    StepGrows(p, lessons, e);
    if |next| == |lessons| {
      hide Then;
      SameLengthSound(p, lessons, next);
    } else {
      OnlyProposeAdds(p, lessons, e);
      hide Then, NextLessonId, Clears;
    }
  }

  lemma SameLengthSound(p: Screens, from: seq<Lesson>, to: seq<Lesson>)
    requires Grows(from, to) && |from| == |to|
    ensures Sound(p, from) ==> Sound(p, to)
    ensures OwnIds(from) ==> OwnIds(to)
  {
    hide Clears, StatusMoves, IsNumbered;
    assert forall i :: 0 <= i < |to| ==> Becomes(from[i], to[i]);
    assert forall i :: 0 <= i < |to| ==>
      to[i].id == from[i].id && to[i].text == from[i].text && to[i].entities == from[i].entities;
  }

  lemma OnlyProposeAdds(p: Screens, lessons: seq<Lesson>, e: Event)
    requires |Then(p, lessons, e)| != |lessons|
    ensures e.cmd.Propose? && e.cmd.text.Some? && e.cmd.matter.Some? && !Said(p, lessons, e.cmd.text.value)
    ensures Then(p, lessons, e) == lessons + [Proposed(p, lessons, e.cmd)]
      && Clears(p, e.cmd.text.value, e.cmd.entities)
  {
    hide Clears, ClearsLedger, Said, PassesWall;
  }

  /** In every reachable ledger no normalized text occurs twice, and lessons name none of their own parties. */
  lemma {:induction false} RunsSound(p: Screens, run: seq<Event>, n: nat)
    requires n <= |run|
    ensures Sound(p, LedgerAfter(p, run, n))
  {
    hide Sound, Then;
    if n == 0 {
      EmptySound(p);
    } else {
      RunsSound(p, run, n - 1);
      StepSound(p, LedgerAfter(p, run, n - 1), run[n - 1]);
    }
  }

  lemma EmptySound(p: Screens)
    ensures Sound(p, []) && OwnIds([])
  {}

  lemma {:induction false} WithoutHyphensHasNone(t: Text)
    ensures HYPHEN !in WithoutHyphens(t)
  {
    if t != [] { WithoutHyphensHasNone(t[1..]); }
  }

  lemma StepOwnIds(p: Screens, lessons: seq<Lesson>, e: Event)
    requires OwnIds(lessons) && |lessons| < EXACT
    ensures OwnIds(Then(p, lessons, e))
  {
    var next := Then(p, lessons, e);
    StepGrows(p, lessons, e);
    if |next| == |lessons| {
      hide Then;
      SameLengthSound(p, lessons, next);
    } else {
      OnlyProposeAdds(p, lessons, e);
      hide Then, NextLessonId, IsNumbered, WithoutHyphens;
      var date := DateOf(e.cmd.now);
      WithoutHyphensHasNone(if |e.cmd.now| <= 10 then e.cmd.now else e.cmd.now[..10]);
      MakesNumbered(p, lessons, date);
      forall i | 0 <= i < |lessons| ensures IsNumbered(lessons[i].id, |next|) {
        NumberedGrows(lessons[i].id, |lessons|, |next|);
      }
    }
  }

  /** In every ledger reachable in at most 2^53 commands ids are distinct. */
  lemma {:induction false} RunsDistinct(p: Screens, run: seq<Event>, n: nat)
    requires n <= |run| && n <= EXACT
    ensures OwnIds(LedgerAfter(p, run, n)) && |LedgerAfter(p, run, n)| <= n
  {
    hide OwnIds, Then;
    if n == 0 {
      EmptySound(p);
    } else {
      var before := LedgerAfter(p, run, n - 1);
      RunsDistinct(p, run, n - 1);
      StepOwnIds(p, before, run[n - 1]);
      AtMostOneMore(p, before, run[n - 1]);
    }
  }

  lemma AtMostOneMore(p: Screens, lessons: seq<Lesson>, e: Event)
    ensures |Then(p, lessons, e)| <= |lessons| + 1
  {
    if |Then(p, lessons, e)| != |lessons| { OnlyProposeAdds(p, lessons, e); }
  }

  predicate NoneArchived(lessons: seq<Lesson>) {
    forall i :: 0 <= i < |lessons| ==> !lessons[i].status.Archived?
  }

  /** No lesson is lost, and each keeps its status or moves as setStatus allows. */
  predicate ByTable(was: seq<Lesson>, now: seq<Lesson>) {
    |was| <= |now|
    && forall i :: 0 <= i < |was| ==> was[i].status == now[i].status || Allowed(was[i].status, now[i].status)
  }

  /** From each ledger of a run to the next, a lesson keeps its status or moves as setStatus allows; none is ever
      archived. */
  lemma {:induction false} RunsFollowTable(p: Screens, run: seq<Event>, n: nat)
    requires n <= |run|
    ensures NoneArchived(LedgerAfter(p, run, n))
    ensures n < |run| ==> ByTable(LedgerAfter(p, run, n), LedgerAfter(p, run, n + 1))
  {
    hide Then;
    if n > 0 {
      RunsFollowTable(p, run, n - 1);
      StepArchivesNone(p, LedgerAfter(p, run, n - 1), run[n - 1]);
    }
    if n < |run| {
      var was, now := LedgerAfter(p, run, n), LedgerAfter(p, run, n + 1);
      StepGrows(p, was, run[n]);
      assert forall i :: 0 <= i < |was| ==> Becomes(was[i], now[i]);
    }
  }

  lemma StepArchivesNone(p: Screens, lessons: seq<Lesson>, e: Event)
    requires NoneArchived(lessons)
    ensures NoneArchived(Then(p, lessons, e))
  {
    var next := Then(p, lessons, e);
    StepGrows(p, lessons, e);
    if |next| != |lessons| { OnlyProposeAdds(p, lessons, e); }
    hide Then;
    assert forall i :: 0 <= i < |lessons| ==> Becomes(lessons[i], next[i]);
  }

  lemma GrowsOn(a: seq<Lesson>, b: seq<Lesson>, c: seq<Lesson>)
    requires Grows(a, b) && Grows(b, c)
    ensures Grows(a, c)
  {
    forall i | 0 <= i < |a| ensures Becomes(a[i], c[i]) {
      assert Becomes(a[i], b[i]) && Becomes(b[i], c[i]);
    }
  }

  /** Lessons are never removed or rewritten, and their status only moves from pending to accepted or rejected, once. */
  lemma {:induction false} RunsGrow(p: Screens, run: seq<Event>, m: nat, n: nat)
    requires m <= n <= |run|
    ensures Grows(LedgerAfter(p, run, m), LedgerAfter(p, run, n))
    decreases n
  {
    hide Then;
    if m < n {
      hide Grows;
      RunsGrow(p, run, m, n - 1);
      StepGrows(p, LedgerAfter(p, run, n - 1), run[n - 1]);
      GrowsOn(LedgerAfter(p, run, m), LedgerAfter(p, run, n - 1), LedgerAfter(p, run, n));
    }
  }

  lemma KnownGrows(a: seq<Lesson>, b: seq<Lesson>, e: Text)
    requires Grows(a, b) && Known(a, e)
    ensures Known(b, e)
  {
    var i :| 0 <= i < |a| && e in a[i].entities;
    assert Becomes(a[i], b[i]);
    assert b[i].entities == a[i].entities;
  }

  /** Once a party of the ledger is named in a lesson, it stays so in every later ledger. */
  lemma ContaminatedForEver(p: Screens, a: seq<Lesson>, b: seq<Lesson>, text: Text)
    requires Grows(a, b) && !ClearsLedger(p, text, a)
    ensures !ClearsLedger(p, text, b)
  {
    hide Grows, Known, Hit;
    if ClearsLedger(p, text, b) {
      forall e | Known(a, e) ensures Hit(p, text, e).None? {
        KnownGrows(a, b, e);
      }
    }
  }

  /** A lesson excluded from a rendering is excluded from every later one; no lesson of its id comes back into HOT or
      overflow. */
  lemma ExcludedForEver(p: Screens, run: seq<Event>, m: nat, n: nat, o1: seq<Lesson>, o2: seq<Lesson>, l: Lesson,
                        limit1: int, limit2: int)
    requires m <= n <= |run| && n <= EXACT
    requires SortOf(LedgerAfter(p, run, m), o1) && SortOf(LedgerAfter(p, run, n), o2)
    requires l in Rendered(p, LedgerAfter(p, run, m), o1, limit1).excluded
    ensures var r := Rendered(p, LedgerAfter(p, run, n), o2, limit2);
      && (exists l' :: l' in r.excluded && l'.id == l.id)
      && (forall l' :: l' in r.kept || l' in r.overflow ==> l'.id != l.id)
  {
    hide Rendered, LedgerAfter, SortOf, ClearsLedger, Numbered;
    var a, b := LedgerAfter(p, run, m), LedgerAfter(p, run, n);
    RenderScreens(p, a, o1, limit1, l);
    RunsGrow(p, run, m, n);
    ContaminatedForEver(p, a, b, l.text);
    RunsDistinct(p, run, n);
    hide DistinctIds;
    var i :| 0 <= i < |a| && a[i] == l;
    var l' := b[i];
    assert Becomes(l, l');
    RenderScreens(p, b, o2, limit2, l');
    forall x | x in Rendered(p, b, o2, limit2).kept || x in Rendered(p, b, o2, limit2).overflow ensures x.id != l.id {
      RenderScreens(p, b, o2, limit2, x);
      SameId(b, i, x);
    }
  }

  lemma SameId(lessons: seq<Lesson>, i: nat, x: Lesson)
    requires DistinctIds(lessons) && i < |lessons| && x in lessons
    ensures x.id == lessons[i].id ==> x == lessons[i]
  {
    var j :| 0 <= j < |lessons| && lessons[j] == x;
  }

  /** Acceptance screens against every party known at that moment. */
  lemma AcceptScreens(p: Screens, lessons: seq<Lesson>, e: Event, i: nat)
    requires i < |lessons| && lessons[i].status.Pending? && DistinctIds(lessons)
    requires i < |Then(p, lessons, e)| && Then(p, lessons, e)[i].status.Accepted?
    ensures PassesWall(p, lessons, lessons[i])
  {
    hide PassesWall, Clears, Said, Blank;
    if e.cmd.Accept? && Target(lessons, e.cmd.id).Some? {
      SamePlace(lessons, Target(lessons, e.cmd.id).value, i);
    }
  }

  /** Every accepted lesson of a reachable ledger was once pending and clear of every party then known. */
  lemma {:induction false} AcceptedOnceClear(p: Screens, run: seq<Event>, n: nat, i: nat) returns (k: nat)
    requires n <= |run| && n <= EXACT
    requires i < |LedgerAfter(p, run, n)| && LedgerAfter(p, run, n)[i].status.Accepted?
    ensures k < n && i < |LedgerAfter(p, run, k)| && LedgerAfter(p, run, k)[i].status.Pending?
    ensures LedgerAfter(p, run, k)[i].text == LedgerAfter(p, run, n)[i].text
    ensures ClearsLedger(p, LedgerAfter(p, run, k)[i].text, LedgerAfter(p, run, k))
  {
    hide ClearsLedger, Then, OwnIds;
    var was, now := LedgerAfter(p, run, n - 1), LedgerAfter(p, run, n);
    StepGrows(p, was, run[n - 1]);
    if i >= |was| {
      OnlyProposeAdds(p, was, run[n - 1]);
      assert false;
    } else if was[i].status.Accepted? {
      assert Becomes(was[i], now[i]);
      k := AcceptedOnceClear(p, run, n - 1, i);
    } else {
      assert Becomes(was[i], now[i]);
      RunsDistinct(p, run, n - 1);
      HaveOwnIds(was);
      AcceptScreens(p, was, run[n - 1], i);
      k := n - 1;
    }
  }

  lemma SamePlace(lessons: seq<Lesson>, i: nat, j: nat)
    requires DistinctIds(lessons) && i < |lessons| && j < |lessons|
    ensures lessons[i].id == lessons[j].id <==> i == j
  {}

  lemma HaveOwnIds(lessons: seq<Lesson>)
    requires OwnIds(lessons)
    ensures DistinctIds(lessons)
  {}
}
