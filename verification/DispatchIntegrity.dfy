/**
 * Which external calls can start while the ledger does not verify.
 *
 * Here the file may also be damaged from outside between steps. The check assertAppendable makes
 * holds for what the same segment starts, and for nothing that starts after a later await.
 */
module DispatchIntegrity {
  import opened Options
  import opened Texts
  import opened CanonicalJson
  import opened Receipts
  import opened Operations
  import opened Poller
  import opened Dispatch

  /** The call starts in the segment that checked the ledger (the empty approval id never starts one). */
  predicate CheckedAtStart(g: Gate, k: Kind) {
    match k
    case Performer => true
    case ApprovalCreation => true
    case Timestamp => true
    case AnchorComment => !g.tsa
    case PollComment(a) => a == []
  }

  ghost predicate Sound(g: Gate, s: State) {
    && (forall a :: 0 <= a < |s.effects| && CheckedAtStart(g, s.effects[a].kind) ==> s.effects[a].intact)
    && (!g.tsa ==> forall k :: 0 <= k < |s.jobs| ==> !s.jobs[k].Stamping?)
    && (forall k :: 0 <= k < |s.jobs| && s.jobs[k].Polling? ==> Named(s.jobs[k].items))
    && (forall k :: 0 <= k < |s.jobs| && s.jobs[k].Commenting? ==> Named(s.jobs[k].items))
  }

  predicate Named(items: seq<Item>) {
    forall i :: 0 <= i < |items| ==> items[i].approval != []
  }

  lemma {:induction false} UnresolvedNamed(lines: seq<Line>, n: nat)
    requires n <= |lines|
    ensures Named(Unresolved(lines, n))
  {
    hide Resolved, FirstPending;
    if n > 0 { UnresolvedNamed(lines, n - 1); }
  }

  lemma ReservedOnIntact(g: Gate, lines: seq<Line>, r: Receipt, w: Write)
    requires Verified(g.custody, lines) && Noted(g, lines, r, w)
    ensures Verified(g.custody, Note(g, lines, r, w))
  {
    hide Verified, Body, Next;
    AppendKeepsVerified(g.custody, lines, Body(r), w.ts, w.disk);
  }

  lemma ReserveAndLaunchSound(g: Gate, s: State, r: Receipt, w: Write, op: Text, kind: Kind, j: Job)
    requires Sound(g, s) && (CheckedAtStart(g, kind) ==> Verified(g.custody, s.lines))
    requires (j.Stamping? ==> g.tsa) && (j.Polling? ==> Named(j.items)) && (j.Commenting? ==> Named(j.items))
    ensures Sound(g, ReserveAndLaunch(g, s, r, w, op, kind, j))
  {
    hide Verified, Note, Noted, Named;
    if CheckedAtStart(g, kind) && Noted(g, s.lines, r, w) { ReservedOnIntact(g, s.lines, r, w); }
  }

  lemma BeginSound(g: Gate, s: State, items: seq<Item>)
    requires Sound(g, s) && Named(items)
    ensures Sound(g, BeginItems(g, s, items))
  {
    hide Verified, Named;
  }

  lemma LinesSound(g: Gate, s: State, lines: seq<Line>)
    requires Sound(g, s)
    ensures Sound(g, s.(lines := lines))
  {
    hide Named;
  }

  lemma FinishSound(g: Gate, s: State, k: nat)
    requires Sound(g, s) && k < |s.jobs|
    ensures Sound(g, Finish(s, k))
  {
    hide Named;
  }

  lemma PollSound(g: Gate, s: State, items: seq<Item>, e: Event)
    requires Sound(g, s) && Named(items) && |items| > 0 && e.PollRead?
    ensures Sound(g, ContinuePoll(g, s, items, e))
  {
    hide Sound, Verified, Note, Noted, Recorded, Readable, PollOp, PollReceipt, BeginItems, ReserveAndLaunch, Lit;
    var x, rest := items[0], items[1..];
    assert Named(rest);
    BeginSound(g, s, rest);
    var blocked := Note(g, s.lines, PollReceipt(g, x, Blocked, None, e.meta), e.w);
    LinesSound(g, s, blocked);
    BeginSound(g, s.(lines := blocked), rest);
    var op := PollOp(g, x);
    var reservation := PollReceipt(g, x, Reserved, Some(op), ReservationMeta());
    LinesSound(g, s, Note(g, s.lines, reservation, e.w));
    BeginSound(g, s.(lines := Note(g, s.lines, reservation, e.w)), rest);
    ReserveAndLaunchSound(g, s, reservation, e.w, op, PollComment(x.approval), Commenting(items, op));
  }

  lemma PerformerSound(g: Gate, s: State, r: Egress, w: Write)
    requires Sound(g, s)
    ensures Sound(g, StartPerformer(g, s, r, w))
  {
    hide Sound, Verified, Recorded, PerformerOp, EgressReceipt, ReserveAndLaunch;
    var op := PerformerOp(g, r);
    if Free(g, s.lines, op) {
      ReserveAndLaunchSound(g, s, EgressReceipt(r, Reserved, Some(op), ReservationMeta()), w, op, Performer,
                            Performing(r, op));
    }
  }

  lemma ApprovalSound(g: Gate, s: State, r: Egress, w: Write, w2: Write)
    requires Sound(g, s)
    ensures Sound(g, StartApproval(g, s, r, w, w2))
  {
    hide Sound, Verified, Recorded, ApprovalOp, EgressReceipt, ReserveAndLaunch, Note, Noted;
    var op := ApprovalOp(g, r);
    var reservation := EgressReceipt(r.(approval := None), Reserved, Some(op), ReservationMeta());
    var failed := EgressReceipt(r.(approval := None), Errored, Some(op), ReservationMeta());
    LinesSound(g, s, Note(g, s.lines, failed, w2));
    LinesSound(g, s, Note(g, Note(g, s.lines, reservation, w), failed, w2));
    if Verified(g.custody, s.lines) {
      ReserveAndLaunchSound(g, s, reservation, w, op, ApprovalCreation, Creating(r, op));
    }
  }

  lemma AnchorSound(g: Gate, s: State, e: Event)
    requires Sound(g, s) && e.Anchor?
    ensures Sound(g, StartAnchor(g, s, e))
  {
    hide Sound, Verified, Recorded, AnchorOp, AnchorReceipt, ReserveAndLaunch;
    var op, payload := AnchorOp(g, e.text, e.issue), g.custody.hash(e.text);
    if Free(g, s.lines, op) {
      ReserveAndLaunchSound(g, s, AnchorReceipt(Reserved, op, payload, e.agent, ReservationMeta()), e.w, op,
        if g.tsa then Timestamp else AnchorComment,
        if g.tsa then Stamping(op, payload, e.agent) else Anchoring(op, payload, e.agent));
    }
  }

  lemma PostSound(g: Gate, s: State, op: Text, j: Job)
    requires Sound(g, s) && g.tsa && j.Anchoring?
    ensures Sound(g, Launch(g, s, op, AnchorComment, j))
  {
    hide Verified, Named;
  }

  /** Answers that only leave a receipt change nothing but the file. */
  lemma OnlyNotes(g: Gate, t: State, j: Job, e: Event)
    requires !(j.Reading? && e.ApprovalRead? && e.reply.Approved?) && !(j.Stamping? && e.Stamped? && e.ok)
    requires !j.Polling? && !j.Commenting?
    ensures ResumeJob(g, t, j, e) == t.(lines := ResumeJob(g, t, j, e).lines)
  {
    hide Note, Noted, EgressReceipt, AnchorReceipt;
  }

  lemma ResumeSound(g: Gate, s: State, k: nat, e: Event)
    requires Sound(g, s) && k < |s.jobs|
    ensures Sound(g, ResumeJob(g, Finish(s, k), s.jobs[k], e))
  {
    var t, j := Finish(s, k), s.jobs[k];
    FinishSound(g, s, k);
    JobSound(g, s, k);
    hide Sound, Named, Note, StartPerformer, ContinuePoll, BeginItems, Finish, Launch, PollReceipt, FinishPerformer,
      EgressReceipt, AnchorReceipt;
    if j.Reading? && e.ApprovalRead? && e.reply.Approved? {
      PerformerSound(g, t, j.r, e.w);
    } else if j.Stamping? && e.Stamped? && e.ok {
      PostSound(g, t, j.operation, Anchoring(j.operation, j.payload, j.agent));
    } else if j.Polling? {
      if j.items != [] && e.PollRead? { PollSound(g, t, j.items, e); }
    } else if j.Commenting? {
      if j.items != [] && e.PollCommented? { CommentedSound(g, t, j.items, j.operation, e); }
    } else {
      OnlyNotes(g, t, j, e);
      LinesSound(g, t, ResumeJob(g, t, j, e).lines);
    }
  }

  lemma CommentedSound(g: Gate, t: State, items: seq<Item>, op: Text, e: Event)
    requires Sound(g, t) && Named(items) && |items| > 0 && e.PollCommented?
    ensures Sound(g, ResumeJob(g, t, Commenting(items, op), e))
  {
    hide Sound, Named, Note, BeginItems, PollReceipt;
    NamedTail(items);
    BeginSound(g, t, items[1..]);
    var after := Note(g, t.lines, PollReceipt(g, items[0], Blocked, Some(op), e.meta), e.w);
    LinesSound(g, t, after);
    BeginSound(g, t.(lines := after), items[1..]);
  }

  lemma NamedTail(items: seq<Item>)
    requires Named(items) && |items| > 0
    ensures Named(items[1..])
  {}

  lemma JobSound(g: Gate, s: State, k: nat)
    requires Sound(g, s) && k < |s.jobs|
    ensures s.jobs[k].Stamping? ==> g.tsa
    ensures s.jobs[k].Polling? ==> Named(s.jobs[k].items)
    ensures s.jobs[k].Commenting? ==> Named(s.jobs[k].items)
  {}

  lemma SpawnReading(g: Gate, s: State, r: Egress)
    requires Sound(g, s)
    ensures Sound(g, Spawn(s, Reading(r)))
  {}

  lemma CrashSound(g: Gate, s: State)
    requires Sound(g, s)
    ensures Sound(g, s.(jobs := [], polling := false))
  {}

  lemma OnlyLines(g: Gate, s: State, e: Event)
    requires e.Other? || e.RepairTail? || e.Damage? || (e.Resume? && !Verified(g.custody, s.lines))
    ensures Step(g, s, e) == s.(lines := Step(g, s, e).lines)
  {
    hide Note, Verified, EgressReceipt;
  }

  lemma StepSound(g: Gate, s: State, e: Event)
    requires Sound(g, s)
    ensures Sound(g, Step(g, s, e))
  {
    hide Sound, Named, Note, StartPerformer, StartApproval, StartAnchor, BeginItems, ResumeJob, Finish, Verified,
      Readable, Unresolved, EgressReceipt, Spawn;
    match e
    case Serve(r, w) => PerformerSound(g, s, r, w);
    case RequestApproval(r, w, w2) => ApprovalSound(g, s, r, w, w2);
    case Resume(r, meta, w) =>
      if Verified(g.custody, s.lines) { SpawnReading(g, s, r); } else { LinesStep(g, s, e); }
    case Anchor(_, _, _, _) => AnchorSound(g, s, e);
    case Poll =>
      PollFlag(g, s);
      UnresolvedNamed(s.lines, |s.lines|);
      BeginSound(g, s.(polling := true), Unresolved(s.lines, |s.lines|));
    case Crash => CrashSound(g, s);
    case Other(_, _) => LinesStep(g, s, e);
    case RepairTail => LinesStep(g, s, e);
    case Damage(_, _) => LinesStep(g, s, e);
    case _ =>
      var j := JobOf(e);
      if j.Some? && j.value < |s.jobs| && Answers(s.jobs[j.value], e) { ResumeSound(g, s, j.value, e); }
  }

  lemma LinesStep(g: Gate, s: State, e: Event)
    requires Sound(g, s)
    requires e.Other? || e.RepairTail? || e.Damage? || (e.Resume? && !Verified(g.custody, s.lines))
    ensures Sound(g, Step(g, s, e))
  {
    hide Sound, Step, Verified;
    OnlyLines(g, s, e);
    LinesSound(g, s, Step(g, s, e).lines);
  }

  lemma PollFlag(g: Gate, s: State)
    requires Sound(g, s)
    ensures Sound(g, s.(polling := true))
  {}

  lemma {:induction false} RunSound(g: Gate, run: seq<Event>)
    ensures Sound(g, Run(g, run))
  {
    if run == [] {
      assert Sound(g, START);
    } else {
      hide Sound, Step;
      RunSound(g, run[..|run| - 1]);
      StepSound(g, Run(g, run[..|run| - 1]), run[|run| - 1]);
    }
  }

  // --------------------------------------------------- the two calls that are not covered

  lemma ReservationMetaFits()
    ensures SafeMeta(ReservationMeta(), 0) && Utf8Length(Canonical(ReservationMeta())) <= META_MAX_BYTES
  {
    var v := ReservationMeta();
    hide Lit, Utf8Length, Escape, SortByKey, JoinMembers;
    assert v.members[1..] == [];
    assert CanonicalMembers(v.members) == [Member(v.members[0].key, Canonical(Bool(true)))];
    assert CanonicalMembers(v.members)[1..] == [];
    ObjectBound(v.members);
    Utf8Bound(Canonical(v));
  }

  /** A receipt whose meta fits is appended to any ledger with a usable tail. */
  lemma Appends(g: Gate, lines: seq<Line>, r: Receipt, w: Write)
    requires lines == [] || ValidTail(lines[|lines| - 1])
    requires r.meta.None? || (SafeMeta(r.meta.value, 0) && Utf8Length(Canonical(r.meta.value)) <= META_MAX_BYTES)
    requires w.disk == Written
    ensures Noted(g, lines, r, w) && |Note(g, lines, r, w)| == |lines| + 1
    ensures Note(g, lines, r, w)[..|lines|] == lines && Reads(Note(g, lines, r, w)[|lines|], r)
    ensures ValidTail(Note(g, lines, r, w)[|lines|])
  {
    hide WithCompany, ComputeHash, Lookup, Canonical, SafeMeta, Utf8Length, Reads, HasOutcome, BodyFields, Stored, Lit,
      OperationOf, ApprovalOf;
    var c := g.custody;
    BodyReads(c, r, 10);
    CompanyUnnamed(r);
    MetaKey(r);
    AppendLeaves(c, lines, r, w.ts, w.disk);
  }

  lemma MetaKey(r: Receipt)
    ensures BodyFields(r)[10] == Member(Lit("meta"), r.meta)
  {}

  lemma CompanyUnnamed(r: Receipt)
    ensures Field(Body(r), Lit("companyId")).None?
  {
    hide BodyFields, Lit;
    BodyKeysDistinct(r);
    StoredOmits(BodyFields(r), Lit("companyId"));
  }

  /** An external call of this kind started on a ledger that does not verify. */
  ghost predicate Fails(g: Gate, run: seq<Event>, k: Kind) {
    exists a :: 0 <= a < |Run(g, run).effects| && Run(g, run).effects[a].kind == k && !Run(g, run).effects[a].intact
  }

  /** After a wait for the time stamp the anchor comment starts whatever became of the ledger. */
  lemma StampedAnchorUnchecked(g: Gate) returns (run: seq<Event>)
    requires g.tsa
    ensures Fails(g, run, AnchorComment)
  {
    var w := Write([], Written);
    var first, damage, last := Anchor([], None, None, w), Damage(0, Unparseable), Stamped(0, true, Null, w);
    var s1, job := AnchorReserved(g, first);
    hide Step, AnchorOp;
    DamageStep(g, s1, Unparseable);
    var s3 := StampedOnDamaged(g, s1, job, last);
    run := [first, damage, last];
    RunOfThree(g, first, damage, last);
    assert Run(g, run).effects[|s1.effects|].kind == AnchorComment;
  }

  lemma AnchorReserved(g: Gate, first: Event) returns (s: State, job: Job)
    requires g.tsa && first == Anchor([], None, None, Write([], Written))
    ensures s == Step(g, START, first) && s.jobs == [job] && job.Stamping? && |s.lines| == 1 && ValidTail(s.lines[0])
  {
    var op, payload := AnchorOp(g, [], None), g.custody.hash([]);
    var reservation := AnchorReceipt(Reserved, op, payload, None, ReservationMeta());
    hide AnchorOp, Note, Noted, Reads, SafeMeta, Utf8Length, Canonical, Lit, ReservationMeta, Fault, OperationOf;
    ReservationMetaFits();
    Appends(g, [], reservation, first.w);
    assert Free(g, [], op);
    s, job := Step(g, START, first), Stamping(op, payload, None);
    assert s == StartAnchor(g, START, first);
  }

  lemma StampedOnDamaged(g: Gate, s: State, job: Job, last: Event) returns (after: State)
    requires s.jobs == [job] && job.Stamping? && |s.lines| == 1 && last.Stamped? && last.job == 0 && last.ok
    ensures after == Step(g, s.(lines := [Unparseable]), last)
    ensures after.effects == s.effects + [Effect(job.operation, AnchorComment, 1, false)]
  {
    hide Verified, Note, AnchorReceipt;
    TornBreaks(g.custody, []);
    assert [] + [Unparseable] == [Unparseable];
    after := Step(g, s.(lines := [Unparseable]), last);
    assert after == ResumeJob(g, Finish(s.(lines := [Unparseable]), 0), job, last);
  }

  lemma RunOfThree(g: Gate, a: Event, b: Event, c: Event)
    ensures Run(g, [a, b, c]) == Step(g, Step(g, Step(g, START, a), b), c)
  {
    hide Step;
    assert [a, b, c][..2] == [a, b] && [a, b][..1] == [a] && [a][..0] == [];
    assert Run(g, [a]) == Step(g, START, a);
    assert Run(g, [a, b]) == Step(g, Run(g, [a]), b);
  }

  lemma RunOfFour(g: Gate, a: Event, b: Event, c: Event, d: Event)
    ensures Run(g, [a, b, c, d]) == Step(g, Step(g, Step(g, Step(g, START, a), b), c), d)
  {
    hide Step;
    assert [a, b, c, d][..3] == [a, b, c];
    RunOfThree(g, a, b, c);
  }

  /** After a wait for the approval's status a poller comment starts on a ledger that need only parse. */
  lemma PollCommentUnchecked(g: Gate, approval: Text) returns (run: seq<Event>)
    requires approval != []
    ensures Fails(g, run, PollComment(approval))
  {
    var w := Write([], Written);
    var pending := Receipt([], [], Null, Null, Pending, [], None, Some([0]), Some(approval), None, None);
    var x := Item(approval, Some([0]), []);
    var s1, line := PendingLedger(g, pending, w);
    var s2 := PollBegins(g, s1, line, pending, x);
    hide Step, Reads, Verified, ValidTail, Readable, Recorded;
    var bad := line.(prevHash := []);
    BrokenLink(g, line, pending);
    var s3 := State([bad], [Polling([x])], [], true);
    DamageStep(g, s2, bad);
    var s4 := CommentsOnBroken(g, s3, bad, x, w);
    run := [Other(pending, w), Poll, Damage(0, bad), PollRead(0, true, Null, w)];
    RunOfFour(g, Other(pending, w), Poll, Damage(0, bad), PollRead(0, true, Null, w));
    assert Run(g, run).effects[0].kind == PollComment(approval);
  }

  lemma PollBegins(g: Gate, s: State, line: Line, r: Receipt, x: Item) returns (after: State)
    requires s == State([line], [], [], false) && Reads(line, r) && Verified(g.custody, [line])
    requires r.outcome == Pending && r.approval == Some(x.approval) && x.approval != [] && x.issue == r.issue
      && x.tool == r.tool
    ensures after == Step(g, s, Poll) == State([line], [Polling([x])], [], true)
  {
    hide Verified, HasOutcome, OperationOf, ApprovalOf, IssueOf, ToolOf, Unresolved, Readable;
    UnresolvedSingle(line, r, x);
    VerifiedReadable(g.custody, [line]);
    after := Step(g, s, Poll);
  }

  lemma DamageStep(g: Gate, s: State, bad: Line)
    requires |s.lines| == 1
    ensures Step(g, s, Damage(0, bad)) == s.(lines := [bad])
  {}

  lemma CommentsOnBroken(g: Gate, s: State, bad: Line, x: Item, w: Write) returns (after: State)
    requires s == State([bad], [Polling([x])], [], true) && w.disk == Written
    requires Readable([bad]) && ValidTail(bad) && !Verified(g.custody, [bad]) && forall op :: !Recorded([bad], op)
    requires x.issue.Some? && x.issue.value != []
    ensures after == Step(g, s, PollRead(0, true, Null, w))
    ensures after.effects == [Effect(PollOp(g, x), PollComment(x.approval), 2, false)]
  {
    hide Readable, ValidTail, Verified, Recorded, Note, Noted, Reads, SafeMeta, Utf8Length, Canonical, Lit,
      ReservationMeta, PollOp, PollPayload, BeginItems;
    ReservationMetaFits();
    var op := PollOp(g, x);
    var reservation := PollReceipt(g, x, Reserved, Some(op), ReservationMeta());
    Appends(g, [bad], reservation, w);
    LaunchedBroken(g, bad, Note(g, [bad], reservation, w));
    after := Step(g, s, PollRead(0, true, Null, w));
    assert after == ContinuePoll(g, Finish(s, 0), [x], PollRead(0, true, Null, w));
  }

  lemma PendingLedger(g: Gate, r: Receipt, w: Write) returns (s: State, line: Line)
    requires w.disk == Written && r.meta.None? && r.outcome == Pending
    ensures s == Step(g, START, Other(r, w)) == State([line], [], [], false)
    ensures Reads(line, r) && ValidTail(line) && Verified(g.custody, [line])
  {
    hide Reads, ValidTail, AppendTo, Verified, SafeMeta, Canonical, Utf8Length;
    Appends(g, [], r, w);
    s := Step(g, START, Other(r, w));
    line := Note(g, [], r, w)[0];
    assert Note(g, [], r, w) == [line];
    EmptyVerified(g);
    ReservedOnIntact(g, [], r, w);
  }

  lemma EmptyVerified(g: Gate)
    ensures Verified(g.custody, [])
  {}

  lemma UnresolvedSingle(line: Line, r: Receipt, x: Item)
    requires Reads(line, r) && r.outcome == Pending && r.approval == Some(x.approval) && x.approval != []
    requires x.issue == r.issue && x.tool == r.tool
    ensures Unresolved([line], 1) == [x]
  {
    hide HasOutcome, OperationOf, ApprovalOf, IssueOf, ToolOf;
    assert !Resolved([line], x.approval);
    assert FirstPending([line], 0, x.approval).None?;
    assert Unresolved([line], 0) == [];
  }

  /** Clearing the link of the only line leaves it parseable, unverifiable and a usable tail. */
  lemma BrokenLink(g: Gate, line: Line, r: Receipt)
    requires Reads(line, r) && r.operation.None? && ValidTail(line)
    ensures var bad := line.(prevHash := []);
      && Readable([bad]) && ValidTail(bad) && !Verified(g.custody, [bad])
      && forall op :: !Recorded([bad], op)
  {
    hide HasOutcome, Lit, ComputeHash;
    var bad := line.(prevHash := []);
    assert OperationOf(bad) == OperationOf(line);
    assert Fault(g.custody, LinkBefore([bad], 0), 1, [bad][0]).Some?;
  }

  lemma LaunchedBroken(g: Gate, bad: Line, lines: seq<Line>)
    requires |lines| == 2 && lines[..1] == [bad] && !Verified(g.custody, [bad])
    ensures !Verified(g.custody, lines)
  {
    hide Fault;
    assert lines[0] == lines[..1][0] == bad;
    assert Fault(g.custody, LinkBefore([bad], 0), 1, [bad][0]).Some?;
    assert Fault(g.custody, LinkBefore(lines, 0), 1, lines[0]).Some?;
  }

  // ------------------------------------------------------------------ main result

  /** Calls of this kind start only on a verified ledger, in every run and whatever happens to the file. */
  ghost predicate AlwaysIntact(g: Gate, k: Kind) {
    forall run: seq<Event>, a: nat :: a < |Run(g, run).effects| && Run(g, run).effects[a].kind == k ==>
      Run(g, run).effects[a].intact
  }

  /** Exactly the calls made in the segment that checks the ledger never start on a broken one. */
  lemma StartsOnVerifiedLedgerIff(g: Gate, k: Kind)
    ensures AlwaysIntact(g, k) <==> CheckedAtStart(g, k)
  {
    hide Run;
    if CheckedAtStart(g, k) {
      forall run: seq<Event>, a: nat | a < |Run(g, run).effects| && Run(g, run).effects[a].kind == k
        ensures Run(g, run).effects[a].intact
      {
        RunSound(g, run);
      }
    } else if k.AnchorComment? {
      var run := StampedAnchorUnchecked(g);
    } else {
      var run := PollCommentUnchecked(g, k.approval);
    }
  }
}
