/** Safety of the dispatch protocol over every run. */
module DispatchSafety {
  import opened Options
  import opened Texts
  import opened CanonicalJson
  import opened Receipts
  import opened Operations
  import opened Poller
  import opened Dispatch

  // ------------------------------------------------------------- ledger invariants

  predicate ReservedAt(lines: seq<Line>, i: nat, op: Text) {
    i < |lines| && OperationOf(lines[i]) == Some(op) && HasOutcome(lines[i], Reserved)
  }

  /** A reservation is the first receipt with its identity, so no identity is reserved twice. */
  ghost predicate OneShot(lines: seq<Line>) {
    forall i, j :: 0 <= i < j < |lines| && HasOutcome(lines[j], Reserved) && OperationOf(lines[j]).Some?
      ==> OperationOf(lines[i]) != OperationOf(lines[j])
  }

  /** What one step may do to the file: nothing, add lines at the end, or drop an unreadable tail. */
  ghost predicate Kept(was: seq<Line>, now: seq<Line>) {
    || (|was| <= |now| && now[..|was|] == was)
    || (|was| > 0 && now == was[..|was| - 1] && was[|was| - 1] == Unparseable)
  }

  lemma KeptReadable(a: seq<Line>, b: seq<Line>, i: nat)
    requires Kept(a, b) && i < |a| && a[i].Entry?
    ensures i < |b| && b[i] == a[i]
  {
    if |a| <= |b| && b[..|a|] == a { assert b[i] == b[..|a|][i]; }
  }

  lemma KeptReservation(a: seq<Line>, b: seq<Line>, i: nat, op: Text)
    requires Kept(a, b) && ReservedAt(a, i, op)
    ensures ReservedAt(b, i, op)
  {
    hide Kept;
    KeptReadable(a, b, i);
  }

  lemma KeptFirstPending(a: seq<Line>, b: seq<Line>, approval: Text)
    requires Kept(a, b) && FirstPending(a, |a|, approval).Some?
    ensures FirstPending(b, |b|, approval) == FirstPending(a, |a|, approval)
  {
    hide HasOutcome, FirstPending;
    if |a| <= |b| && b[..|a|] == a {
      assert a[..|a|] == a;
      FirstPendingStable(a, |a|, b, |b|, approval);
    } else {
      assert a[..|a| - 1] == b[..|b|];
      FirstPendingSame(a, b, |b|, approval);
      TailNotPending(a, approval);
    }
  }

  lemma TailNotPending(a: seq<Line>, approval: Text)
    requires |a| > 0 && a[|a| - 1] == Unparseable
    ensures FirstPending(a, |a|, approval) == FirstPending(a, |a| - 1, approval)
  {
    assert !IsPending(a[|a| - 1], approval);
    hide IsPending;
  }

  /** A note appends at most one line, and never a reservation. */
  lemma NoteKeeps(g: Gate, lines: seq<Line>, r: Receipt, w: Write)
    requires OneShot(lines) && r.outcome != Reserved
    ensures Grown(lines, Note(g, lines, r, w)) && OneShot(Note(g, lines, r, w))
  {
    hide AppendTo, OperationOf, HasOutcome;
    AppendLeaves(g.custody, lines, r, w.ts, w.disk);
    var after := Note(g, lines, r, w);
    if after != lines {
      NotReserved(after[|lines|], r);
      OneShotExtends(lines, after);
    } else {
      assert after[..|lines|] == lines;
    }
  }

  ghost predicate Grown(was: seq<Line>, now: seq<Line>) {
    |was| <= |now| && now[..|was|] == was
  }

  lemma NotReserved(line: Line, r: Receipt)
    requires (line == Unparseable || Reads(line, r)) && r.outcome != Reserved
    ensures !HasOutcome(line, Reserved)
  {
    hide OutcomeText, Lit;
    if HasOutcome(line, Reserved) { OneOutcome(line, r.outcome, Reserved); }
  }

  lemma OneShotExtends(lines: seq<Line>, after: seq<Line>)
    requires OneShot(lines) && |after| == |lines| + 1 && after[..|lines|] == lines
    requires HasOutcome(after[|lines|], Reserved) && OperationOf(after[|lines|]).Some?
      ==> !Recorded(lines, OperationOf(after[|lines|]).value)
    ensures OneShot(after)
  {
    hide HasOutcome, OperationOf;
    assert forall i :: 0 <= i < |lines| ==> after[i] == after[..|lines|][i];
  }

  /** Reserving a free identity keeps one-shot, and the reservation is the last line if it succeeded. */
  lemma ReservationKeeps(g: Gate, lines: seq<Line>, r: Receipt, w: Write, op: Text)
    requires OneShot(lines) && r.outcome == Reserved && r.operation == Some(op) && !Recorded(lines, op)
    ensures Grown(lines, Note(g, lines, r, w)) && OneShot(Note(g, lines, r, w))
    ensures Noted(g, lines, r, w) ==>
      ReservedAt(Note(g, lines, r, w), |lines|, op) && |Note(g, lines, r, w)| == |lines| + 1
  {
    hide AppendTo, OperationOf, HasOutcome, Recorded;
    AppendLeaves(g.custody, lines, r, w.ts, w.disk);
    var after := Note(g, lines, r, w);
    if after != lines {
      UnparseableSilent();
      OneShotExtends(lines, after);
    } else {
      assert after[..|lines|] == lines;
    }
  }

  lemma UnparseableSilent()
    ensures OperationOf(Unparseable) == None && !HasOutcome(Unparseable, Reserved)
  {}

  lemma RepairKeeps(lines: seq<Line>)
    requires OneShot(lines) && |lines| > 0
    ensures OneShot(lines[..|lines| - 1])
  {
    hide HasOutcome, OperationOf;
  }

  // -------------------------------------------------------------- state invariant

  /** The effect was started after a reservation of its identity was in the ledger. */
  ghost predicate Backed(lines: seq<Line>, e: Effect) {
    exists i: nat :: i < e.at && ReservedAt(lines, i, e.operation)
  }

  /** Effects that share an identity are a time stamp and the anchor comment it was for, in that order. */
  ghost predicate Distinct(effects: seq<Effect>) {
    forall a, b :: 0 <= a < b < |effects| && effects[a].operation == effects[b].operation
      ==> effects[a].kind == Timestamp && effects[b].kind == AnchorComment
  }

  ghost predicate ItemsCurrent(lines: seq<Line>, items: seq<Item>) {
    forall x :: x in items ==> FirstPending(lines, |lines|, x.approval) == Some(x)
  }

  /** While an anchor waits for its time stamp, its identity is reserved and its comment not posted. */
  ghost predicate Unposted(lines: seq<Line>, effects: seq<Effect>, op: Text) {
    && (exists i: nat :: ReservedAt(lines, i, op))
    && forall a :: 0 <= a < |effects| && effects[a].operation == op ==> effects[a].kind == Timestamp
  }

  ghost predicate JobOk(lines: seq<Line>, effects: seq<Effect>, j: Job) {
    match j
    case Stamping(op, _, _) => Unposted(lines, effects, op)
    case Polling(items) => ItemsCurrent(lines, items)
    case Commenting(items, _) => ItemsCurrent(lines, items)
    case _ => true
  }

  ghost predicate JobsOk(lines: seq<Line>, effects: seq<Effect>, jobs: seq<Job>) {
    && (forall k :: 0 <= k < |jobs| ==> JobOk(lines, effects, jobs[k]))
    && (forall k, m :: 0 <= k < m < |jobs| && jobs[k].Stamping? && jobs[m].Stamping? ==>
      jobs[k].operation != jobs[m].operation)
  }

  /** A poller comment's identity is fixed by the first pending receipt of its approval. */
  ghost predicate Traced(g: Gate, lines: seq<Line>, e: Effect) {
    e.kind.PollComment? ==>
      var x := FirstPending(lines, |lines|, e.kind.approval);
      x.Some? && e.operation == PollOp(g, x.value)
  }

  ghost predicate Inv(g: Gate, s: State) {
    && OneShot(s.lines)
    && Distinct(s.effects)
    && JobsOk(s.lines, s.effects, s.jobs)
    && forall a :: 0 <= a < |s.effects| ==> Backed(s.lines, s.effects[a]) && Traced(g, s.lines, s.effects[a])
  }

  // ------------------------------------------------------- how each move keeps it

  lemma BackedKept(a: seq<Line>, b: seq<Line>, e: Effect)
    requires Kept(a, b) && Backed(a, e)
    ensures Backed(b, e)
  {
    hide Kept, ReservedAt;
    var i: nat :| i < e.at && ReservedAt(a, i, e.operation);
    KeptReservation(a, b, i, e.operation);
  }

  lemma TracedKept(g: Gate, a: seq<Line>, b: seq<Line>, e: Effect)
    requires Kept(a, b) && Traced(g, a, e)
    ensures Traced(g, b, e)
  {
    hide Kept, PollOp;
    if e.kind.PollComment? { KeptFirstPending(a, b, e.kind.approval); }
  }

  lemma JobKept(a: seq<Line>, b: seq<Line>, effects: seq<Effect>, j: Job)
    requires Kept(a, b) && JobOk(a, effects, j)
    ensures JobOk(b, effects, j)
  {
    hide Kept, ReservedAt;
    match j
    case Stamping(op, _, _) =>
      var i: nat :| ReservedAt(a, i, op);
      KeptReservation(a, b, i, op);
    case Polling(items) => ItemsKept(a, b, items);
    case Commenting(items, _) => ItemsKept(a, b, items);
    case _ =>
  }

  lemma ItemsKept(a: seq<Line>, b: seq<Line>, items: seq<Item>)
    requires Kept(a, b) && ItemsCurrent(a, items)
    ensures ItemsCurrent(b, items)
  {
    hide Kept;
    forall x | x in items ensures FirstPending(b, |b|, x.approval) == Some(x) {
      KeptFirstPending(a, b, x.approval);
    }
  }

  /** Any permitted change of the file alone keeps the invariant. */
  lemma LinesMove(g: Gate, s: State, lines: seq<Line>)
    requires Inv(g, s) && Kept(s.lines, lines) && OneShot(lines)
    ensures Inv(g, s.(lines := lines))
  {
    hide Kept, OneShot, Distinct, Backed, Traced, JobOk;
    forall k | 0 <= k < |s.jobs| ensures JobOk(lines, s.effects, s.jobs[k]) {
      JobKept(s.lines, lines, s.effects, s.jobs[k]);
    }
    forall a | 0 <= a < |s.effects| ensures Backed(lines, s.effects[a]) && Traced(g, lines, s.effects[a]) {
      BackedKept(s.lines, lines, s.effects[a]);
      TracedKept(g, s.lines, lines, s.effects[a]);
    }
  }

  lemma GrownKept(a: seq<Line>, b: seq<Line>)
    requires Grown(a, b)
    ensures Kept(a, b)
  {}

  lemma NoteMove(g: Gate, s: State, r: Receipt, w: Write)
    requires Inv(g, s) && r.outcome != Reserved
    ensures Inv(g, s.(lines := Note(g, s.lines, r, w)))
  {
    hide Note, Grown, Kept, OneShot, Distinct, Backed, Traced, JobsOk;
    NoteKeeps(g, s.lines, r, w);
    GrownKept(s.lines, Note(g, s.lines, r, w));
    LinesMove(g, s, Note(g, s.lines, r, w));
  }

  lemma FailedReservationMove(g: Gate, s: State, r: Receipt, w: Write, op: Text)
    requires Inv(g, s) && r.outcome == Reserved && r.operation == Some(op) && !Recorded(s.lines, op)
    ensures Inv(g, s.(lines := Note(g, s.lines, r, w)))
  {
    hide Note, Noted, Grown, Kept, OneShot, Distinct, Backed, Traced, JobsOk, Recorded, ReservedAt;
    ReservationKeeps(g, s.lines, r, w, op);
    GrownKept(s.lines, Note(g, s.lines, r, w));
    LinesMove(g, s, Note(g, s.lines, r, w));
  }

  lemma FinishMove(g: Gate, s: State, j: nat)
    requires Inv(g, s) && j < |s.jobs|
    ensures Inv(g, Finish(s, j))
  {
    hide OneShot, Distinct, Backed, Traced, Unposted, ItemsCurrent;
  }

  lemma SpawnMove(g: Gate, s: State, j: Job)
    requires Inv(g, s) && JobOk(s.lines, s.effects, j) && !j.Stamping?
    ensures Inv(g, Spawn(s, j))
  {
    hide OneShot, Distinct, Backed, Traced, JobOk;
  }

  lemma BackedRecorded(lines: seq<Line>, e: Effect)
    requires Backed(lines, e)
    ensures Recorded(lines, e.operation)
  {
    hide OperationOf, HasOutcome;
  }

  lemma UnpostedRecorded(lines: seq<Line>, effects: seq<Effect>, op: Text)
    requires Unposted(lines, effects, op)
    ensures Recorded(lines, op)
  {
    hide OperationOf, HasOutcome;
  }

  /** The call a fresh reservation allows: no effect, and no waiting anchor, has its identity yet. */
  lemma LaunchMove(g: Gate, before: State, s: State, op: Text, kind: Kind, j: Job)
    requires Inv(g, before) && !Recorded(before.lines, op)
    requires s == before.(lines := s.lines) && Inv(g, s)
    requires |s.lines| > 0 && ReservedAt(s.lines, |s.lines| - 1, op)
    requires Traced(g, s.lines, Effect(op, kind, |s.lines|, Verified(g.custody, s.lines)))
    requires if j.Stamping? then j.operation == op && kind == Timestamp else JobOk(s.lines, [], j)
    ensures Inv(g, Launch(g, s, op, kind, j))
  {
    hide OneShot, Recorded, ReservedAt, Traced, ItemsCurrent, Verified, Unposted;
    var e := Effect(op, kind, |s.lines|, Verified(g.custody, s.lines));
    var after := s.effects + [e];
    assert Backed(s.lines, e);
    forall a | 0 <= a < |s.effects| ensures s.effects[a].operation != op {
      BackedRecorded(before.lines, before.effects[a]);
    }
    forall k | 0 <= k < |s.jobs|
      ensures JobOk(s.lines, after, s.jobs[k]) && (s.jobs[k].Stamping? ==> s.jobs[k].operation != op)
    {
      if s.jobs[k].Stamping? {
        assert JobOk(before.lines, before.effects, before.jobs[k]);
        UnpostedRecorded(before.lines, before.effects, s.jobs[k].operation);
        assert JobOk(s.lines, s.effects, s.jobs[k]);
        UnpostedExtends(s.lines, s.effects, s.jobs[k].operation, e);
      } else {
        assert JobOk(s.lines, s.effects, s.jobs[k]);
      }
    }
    if j.Stamping? { FreshUnposted(s.lines, s.effects, op, e, |s.lines| - 1); }
  }

  lemma UnpostedExtends(lines: seq<Line>, effects: seq<Effect>, op: Text, e: Effect)
    requires Unposted(lines, effects, op) && e.operation != op
    ensures Unposted(lines, effects + [e], op)
  {
    hide ReservedAt;
  }

  lemma FreshUnposted(lines: seq<Line>, effects: seq<Effect>, op: Text, e: Effect, i: nat)
    requires ReservedAt(lines, i, op) && e.kind == Timestamp
    requires forall a :: 0 <= a < |effects| ==> effects[a].operation != op
    ensures Unposted(lines, effects + [e], op)
  {
    hide ReservedAt;
  }

  /** Once its time stamp is in, a waiting anchor may post its comment: the first with its identity. */
  lemma PostMove(g: Gate, before: State, k: nat, s: State, j: Job)
    requires Inv(g, before) && k < |before.jobs| && before.jobs[k].Stamping? && s == Finish(before, k) && Inv(g, s)
    requires j.Anchoring?
    ensures Inv(g, Launch(g, s, before.jobs[k].operation, AnchorComment, j))
  {
    hide OneShot, ReservedAt, Traced, ItemsCurrent, Verified;
    var op := before.jobs[k].operation;
    assert JobOk(before.lines, before.effects, before.jobs[k]);
    var e := Effect(op, AnchorComment, |s.lines|, Verified(g.custody, s.lines));
    var i: nat :| ReservedAt(s.lines, i, op);
    ReservedInside(s.lines, i, op);
    assert Backed(s.lines, e);
    TracedOther(g, s.lines, e);
    forall m | 0 <= m < |s.jobs| ensures JobOk(s.lines, s.effects + [e], s.jobs[m]) {
      if s.jobs[m].Stamping? {
        assert s.jobs[m] == before.jobs[m] && m != k;
        assert s.jobs[m].operation != op;
        UnpostedExtends(s.lines, s.effects, s.jobs[m].operation, e);
      } else {
        assert JobOk(s.lines, s.effects, s.jobs[m]);
      }
    }
  }

  lemma ReservedInside(lines: seq<Line>, i: nat, op: Text)
    requires ReservedAt(lines, i, op)
    ensures i < |lines|
  {}

  lemma TracedOther(g: Gate, lines: seq<Line>, e: Effect)
    requires !e.kind.PollComment?
    ensures Traced(g, lines, e)
  {}

  // ---------------------------------------------------------------- handler segments

  lemma ReserveAndLaunchKeeps(g: Gate, s: State, r: Receipt, w: Write, op: Text, kind: Kind, j: Job)
    requires Inv(g, s) && r.outcome == Reserved && r.operation == Some(op) && !Recorded(s.lines, op)
    requires kind.PollComment? ==>
      var x := FirstPending(s.lines, |s.lines|, kind.approval); x.Some? && op == PollOp(g, x.value)
    requires if j.Stamping? then j.operation == op && kind == Timestamp else JobOk(s.lines, [], j)
    ensures Inv(g, ReserveAndLaunch(g, s, r, w, op, kind, j))
  {
    hide Note, Noted, Grown, Kept, Inv, Recorded, PollOp, ReservedAt, OneShot, Launch, Verified;
    FailedReservationMove(g, s, r, w, op);
    if Noted(g, s.lines, r, w) {
      InvOneShot(g, s);
      ReservationKeeps(g, s.lines, r, w, op);
      var after := s.(lines := Note(g, s.lines, r, w));
      GrownKept(s.lines, after.lines);
      if kind.PollComment? { KeptFirstPending(s.lines, after.lines, kind.approval); }
      if !j.Stamping? { JobKept(s.lines, after.lines, [], j); }
      LaunchMove(g, s, after, op, kind, j);
    }
  }

  lemma InvOneShot(g: Gate, s: State)
    requires Inv(g, s)
    ensures OneShot(s.lines)
  {}

  lemma PerformerKeeps(g: Gate, s: State, r: Egress, w: Write)
    requires Inv(g, s)
    ensures Inv(g, StartPerformer(g, s, r, w))
  {
    hide Inv, Recorded, Verified, PerformerOp, ReserveAndLaunch, Lit, ReservationMeta;
    var op := PerformerOp(g, r);
    if Free(g, s.lines, op) {
      ReserveAndLaunchKeeps(g, s, EgressReceipt(r, Reserved, Some(op), ReservationMeta()), w, op, Performer,
                            Performing(r, op));
    }
  }

  lemma FinishPerformerKeeps(g: Gate, s: State, j: Job, e: Event)
    requires Inv(g, s) && j.Performing? && e.PerformerReturned?
    ensures Inv(g, FinishPerformer(g, s, j, e))
  {
    hide Inv, Note, Noted, Lit;
    var good := EgressReceipt(j.r, if e.masked then AnonymizedPerformed else Performed, Some(j.operation), e.meta);
    var bad := EgressReceipt(j.r, Errored, Some(j.operation), e.meta);
    NoteMove(g, s, good, e.w);
    NoteMove(g, s, bad, e.w);
    NoteMove(g, s.(lines := Note(g, s.lines, good, e.w)), bad, e.w2);
  }

  lemma ApprovalKeeps(g: Gate, s: State, r: Egress, w: Write, w2: Write)
    requires Inv(g, s)
    ensures Inv(g, StartApproval(g, s, r, w, w2))
  {
    hide Inv, Note, Noted, Recorded, Verified, ApprovalOp, ReserveAndLaunch, Lit, ReservationMeta;
    var op := ApprovalOp(g, r);
    var reservation := EgressReceipt(r.(approval := None), Reserved, Some(op), ReservationMeta());
    var failed := EgressReceipt(r.(approval := None), Errored, Some(op), ReservationMeta());
    NoteMove(g, s, failed, w2);
    if !Recorded(s.lines, op) {
      ReserveAndLaunchKeeps(g, s, reservation, w, op, ApprovalCreation, Creating(r, op));
      FailedReservationMove(g, s, reservation, w, op);
      NoteMove(g, s.(lines := Note(g, s.lines, reservation, w)), failed, w2);
    }
  }

  lemma AnchorKeeps(g: Gate, s: State, e: Event)
    requires Inv(g, s) && e.Anchor?
    ensures Inv(g, StartAnchor(g, s, e))
  {
    hide Inv, Recorded, Verified, AnchorOp, ReserveAndLaunch, Lit, ReservationMeta;
    var op, payload := AnchorOp(g, e.text, e.issue), g.custody.hash(e.text);
    if Free(g, s.lines, op) {
      ReserveAndLaunchKeeps(g, s, AnchorReceipt(Reserved, op, payload, e.agent, ReservationMeta()), e.w, op,
        if g.tsa then Timestamp else AnchorComment,
        if g.tsa then Stamping(op, payload, e.agent) else Anchoring(op, payload, e.agent));
    }
  }

  lemma PollingFalse(g: Gate, s: State, b: bool)
    requires Inv(g, s)
    ensures Inv(g, s.(polling := b))
  {}

  lemma ItemsMove(g: Gate, s: State, items: seq<Item>)
    requires Inv(g, s) && ItemsCurrent(s.lines, items)
    ensures Inv(g, BeginItems(g, s, items))
  {
    hide Inv, Verified, ItemsCurrent, Spawn;
    PollingFalse(g, s, false);
    SpawnMove(g, s, Polling(items));
  }

  lemma TailCurrent(lines: seq<Line>, items: seq<Item>)
    requires ItemsCurrent(lines, items) && |items| > 0
    ensures ItemsCurrent(lines, items[1..])
    ensures FirstPending(lines, |lines|, items[0].approval) == Some(items[0])
  {
    hide FirstPending;
    assert items[0] in items;
    assert forall x :: x in items[1..] ==> x in items;
  }

  lemma NotedItems(g: Gate, s: State, r: Receipt, w: Write, items: seq<Item>)
    requires Inv(g, s) && ItemsCurrent(s.lines, items) && r.outcome != Reserved
    ensures Inv(g, BeginItems(g, s.(lines := Note(g, s.lines, r, w)), items))
  {
    hide Inv, ItemsCurrent, Note, BeginItems, Kept, Grown, OneShot;
    NoteMove(g, s, r, w);
    InvOneShot(g, s);
    NoteKeeps(g, s.lines, r, w);
    GrownKept(s.lines, Note(g, s.lines, r, w));
    ItemsKept(s.lines, Note(g, s.lines, r, w), items);
    ItemsMove(g, s.(lines := Note(g, s.lines, r, w)), items);
  }

  lemma FailedItems(g: Gate, s: State, r: Receipt, w: Write, op: Text, items: seq<Item>)
    requires Inv(g, s) && ItemsCurrent(s.lines, items)
    requires r.outcome == Reserved && r.operation == Some(op) && !Recorded(s.lines, op)
    ensures Inv(g, BeginItems(g, s.(lines := Note(g, s.lines, r, w)), items))
  {
    hide Inv, ItemsCurrent, Note, Noted, BeginItems, Kept, Grown, OneShot, Recorded, ReservedAt;
    FailedReservationMove(g, s, r, w, op);
    InvOneShot(g, s);
    ReservationKeeps(g, s.lines, r, w, op);
    GrownKept(s.lines, Note(g, s.lines, r, w));
    ItemsKept(s.lines, Note(g, s.lines, r, w), items);
    ItemsMove(g, s.(lines := Note(g, s.lines, r, w)), items);
  }

  lemma PollKeeps(g: Gate, s: State, items: seq<Item>, e: Event)
    requires Inv(g, s) && ItemsCurrent(s.lines, items) && |items| > 0 && e.PollRead?
    ensures Inv(g, ContinuePoll(g, s, items, e))
  {
    hide Inv, ItemsCurrent, Note, Noted, BeginItems, Recorded, Readable, PollOp, PollPayload, FirstPending,
      ReserveAndLaunch, Lit, ReservationMeta;
    var x, rest := items[0], items[1..];
    TailCurrent(s.lines, items);
    ItemsMove(g, s, rest);
    NotedItems(g, s, PollReceipt(g, x, Blocked, None, e.meta), e.w, rest);
    var op := PollOp(g, x);
    var reservation := PollReceipt(g, x, Reserved, Some(op), ReservationMeta());
    if !Recorded(s.lines, op) {
      FailedItems(g, s, reservation, e.w, op, rest);
      ReserveAndLaunchKeeps(g, s, reservation, e.w, op, PollComment(x.approval), Commenting(items, op));
    }
  }

  lemma JobAt(g: Gate, s: State, k: nat)
    requires Inv(g, s) && k < |s.jobs|
    ensures JobOk(s.lines, s.effects, s.jobs[k])
  {}

  lemma ItemsAt(g: Gate, s: State, k: nat)
    requires Inv(g, s) && k < |s.jobs|
    ensures s.jobs[k].Polling? ==> ItemsCurrent(Finish(s, k).lines, s.jobs[k].items)
    ensures s.jobs[k].Commenting? ==> ItemsCurrent(Finish(s, k).lines, s.jobs[k].items)
  {
    JobAt(g, s, k);
    FinishEffects(s, k);
    hide Inv, ItemsCurrent;
  }

  /** Answers that only leave a receipt. */
  lemma AnsweredKeeps(g: Gate, t: State, j: Job, e: Event)
    requires Inv(g, t) && (j.Creating? || j.Reading? || j.Stamping? || j.Anchoring?)
    requires !(j.Reading? && e.ApprovalRead? && e.reply.Approved?) && !(j.Stamping? && e.Stamped? && e.ok)
    ensures Inv(g, ResumeJob(g, t, j, e))
  {
    hide Inv, Note;
    forall r: Receipt, w: Write | r.outcome != Reserved ensures Inv(g, t.(lines := Note(g, t.lines, r, w))) {
      NoteMove(g, t, r, w);
    }
  }

  lemma CommentedKeeps(g: Gate, t: State, items: seq<Item>, op: Text, e: Event)
    requires Inv(g, t) && ItemsCurrent(t.lines, items) && |items| > 0 && e.PollCommented?
    ensures Inv(g, ResumeJob(g, t, Commenting(items, op), e))
  {
    hide Inv, ItemsCurrent, Note, BeginItems, PollPayload, Lit;
    TailCurrent(t.lines, items);
    ItemsMove(g, t, items[1..]);
    NotedItems(g, t, PollReceipt(g, items[0], Blocked, Some(op), e.meta), e.w, items[1..]);
  }

  /** Jobs that work through the items of a poller pass. */
  lemma ItemsResume(g: Gate, t: State, j: Job, e: Event)
    requires Inv(g, t) && (j.Polling? || j.Commenting?) && ItemsCurrent(t.lines, j.items)
    ensures Inv(g, ResumeJob(g, t, j, e))
  {
    hide Inv, ItemsCurrent, ContinuePoll, BeginItems, Note, PollReceipt;
    if j.Polling? {
      if j.items != [] && e.PollRead? { PollKeeps(g, t, j.items, e); }
    } else {
      if j.items != [] && e.PollCommented? { CommentedKeeps(g, t, j.items, j.operation, e); }
    }
  }

  lemma ResumeKeeps(g: Gate, s: State, k: nat, e: Event)
    requires Inv(g, s) && k < |s.jobs|
    ensures Inv(g, ResumeJob(g, Finish(s, k), s.jobs[k], e))
  {
    var t, j := Finish(s, k), s.jobs[k];
    FinishMove(g, s, k);
    ItemsAt(g, s, k);
    hide Inv, ItemsCurrent, Note, StartPerformer, FinishPerformer, ContinuePoll, BeginItems, Unposted, Finish, Launch;
    if j.Polling? || j.Commenting? {
      hide ResumeJob;
      ItemsResume(g, t, j, e);
    } else if j.Reading? && e.ApprovalRead? && e.reply.Approved? {
      PerformerKeeps(g, t, j.r, e.w);
    } else if j.Stamping? && e.Stamped? && e.ok {
      PostMove(g, s, k, t, Anchoring(j.operation, j.payload, j.agent));
    } else if j.Performing? {
      if e.PerformerReturned? { FinishPerformerKeeps(g, t, j, e); }
    } else if !j.Finished? {
      AnsweredKeeps(g, t, j, e);
    }
  }

  lemma FinishEffects(s: State, k: nat)
    requires k < |s.jobs|
    ensures Finish(s, k).lines == s.lines && Finish(s, k).effects == s.effects
  {}

  lemma CrashMove(g: Gate, s: State)
    requires Inv(g, s)
    ensures Inv(g, s.(jobs := [], polling := false))
  {
    hide OneShot, Distinct, Backed, Traced;
  }

  lemma AllCurrent(lines: seq<Line>)
    ensures ItemsCurrent(lines, Unresolved(lines, |lines|))
  {
    hide FirstPending;
    forall x | x in Unresolved(lines, |lines|) ensures FirstPending(lines, |lines|, x.approval) == Some(x) {
      UnresolvedExact(lines, |lines|, x);
    }
  }

  lemma RepairMove(g: Gate, s: State)
    requires Inv(g, s) && |s.lines| > 0 && s.lines[|s.lines| - 1] == Unparseable
    ensures Inv(g, s.(lines := s.lines[..|s.lines| - 1]))
  {
    hide OneShot, Distinct, Backed, Traced, JobsOk;
    RepairKeeps(s.lines);
    LinesMove(g, s, s.lines[..|s.lines| - 1]);
  }

  /** Every step the gate, a crash or a tail repair takes keeps the invariant. */
  lemma StepKeeps(g: Gate, s: State, e: Event)
    requires Inv(g, s) && !e.Damage?
    ensures Inv(g, Step(g, s, e))
  {
    hide Inv, ItemsCurrent, Note, StartPerformer, StartApproval, StartAnchor, BeginItems, ResumeJob, Finish, Verified,
      Readable, Unresolved, Lit, Spawn;
    match e
    case Serve(r, w) => PerformerKeeps(g, s, r, w);
    case RequestApproval(r, w, w2) => ApprovalKeeps(g, s, r, w, w2);
    case Resume(r, meta, w) =>
      SpawnMove(g, s, Reading(r));
      NoteMove(g, s, EgressReceipt(r, Errored, None, meta), w);
    case Anchor(_, _, _, _) => AnchorKeeps(g, s, e);
    case Poll =>
      AllCurrent(s.lines);
      PollingFalse(g, s, true);
      ItemsMove(g, s.(polling := true), Unresolved(s.lines, |s.lines|));
    case Other(receipt, w) => if !receipt.outcome.Reserved? { NoteMove(g, s, receipt, w); }
    case Crash => CrashMove(g, s);
    case RepairTail => if |s.lines| > 0 && s.lines[|s.lines| - 1] == Unparseable { RepairMove(g, s); }
    case Damage(_, _) =>
    case _ =>
      var j := JobOf(e);
      if j.Some? && j.value < |s.jobs| && Answers(s.jobs[j.value], e) { ResumeKeeps(g, s, j.value, e); }
  }

  lemma {:induction false} RunKeeps(g: Gate, run: seq<Event>)
    requires Undamaged(run)
    ensures Inv(g, Run(g, run))
  {
    if run == [] {
      assert Inv(g, START);
    } else {
      hide Inv, Step;
      RunKeeps(g, run[..|run| - 1]);
      StepKeeps(g, Run(g, run[..|run| - 1]), run[|run| - 1]);
    }
  }

  // ------------------------------------------------------------------ main results

  /** In every run each operation identity is reserved at most once. */
  lemma ReservedAtMostOnce(g: Gate, run: seq<Event>, op: Text, i: nat, j: nat)
    requires Undamaged(run)
    requires ReservedAt(Run(g, run).lines, i, op) && ReservedAt(Run(g, run).lines, j, op)
    ensures i == j
  {
    hide HasOutcome, OperationOf, Run;
    RunKeeps(g, run);
  }

  /** In every run no external effect is started twice. */
  lemma StartedAtMostOnce(g: Gate, run: seq<Event>, a: nat, b: nat)
    requires Undamaged(run) && a < b < |Run(g, run).effects|
    ensures var (x, y) := (Run(g, run).effects[a], Run(g, run).effects[b]);
      x.operation == y.operation ==> x.kind == Timestamp && y.kind == AnchorComment
  {
    hide Run, OneShot, JobsOk, Backed, Traced;
    RunKeeps(g, run);
  }

  /** Every started effect has a reservation of its identity in the ledger, written before it started. */
  lemma StartedAfterReservation(g: Gate, run: seq<Event>, a: nat) returns (i: nat)
    requires Undamaged(run) && a < |Run(g, run).effects|
    ensures i < Run(g, run).effects[a].at && ReservedAt(Run(g, run).lines, i, Run(g, run).effects[a].operation)
  {
    hide Run, OneShot, JobsOk, Traced, ReservedAt;
    RunKeeps(g, run);
    assert Backed(Run(g, run).lines, Run(g, run).effects[a]);
    i :| i < Run(g, run).effects[a].at && ReservedAt(Run(g, run).lines, i, Run(g, run).effects[a].operation);
  }

  /** Over all passes, crashes and restarts an approval gets at most one poller comment. */
  lemma PollerCommentsOnce(g: Gate, run: seq<Event>, a: nat, b: nat)
    requires Undamaged(run) && a < b < |Run(g, run).effects|
    requires Run(g, run).effects[a].kind.PollComment? && Run(g, run).effects[b].kind.PollComment?
    ensures Run(g, run).effects[a].kind.approval != Run(g, run).effects[b].kind.approval
  {
    hide Run, OneShot, JobsOk, Backed, PollOp, FirstPending;
    RunKeeps(g, run);
    assert Traced(g, Run(g, run).lines, Run(g, run).effects[a]) && Traced(g, Run(g, run).lines, Run(g, run).effects[b]);
  }
}
