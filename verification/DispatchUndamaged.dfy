/**
 * Which external calls can start on a ledger that does not verify when nothing but the gate, and the
 * repair of a torn tail, touches the file. Writes may fail, stay unsynced or be torn at any time.
 */
module DispatchUndamaged {
  import opened Options
  import opened Texts
  import opened CanonicalJson
  import opened Receipts
  import opened Operations
  import opened Poller
  import opened Dispatch
  import opened DispatchIntegrity

  /** Every call but an anchor comment that waited for its time stamp. */
  predicate ReservedAtStart(g: Gate, k: Kind) {
    !(k.AnchorComment? && g.tsa)
  }

  ghost predicate Whole(g: Gate, s: State) {
    && Sturdy(g.custody, s.lines)
    && (forall a :: 0 <= a < |s.effects| && ReservedAtStart(g, s.effects[a].kind) ==> s.effects[a].intact)
    && (!g.tsa ==> forall k :: 0 <= k < |s.jobs| ==> !s.jobs[k].Stamping?)
  }

  // -------------------------------------------------------------------------- the file

  /** A note keeps the file sturdy; one that returned leaves it verified. */
  lemma NoteSturdy(g: Gate, lines: seq<Line>, r: Receipt, w: Write)
    requires Sturdy(g.custody, lines)
    ensures Sturdy(g.custody, Note(g, lines, r, w))
    ensures Noted(g, lines, r, w) ==> Verified(g.custody, Note(g, lines, r, w))
  {
    hide Sturdy, Verified, Body, AppendTo;
    AppendKeepsSturdy(g.custody, lines, Body(r), w.ts, w.disk);
  }

  // ------------------------------------------------------------------------- the steps

  lemma LinesWhole(g: Gate, s: State, lines: seq<Line>)
    requires Whole(g, s) && Sturdy(g.custody, lines)
    ensures Whole(g, s.(lines := lines))
  {
    hide Sturdy;
  }

  lemma NoteWhole(g: Gate, s: State, r: Receipt, w: Write)
    requires Whole(g, s)
    ensures Whole(g, s.(lines := Note(g, s.lines, r, w)))
  {
    hide Sturdy, Note, Noted;
    NoteSturdy(g, s.lines, r, w);
  }

  lemma ReserveWhole(g: Gate, s: State, r: Receipt, w: Write, op: Text, kind: Kind, j: Job)
    requires Whole(g, s) && (j.Stamping? ==> g.tsa)
    ensures Whole(g, ReserveAndLaunch(g, s, r, w, op, kind, j))
  {
    hide Sturdy, Note, Noted, Verified;
    NoteSturdy(g, s.lines, r, w);
  }

  lemma SpawnWhole(g: Gate, s: State, j: Job)
    requires Whole(g, s) && !j.Stamping?
    ensures Whole(g, Spawn(s, j))
  {
    hide Sturdy;
  }

  lemma BeginWhole(g: Gate, s: State, items: seq<Item>)
    requires Whole(g, s)
    ensures Whole(g, BeginItems(g, s, items))
  {
    hide Sturdy, Verified;
  }

  lemma FinishWhole(g: Gate, s: State, k: nat)
    requires Whole(g, s) && k < |s.jobs|
    ensures Whole(g, Finish(s, k)) && (s.jobs[k].Stamping? ==> g.tsa)
  {
    hide Sturdy;
  }

  lemma PostWhole(g: Gate, s: State, op: Text, j: Job)
    requires Whole(g, s) && g.tsa && j.Anchoring?
    ensures Whole(g, Launch(g, s, op, AnchorComment, j))
  {
    hide Sturdy, Verified;
  }

  lemma PerformerWhole(g: Gate, s: State, r: Egress, w: Write)
    requires Whole(g, s)
    ensures Whole(g, StartPerformer(g, s, r, w))
  {
    hide Whole, Verified, Recorded, PerformerOp, EgressReceipt, ReserveAndLaunch, ReservationMeta;
    var op := PerformerOp(g, r);
    var reservation := EgressReceipt(r, Reserved, Some(op), ReservationMeta());
    ReserveWhole(g, s, reservation, w, op, Performer, Performing(r, op));
  }

  lemma ApprovalWhole(g: Gate, s: State, r: Egress, w: Write, w2: Write)
    requires Whole(g, s)
    ensures Whole(g, StartApproval(g, s, r, w, w2))
  {
    hide Whole, Verified, Recorded, ApprovalOp, EgressReceipt, ReserveAndLaunch, Note, Noted, ReservationMeta;
    var op := ApprovalOp(g, r);
    var reservation := EgressReceipt(r.(approval := None), Reserved, Some(op), ReservationMeta());
    var failed := EgressReceipt(r.(approval := None), Errored, Some(op), ReservationMeta());
    NoteWhole(g, s, failed, w2);
    NoteWhole(g, s, reservation, w);
    NoteWhole(g, s.(lines := Note(g, s.lines, reservation, w)), failed, w2);
    ReserveWhole(g, s, reservation, w, op, ApprovalCreation, Creating(r, op));
  }

  lemma AnchorWhole(g: Gate, s: State, e: Event)
    requires Whole(g, s) && e.Anchor?
    ensures Whole(g, StartAnchor(g, s, e))
  {
    hide Whole, Verified, Recorded, AnchorOp, AnchorReceipt, ReserveAndLaunch, ReservationMeta;
    var op, payload := AnchorOp(g, e.text, e.issue), g.custody.hash(e.text);
    ReserveWhole(g, s, AnchorReceipt(Reserved, op, payload, e.agent, ReservationMeta()), e.w, op,
      if g.tsa then Timestamp else AnchorComment,
      if g.tsa then Stamping(op, payload, e.agent) else Anchoring(op, payload, e.agent));
  }

  lemma PollWhole(g: Gate, s: State, items: seq<Item>, e: Event)
    requires Whole(g, s) && |items| > 0 && e.PollRead?
    ensures Whole(g, ContinuePoll(g, s, items, e))
  {
    hide Whole, Verified, Note, Noted, Recorded, Readable, PollOp, PollReceipt, BeginItems, ReserveAndLaunch,
      ReservationMeta;
    var x, rest := items[0], items[1..];
    BeginWhole(g, s, rest);
    var settled := PollReceipt(g, x, Blocked, None, e.meta);
    NoteWhole(g, s, settled, e.w);
    BeginWhole(g, s.(lines := Note(g, s.lines, settled, e.w)), rest);
    var op := PollOp(g, x);
    var reservation := PollReceipt(g, x, Reserved, Some(op), ReservationMeta());
    NoteWhole(g, s, reservation, e.w);
    BeginWhole(g, s.(lines := Note(g, s.lines, reservation, e.w)), rest);
    ReserveWhole(g, s, reservation, e.w, op, PollComment(x.approval), Commenting(items, op));
  }

  lemma CommentedWhole(g: Gate, s: State, items: seq<Item>, op: Text, e: Event)
    requires Whole(g, s) && |items| > 0 && e.PollCommented?
    ensures Whole(g, ResumeJob(g, s, Commenting(items, op), e))
  {
    hide Whole, Note, BeginItems, PollReceipt;
    BeginWhole(g, s, items[1..]);
    var settled := PollReceipt(g, items[0], Blocked, Some(op), e.meta);
    NoteWhole(g, s, settled, e.w);
    BeginWhole(g, s.(lines := Note(g, s.lines, settled, e.w)), items[1..]);
  }

  lemma PerformedWhole(g: Gate, s: State, j: Job, e: Event)
    requires Whole(g, s) && j.Performing? && e.PerformerReturned?
    ensures Whole(g, FinishPerformer(g, s, j, e))
  {
    hide Whole, Note, Noted, EgressReceipt;
    var outcome := if e.masked then AnonymizedPerformed else Performed;
    var good := EgressReceipt(j.r, outcome, Some(j.operation), e.meta);
    var bad := EgressReceipt(j.r, Errored, Some(j.operation), e.meta);
    NoteWhole(g, s, good, e.w);
    NoteWhole(g, s, bad, e.w);
    NoteWhole(g, s.(lines := Note(g, s.lines, good, e.w)), bad, e.w2);
  }

  /** The other answers leave at most one receipt. */
  lemma AnsweredWhole(g: Gate, s: State, j: Job, e: Event)
    requires Whole(g, s) && !j.Performing? && !j.Polling? && !j.Commenting?
    requires !(j.Reading? && e.ApprovalRead? && e.reply.Approved?) && !(j.Stamping? && e.Stamped? && e.ok)
    ensures Whole(g, ResumeJob(g, s, j, e))
  {
    hide Whole, Note, Noted;
    forall r: Receipt, w: Write ensures Whole(g, s.(lines := Note(g, s.lines, r, w))) {
      NoteWhole(g, s, r, w);
    }
  }

  lemma ResumeWhole(g: Gate, s: State, k: nat, e: Event)
    requires Whole(g, s) && k < |s.jobs|
    ensures Whole(g, ResumeJob(g, Finish(s, k), s.jobs[k], e))
  {
    var t, j := Finish(s, k), s.jobs[k];
    FinishWhole(g, s, k);
    hide Whole, StartPerformer, ContinuePoll, BeginItems, Finish, Launch, FinishPerformer, Note;
    if j.Reading? && e.ApprovalRead? && e.reply.Approved? {
      PerformerWhole(g, t, j.r, e.w);
    } else if j.Stamping? && e.Stamped? && e.ok {
      PostWhole(g, t, j.operation, Anchoring(j.operation, j.payload, j.agent));
    } else if j.Performing? {
      if e.PerformerReturned? { PerformedWhole(g, t, j, e); }
    } else if j.Polling? {
      if j.items != [] && e.PollRead? { PollWhole(g, t, j.items, e); }
    } else if j.Commenting? {
      if j.items != [] && e.PollCommented? { CommentedWhole(g, t, j.items, j.operation, e); }
    } else {
      AnsweredWhole(g, t, j, e);
    }
  }

  lemma CrashWhole(g: Gate, s: State)
    requires Whole(g, s)
    ensures Whole(g, s.(jobs := [], polling := false)) && Whole(g, s.(polling := true))
  {
    hide Sturdy;
  }

  lemma RepairWhole(g: Gate, s: State)
    requires Whole(g, s)
    ensures Whole(g, Step(g, s, RepairTail))
  {
    hide Verified;
    if |s.lines| > 0 && s.lines[|s.lines| - 1] == Unparseable {
      RepairVerifies(g.custody, s.lines);
      LinesWhole(g, s, s.lines[..|s.lines| - 1]);
    }
  }

  lemma StepWhole(g: Gate, s: State, e: Event)
    requires Whole(g, s) && !e.Damage?
    ensures Whole(g, Step(g, s, e))
  {
    hide Whole, Note, StartPerformer, StartApproval, StartAnchor, BeginItems, ResumeJob, Finish, Spawn, EgressReceipt;
    hide Verified, Readable, Unresolved;
    match e
    case Serve(r, w) => PerformerWhole(g, s, r, w);
    case RequestApproval(r, w, w2) => ApprovalWhole(g, s, r, w, w2);
    case Resume(r, meta, w) =>
      SpawnWhole(g, s, Reading(r));
      NoteWhole(g, s, EgressReceipt(r, Errored, None, meta), w);
    case Anchor(_, _, _, _) => AnchorWhole(g, s, e);
    case Poll =>
      CrashWhole(g, s);
      BeginWhole(g, s.(polling := true), Unresolved(s.lines, |s.lines|));
    case Crash => CrashWhole(g, s);
    case Other(receipt, w) => NoteWhole(g, s, receipt, w);
    case RepairTail => RepairWhole(g, s);
    case Damage(_, _) =>
    case _ =>
      var j := JobOf(e);
      if j.Some? && j.value < |s.jobs| && Answers(s.jobs[j.value], e) { ResumeWhole(g, s, j.value, e); }
  }

  /** In every run the file verifies up to an unreadable tail, and every call behind a reservation starts intact. */
  lemma {:induction false} RunWhole(g: Gate, run: seq<Event>)
    requires Undamaged(run)
    ensures Whole(g, Run(g, run))
  {
    if run == [] {
      assert Whole(g, START);
    } else {
      hide Whole, Step;
      RunWhole(g, run[..|run| - 1]);
      StepWhole(g, Run(g, run[..|run| - 1]), run[|run| - 1]);
    }
  }

  // ----------------------------------------------------------------- the failing anchor

  /** While an anchor comment waits for its time stamp, another handler's write is torn; the comment starts all the
      same. */
  lemma AnchorAfterTornWrite(g: Gate) returns (run: seq<Event>)
    requires g.tsa
    ensures Undamaged(run)
    ensures Fails(g, run, AnchorComment)
  {
    var w, torn := Write([], Written), Write([], Torn);
    var other := Receipt([], [], Null, Null, Blocked, [], None, None, None, None, None);
    var first, second, last := Anchor([], None, None, w), Other(other, torn), Stamped(0, true, Null, w);
    var s1, job := AnchorReserved(g, first);
    TornAfterAnchor(g, s1, other, torn);
    hide *;
    var s3 := StampedOnTorn(g, s1, job, last);
    run := [first, second, last];
    RunOfThree(g, first, second, last);
    LastFails(g, run, s1.effects);
    assert !run[0].Damage? && !run[1].Damage? && !run[2].Damage?;
    NoneDamages(run);
  }

  lemma NoneDamages(run: seq<Event>)
    requires |run| == 3 && !run[0].Damage? && !run[1].Damage? && !run[2].Damage?
    ensures Undamaged(run)
  {}

  lemma LastFails(g: Gate, run: seq<Event>, effects: seq<Effect>)
    requires exists op, at :: Run(g, run).effects == effects + [Effect(op, AnchorComment, at, false)]
    ensures Fails(g, run, AnchorComment)
  {
    hide Run;
    var op, at :| Run(g, run).effects == effects + [Effect(op, AnchorComment, at, false)];
    assert Run(g, run).effects[|effects|] == Effect(op, AnchorComment, at, false);
  }

  lemma TornAfterAnchor(g: Gate, s: State, r: Receipt, torn: Write)
    requires |s.lines| == 1 && ValidTail(s.lines[0]) && r.meta.None? && !r.outcome.Reserved? && torn.disk.Torn?
    ensures Step(g, s, Other(r, torn)) == s.(lines := s.lines + [Unparseable])
  {
    hide WithCompany, ComputeHash, Lookup, ValidTail, BodyFields, Stored, Lit;
    BodyReads(g.custody, r, 10);
    CompanyUnnamed(r);
    MetaKey(r);
  }

  lemma StampedOnTorn(g: Gate, s: State, job: Job, last: Event) returns (after: State)
    requires s.jobs == [job] && job.Stamping? && last.Stamped? && last.job == 0 && last.ok
    ensures after == Step(g, s.(lines := s.lines + [Unparseable]), last)
    ensures after.effects == s.effects + [Effect(job.operation, AnchorComment, |s.lines| + 1, false)]
  {
    hide Verified, Note, AnchorReceipt;
    TornBreaks(g.custody, s.lines);
    var t := s.(lines := s.lines + [Unparseable]);
    after := Step(g, t, last);
    assert after == ResumeJob(g, Finish(t, 0), job, last);
  }

  // ------------------------------------------------------------------------ main result

  /** In runs where only the gate and the repair of a torn tail touch the file, a kind of external call always
      starts on a verified ledger, exactly when it is not an anchor comment that waited for a time stamp. */
  lemma StartsIntactIff(g: Gate, k: Kind)
    ensures (forall run: seq<Event> :: Undamaged(run) ==> !Fails(g, run, k)) <==> !(k.AnchorComment? && g.tsa)
  {
    hide Run;
    if ReservedAtStart(g, k) {
      forall run: seq<Event> | Undamaged(run) ensures !Fails(g, run, k) {
        RunWhole(g, run);
        hide Sturdy;
      }
    } else {
      var run := AnchorAfterTornWrite(g);
    }
  }
}
