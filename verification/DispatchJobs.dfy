/** Where the handlers of a run come from, which calls they start, and that one poller pass is under way at most. */
module DispatchJobs {
  import opened Options
  import opened Texts
  import opened CanonicalJson
  import opened Receipts
  import opened Operations
  import opened Poller
  import opened Dispatch
  import opened DispatchIntegrity
  import opened DispatchReceipts

  /** What the event did to bring about this handler. */
  ghost predicate JobFrom(g: Gate, s: State, e: Event, t: State, j: Job) {
    match j
    case Performing(r, op) =>
      && op == PerformerOp(g, r) && Verified(g.custody, s.lines) && !Recorded(s.lines, op) && Recorded(t.lines, op)
      && (|| (e.Serve? && e.r == r)
          || (e.ApprovalRead? && e.reply.Approved? && e.job < |s.jobs| && s.jobs[e.job] == Reading(r)))
    case Creating(r, op) => e.RequestApproval? && e.r == r && op == ApprovalOp(g, r)
    case Reading(r) => e.Resume? && e.r == r && Verified(g.custody, s.lines)
    case Stamping(op, payload, agent) =>
      && e.Anchor? && g.tsa && op == AnchorOp(g, e.text, e.issue)
      && payload == g.custody.hash(e.text) && agent == e.agent
    case Anchoring(op, payload, agent) =>
      || (e.Anchor? && !g.tsa && op == AnchorOp(g, e.text, e.issue) && payload == g.custody.hash(e.text)
          && agent == e.agent)
      || (e.Stamped? && e.ok && e.job < |s.jobs| && s.jobs[e.job] == Stamping(op, payload, agent))
    case Polling(items) => items != [] && Verified(g.custody, t.lines)
    case Commenting(items, op) =>
      && e.PollRead? && e.refused && e.job < |s.jobs| && s.jobs[e.job] == Polling(items)
      && items != [] && HasIssue(items[0]) && op == PollOp(g, items[0])
    case Finished => true
  }

  /** The call is one that the event starts. */
  ghost predicate Starts(g: Gate, s: State, e: Event, x: Effect) {
    match e
    case Serve(r, _) => x.kind == Performer && x.operation == PerformerOp(g, r)
    case RequestApproval(r, _, _) => x.kind == ApprovalCreation && x.operation == ApprovalOp(g, r)
    case ApprovalRead(k, reply, _, _) =>
      && k < |s.jobs| && s.jobs[k].Reading? && reply.Approved?
      && x.kind == Performer && x.operation == PerformerOp(g, s.jobs[k].r)
    case Anchor(text, issue, _, _) =>
      x.operation == AnchorOp(g, text, issue) && x.kind == if g.tsa then Timestamp else AnchorComment
    case Stamped(k, ok, _, _) =>
      k < |s.jobs| && s.jobs[k].Stamping? && ok && x.kind == AnchorComment && x.operation == s.jobs[k].operation
    case PollRead(k, refused, _, _) =>
      && k < |s.jobs| && s.jobs[k].Polling? && s.jobs[k].items != [] && refused
      && var i := s.jobs[k].items[0]; HasIssue(i) && x.kind == PollComment(i.approval) && x.operation == PollOp(g, i)
    case _ => false
  }

  predicate AnsweredBy(s: State, e: Event, k: nat) {
    k < |s.jobs| && JobOf(e) == Some(k) && Answers(s.jobs[k], e)
  }

  /** The handler that is answered is finished, the others stand. */
  predicate Settled(s: State, e: Event, jobs: seq<Job>) {
    forall k :: 0 <= k < |s.jobs| && k < |jobs| ==> jobs[k] == if AnsweredBy(s, e, k) then Finished else s.jobs[k]
  }

  /** At most one handler and one call are new, each brought about by the event. */
  ghost predicate Moves(g: Gate, s: State, e: Event, t: State) {
    && |t.jobs| <= |s.jobs| + 1
    && Settled(s, e, t.jobs)
    && (|t.jobs| > |s.jobs| ==> JobFrom(g, s, e, t, t.jobs[|s.jobs|]))
    && |s.effects| <= |t.effects| <= |s.effects| + 1 && t.effects[..|s.effects|] == s.effects
    && (|t.effects| > |s.effects| ==> Starts(g, s, e, t.effects[|s.effects|]))
  }

  lemma Still(g: Gate, s: State, e: Event, t: State)
    requires t.jobs == s.jobs && t.effects == s.effects && forall k :: 0 <= k < |s.jobs| ==> !AnsweredBy(s, e, k)
    ensures Moves(g, s, e, t)
  {
    hide JobFrom, Starts;
  }

  lemma NotedRecorded(g: Gate, lines: seq<Line>, r: Receipt, w: Write, op: Text)
    requires Noted(g, lines, r, w) && r.operation == Some(op)
    ensures Recorded(Note(g, lines, r, w), op)
  {
    hide AppendTo, Body, HasOutcome, OperationOf, ApprovalOf, IssueOf, ToolOf;
    AppendLeaves(g.custody, lines, r, w.ts, w.disk);
  }

  lemma LaunchMoves(g: Gate, s: State, t: State, e: Event, r: Receipt, w: Write, op: Text, kind: Kind, j: Job)
    requires t.effects == s.effects && |t.jobs| == |s.jobs|
    requires Settled(s, e, t.jobs)
    requires var after := ReserveAndLaunch(g, t, r, w, op, kind, j);
      Noted(g, t.lines, r, w) ==> JobFrom(g, s, e, after, j) && forall at, b :: Starts(g, s, e, Effect(op, kind, at, b))
    ensures Moves(g, s, e, ReserveAndLaunch(g, t, r, w, op, kind, j))
  {
    hide JobFrom, Starts, Note, Noted, Verified;
    var after := ReserveAndLaunch(g, t, r, w, op, kind, j);
    if Noted(g, t.lines, r, w) {
      var at, b := |Note(g, t.lines, r, w)|, Verified(g.custody, Note(g, t.lines, r, w));
      assert Starts(g, s, e, Effect(op, kind, at, b));
    }
  }

  lemma PerformerMoves(g: Gate, s: State, t: State, e: Event, r: Egress, w: Write)
    requires t.lines == s.lines && t.effects == s.effects && |t.jobs| == |s.jobs|
    requires Settled(s, e, t.jobs)
    requires
      || (e.Serve? && e.r == r)
      || (e.ApprovalRead? && e.reply.Approved? && e.job < |s.jobs| && s.jobs[e.job] == Reading(r))
    ensures Moves(g, s, e, StartPerformer(g, t, r, w))
  {
    hide Moves, PerformerOp, Verified, Recorded, Note, Noted, ReservationMeta, Lit;
    var op := PerformerOp(g, r);
    var reservation := EgressReceipt(r, Reserved, Some(op), ReservationMeta());
    if Free(g, s.lines, op) {
      if Noted(g, s.lines, reservation, w) { NotedRecorded(g, s.lines, reservation, w, op); }
      LaunchMoves(g, s, t, e, reservation, w, op, Performer, Performing(r, op));
    } else {
      NoneNew(g, s, e, t);
    }
  }

  lemma NoneNew(g: Gate, s: State, e: Event, t: State)
    requires t.effects == s.effects && |t.jobs| <= |s.jobs|
    requires Settled(s, e, t.jobs)
    ensures Moves(g, s, e, t)
  {
    hide JobFrom, Starts;
  }

  lemma BeginMoves(g: Gate, s: State, t: State, e: Event, items: seq<Item>)
    requires t.effects == s.effects && |t.jobs| == |s.jobs|
    requires Settled(s, e, t.jobs)
    ensures Moves(g, s, e, BeginItems(g, t, items))
  {
    hide Starts, Verified;
  }

  lemma RequestMoves(g: Gate, s: State, e: Event)
    requires e.RequestApproval?
    ensures Moves(g, s, e, StartApproval(g, s, e.r, e.w, e.w2))
  {
    hide Moves, ApprovalOp, Verified, Recorded, Note, Noted, ReservationMeta, EgressReceipt;
    var r, op := e.r, ApprovalOp(g, e.r);
    var reservation := EgressReceipt(r.(approval := None), Reserved, Some(op), ReservationMeta());
    if Verified(g.custody, s.lines) && !Recorded(s.lines, op) && Noted(g, s.lines, reservation, e.w) {
      LaunchMoves(g, s, s, e, reservation, e.w, op, ApprovalCreation, Creating(r, op));
    } else {
      Still(g, s, e, StartApproval(g, s, e.r, e.w, e.w2));
    }
  }

  lemma AnchorMoves(g: Gate, s: State, e: Event)
    requires e.Anchor?
    ensures Moves(g, s, e, StartAnchor(g, s, e))
  {
    hide Moves, AnchorOp, Free, Note, Noted, ReservationMeta, AnchorReceipt, Verified;
    var op, payload := AnchorOp(g, e.text, e.issue), g.custody.hash(e.text);
    if Free(g, s.lines, op) {
      LaunchMoves(g, s, s, e, AnchorReceipt(Reserved, op, payload, e.agent, ReservationMeta()), e.w, op,
        if g.tsa then Timestamp else AnchorComment,
        if g.tsa then Stamping(op, payload, e.agent) else Anchoring(op, payload, e.agent));
    } else {
      Still(g, s, e, s);
    }
  }

  lemma PollMoves(g: Gate, s: State, k: nat, e: Event)
    requires k < |s.jobs| && s.jobs[k].Polling? && s.jobs[k].items != [] && e.PollRead? && e.job == k
    ensures Moves(g, s, e, ContinuePoll(g, Finish(s, k), s.jobs[k].items, e))
  {
    hide Moves, PollOp, Verified, Recorded, Readable, Note, Noted, ReservationMeta, PollReceipt, BeginItems;
    var t, items := Finish(s, k), s.jobs[k].items;
    var x, rest := items[0], items[1..];
    BeginMoves(g, s, t, e, rest);
    var op := PollOp(g, x);
    var blocked, reservation :=
      PollReceipt(g, x, Blocked, None, e.meta), PollReceipt(g, x, Reserved, Some(op), ReservationMeta());
    BeginMoves(g, s, t.(lines := Note(g, t.lines, blocked, e.w)), e, rest);
    BeginMoves(g, s, t.(lines := Note(g, t.lines, reservation, e.w)), e, rest);
    if e.refused && HasIssue(x) {
      LaunchMoves(g, s, t, e, reservation, e.w, op, PollComment(x.approval), Commenting(items, op));
    }
  }

  lemma CommentedMoves(g: Gate, s: State, k: nat, e: Event)
    requires k < |s.jobs| && s.jobs[k].Commenting? && e.PollCommented? && e.job == k
    ensures Moves(g, s, e, ResumeJob(g, Finish(s, k), s.jobs[k], e))
  {
    hide Moves, Note, PollReceipt, BeginItems;
    var t, items, op := Finish(s, k), s.jobs[k].items, s.jobs[k].operation;
    NoneNew(g, s, e, t);
    if items != [] {
      BeginMoves(g, s, t, e, items[1..]);
      BeginMoves(g, s, t.(lines := Note(g, t.lines, PollReceipt(g, items[0], Blocked, Some(op), e.meta), e.w)), e,
                 items[1..]);
    }
  }

  lemma StampedMoves(g: Gate, s: State, k: nat, e: Event)
    requires k < |s.jobs| && s.jobs[k].Stamping? && e.Stamped? && e.job == k
    ensures Moves(g, s, e, ResumeJob(g, Finish(s, k), s.jobs[k], e))
  {
    hide Note, AnchorReceipt, Verified;
  }

  /** Answers that leave only receipts. */
  lemma AnsweredMoves(g: Gate, s: State, k: nat, e: Event)
    requires k < |s.jobs| && Answers(s.jobs[k], e) && JobOf(e) == Some(k)
    requires s.jobs[k].Creating? || s.jobs[k].Anchoring? || s.jobs[k].Performing? ||
      (s.jobs[k].Reading? && !e.reply.Approved?)
    ensures Moves(g, s, e, ResumeJob(g, Finish(s, k), s.jobs[k], e))
  {
    hide Moves, Note, Noted, AnchorReceipt, EgressReceipt, StartPerformer;
    NoneNew(g, s, e, ResumeJob(g, Finish(s, k), s.jobs[k], e));
  }

  lemma ReadMoves(g: Gate, s: State, k: nat, e: Event)
    requires k < |s.jobs| && s.jobs[k].Reading? && e.ApprovalRead? && e.job == k && e.reply.Approved?
    ensures Moves(g, s, e, ResumeJob(g, Finish(s, k), s.jobs[k], e))
  {
    hide Moves, StartPerformer;
    PerformerMoves(g, s, Finish(s, k), e, s.jobs[k].r, e.w);
  }

  lemma ResumeMoves(g: Gate, s: State, k: nat, e: Event)
    requires k < |s.jobs| && Answers(s.jobs[k], e) && JobOf(e) == Some(k)
    ensures Moves(g, s, e, ResumeJob(g, Finish(s, k), s.jobs[k], e))
  {
    hide Moves, FinishPerformer, ContinuePoll, StartPerformer, BeginItems, Note, Launch, Finish, EgressReceipt,
      AnchorReceipt, PollReceipt;
    var j := s.jobs[k];
    if j.Polling? {
      if j.items != [] { PollMoves(g, s, k, e); } else { FinishNone(g, s, k, e); }
    } else if j.Commenting? {
      CommentedMoves(g, s, k, e);
    } else if j.Stamping? {
      StampedMoves(g, s, k, e);
    } else if j.Reading? && e.reply.Approved? {
      ReadMoves(g, s, k, e);
    } else {
      AnsweredMoves(g, s, k, e);
    }
  }

  lemma FinishNone(g: Gate, s: State, k: nat, e: Event)
    requires AnsweredBy(s, e, k)
    ensures Moves(g, s, e, Finish(s, k))
  {
    NoneNew(g, s, e, Finish(s, k));
  }

  lemma StepMoves(g: Gate, s: State, e: Event)
    ensures Moves(g, s, e, Step(g, s, e))
  {
    hide Moves, Note, StartPerformer, StartApproval, StartAnchor, BeginItems, ResumeJob, Finish, Verified,
      Readable, Unresolved, EgressReceipt, Spawn;
    match e
    case Serve(r, w) => PerformerMoves(g, s, s, e, r, w);
    case RequestApproval(_, _, _) => RequestMoves(g, s, e);
    case Resume(_, _, _) => ResumedMoves(g, s, e);
    case Anchor(_, _, _, _) => AnchorMoves(g, s, e);
    case Poll =>
      Still(g, s, e, s);
      BeginMoves(g, s, s.(polling := true), e, Unresolved(s.lines, |s.lines|));
    case Crash => NoneNew(g, s, e, s.(jobs := [], polling := false));
    case Other(_, _) => Still(g, s, e, Step(g, s, e));
    case RepairTail => Still(g, s, e, Step(g, s, e));
    case Damage(_, _) => Still(g, s, e, Step(g, s, e));
    case _ =>
      var j := JobOf(e);
      if j.Some? && j.value < |s.jobs| && Answers(s.jobs[j.value], e) { ResumeMoves(g, s, j.value, e); }
      else { Still(g, s, e, s); }
  }

  lemma ResumedMoves(g: Gate, s: State, e: Event)
    requires e.Resume?
    ensures Moves(g, s, e, Step(g, s, e))
  {
    hide Note, Verified, EgressReceipt;
  }

  // ------------------------------------------------------------------------- over runs

  /** Every call of a run was started by an event that accounts for it. */
  lemma {:induction false} EffectExplained(g: Gate, run: seq<Event>, a: nat) returns (i: nat)
    requires a < |Run(g, run).effects|
    ensures i < |run| && Starts(g, Run(g, run[..i]), run[i], Run(g, run).effects[a])
  {
    hide Starts, Step, JobFrom;
    var before, last := run[..|run| - 1], run[|run| - 1];
    var s, t := Run(g, before), Run(g, run);
    StepMoves(g, s, last);
    if a < |s.effects| {
      assert t.effects[a] == t.effects[..|s.effects|][a];
      i := EffectExplained(g, before, a);
      assert before[..i] == run[..i];
    } else {
      i := |run| - 1;
    }
  }

  /** Every live handler of a run was brought about by an event that accounts for it. */
  lemma {:induction false} JobExplained(g: Gate, run: seq<Event>, k: nat) returns (i: nat)
    requires k < |Run(g, run).jobs| && Run(g, run).jobs[k] != Finished
    ensures i < |run| && JobFrom(g, Run(g, run[..i]), run[i], Run(g, run[..i + 1]), Run(g, run).jobs[k])
  {
    hide Starts, Step, JobFrom;
    var before, last := run[..|run| - 1], run[|run| - 1];
    var s, t := Run(g, before), Run(g, run);
    StepMoves(g, s, last);
    if k < |s.jobs| {
      assert t.jobs[k] == s.jobs[k];
      i := JobExplained(g, before, k);
      assert before[..i] == run[..i] && before[..i + 1] == run[..i + 1];
    } else {
      i := |run| - 1;
      assert run[..i + 1] == run;
    }
  }
}
