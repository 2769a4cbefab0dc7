/** What a reader of the ledger may conclude from a receipt about the calls that were made, over every run. */
module DispatchMeaning {
  import opened Options
  import opened Texts
  import opened CanonicalJson
  import opened Receipts
  import opened Operations
  import opened Poller
  import opened Dispatch
  import opened DispatchIntegrity
  import opened DispatchReceipts
  import opened DispatchJobs

  // ------------------------------------------------------------------------ performers

  /** Event i is the answer to the dispatch of this operation. */
  ghost predicate Returned(g: Gate, run: seq<Event>, i: nat, op: Text) {
    i < |run| && run[i].PerformerReturned? &&
    var s := Run(g, run[..i]);
    run[i].job < |s.jobs| && s.jobs[run[i].job].Performing? && s.jobs[run[i].job].operation == op
  }

  /** A dispatch that still waits is on the ledger and was never answered. */
  ghost predicate AwaitedJob(g: Gate, run: seq<Event>, lines: seq<Line>, j: Job) {
    j.Performing? ==> Recorded(lines, j.operation) && forall i :: !Returned(g, run, i, j.operation)
  }

  ghost predicate JobsAwaited(g: Gate, run: seq<Event>) {
    var s := Run(g, run);
    forall k :: 0 <= k < |s.jobs| ==> AwaitedJob(g, run, s.lines, s.jobs[k])
  }

  predicate OperationsDiffer(jobs: seq<Job>) {
    forall k, m :: 0 <= k < m < |jobs| && jobs[k].Performing? && jobs[m].Performing? ==>
      jobs[k].operation != jobs[m].operation
  }

  ghost predicate AnswersRecorded(g: Gate, run: seq<Event>) {
    forall i, op :: Returned(g, run, i, op) ==> Recorded(Run(g, run).lines, op)
  }

  lemma RecordedStays(g: Gate, s: State, e: Event, op: Text)
    requires Recorded(s.lines, op) && !e.Damage?
    ensures Recorded(Step(g, s, e).lines, op)
  {
    StepAccounts(g, s, e);
    hide Step, Explains;
    var i :| 0 <= i < |s.lines| && OperationOf(s.lines[i]) == Some(op);
    assert s.lines[i].Entry?;
    assert InFront(s.lines, Step(g, s, e).lines, i);
  }

  lemma ReturnedBefore(g: Gate, run: seq<Event>, i: nat, op: Text)
    requires run != [] && i < |run| - 1
    ensures Returned(g, run, i, op) <==> Returned(g, run[..|run| - 1], i, op)
  {
    assert run[..|run| - 1][..i] == run[..i];
  }

  lemma StepRecords(g: Gate, before: seq<Event>, e: Event)
    requires !e.Damage? && JobsAwaited(g, before) && AnswersRecorded(g, before)
    ensures AnswersRecorded(g, before + [e])
  {
    var run, s := before + [e], Run(g, before);
    RunMore(g, before, e);
    hide Step, Recorded, Run, Returned;
    forall i, op | Returned(g, run, i, op) ensures Recorded(Run(g, run).lines, op) {
      ReturnedWasRecorded(g, before, e, i, op);
      RecordedStays(g, s, e, op);
    }
  }

  lemma RunMore(g: Gate, before: seq<Event>, e: Event)
    ensures Run(g, before + [e]) == Step(g, Run(g, before), e)
  {
    hide Step;
    var run := before + [e];
    assert run[..|run| - 1] == before && run[|run| - 1] == e;
  }

  lemma ReturnedWasRecorded(g: Gate, before: seq<Event>, e: Event, i: nat, op: Text)
    requires JobsAwaited(g, before) && AnswersRecorded(g, before) && Returned(g, before + [e], i, op)
    ensures Recorded(Run(g, before).lines, op)
  {
    hide Run, Recorded;
    var run, s := before + [e], Run(g, before);
    if i < |before| {
      assert run[..|run| - 1] == before;
      ReturnedBefore(g, run, i, op);
    } else {
      assert run[..i] == before;
      assert AwaitedJob(g, before, s.lines, s.jobs[e.job]);
    }
  }

  lemma StepDiffers(g: Gate, s: State, e: Event)
    requires OperationsDiffer(s.jobs)
    requires forall k :: 0 <= k < |s.jobs| && s.jobs[k].Performing? ==> Recorded(s.lines, s.jobs[k].operation)
    ensures OperationsDiffer(Step(g, s, e).jobs)
  {
    StepMoves(g, s, e);
    hide Step, Recorded, Starts, PerformerOp, ApprovalOp, AnchorOp, PollOp, Verified;
  }

  lemma StepAwaits(g: Gate, before: seq<Event>, e: Event)
    requires !e.Damage? && JobsAwaited(g, before) && AnswersRecorded(g, before) && OperationsDiffer(Run(g, before).jobs)
    ensures JobsAwaited(g, before + [e])
  {
    var run, s := before + [e], Run(g, before);
    RunMore(g, before, e);
    hide Step, Recorded, Starts, PerformerOp, ApprovalOp, AnchorOp, PollOp, Verified, Run, Returned;
    var t := Run(g, run);
    StepMoves(g, s, e);
    forall k | 0 <= k < |t.jobs| ensures AwaitedJob(g, run, t.lines, t.jobs[k]) {
      if t.jobs[k].Performing? {
        var op := t.jobs[k].operation;
        if k < |s.jobs| {
          assert AwaitedJob(g, before, s.lines, s.jobs[k]);
          assert !AnsweredBy(s, e, k);
          RecordedStays(g, s, e, op);
        }
        forall i ensures !Returned(g, run, i, op) {
          NotYetReturned(g, before, e, k, i, op);
        }
      }
    }
  }

  lemma NotYetReturned(g: Gate, before: seq<Event>, e: Event, k: nat, i: nat, op: Text)
    requires AnswersRecorded(g, before) && OperationsDiffer(Run(g, before).jobs)
    requires var s := Run(g, before);
      if k < |s.jobs| then
        && s.jobs[k].Performing? && s.jobs[k].operation == op && !AnsweredBy(s, e, k)
        && AwaitedJob(g, before, s.lines, s.jobs[k])
      else !Recorded(s.lines, op) && !e.PerformerReturned?
    ensures !Returned(g, before + [e], i, op)
  {
    var run := before + [e];
    hide Run, Recorded;
    if i < |before| {
      assert run[..|run| - 1] == before;
      ReturnedBefore(g, run, i, op);
    } else if i == |before| {
      assert run[..i] == before;
    }
  }

  lemma {:induction false} RunAwaits(g: Gate, run: seq<Event>)
    requires Undamaged(run)
    ensures JobsAwaited(g, run) && AnswersRecorded(g, run) && OperationsDiffer(Run(g, run).jobs)
  {
    if run == [] {
      assert Run(g, run) == START;
    } else {
      var before, last := run[..|run| - 1], run[|run| - 1];
      assert before + [last] == run;
      RunAwaits(g, before);
      JobsRecorded(g, before);
      StepRecords(g, before, last);
      StepAwaits(g, before, last);
      StepDiffers(g, Run(g, before), last);
    }
  }

  lemma JobsRecorded(g: Gate, run: seq<Event>)
    requires JobsAwaited(g, run)
    ensures var s := Run(g, run);
      forall k :: 0 <= k < |s.jobs| && s.jobs[k].Performing? ==> Recorded(s.lines, s.jobs[k].operation)
  {
    hide Recorded, Run;
    var s := Run(g, run);
    forall k | 0 <= k < |s.jobs| && s.jobs[k].Performing? ensures Recorded(s.lines, s.jobs[k].operation) {
      assert AwaitedJob(g, run, s.lines, s.jobs[k]);
    }
  }

  /** In every run a dispatch is answered at most once. */
  lemma ReturnedOnce(g: Gate, run: seq<Event>, i: nat, j: nat, op: Text)
    requires Undamaged(run) && Returned(g, run, i, op) && Returned(g, run, j, op)
    ensures i == j
  {
    hide Run;
    if i < j { NeverAgain(g, run, i, j, op); }
    if j < i { NeverAgain(g, run, j, i, op); }
  }

  lemma NeverAgain(g: Gate, run: seq<Event>, i: nat, j: nat, op: Text)
    requires Undamaged(run) && i < j < |run| && Returned(g, run, i, op)
    ensures !Returned(g, run, j, op)
  {
    var before := run[..j];
    assert before[..i] == run[..i] && before[i] == run[i];
    assert Returned(g, before, i, op);
    RunAwaits(g, before);
    NoneAwaited(g, before, i, op);
    hide Run;
  }

  lemma NoneAwaited(g: Gate, run: seq<Event>, i: nat, op: Text)
    requires JobsAwaited(g, run) && Returned(g, run, i, op)
    ensures var s := Run(g, run);
      forall k :: 0 <= k < |s.jobs| && s.jobs[k].Performing? ==> s.jobs[k].operation != op
  {
    hide Run, Recorded, Returned;
    var s := Run(g, run);
    forall k | 0 <= k < |s.jobs| && s.jobs[k].Performing? ensures s.jobs[k].operation != op {
      assert AwaitedJob(g, run, s.lines, s.jobs[k]);
    }
  }

  /** An anchor of the run has this identity. */
  ghost predicate AnchoredAs(g: Gate, run: seq<Event>, op: Text) {
    exists i :: 0 <= i < |run| && run[i].Anchor? && AnchorOp(g, run[i].text, run[i].issue) == op
  }

  /** A performer and an anchor share an identity only if SHA-256 collides on the two. */
  lemma AnchorClash(g: Gate, r: Egress, text: Text, issue: Option<Text>)
    requires AnchorOp(g, text, issue) == PerformerOp(g, r)
    ensures Collision(g.custody.hash,
      Canonical(Identity(OperationInput(Lit("performer"), r.tool, Some(r.payload), r.issue, r.approval))),
      Canonical(Identity(OperationInput(Lit("paperclip_comment"), Lit("anchor"), Some(g.custody.hash(text)), issue,
                                        None))))
  {
    assert Lit("performer")[1] != Lit("paperclip_comment")[1];
    hide Lit, Canonical, Identity;
    OperationIdSound(g.custody.hash,
      OperationInput(Lit("performer"), r.tool, Some(r.payload), r.issue, r.approval),
      OperationInput(Lit("paperclip_comment"), Lit("anchor"), Some(g.custody.hash(text)), issue, None));
  }

  lemma AnchorJob(g: Gate, run: seq<Event>, k: nat)
    requires k < |Run(g, run).jobs| && (Run(g, run).jobs[k].Stamping? || Run(g, run).jobs[k].Anchoring?)
    ensures AnchoredAs(g, run, Run(g, run).jobs[k].operation)
  {
    hide Run, AnchorOp;
    var j := Run(g, run).jobs[k];
    var i := JobExplained(g, run, k);
    if !run[i].Anchor? {
      var m := run[i].job;
      var h := JobExplained(g, run[..i], m);
      assert run[..i][h] == run[h];
    }
  }

  /** Routes that dispatch nothing write no operation identity. */
  predicate OthersUnnamed(run: seq<Event>) {
    forall i :: 0 <= i < |run| && run[i].Other? ==> run[i].receipt.operation.None?
  }

  /** A line with the identity of a performer call says performed, or anonymized_performed, only if that very
      dispatch was answered by success, masked exactly in the second case. (The one other way is an anchor that
      shares the identity, a collision of SHA-256 by AnchorClash.) */
  lemma PerformedOnlyIfReturned(g: Gate, run: seq<Event>, r: Egress, n: nat) returns (i: nat)
    requires Undamaged(run) && OthersUnnamed(run) && !AnchoredAs(g, run, PerformerOp(g, r))
    requires n < |Run(g, run).lines| && OperationOf(Run(g, run).lines[n]) == Some(PerformerOp(g, r))
    requires var line := Run(g, run).lines[n]; HasOutcome(line, Performed) || HasOutcome(line, AnonymizedPerformed)
    ensures Returned(g, run, i, PerformerOp(g, r)) && run[i].ok
    ensures run[i].masked <==> HasOutcome(Run(g, run).lines[n], AnonymizedPerformed)
  {
    hide Run, PerformerOp, AnchorOp, ApprovalOp, PollOp, OperationOf, ApprovalOf, IssueOf, ToolOf;
    var line := Run(g, run).lines[n];
    i := LineExplained(g, run, n);
    OutcomeOnce(line);
    var s := Run(g, run[..i]);
    if run[i].Anchored? {
      hide HasOutcome;
      AnchorJob(g, run[..i], run[i].job);
      EarlierAnchor(g, run, i, PerformerOp(g, r));
    } else {
      hide HasOutcome;
    }
  }

  lemma EarlierAnchor(g: Gate, run: seq<Event>, i: nat, op: Text)
    requires i <= |run| && AnchoredAs(g, run[..i], op)
    ensures AnchoredAs(g, run, op)
  {
    hide AnchorOp;
    var k :| 0 <= k < |run[..i]| && run[..i][k].Anchor? && AnchorOp(g, run[..i][k].text, run[..i][k].issue) == op;
    assert run[k] == run[..i][k];
  }

  /** Once a performer call has failed, no line with its identity ever says that it was performed. */
  lemma FailureIsNeverPerformed(g: Gate, run: seq<Event>, r: Egress, i: nat, n: nat)
    requires Undamaged(run) && OthersUnnamed(run) && !AnchoredAs(g, run, PerformerOp(g, r))
    requires Returned(g, run, i, PerformerOp(g, r)) && !run[i].ok
    requires n < |Run(g, run).lines| && OperationOf(Run(g, run).lines[n]) == Some(PerformerOp(g, r))
    ensures var line := Run(g, run).lines[n]; !HasOutcome(line, Performed) && !HasOutcome(line, AnonymizedPerformed)
  {
    hide Run, PerformerOp, HasOutcome, OperationOf, AnchoredAs, Returned;
    var line := Run(g, run).lines[n];
    if HasOutcome(line, Performed) || HasOutcome(line, AnonymizedPerformed) {
      var k := PerformedOnlyIfReturned(g, run, r, n);
      ReturnedOnce(g, run, i, k, PerformerOp(g, r));
    }
  }

  // ----------------------------------------------------------------------- the poller

  /** Event i reports that the approval was refused, to the poller or to the agent that came back with it. */
  ghost predicate RefusalRead(g: Gate, run: seq<Event>, i: nat, approval: Text) {
    i < |run| &&
    var s := Run(g, run[..i]);
    || (run[i].ApprovalRead? && run[i].reply.Denied? && run[i].job < |s.jobs| && s.jobs[run[i].job].Reading?
        && s.jobs[run[i].job].r.approval == Some(approval))
    || PollRefusal(s, run[i], approval)
  }

  ghost predicate PollRefusal(s: State, e: Event, approval: Text) {
    && e.PollRead? && e.refused && e.job < |s.jobs| && s.jobs[e.job].Polling? && s.jobs[e.job].items != []
    && s.jobs[e.job].items[0].approval == approval
  }

  /** Another route receipted this outcome for the approval. */
  predicate OtherRoute(e: Event, outcome: Outcome, approval: Text) {
    e.Other? && e.receipt.outcome == outcome && e.receipt.approval == Some(approval)
  }

  /** A poller comment follows only the report that its approval was refused. */
  lemma CommentOnlyIfRefused(g: Gate, run: seq<Event>, a: nat) returns (i: nat)
    requires a < |Run(g, run).effects| && Run(g, run).effects[a].kind.PollComment?
    ensures i < |run| && PollRefusal(Run(g, run[..i]), run[i], Run(g, run).effects[a].kind.approval)
  {
    hide Run, PerformerOp, AnchorOp, ApprovalOp, PollOp;
    i := EffectExplained(g, run, a);
  }

  /** A line that says an approval was blocked was written by a route of its own, or follows the report that this
      approval was refused. */
  lemma BlockedOnlyIfRefused(g: Gate, run: seq<Event>, n: nat, approval: Text) returns (i: nat)
    requires Undamaged(run) && n < |Run(g, run).lines|
    requires HasOutcome(Run(g, run).lines[n], Blocked) && ApprovalOf(Run(g, run).lines[n]) == Some(approval)
    ensures i < |run| && (RefusalRead(g, run, i, approval) || OtherRoute(run[i], Blocked, approval))
  {
    hide Run, PerformerOp, AnchorOp, ApprovalOp, PollOp, OperationOf, ApprovalOf, IssueOf, ToolOf;
    var line := Run(g, run).lines[n];
    i := LineExplained(g, run, n);
    OutcomeOnce(line);
    hide HasOutcome;
    if run[i].PollCommented? {
      var s := Run(g, run[..i]);
      var h := JobExplained(g, run[..i], run[i].job);
      assert run[..i][h] == run[h] && run[..i][..h] == run[..h];
      i := h;
    }
  }

  /** Event i reports that the approval is still open, or that it was created. */
  ghost predicate WaitRead(g: Gate, run: seq<Event>, i: nat, approval: Text) {
    i < |run| &&
    var s := Run(g, run[..i]);
    || (run[i].ApprovalRead? && run[i].reply.StillPending? && run[i].job < |s.jobs| && s.jobs[run[i].job].Reading?
        && s.jobs[run[i].job].r.approval == Some(approval))
    || (run[i].ApprovalCreated? && run[i].created == Some(approval) && run[i].job < |s.jobs|
        && s.jobs[run[i].job].Creating?)
  }

  lemma PendingOnlyIfWaiting(g: Gate, run: seq<Event>, n: nat, approval: Text) returns (i: nat)
    requires Undamaged(run) && n < |Run(g, run).lines|
    requires HasOutcome(Run(g, run).lines[n], Pending) && ApprovalOf(Run(g, run).lines[n]) == Some(approval)
    ensures i < |run| && (WaitRead(g, run, i, approval) || OtherRoute(run[i], Pending, approval))
  {
    hide Run, PerformerOp, AnchorOp, ApprovalOp, PollOp, OperationOf, ApprovalOf, IssueOf, ToolOf;
    var line := Run(g, run).lines[n];
    i := LineExplained(g, run, n);
    OutcomeOnce(line);
    hide HasOutcome;
  }

  /** A performer starts only for a request that needs no approval, or after the report that its approval was given. */
  lemma PerformedOnlyIfApproved(g: Gate, run: seq<Event>, a: nat) returns (i: nat)
    requires a < |Run(g, run).effects| && Run(g, run).effects[a].kind.Performer?
    ensures i < |run| &&
      var s := Run(g, run[..i]);
      || (run[i].Serve? && Run(g, run).effects[a].operation == PerformerOp(g, run[i].r))
      || (run[i].ApprovalRead? && run[i].reply.Approved? && run[i].job < |s.jobs| && s.jobs[run[i].job].Reading?
          && Run(g, run).effects[a].operation == PerformerOp(g, s.jobs[run[i].job].r))
  {
    hide Run, PerformerOp, AnchorOp, ApprovalOp, PollOp;
    i := EffectExplained(g, run, a);
  }
}
