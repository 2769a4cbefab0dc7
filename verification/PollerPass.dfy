/** At most one poller pass is under way, and each status is asked for on a verified ledger. */
module PollerPass {
  import opened Options
  import opened Texts
  import opened CanonicalJson
  import opened Receipts
  import opened Operations
  import opened Poller
  import opened Dispatch
  import opened DispatchIntegrity
  import opened DispatchReceipts
  import opened DispatchJobs

  // -------------------------------------------------------------------- one poller pass

  predicate InPass(j: Job) {
    j.Polling? || j.Commenting?
  }

  /** A pass is under way exactly while one handler works through its items. */
  ghost predicate OnePass(s: State) {
    && (s.polling <==> exists k :: 0 <= k < |s.jobs| && InPass(s.jobs[k]))
    && (forall k, m :: 0 <= k < m < |s.jobs| ==> !(InPass(s.jobs[k]) && InPass(s.jobs[m])))
    && (forall k :: 0 <= k < |s.jobs| && InPass(s.jobs[k]) ==> s.jobs[k].items != [])
  }

  /** No pass, whatever the flag says. */
  predicate NoPass(s: State) {
    forall k :: 0 <= k < |s.jobs| ==> !InPass(s.jobs[k])
  }

  lemma BeginOnePass(g: Gate, s: State, items: seq<Item>)
    requires NoPass(s) && s.polling
    ensures OnePass(BeginItems(g, s, items))
  {
    hide Verified;
    var t := BeginItems(g, s, items);
    if t.polling { assert InPass(t.jobs[|s.jobs|]); }
  }

  lemma LaunchOnePass(g: Gate, s: State, r: Receipt, w: Write, op: Text, kind: Kind, items: seq<Item>)
    requires NoPass(s) && s.polling && Noted(g, s.lines, r, w) && items != []
    ensures OnePass(ReserveAndLaunch(g, s, r, w, op, kind, Commenting(items, op)))
  {
    hide Note, Noted, Verified;
    var t := ReserveAndLaunch(g, s, r, w, op, kind, Commenting(items, op));
    assert InPass(t.jobs[|s.jobs|]);
  }

  lemma PollOnePass(g: Gate, s: State, items: seq<Item>, e: Event)
    requires NoPass(s) && s.polling && e.PollRead? && items != []
    ensures OnePass(ContinuePoll(g, s, items, e))
  {
    hide OnePass, NoPass, PollOp, Recorded, Readable, Note, Noted, ReservationMeta, PollReceipt, BeginItems;
    var x, rest := items[0], items[1..];
    BeginOnePass(g, s, rest);
    var op := PollOp(g, x);
    var blocked, reservation :=
      PollReceipt(g, x, Blocked, None, e.meta), PollReceipt(g, x, Reserved, Some(op), ReservationMeta());
    SamePass(s, Note(g, s.lines, blocked, e.w));
    SamePass(s, Note(g, s.lines, reservation, e.w));
    BeginOnePass(g, s.(lines := Note(g, s.lines, blocked, e.w)), rest);
    BeginOnePass(g, s.(lines := Note(g, s.lines, reservation, e.w)), rest);
    if Noted(g, s.lines, reservation, e.w) {
      LaunchOnePass(g, s, reservation, e.w, op, PollComment(x.approval), items);
    }
  }

  lemma SamePass(s: State, lines: seq<Line>)
    ensures OnePass(s) ==> OnePass(s.(lines := lines))
    ensures NoPass(s) ==> NoPass(s.(lines := lines))
  {}

  lemma CommentedOnePass(g: Gate, s: State, items: seq<Item>, op: Text, e: Event)
    requires NoPass(s) && s.polling && e.PollCommented? && items != []
    ensures OnePass(ResumeJob(g, s, Commenting(items, op), e))
  {
    hide OnePass, NoPass, Note, PollReceipt, BeginItems;
    var blocked := PollReceipt(g, items[0], Blocked, Some(op), e.meta);
    SamePass(s, Note(g, s.lines, blocked, e.w));
    BeginOnePass(g, s, items[1..]);
    BeginOnePass(g, s.(lines := Note(g, s.lines, blocked, e.w)), items[1..]);
  }

  lemma FinishedPass(s: State, k: nat)
    requires OnePass(s) && k < |s.jobs|
    ensures InPass(s.jobs[k]) ==> NoPass(Finish(s, k)) && s.polling && s.jobs[k].items != []
    ensures !InPass(s.jobs[k]) ==> OnePass(Finish(s, k))
  {
    var t := Finish(s, k);
    if !InPass(s.jobs[k]) && s.polling {
      var m :| 0 <= m < |s.jobs| && InPass(s.jobs[m]);
      assert InPass(t.jobs[m]);
    }
  }

  /** A new handler that is in no pass changes nothing about passes. */
  lemma ApartFromPass(s: State, t: State)
    requires OnePass(s) && t.polling == s.polling && |s.jobs| <= |t.jobs| <= |s.jobs| + 1
    requires forall k :: 0 <= k < |s.jobs| ==> t.jobs[k] == s.jobs[k]
    requires |t.jobs| > |s.jobs| ==> !InPass(t.jobs[|s.jobs|])
    ensures OnePass(t)
  {
    if s.polling {
      var m :| 0 <= m < |s.jobs| && InPass(s.jobs[m]);
      assert InPass(t.jobs[m]);
    }
  }

  lemma ResumeOnePass(g: Gate, s: State, k: nat, e: Event)
    requires OnePass(s) && AnsweredBy(s, e, k)
    ensures OnePass(ResumeJob(g, Finish(s, k), s.jobs[k], e))
  {
    var t, j := Finish(s, k), s.jobs[k];
    FinishedPass(s, k);
    hide OnePass, NoPass, Finish, ContinuePoll, BeginItems, Note, Noted, EgressReceipt, AnchorReceipt, PollReceipt,
      Verified, Recorded;
    if j.Polling? {
      PollOnePass(g, t, j.items, e);
    } else if j.Commenting? {
      CommentedOnePass(g, t, j.items, j.operation, e);
    } else {
      OthersApart(g, t, j, e);
      ApartFromPass(t, ResumeJob(g, t, j, e));
    }
  }

  lemma OthersApart(g: Gate, t: State, j: Job, e: Event)
    requires !InPass(j)
    ensures var u := ResumeJob(g, t, j, e);
      && u.polling == t.polling && |t.jobs| <= |u.jobs| <= |t.jobs| + 1 && u.jobs[..|t.jobs|] == t.jobs
      && (|u.jobs| > |t.jobs| ==> !InPass(u.jobs[|t.jobs|]))
      && forall k :: 0 <= k < |t.jobs| ==> u.jobs[k] == t.jobs[k]
  {
    hide Note, Noted, EgressReceipt, AnchorReceipt, Verified, Recorded, ContinuePoll, BeginItems, PerformerOp;
  }

  lemma StartsApart(g: Gate, s: State, e: Event)
    requires e.Serve? || e.RequestApproval? || e.Anchor? || e.Resume? || e.Other? || e.RepairTail? || e.Damage?
    ensures var u := Step(g, s, e);
      && u.polling == s.polling && |s.jobs| <= |u.jobs| <= |s.jobs| + 1
      && (|u.jobs| > |s.jobs| ==> !InPass(u.jobs[|s.jobs|]))
      && forall k :: 0 <= k < |s.jobs| ==> u.jobs[k] == s.jobs[k]
  {
    hide Note, Noted, EgressReceipt, AnchorReceipt, Verified, Recorded, PerformerOp, ApprovalOp, AnchorOp,
      ReservationMeta;
  }

  lemma StepOnePass(g: Gate, s: State, e: Event)
    requires OnePass(s)
    ensures OnePass(Step(g, s, e))
  {
    hide OnePass, Step;
    if e.Poll? {
      PollStep(g, s);
    } else if e.Crash? {
      CrashStep(g, s);
    } else if JobOf(e).Some? {
      AnswerStep(g, s, e, JobOf(e).value);
    } else {
      StartsApart(g, s, e);
      ApartFromPass(s, Step(g, s, e));
    }
  }

  lemma PollStep(g: Gate, s: State)
    requires OnePass(s)
    ensures OnePass(Step(g, s, Poll))
  {
    hide OnePass, BeginItems, Unresolved, Readable;
    if !s.polling {
      FlagNoPass(s);
      BeginOnePass(g, s.(polling := true), Unresolved(s.lines, |s.lines|));
    }
  }

  lemma CrashStep(g: Gate, s: State)
    ensures OnePass(Step(g, s, Crash))
  {}

  lemma AnswerStep(g: Gate, s: State, e: Event, k: nat)
    requires OnePass(s) && JobOf(e) == Some(k)
    ensures OnePass(Step(g, s, e))
  {
    hide OnePass, ResumeJob, Finish;
    if k < |s.jobs| && Answers(s.jobs[k], e) { ResumeOnePass(g, s, k, e); }
  }

  lemma FlagNoPass(s: State)
    requires OnePass(s) && !s.polling
    ensures NoPass(s.(polling := true))
  {}

  lemma NothingRuns(s: State)
    ensures OnePass(s.(jobs := [], polling := false))
  {}

  /** In every run at most one poller pass is under way, the guard is up exactly then, and the pass has an item left to
      work on. */
  lemma {:induction false} AtMostOnePass(g: Gate, run: seq<Event>)
    ensures OnePass(Run(g, run))
  {
    hide Step, OnePass;
    if run == [] {
      NothingRuns(START);
    } else {
      AtMostOnePass(g, run[..|run| - 1]);
      StepOnePass(g, Run(g, run[..|run| - 1]), run[|run| - 1]);
    }
  }

  /** Every status the poller asks for, it asks on a verified ledger. */
  lemma ReadsOnVerified(g: Gate, run: seq<Event>, k: nat) returns (i: nat)
    requires k < |Run(g, run).jobs| && Run(g, run).jobs[k].Polling?
    ensures i < |run| && Verified(g.custody, Run(g, run[..i + 1]).lines)
  {
    hide Run, Verified, PerformerOp, AnchorOp, ApprovalOp, PollOp;
    i := JobExplained(g, run, k);
  }
}
