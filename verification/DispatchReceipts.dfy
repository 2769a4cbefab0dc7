/**
 * What the receipts of a run mean: every line of the ledger and every external call is traced to the event
 * that caused it, and every answer a handler gets is receipted as what it was.
 */
module DispatchReceipts {
  import opened Options
  import opened Texts
  import opened CanonicalJson
  import opened Receipts
  import opened Operations
  import opened Poller
  import opened Dispatch
  import opened DispatchIntegrity

  // --------------------------------------------------------------- what may be written

  ghost predicate HasFields(line: Line, kind: string, payload: Text, agent: Option<Text>, boundary: Json,
                            decision: Json)
  {
    && line.Entry?
    && TextField(line.body, Lit("kind")) == Some(Lit(kind))
    && TextField(line.body, Lit("payloadSha256")) == Some(payload)
    && TextField(line.body, Lit("agentId")) == agent
    && Field(line.body, Lit("boundary")) == Some(boundary) && Field(line.body, Lit("decision")) == Some(decision)
  }

  /** The line records this outcome of a request, under this identity. */
  ghost predicate RecordsFor(line: Line, outcome: Outcome, operation: Option<Text>, r: Egress) {
    && HasOutcome(line, outcome) && OperationOf(line) == operation
    && ToolOf(line) == r.tool && IssueOf(line) == r.issue && ApprovalOf(line) == r.approval
    && HasFields(line, "egress", r.payload, r.agent, r.boundary, r.decision)
  }

  ghost predicate RecordsAnchor(line: Line, outcome: Outcome, operation: Text, payload: Text, agent: Option<Text>) {
    && HasOutcome(line, outcome) && OperationOf(line) == Some(operation)
    && ToolOf(line) == Lit("anchor") && IssueOf(line) == None && ApprovalOf(line) == None
    && HasFields(line, "anchor", payload, agent, Null, Null)
  }

  ghost predicate RecordsItem(g: Gate, line: Line, outcome: Outcome, operation: Option<Text>, x: Item) {
    && HasOutcome(line, outcome) && OperationOf(line) == operation
    && ToolOf(line) == x.tool && IssueOf(line) == x.issue && ApprovalOf(line) == Some(x.approval)
    && HasFields(line, "egress", g.custody.hash(Lit("poller:") + x.approval), None, Null, Str(Lit("human")))
  }

  /** Without an issue there is nothing to comment on. */
  predicate HasIssue(x: Item) {
    x.issue.Some? && x.issue.value != []
  }

  /** The line is one that the event may leave behind, in the state it meets. */
  ghost predicate Explains(g: Gate, s: State, e: Event, line: Line) {
    match e
    case Serve(r, _) => RecordsFor(line, Reserved, Some(PerformerOp(g, r)), r)
    case PerformerReturned(k, ok, masked, _, _, _) =>
      k < |s.jobs| && s.jobs[k].Performing? &&
      var r, op := s.jobs[k].r, Some(s.jobs[k].operation);
      || RecordsFor(line, Errored, op, r)
      || (ok && masked && RecordsFor(line, AnonymizedPerformed, op, r))
      || (ok && !masked && RecordsFor(line, Performed, op, r))
    case RequestApproval(r, _, _) =>
      var first := r.(approval := None);
      || RecordsFor(line, Reserved, Some(ApprovalOp(g, r)), first)
      || RecordsFor(line, Errored, Some(ApprovalOp(g, r)), first)
    case ApprovalCreated(k, created, _, _) =>
      k < |s.jobs| && s.jobs[k].Creating? &&
      RecordsFor(line, if created.Some? then Pending else Errored, Some(s.jobs[k].operation),
                 s.jobs[k].r.(approval := created))
    case Resume(r, _, _) => RecordsFor(line, Errored, None, r)
    case ApprovalRead(k, reply, _, _) =>
      k < |s.jobs| && s.jobs[k].Reading? &&
      var r := s.jobs[k].r;
      (match reply
       case Approved => RecordsFor(line, Reserved, Some(PerformerOp(g, r)), r)
       case Denied => RecordsFor(line, Blocked, None, r)
       case StillPending => RecordsFor(line, Pending, None, r)
       case ReadFailed => RecordsFor(line, Errored, None, r))
    case Anchor(text, issue, agent, _) =>
      RecordsAnchor(line, Reserved, AnchorOp(g, text, issue), g.custody.hash(text), agent)
    case Stamped(k, ok, _, _) =>
      k < |s.jobs| && s.jobs[k].Stamping? && !ok &&
      RecordsAnchor(line, Errored, s.jobs[k].operation, s.jobs[k].payload, s.jobs[k].agent)
    case Anchored(k, ok, _, _) =>
      k < |s.jobs| && s.jobs[k].Anchoring? && ok &&
      RecordsAnchor(line, Performed, s.jobs[k].operation, s.jobs[k].payload, s.jobs[k].agent)
    case PollRead(k, refused, _, _) =>
      k < |s.jobs| && s.jobs[k].Polling? && s.jobs[k].items != [] && refused &&
      var x := s.jobs[k].items[0];
      if HasIssue(x) then RecordsItem(g, line, Reserved, Some(PollOp(g, x)), x)
      else RecordsItem(g, line, Blocked, None, x)
    case PollCommented(k, ok, _, _) =>
      k < |s.jobs| && s.jobs[k].Commenting? && s.jobs[k].items != [] && ok &&
      var x := s.jobs[k].items[0];
      RecordsItem(g, line, Blocked, Some(s.jobs[k].operation), x)
    case Other(r, _) => r.outcome != Reserved && Holds(line, r)
    case _ => false
  }

  /** Readable lines stay, and every readable line was there before or is explained by the event. */
  ghost predicate Accounts(g: Gate, s: State, e: Event, lines: seq<Line>) {
    && (forall n :: 0 <= n < |s.lines| && s.lines[n].Entry? ==> InFront(s.lines, lines, n))
    && (forall n :: 0 <= n < |lines| && lines[n].Entry? ==> InFront(s.lines, lines, n) || Explains(g, s, e, lines[n]))
  }

  /** A line has one outcome. */
  lemma OutcomeOnce(line: Line)
    ensures forall a, b :: HasOutcome(line, a) && HasOutcome(line, b) ==> a == b
  {
    forall a, b | HasOutcome(line, a) && HasOutcome(line, b) ensures a == b {
      OneOutcome(line, a, b);
    }
  }

  predicate InFront(was: seq<Line>, now: seq<Line>, n: nat) {
    n < |was| && n < |now| && now[n] == was[n]
  }

  lemma Nothing(g: Gate, s: State, e: Event)
    ensures Accounts(g, s, e, s.lines)
  {
    hide Explains;
  }

  /** A note adds to an accounted file only what the receipt says. */
  lemma NoteAccounts(g: Gate, s: State, e: Event, lines: seq<Line>, r: Receipt, w: Write)
    requires Accounts(g, s, e, lines)
    requires forall line :: Holds(line, r) ==> Explains(g, s, e, line)
    ensures Accounts(g, s, e, Note(g, lines, r, w))
  {
    hide Explains, AppendTo, Body, Holds;
    var after := Note(g, lines, r, w);
    AppendHolds(g.custody, lines, r, w.ts, w.disk);
    forall n | 0 <= n < |after| && after[n].Entry? ensures InFront(s.lines, after, n) || Explains(g, s, e, after[n]) {
      if n < |lines| { assert after[n] == lines[n]; }
    }
    forall n | 0 <= n < |s.lines| && s.lines[n].Entry? ensures InFront(s.lines, after, n) {
      assert InFront(s.lines, lines, n);
    }
  }

  lemma PerformerAccounts(g: Gate, s: State, t: State, e: Event, r: Egress, w: Write)
    requires t.lines == s.lines
    requires forall line :: RecordsFor(line, Reserved, Some(PerformerOp(g, r)), r) ==> Explains(g, s, e, line)
    ensures Accounts(g, s, e, StartPerformer(g, t, r, w).lines)
  {
    hide Explains, Note, Noted, PerformerOp, Free, ReservationMeta, Lit;
    Nothing(g, s, e);
    var op := PerformerOp(g, r);
    NoteAccounts(g, s, e, s.lines, EgressReceipt(r, Reserved, Some(op), ReservationMeta()), w);
  }

  lemma ReturnedAccounts(g: Gate, s: State, k: nat, e: Event)
    requires k < |s.jobs| && s.jobs[k].Performing? && e.PerformerReturned? && e.job == k
    ensures Accounts(g, s, e, FinishPerformer(g, Finish(s, k), s.jobs[k], e).lines)
  {
    hide HasOutcome, OperationOf, ApprovalOf, IssueOf, ToolOf, Field, Note, Noted, Lit;
    var j := s.jobs[k];
    var good := EgressReceipt(j.r, if e.masked then AnonymizedPerformed else Performed, Some(j.operation), e.meta);
    var bad := EgressReceipt(j.r, Errored, Some(j.operation), e.meta);
    Nothing(g, s, e);
    NoteAccounts(g, s, e, s.lines, bad, e.w);
    if e.ok {
      NoteAccounts(g, s, e, s.lines, good, e.w);
      NoteAccounts(g, s, e, Note(g, s.lines, good, e.w), bad, e.w2);
    }
  }

  lemma RequestAccounts(g: Gate, s: State, e: Event)
    requires e.RequestApproval?
    ensures Accounts(g, s, e, StartApproval(g, s, e.r, e.w, e.w2).lines)
  {
    hide HasOutcome, OperationOf, ApprovalOf, IssueOf, ToolOf, Field, Note, Noted, ApprovalOp, Verified, Recorded,
      ReservationMeta, Lit;
    var r, op := e.r, ApprovalOp(g, e.r);
    var reservation := EgressReceipt(r.(approval := None), Reserved, Some(op), ReservationMeta());
    var failed := EgressReceipt(r.(approval := None), Errored, Some(op), ReservationMeta());
    Nothing(g, s, e);
    NoteAccounts(g, s, e, s.lines, failed, e.w2);
    NoteAccounts(g, s, e, s.lines, reservation, e.w);
    NoteAccounts(g, s, e, Note(g, s.lines, reservation, e.w), failed, e.w2);
  }

  lemma AnchorAccounts(g: Gate, s: State, e: Event)
    requires e.Anchor?
    ensures Accounts(g, s, e, StartAnchor(g, s, e).lines)
  {
    hide HasOutcome, OperationOf, ApprovalOf, IssueOf, ToolOf, Field, Note, Noted, AnchorOp, Free, ReservationMeta, Lit;
    Nothing(g, s, e);
    var op, payload := AnchorOp(g, e.text, e.issue), g.custody.hash(e.text);
    NoteAccounts(g, s, e, s.lines, AnchorReceipt(Reserved, op, payload, e.agent, ReservationMeta()), e.w);
  }

  lemma BeginLines(g: Gate, s: State, items: seq<Item>)
    ensures BeginItems(g, s, items).lines == s.lines && BeginItems(g, s, items).effects == s.effects
  {
    hide Verified;
  }

  lemma PollAccounts(g: Gate, s: State, k: nat, e: Event)
    requires k < |s.jobs| && s.jobs[k].Polling? && s.jobs[k].items != [] && e.PollRead? && e.job == k
    ensures Accounts(g, s, e, ContinuePoll(g, Finish(s, k), s.jobs[k].items, e).lines)
  {
    hide HasOutcome, OperationOf, ApprovalOf, IssueOf, ToolOf, Field, Note, Noted, PollOp, Readable, Recorded,
      ReservationMeta, Lit, BeginItems;
    var t, items := Finish(s, k), s.jobs[k].items;
    var x, rest := items[0], items[1..];
    Nothing(g, s, e);
    BeginLines(g, t, rest);
    if e.refused {
      var op := PollOp(g, x);
      var blocked, reservation :=
        PollReceipt(g, x, Blocked, None, e.meta), PollReceipt(g, x, Reserved, Some(op), ReservationMeta());
      if HasIssue(x) {
        NoteAccounts(g, s, e, s.lines, reservation, e.w);
        BeginLines(g, t.(lines := Note(g, t.lines, reservation, e.w)), rest);
      } else {
        NoteAccounts(g, s, e, s.lines, blocked, e.w);
        BeginLines(g, t.(lines := Note(g, t.lines, blocked, e.w)), rest);
      }
    }
  }

  lemma CommentedAccounts(g: Gate, s: State, k: nat, e: Event)
    requires k < |s.jobs| && s.jobs[k].Commenting? && e.PollCommented? && e.job == k
    ensures Accounts(g, s, e, ResumeJob(g, Finish(s, k), s.jobs[k], e).lines)
  {
    hide HasOutcome, OperationOf, ApprovalOf, IssueOf, ToolOf, Field, Note, Lit, BeginItems;
    var t, items, op := Finish(s, k), s.jobs[k].items, s.jobs[k].operation;
    Nothing(g, s, e);
    if items != [] {
      var blocked := PollReceipt(g, items[0], Blocked, Some(op), e.meta);
      BeginLines(g, t, items[1..]);
      BeginLines(g, t.(lines := Note(g, t.lines, blocked, e.w)), items[1..]);
      if e.ok { NoteAccounts(g, s, e, s.lines, blocked, e.w); }
    }
  }

  /** The answers that leave one receipt, or none. */
  lemma AnsweredAccounts(g: Gate, s: State, k: nat, e: Event)
    requires k < |s.jobs| && Answers(s.jobs[k], e) && JobOf(e) == Some(k)
    requires s.jobs[k].Creating? || s.jobs[k].Stamping? || s.jobs[k].Anchoring?
    ensures Accounts(g, s, e, ResumeJob(g, Finish(s, k), s.jobs[k], e).lines)
  {
    hide HasOutcome, OperationOf, ApprovalOf, IssueOf, ToolOf, Field, Note, Verified;
    var j := s.jobs[k];
    Nothing(g, s, e);
    match j
    case Creating(r, op) =>
      var receipt := if e.created.Some? then EgressReceipt(r.(approval := e.created), Pending, Some(op), e.meta)
        else EgressReceipt(r.(approval := None), Errored, Some(op), e.meta);
      hide Lit;
      NoteAccounts(g, s, e, s.lines, receipt, e.w);
    case Stamping(op, payload, agent) =>
      hide Lit;
      if !e.ok { NoteAccounts(g, s, e, s.lines, AnchorReceipt(Errored, op, payload, agent, e.meta), e.w); }
    case Anchoring(op, payload, agent) =>
      hide Lit;
      if e.ok { NoteAccounts(g, s, e, s.lines, AnchorReceipt(Performed, op, payload, agent, e.meta), e.w); }
    case _ =>
  }

  lemma ReadAccounts(g: Gate, s: State, k: nat, e: Event)
    requires k < |s.jobs| && s.jobs[k].Reading? && e.ApprovalRead? && e.job == k
    ensures Accounts(g, s, e, ResumeJob(g, Finish(s, k), s.jobs[k], e).lines)
  {
    hide HasOutcome, OperationOf, ApprovalOf, IssueOf, ToolOf, Field, Note, StartPerformer, Lit, PerformerOp;
    var r := s.jobs[k].r;
    Nothing(g, s, e);
    match e.reply
    case Approved => PerformerAccounts(g, s, Finish(s, k), e, r, e.w);
    case Denied => NoteAccounts(g, s, e, s.lines, EgressReceipt(r, Blocked, None, e.meta), e.w);
    case StillPending => NoteAccounts(g, s, e, s.lines, EgressReceipt(r, Pending, None, e.meta), e.w);
    case ReadFailed => NoteAccounts(g, s, e, s.lines, EgressReceipt(r, Errored, None, e.meta), e.w);
  }

  lemma ResumeAccounts(g: Gate, s: State, k: nat, e: Event)
    requires k < |s.jobs| && Answers(s.jobs[k], e) && JobOf(e) == Some(k)
    ensures Accounts(g, s, e, ResumeJob(g, Finish(s, k), s.jobs[k], e).lines)
  {
    hide Accounts, FinishPerformer, ContinuePoll, StartPerformer, BeginItems, Note, Launch, Finish, EgressReceipt,
      AnchorReceipt, PollReceipt;
    var j := s.jobs[k];
    if j.Performing? {
      ReturnedAccounts(g, s, k, e);
    } else if j.Polling? {
      if j.items != [] { PollAccounts(g, s, k, e); } else { Nothing(g, s, e); FinishLines(s, k); }
    } else if j.Commenting? {
      CommentedAccounts(g, s, k, e);
    } else if j.Reading? {
      ReadAccounts(g, s, k, e);
    } else {
      AnsweredAccounts(g, s, k, e);
    }
  }

  lemma FinishLines(s: State, k: nat)
    requires k < |s.jobs|
    ensures Finish(s, k).lines == s.lines && Finish(s, k).effects == s.effects
  {}

  lemma StepAccounts(g: Gate, s: State, e: Event)
    requires !e.Damage?
    ensures Accounts(g, s, e, Step(g, s, e).lines)
  {
    hide Accounts, Explains, Note, StartPerformer, StartApproval, StartAnchor, BeginItems, ResumeJob, Finish, Verified,
      Readable, Unresolved, EgressReceipt, Spawn;
    Nothing(g, s, e);
    match e
    case Serve(r, w) => ServeAccounts(g, s, e);
    case RequestApproval(_, _, _) => RequestAccounts(g, s, e);
    case Resume(_, _, _) => ResumedAccounts(g, s, e);
    case Anchor(_, _, _, _) => AnchorAccounts(g, s, e);
    case Poll => BeginLines(g, s.(polling := true), Unresolved(s.lines, |s.lines|));
    case Other(_, _) => OtherAccounts(g, s, e);
    case Crash =>
    case RepairTail => RepairAccounts(g, s);
    case Damage(_, _) =>
    case _ =>
      var j := JobOf(e);
      if j.Some? && j.value < |s.jobs| && Answers(s.jobs[j.value], e) { ResumeAccounts(g, s, j.value, e); }
  }

  lemma ServeAccounts(g: Gate, s: State, e: Event)
    requires e.Serve?
    ensures Accounts(g, s, e, Step(g, s, e).lines)
  {
    hide HasOutcome, OperationOf, ApprovalOf, IssueOf, ToolOf, Field, StartPerformer, PerformerOp;
    PerformerAccounts(g, s, s, e, e.r, e.w);
  }

  lemma ResumedAccounts(g: Gate, s: State, e: Event)
    requires e.Resume?
    ensures Accounts(g, s, e, Step(g, s, e).lines)
  {
    hide HasOutcome, OperationOf, ApprovalOf, IssueOf, ToolOf, Field, Note, Verified, Lit;
    Nothing(g, s, e);
    NoteAccounts(g, s, e, s.lines, EgressReceipt(e.r, Errored, None, e.meta), e.w);
  }

  lemma OtherAccounts(g: Gate, s: State, e: Event)
    requires e.Other?
    ensures Accounts(g, s, e, Step(g, s, e).lines)
  {
    hide HasOutcome, OperationOf, ApprovalOf, IssueOf, ToolOf, Field, Note;
    Nothing(g, s, e);
    if !e.receipt.outcome.Reserved? { NoteAccounts(g, s, e, s.lines, e.receipt, e.w); }
  }

  lemma RepairAccounts(g: Gate, s: State)
    ensures Accounts(g, s, RepairTail, Step(g, s, RepairTail).lines)
  {
    hide Explains;
  }

  /** Every readable line of a run was written by an event that explains it. */
  lemma {:induction false} LineExplained(g: Gate, run: seq<Event>, n: nat) returns (i: nat)
    requires Undamaged(run) && n < |Run(g, run).lines| && Run(g, run).lines[n].Entry?
    ensures i < |run| && Explains(g, Run(g, run[..i]), run[i], Run(g, run).lines[n])
  {
    hide Explains, Step;
    var before, last := run[..|run| - 1], run[|run| - 1];
    var s := Run(g, before);
    StepAccounts(g, s, last);
    if InFront(s.lines, Run(g, run).lines, n) {
      i := LineExplained(g, before, n);
      assert before[..i] == run[..i];
    } else {
      i := |run| - 1;
    }
  }
}
