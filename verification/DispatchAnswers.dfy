/** Every answer is receipted as what it was, and calls start exactly when the ledger allows them. */
module DispatchAnswers {
  import opened Options
  import opened Texts
  import opened CanonicalJson
  import opened Receipts
  import opened Operations
  import opened Poller
  import opened Dispatch
  import opened DispatchIntegrity
  import opened DispatchReceipts
  import opened DispatchJobs

  // ----------------------------------------------------------- every answer is receipted

  ghost predicate MetaFits(meta: Json) {
    SafeMeta(meta, 0) && Utf8Length(Canonical(meta)) <= META_MAX_BYTES
  }

  predicate UsableTail(lines: seq<Line>) {
    lines == [] || ValidTail(lines[|lines| - 1])
  }

  /** The answers that settle a call, or close the request of a refused or waiting approval. */
  predicate Settles(s: State, e: Event) {
    match e
    case PerformerReturned(k, _, _, _, _, _) => k < |s.jobs| && s.jobs[k].Performing?
    case ApprovalCreated(k, _, _, _) => k < |s.jobs| && s.jobs[k].Creating?
    case ApprovalRead(k, reply, _, _) => k < |s.jobs| && s.jobs[k].Reading? && !reply.Approved?
    case Stamped(k, ok, _, _) => k < |s.jobs| && s.jobs[k].Stamping? && !ok
    case Anchored(k, ok, _, _) => k < |s.jobs| && s.jobs[k].Anchoring? && ok
    case PollRead(k, refused, _, _) =>
      k < |s.jobs| && s.jobs[k].Polling? && s.jobs[k].items != [] && refused && !HasIssue(s.jobs[k].items[0])
    case PollCommented(k, ok, _, _) => k < |s.jobs| && s.jobs[k].Commenting? && s.jobs[k].items != [] && ok
    case _ => false
  }

  /** The file has one more line. */
  ghost predicate OneMore(was: seq<Line>, now: seq<Line>) {
    |now| == |was| + 1 && now[..|was|] == was && now[|was|].Entry?
  }

  /** A good write adds the one line the receipt says. */
  lemma GoodNote(g: Gate, lines: seq<Line>, r: Receipt, w: Write)
    requires UsableTail(lines) && r.meta.Some? && MetaFits(r.meta.value) && w.disk == Written
    ensures OneMore(lines, Note(g, lines, r, w)) && Noted(g, lines, r, w)
    ensures Holds(Note(g, lines, r, w)[|lines|], r)
  {
    hide SafeMeta, Utf8Length, Canonical, ValidTail, AppendTo, Holds, Body;
    Appends(g, lines, r, w);
    AppendHolds(g.custody, lines, r, w.ts, w.disk);
  }

  /** With a good write, an answer that settles something adds exactly one line, the one that tells what it was; a
      performer's success is told as performed, or anonymized_performed, and never as an error. */
  lemma AnswersReceipted(g: Gate, s: State, e: Event)
    requires Settles(s, e) && UsableTail(s.lines) && MetaFits(e.meta) && e.w.disk == Written
    ensures var lines := Step(g, s, e).lines;
      && OneMore(s.lines, lines) && Explains(g, s, e, lines[|s.lines|])
      && (e.PerformerReturned? && e.ok ==> !HasOutcome(lines[|s.lines|], Errored))
  {
    hide MetaFits, UsableTail;
    var k := JobOf(e).value;
    FinishLines(s, k);
    StepIsResume(g, s, k, e);
    if e.PerformerReturned? {
      ReturnReceipted(g, s, e);
    } else if e.PollRead? || e.PollCommented? {
      PollReceipted(g, s, e);
    } else {
      AnchorReceipted(g, s, e);
    }
  }

  lemma StepIsResume(g: Gate, s: State, k: nat, e: Event)
    requires Settles(s, e) && JobOf(e) == Some(k)
    ensures k < |s.jobs| && Step(g, s, e) == ResumeJob(g, Finish(s, k), s.jobs[k], e)
  {
    hide ResumeJob, Finish;
  }

  lemma ReturnReceipted(g: Gate, s: State, e: Event)
    requires Settles(s, e) && e.PerformerReturned? && UsableTail(s.lines) && MetaFits(e.meta) && e.w.disk == Written
    ensures var lines := FinishPerformer(g, Finish(s, e.job), s.jobs[e.job], e).lines;
      && OneMore(s.lines, lines) && Explains(g, s, e, lines[|s.lines|])
      && (e.ok ==> !HasOutcome(lines[|s.lines|], Errored))
  {
    hide Note, Noted, MetaFits, UsableTail, HasOutcome, OperationOf, ApprovalOf, IssueOf, ToolOf, Field;
    var j := s.jobs[e.job];
    var good := EgressReceipt(j.r, if e.masked then AnonymizedPerformed else Performed, Some(j.operation), e.meta);
    var bad := EgressReceipt(j.r, Errored, Some(j.operation), e.meta);
    GoodNote(g, s.lines, good, e.w);
    GoodNote(g, s.lines, bad, e.w);
    OutcomeOnce(Note(g, s.lines, good, e.w)[|s.lines|]);
  }

  lemma PollReceipted(g: Gate, s: State, e: Event)
    requires Settles(s, e) && (e.PollRead? || e.PollCommented?)
    requires UsableTail(s.lines) && MetaFits(e.meta) && e.w.disk == Written
    ensures var lines := ResumeJob(g, Finish(s, e.job), s.jobs[e.job], e).lines;
      OneMore(s.lines, lines) && Explains(g, s, e, lines[|s.lines|])
  {
    hide Note, Noted, MetaFits, UsableTail, HasOutcome, OperationOf, ApprovalOf, IssueOf, ToolOf, Field, BeginItems,
      PollOp, Lit;
    var j, t := s.jobs[e.job], Finish(s, e.job);
    var op := if j.Commenting? then Some(j.operation) else None;
    var blocked := PollReceipt(g, j.items[0], Blocked, op, e.meta);
    GoodNote(g, s.lines, blocked, e.w);
    BeginLines(g, t.(lines := Note(g, t.lines, blocked, e.w)), j.items[1..]);
  }

  lemma AnchorReceipted(g: Gate, s: State, e: Event)
    requires Settles(s, e) && !e.PerformerReturned? && !e.PollRead? && !e.PollCommented?
    requires UsableTail(s.lines) && MetaFits(e.meta) && e.w.disk == Written
    ensures var lines := ResumeJob(g, Finish(s, JobOf(e).value), s.jobs[JobOf(e).value], e).lines;
      OneMore(s.lines, lines) && Explains(g, s, e, lines[|s.lines|])
  {
    hide Note, MetaFits, UsableTail, HasOutcome, OperationOf, ApprovalOf, IssueOf, ToolOf, Field, StartPerformer, Lit,
      ContinuePoll, BeginItems;
    forall r: Receipt | r.meta == Some(e.meta)
      ensures OneMore(s.lines, Note(g, s.lines, r, e.w))
      ensures Holds(Note(g, s.lines, r, e.w)[|s.lines|], r)
    {
      GoodNote(g, s.lines, r, e.w);
    }
  }

  /** When the receipt of a success cannot be stored, and the second write is good, the error is on the ledger. */
  lemma LostReceiptLeavesError(g: Gate, s: State, e: Event)
    requires Settles(s, e) && e.PerformerReturned? && UsableTail(s.lines) && MetaFits(e.meta)
    requires e.ok && e.w.disk == NotWritten && e.w2.disk == Written
    ensures var lines := Step(g, s, e).lines;
      && OneMore(s.lines, lines)
      && RecordsFor(lines[|s.lines|], Errored, Some(s.jobs[e.job].operation), s.jobs[e.job].r)
  {
    hide Body, Next, MetaFits, UsableTail, HasOutcome, OperationOf, ApprovalOf, IssueOf, ToolOf, Lit;
    var j := s.jobs[e.job];
    GoodNote(g, s.lines, EgressReceipt(j.r, Errored, Some(j.operation), e.meta), e.w2);
    StepIsResume(g, s, e.job, e);
  }

  // ----------------------------------------------------- when a call is started, exactly

  /** The step starts a call. */
  predicate Started(s: State, t: State) {
    |t.effects| == |s.effects| + 1
  }

  lemma ReservationNoted(g: Gate, lines: seq<Line>, r: Receipt, w: Write)
    requires UsableTail(lines) && r.meta == Some(ReservationMeta()) && w.disk == Written
    ensures Noted(g, lines, r, w)
  {
    hide ReservationMeta, UsableTail, Note, Noted;
    ReservationMetaFits();
    GoodNote(g, lines, r, w);
  }

  lemma VerifiedUsable(c: Custody, lines: seq<Line>)
    requires Verified(c, lines)
    ensures UsableTail(lines)
  {
    hide Verified;
    if lines != [] { VerifiedLine(c, lines, |lines| - 1); }
  }

  lemma ServedStartsIff(g: Gate, s: State, r: Egress, w: Write)
    requires w.disk == Written
    ensures Started(s, StartPerformer(g, s, r, w)) <==>
      Verified(g.custody, s.lines) && !Recorded(s.lines, PerformerOp(g, r))
    ensures !Started(s, StartPerformer(g, s, r, w)) ==> StartPerformer(g, s, r, w) == s
  {
    hide Verified, Recorded, PerformerOp, Note, Noted, UsableTail, ReservationMeta;
    if Verified(g.custody, s.lines) {
      VerifiedUsable(g.custody, s.lines);
      ReservationNoted(g, s.lines, EgressReceipt(r, Reserved, Some(PerformerOp(g, r)), ReservationMeta()), w);
    }
  }

  /** A request that needs no approval, or whose approval was given, starts its performer, with a good write, exactly
      on a verified ledger that does not hold its identity; otherwise the ledger stays as it is. */
  lemma PerformerStartsIff(g: Gate, s: State, e: Event, r: Egress)
    requires e.Serve? || e.ApprovalRead?
    requires e.Serve? ==> e.r == r
    requires e.ApprovalRead? ==> e.reply.Approved? && e.job < |s.jobs| && s.jobs[e.job] == Reading(r)
    requires e.w.disk == Written
    ensures Started(s, Step(g, s, e)) <==> Verified(g.custody, s.lines) && !Recorded(s.lines, PerformerOp(g, r))
    ensures !Started(s, Step(g, s, e)) ==> Step(g, s, e).lines == s.lines
  {
    hide Verified, Recorded, StartPerformer, PerformerOp;
    if e.Serve? { ServedStartsIff(g, s, r, e.w); } else { ServedStartsIff(g, Finish(s, e.job), r, e.w); }
  }

  lemma ApprovalStartsIff(g: Gate, s: State, e: Event)
    requires e.RequestApproval? && e.w.disk == Written
    ensures Started(s, Step(g, s, e)) <==> Verified(g.custody, s.lines) && !Recorded(s.lines, ApprovalOp(g, e.r))
  {
    hide Verified, Recorded, ApprovalOp, Note, Noted, UsableTail, ReservationMeta;
    if Verified(g.custody, s.lines) {
      VerifiedUsable(g.custody, s.lines);
      ReservationNoted(g, s.lines, EgressReceipt(e.r.(approval := None), Reserved, Some(ApprovalOp(g, e.r)),
                                                 ReservationMeta()), e.w);
    }
  }

  lemma AnchorStartsIff(g: Gate, s: State, e: Event)
    requires e.Anchor? && e.w.disk == Written
    ensures Started(s, Step(g, s, e)) <==>
      Verified(g.custody, s.lines) && !Recorded(s.lines, AnchorOp(g, e.text, e.issue))
  {
    hide Verified, Recorded, AnchorOp, Note, Noted, UsableTail, ReservationMeta;
    if Verified(g.custody, s.lines) {
      VerifiedUsable(g.custody, s.lines);
      var op, payload := AnchorOp(g, e.text, e.issue), g.custody.hash(e.text);
      ReservationNoted(g, s.lines, AnchorReceipt(Reserved, op, payload, e.agent, ReservationMeta()), e.w);
    }
  }

  /** A poller comment starts, with a good write, exactly for a refused approval that has an issue and whose comment
      is not on the ledger yet. */
  lemma CommentStartsIff(g: Gate, s: State, e: Event)
    requires e.PollRead? && e.job < |s.jobs| && s.jobs[e.job].Polling? && s.jobs[e.job].items != []
    requires e.w.disk == Written && UsableTail(s.lines)
    ensures var x := s.jobs[e.job].items[0];
      Started(s, Step(g, s, e)) <==>
        e.refused && HasIssue(x) && Readable(s.lines) && !Recorded(s.lines, PollOp(g, x))
  {
    hide Verified, Recorded, PollOp, PollPayload, Note, Noted, UsableTail, ReservationMeta, Readable, BeginItems;
    var t, x, rest := Finish(s, e.job), s.jobs[e.job].items[0], s.jobs[e.job].items[1..];
    var op := PollOp(g, x);
    var blocked := PollReceipt(g, x, Blocked, None, e.meta);
    ReservationNoted(g, s.lines, PollReceipt(g, x, Reserved, Some(op), ReservationMeta()), e.w);
    BeginLines(g, t, rest);
    BeginLines(g, t.(lines := Note(g, t.lines, blocked, e.w)), rest);
    assert Step(g, s, e) == ContinuePoll(g, t, s.jobs[e.job].items, e);
  }
}
