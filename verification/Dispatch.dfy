/**
 * The reserve, perform, record protocol of the gate as a state machine.
 *
 * A step is the code a handler runs between two awaits. Requests, poller passes, crashes,
 * restarts, failed and torn writes and tail repairs interleave in any order.
 */
module Dispatch {
  import opened Options
  import opened Texts
  import opened CanonicalJson
  import opened Receipts
  import opened Operations
  import opened Poller

  /** tsa: a time-stamping authority is configured, so anchoring waits for a token first. */
  datatype Gate = Gate(custody: Custody, tsa: bool)

  /** Time and outcome of one write to the ledger file. */
  datatype Write = Write(ts: Text, disk: Disk)

  datatype Egress = Egress(
    tool: Text, payload: Text, boundary: Json, decision: Json,
    agent: Option<Text>, issue: Option<Text>, approval: Option<Text>)

  datatype Kind = Performer | ApprovalCreation | Timestamp | AnchorComment | PollComment(approval: Text)

  /** An external call that was started: its identity, the ledger length then, and whether the ledger verified. */
  datatype Effect = Effect(operation: Text, kind: Kind, at: nat, intact: bool)

  /** A handler suspended at an await. */
  datatype Job =
    | Performing(r: Egress, operation: Text)
    | Creating(r: Egress, operation: Text)
    | Reading(r: Egress)
    | Stamping(operation: Text, payload: Text, agent: Option<Text>)
    | Anchoring(operation: Text, payload: Text, agent: Option<Text>)
    | Polling(items: seq<Item>)
    | Commenting(items: seq<Item>, operation: Text)
    | Finished

  datatype State = State(lines: seq<Line>, jobs: seq<Job>, effects: seq<Effect>, polling: bool)

  datatype ApprovalReply = Approved | Denied | StillPending | ReadFailed

  datatype Event =
    | Serve(r: Egress, w: Write)
    | PerformerReturned(job: nat, ok: bool, masked: bool, meta: Json, w: Write, w2: Write)
    | RequestApproval(r: Egress, w: Write, w2: Write)
    | ApprovalCreated(job: nat, created: Option<Text>, meta: Json, w: Write)
    | Resume(r: Egress, meta: Json, w: Write)
    | ApprovalRead(job: nat, reply: ApprovalReply, meta: Json, w: Write)
    | Anchor(text: Text, issue: Option<Text>, agent: Option<Text>, w: Write)
    | Stamped(job: nat, ok: bool, meta: Json, w: Write)
    | Anchored(job: nat, ok: bool, meta: Json, w: Write)
    | Poll
    | PollRead(job: nat, refused: bool, meta: Json, w: Write)
    | PollCommented(job: nat, ok: bool, meta: Json, w: Write)
    | Other(receipt: Receipt, w: Write)
    | Crash
    | RepairTail
    | Damage(position: nat, line: Line)

  // ------------------------------------------------------------------ identities

  function PerformerOp(g: Gate, r: Egress): Digest {
    OperationId(g.custody.hash, OperationInput(Lit("performer"), r.tool, Some(r.payload), r.issue, r.approval))
  }

  function ApprovalOp(g: Gate, r: Egress): Digest {
    OperationId(g.custody.hash, OperationInput(Lit("paperclip_approval"), r.tool, Some(r.payload), r.issue, None))
  }

  function AnchorOp(g: Gate, text: Text, issue: Option<Text>): Digest {
    OperationId(g.custody.hash,
      OperationInput(Lit("paperclip_comment"), Lit("anchor"), Some(g.custody.hash(text)), issue, None))
  }

  function PollPayload(g: Gate, x: Item): Digest {
    g.custody.hash(Lit("poller:") + x.approval)
  }

  function PollOp(g: Gate, x: Item): Digest {
    OperationId(g.custody.hash,
      OperationInput(Lit("paperclip_comment"), x.tool, Some(PollPayload(g, x)), x.issue, Some(x.approval)))
  }

  // -------------------------------------------------------------------- receipts

  function EgressReceipt(r: Egress, outcome: Outcome, operation: Option<Text>, meta: Json): Receipt {
    Receipt(Lit("egress"), r.tool, r.boundary, r.decision, outcome, r.payload, r.agent, r.issue, r.approval, operation,
            Some(meta))
  }

  function AnchorReceipt(outcome: Outcome, operation: Text, payload: Text, agent: Option<Text>, meta: Json): Receipt {
    Receipt(Lit("anchor"), Lit("anchor"), Null, Null, outcome, payload, agent, None, None, Some(operation), Some(meta))
  }

  function PollReceipt(g: Gate, x: Item, outcome: Outcome, operation: Option<Text>, meta: Json): Receipt {
    Receipt(Lit("egress"), x.tool, Null, Str(Lit("human")), outcome, PollPayload(g, x), None, x.issue, Some(x.approval),
            operation, Some(meta))
  }

  function ReservationMeta(): Json {
    Obj([Member(Lit("dispatchReservation"), Bool(true))])
  }

  // ----------------------------------------------------------------------- steps

  /** The lines after one append, whatever the append returns. */
  function Note(g: Gate, lines: seq<Line>, receipt: Receipt, w: Write): seq<Line> {
    AppendTo(g.custody, lines, Body(receipt), w.ts, w.disk).0
  }

  function Noted(g: Gate, lines: seq<Line>, receipt: Receipt, w: Write): bool {
    AppendTo(g.custody, lines, Body(receipt), w.ts, w.disk).1.Appended?
  }

  /** assertAppendable and hasUnresolvedDispatch: may this identity be reserved now? */
  predicate Free(g: Gate, lines: seq<Line>, op: Text) {
    Verified(g.custody, lines) && !Recorded(lines, op)
  }

  function Finish(s: State, job: nat): State
    requires job < |s.jobs|
  {
    s.(jobs := s.jobs[job := Finished])
  }

  function Spawn(s: State, job: Job): State {
    s.(jobs := s.jobs + [job])
  }

  /** Start an external call and suspend until it answers. */
  function Launch(g: Gate, s: State, op: Text, kind: Kind, job: Job): State {
    Spawn(s, job).(effects := s.effects + [Effect(op, kind, |s.lines|, Verified(g.custody, s.lines))])
  }

  /** Append the reservation; launch only when the append returned. */
  function ReserveAndLaunch(g: Gate, s: State, reservation: Receipt, w: Write, op: Text, kind: Kind, job: Job): State {
    var after := s.(lines := Note(g, s.lines, reservation, w));
    if Noted(g, s.lines, reservation, w) then Launch(g, after, op, kind, job) else after
  }

  /** performAndReceipt up to its await. */
  function StartPerformer(g: Gate, s: State, r: Egress, w: Write): State {
    var op := PerformerOp(g, r);
    if !Free(g, s.lines, op) then s
    else ReserveAndLaunch(g, s, EgressReceipt(r, Reserved, Some(op), ReservationMeta()), w, op, Performer,
                          Performing(r, op))
  }

  /** The next item of a poller pass, up to its await; the pass ends when no item can be begun. */
  function BeginItems(g: Gate, s: State, items: seq<Item>): State {
    if items == [] || !Verified(g.custody, s.lines) then s.(polling := false) else Spawn(s, Polling(items))
  }

  function FinishPerformer(g: Gate, s: State, j: Job, e: Event): State
    requires j.Performing? && e.PerformerReturned?
  {
    var good := EgressReceipt(j.r, if e.masked then AnonymizedPerformed else Performed, Some(j.operation), e.meta);
    var bad := EgressReceipt(j.r, Errored, Some(j.operation), e.meta);
    if !e.ok then s.(lines := Note(g, s.lines, bad, e.w))
    else
      var after := Note(g, s.lines, good, e.w);
      if Noted(g, s.lines, good, e.w) then s.(lines := after) else s.(lines := Note(g, after, bad, e.w2))
  }

  /** A first human-gate call, up to its await; a failed check or reservation leaves an error receipt. */
  function StartApproval(g: Gate, s: State, r: Egress, w: Write, w2: Write): State {
    var op := ApprovalOp(g, r);
    var reservation := EgressReceipt(r.(approval := None), Reserved, Some(op), ReservationMeta());
    var failed := EgressReceipt(r.(approval := None), Errored, Some(op), ReservationMeta());
    if !Verified(g.custody, s.lines) then s.(lines := Note(g, s.lines, failed, w2))
    else if Recorded(s.lines, op) then s
    else if Noted(g, s.lines, reservation, w)
      then ReserveAndLaunch(g, s, reservation, w, op, ApprovalCreation, Creating(r, op))
    else s.(lines := Note(g, Note(g, s.lines, reservation, w), failed, w2))
  }

  function StartAnchor(g: Gate, s: State, e: Event): State
    requires e.Anchor?
  {
    var op, payload := AnchorOp(g, e.text, e.issue), g.custody.hash(e.text);
    if !Free(g, s.lines, op) then s
    else
      ReserveAndLaunch(g, s, AnchorReceipt(Reserved, op, payload, e.agent, ReservationMeta()), e.w, op,
        if g.tsa then Timestamp else AnchorComment,
        if g.tsa then Stamping(op, payload, e.agent) else Anchoring(op, payload, e.agent))
  }

  /** A poller item once its approval was read: refused approvals are commented on, once, and settled. */
  function ContinuePoll(g: Gate, s: State, items: seq<Item>, e: Event): State
    requires e.PollRead? && |items| > 0
  {
    var x, rest := items[0], items[1..];
    if !e.refused then BeginItems(g, s, rest)
    else if x.issue.None? || x.issue.value == [] then
      BeginItems(g, s.(lines := Note(g, s.lines, PollReceipt(g, x, Blocked, None, e.meta), e.w)), rest)
    else
      var op := PollOp(g, x);
      var reservation := PollReceipt(g, x, Reserved, Some(op), ReservationMeta());
      if !Readable(s.lines) || Recorded(s.lines, op) then BeginItems(g, s, rest)
      else if Noted(g, s.lines, reservation, e.w) then
        ReserveAndLaunch(g, s, reservation, e.w, op, PollComment(x.approval), Commenting(items, op))
      else BeginItems(g, s.(lines := Note(g, s.lines, reservation, e.w)), rest)
  }

  /** A suspended handler resumes; an event that does not fit the job is ignored. */
  function ResumeJob(g: Gate, s: State, j: Job, e: Event): State {
    match (j, e)
    case (Performing(_, _), PerformerReturned(_, _, _, _, _, _)) => FinishPerformer(g, s, j, e)
    case (Creating(r, op), ApprovalCreated(_, created, meta, w)) =>
      var receipt := if created.Some? then EgressReceipt(r.(approval := created), Pending, Some(op), meta)
                     else EgressReceipt(r.(approval := None), Errored, Some(op), meta);
      s.(lines := Note(g, s.lines, receipt, w))
    case (Reading(r), ApprovalRead(_, reply, meta, w)) =>
      (match reply
       case Approved => StartPerformer(g, s, r, w)
       case Denied => s.(lines := Note(g, s.lines, EgressReceipt(r, Blocked, None, meta), w))
       case StillPending => s.(lines := Note(g, s.lines, EgressReceipt(r, Pending, None, meta), w))
       case ReadFailed => s.(lines := Note(g, s.lines, EgressReceipt(r, Errored, None, meta), w)))
    case (Stamping(op, payload, agent), Stamped(_, ok, meta, w)) =>
      if ok then Launch(g, s, op, AnchorComment, Anchoring(op, payload, agent))
      else s.(lines := Note(g, s.lines, AnchorReceipt(Errored, op, payload, agent, meta), w))
    case (Anchoring(op, payload, agent), Anchored(_, ok, meta, w)) =>
      if ok then s.(lines := Note(g, s.lines, AnchorReceipt(Performed, op, payload, agent, meta), w)) else s
    case (Polling(items), PollRead(_, _, _, _)) => if items == [] then s else ContinuePoll(g, s, items, e)
    case (Commenting(items, op), PollCommented(_, ok, meta, w)) =>
      if items == [] then s
      else
        var after := if ok then s.(lines := Note(g, s.lines, PollReceipt(g, items[0], Blocked, Some(op), meta), w))
          else s;
        BeginItems(g, after, items[1..])
    case _ => s
  }

  /** Does the event answer what the job waits for? */
  predicate Answers(j: Job, e: Event) {
    || (j.Performing? && e.PerformerReturned?) || (j.Creating? && e.ApprovalCreated?)
    || (j.Reading? && e.ApprovalRead?) || (j.Stamping? && e.Stamped?) || (j.Anchoring? && e.Anchored?)
    || (j.Polling? && e.PollRead?) || (j.Commenting? && e.PollCommented?)
  }

  function JobOf(e: Event): Option<nat> {
    match e
    case PerformerReturned(j, _, _, _, _, _) => Some(j)
    case ApprovalCreated(j, _, _, _) => Some(j)
    case ApprovalRead(j, _, _, _) => Some(j)
    case Stamped(j, _, _, _) => Some(j)
    case Anchored(j, _, _, _) => Some(j)
    case PollRead(j, _, _, _) => Some(j)
    case PollCommented(j, _, _, _) => Some(j)
    case _ => None
  }

  function Step(g: Gate, s: State, e: Event): State {
    match e
    case Serve(r, w) => StartPerformer(g, s, r, w)
    case RequestApproval(r, w, w2) => StartApproval(g, s, r, w, w2)
    case Resume(r, meta, w) =>
      if Verified(g.custody, s.lines) then Spawn(s, Reading(r))
      else s.(lines := Note(g, s.lines, EgressReceipt(r, Errored, None, meta), w))
    case Anchor(_, _, _, _) => StartAnchor(g, s, e)
    case Poll =>
      if s.polling || !Readable(s.lines) then s
      else BeginItems(g, s.(polling := true), Unresolved(s.lines, |s.lines|))
    case Other(receipt, w) => if receipt.outcome.Reserved? then s else s.(lines := Note(g, s.lines, receipt, w))
    case Crash => s.(jobs := [], polling := false)
    case RepairTail =>
      if |s.lines| > 0 && s.lines[|s.lines| - 1] == Unparseable then s.(lines := s.lines[..|s.lines| - 1]) else s
    case Damage(i, line) => if i < |s.lines| then s.(lines := s.lines[i := line]) else s
    case _ =>
      var j := JobOf(e);
      if j.Some? && j.value < |s.jobs| && Answers(s.jobs[j.value], e)
      then ResumeJob(g, Finish(s, j.value), s.jobs[j.value], e) else s
  }

  const START := State([], [], [], false)

  function Run(g: Gate, run: seq<Event>): State {
    if run == [] then START else Step(g, Run(g, run[..|run| - 1]), run[|run| - 1])
  }

  /** A run in which nothing but the gate, and the repair of a torn tail, touches the file. */
  predicate Undamaged(run: seq<Event>) {
    forall i :: 0 <= i < |run| ==> !run[i].Damage?
  }

  // --------------------------------------------------------- the checked segment as code

  /** assertAppendable, hasUnresolvedDispatch and the reservation append, with nothing in between. */
  method Reserve(g: Gate, chain: ReceiptChain, op: Text, reservation: Receipt, w: Write) returns (reserved: bool)
    requires chain.custody == g.custody
    modifies chain`lines
    ensures reserved <==> Free(g, old(chain.lines), op) && Noted(g, old(chain.lines), reservation, w)
    ensures chain.lines == if Free(g, old(chain.lines), op) then Note(g, old(chain.lines), reservation, w)
      else old(chain.lines)
  {
    hide AppendTo, Verified, Recorded, Body;
    var verdict := chain.Verify();
    if verdict.Broken? { return false; }
    var scan := HasUnresolvedDispatch(chain, op);
    VerifiedReadable(chain.custody, chain.lines);
    if scan == Found(true) { return false; }
    var r := chain.Append(Body(reservation), w.ts, w.disk);
    reserved := r.Appended?;
  }
}
