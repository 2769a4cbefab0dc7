/** The CLI-auth connect handshake, with polls and challenge requests in flight at the same time. */
module Connect {
  import opened Options

  datatype Challenge = Challenge(challengeId: string, challengeToken: string, boardToken: string, approvalUrl: string)

  /** A pending record; two records are the same object only if they have the same identity. */
  datatype Pending = Pending(identity: nat, challenge: Challenge)

  datatype State = Disconnected | AwaitingApproval(approvalUrl: string) | Connected

  // --------------------------------------------------------------------------- the store

  /** The synchronous stretches of the store's methods: what runs before and after each await. */
  class CredentialStore {
    var pending: Option<Pending>
    var liveToken: Option<string>
    var created: nat

    function View(): Store
      reads this
    {
      Store(pending, liveToken, created)
    }

    constructor ()
      ensures View() == Store(None, None, 0)
    {
      pending, liveToken, created := None, None, 0;
    }

    method CurrentState() returns (s: State)
      ensures s == StateOf(View())
    {
      s := if liveToken.Some? && liveToken.value != "" then Connected
           else if pending.Some? then AwaitingApproval(pending.value.challenge.approvalUrl)
           else Disconnected;
    }

    /** startConnect, once the challenge has been created. */
    method StartConnect(challenge: Challenge) returns (approvalUrl: string)
      modifies this
      ensures View() == Started(old(View()), challenge) && approvalUrl == challenge.approvalUrl
    {
      liveToken := None;
      pending := Some(Pending(created, challenge));
      created := created + 1;
      approvalUrl := challenge.approvalUrl;
    }

    /** pollConnect before its await. */
    method BeginPoll() returns (snapshot: Option<Pending>)
      ensures snapshot == pending
    {
      snapshot := pending;
    }

    /** pollConnect after its await, with the status the poll of that snapshot returned. */
    method EndPoll(snapshot: Pending, status: string) returns (s: State)
      modifies this
      ensures View() == Polled(old(View()), snapshot, status) && s == StateOf(View())
    {
      if pending == Some(snapshot) {
        if status == "approved" {
          liveToken := Some(snapshot.challenge.boardToken);
          pending := None;
        } else if status == "expired" || status == "cancelled" {
          pending := None;
          liveToken := None;
        }
      }
      s := CurrentState();
    }

    method Disconnect()
      modifies this
      ensures View() == Store(None, None, old(created))
    {
      pending := None;
      liveToken := None;
    }
  }

  datatype Store = Store(pending: Option<Pending>, liveToken: Option<string>, created: nat)

  /** What the caller sees; an empty token does not count as connected. */
  function StateOf(s: Store): State {
    if s.liveToken.Some? && s.liveToken.value != "" then Connected
    else if s.pending.Some? then AwaitingApproval(s.pending.value.challenge.approvalUrl)
    else Disconnected
  }

  /** Connected exactly while a token that is not empty is live; else the page of the challenge still open. */
  lemma StateOfIs(s: Store)
    ensures StateOf(s) == Connected <==> exists t: string :: t != "" && s.liveToken == Some(t)
    ensures forall url :: StateOf(s) == AwaitingApproval(url) <==>
      && (s.liveToken == None || s.liveToken == Some(""))
      && s.pending.Some? && s.pending.value.challenge.approvalUrl == url
    ensures StateOf(s) == Disconnected <==> (s.liveToken == None || s.liveToken == Some("")) && s.pending == None
  {
    if s.liveToken.Some? && s.liveToken.value != "" { assert s.liveToken == Some(s.liveToken.value); }
  }

  function Started(s: Store, challenge: Challenge): Store {
    Store(Some(Pending(s.created, challenge)), None, s.created + 1)
  }

  function Polled(s: Store, snapshot: Pending, status: string): Store {
    if s.pending != Some(snapshot) then s
    else if status == "approved" then Store(None, Some(snapshot.challenge.boardToken), s.created)
    else if status == "expired" || status == "cancelled" then Store(None, None, s.created)
    else s
  }

  /** An answer counts only while its challenge is pending: approval makes its token live, an end clears everything,
      and any other status leaves the challenge open. */
  lemma PolledIs(s: Store, snapshot: Pending, status: string)
    ensures var t := Polled(s, snapshot, status);
      && t.created == s.created
      && (s.pending != Some(snapshot) || status !in {"approved", "expired", "cancelled"} ==> t == s)
      && (s.pending == Some(snapshot) && status in {"approved", "expired", "cancelled"} ==> t.pending == None)
      && (s.pending == Some(snapshot) && status in {"expired", "cancelled"} ==> t.liveToken == None)
      && (s.pending == Some(snapshot) && status == "approved" ==> t.liveToken == Some(snapshot.challenge.boardToken))
  {}

  // -------------------------------------------------------------------- interleaved runs

  /** One step of some method call: polls begin and end separately, and any number are in flight. */
  datatype Event =
    | ChallengeCreated(challenge: Challenge)
    | PollBegins
    | PollReturns(snapshot: Pending, status: string)
    | Disconnects

  datatype World = World(store: Store, flying: multiset<Pending>)

  predicate CanHappen(w: World, e: Event) {
    e.PollReturns? ==> e.snapshot in w.flying
  }

  function Next(w: World, e: Event): World
    requires CanHappen(w, e)
  {
    match e
    case ChallengeCreated(challenge) => w.(store := Started(w.store, challenge))
    case PollBegins => if w.store.pending.Some? then w.(flying := w.flying + multiset{w.store.pending.value}) else w
    case PollReturns(snapshot, status) => World(Polled(w.store, snapshot, status), w.flying - multiset{snapshot})
    case Disconnects => w.(store := Store(None, None, w.store.created))
  }

  ghost predicate IsRun(ws: seq<World>, es: seq<Event>) {
    |ws| == |es| + 1 && ws[0] == World(Store(None, None, 0), multiset{})
    && forall i :: 0 <= i < |es| ==> Follows(ws[i], es[i], ws[i + 1])
  }

  ghost predicate Follows(w: World, e: Event, w': World) {
    CanHappen(w, e) && w' == Next(w, e)
  }

  /** Pending and live are never both set, and every record in use was created before. */
  predicate Inv(w: World) {
    && (w.store.pending.None? || w.store.liveToken.None?)
    && (w.store.pending.Some? ==> w.store.pending.value.identity < w.store.created)
    && (forall p :: p in w.flying ==> p.identity < w.store.created)
  }

  lemma {:induction false} RunInv(ws: seq<World>, es: seq<Event>, n: nat)
    requires IsRun(ws, es) && n <= |es|
    ensures Inv(ws[n])
  {
    hide Inv, Follows;
    if n == 0 {
      StartInv();
    } else {
      RunInv(ws, es, n - 1);
      assert Follows(ws[n - 1], es[n - 1], ws[n - 1 + 1]);
      StepInv(ws[n - 1], es[n - 1], ws[n]);
    }
  }

  lemma StartInv()
    ensures Inv(World(Store(None, None, 0), multiset{}))
  {}

  lemma StepInv(w: World, e: Event, w': World)
    requires Inv(w) && Follows(w, e, w')
    ensures Inv(w')
  {}

  /** Only an approved poll of the pending challenge sets a token; only it and the other resets end one. */
  lemma LiveStep(w: World, e: Event, w': World)
    requires Inv(w) && Follows(w, e, w') && w'.store.liveToken.Some?
    ensures !e.ChallengeCreated? && !e.Disconnects?
    ensures w.store.liveToken.Some? ==> w'.store.liveToken == w.store.liveToken
    ensures w.store.liveToken.None? ==>
      && e.PollReturns? && e.status == "approved" && w.store.pending == Some(e.snapshot)
      && e.snapshot.challenge.boardToken == w'.store.liveToken.value
  {}

  /** At no time are a pending challenge and a live token both held. */
  lemma NeverBoth(ws: seq<World>, es: seq<Event>, n: nat)
    requires IsRun(ws, es) && n <= |es|
    ensures ws[n].store.pending.None? || ws[n].store.liveToken.None?
    ensures StateOf(ws[n].store).AwaitingApproval? <==> ws[n].store.pending.Some?
  {
    RunInv(ws, es, n);
  }

  // A poll in flight is of one record; once that record is no longer pending it never is again.

  /** The record was pending and is not any more: nothing is, or a record created later. */
  predicate Gone(s: Store, p: Pending) {
    p.identity < s.created && (s.pending.None? || p.identity < s.pending.value.identity)
  }

  predicate PendingOrGone(s: Store, p: Pending) {
    s.pending == Some(p) || Gone(s, p)
  }

  /** The step takes the record out of pending: a new challenge, a disconnect, or the answer to another poll of it. */
  predicate Supersedes(e: Event, p: Pending) {
    e.ChallengeCreated? || e.Disconnects? || (e.PollReturns? && e.snapshot == p && Settles(e.status))
  }

  predicate Settles(status: string) {
    status == "approved" || status == "expired" || status == "cancelled"
  }

  lemma GoneStep(w: World, e: Event, w': World, p: Pending)
    requires Inv(w) && Follows(w, e, w') && PendingOrGone(w.store, p)
    ensures PendingOrGone(w'.store, p)
    ensures Gone(w.store, p) || Supersedes(e, p) ==> Gone(w'.store, p)
    ensures w.store.pending == Some(p) && !Supersedes(e, p) ==> w'.store.pending == Some(p)
  {}

  lemma {:induction false} GoneOn(ws: seq<World>, es: seq<Event>, from: nat, n: nat, p: Pending)
    requires IsRun(ws, es) && from <= n <= |es| && PendingOrGone(ws[from].store, p)
    ensures PendingOrGone(ws[n].store, p) && (Gone(ws[from].store, p) ==> Gone(ws[n].store, p))
    decreases n
  {
    hide Inv, Follows, Gone, PendingOrGone;
    if from < n {
      GoneOn(ws, es, from, n - 1, p);
      RunInv(ws, es, n - 1);
      assert Follows(ws[n - 1], es[n - 1], ws[n - 1 + 1]);
      GoneStep(ws[n - 1], es[n - 1], ws[n], p);
    }
  }

  /** A poll begun at b returns at n for the record that was pending then; when a challenge, a disconnect or another
      poll's answer took that record away in between, the return changes nothing, whatever its status. */
  lemma StalePollChangesNothing(ws: seq<World>, es: seq<Event>, b: nat, j: nat, n: nat)
    requires IsRun(ws, es) && b < j < n < |es|
    requires es[b].PollBegins? && es[n].PollReturns? && ws[b].store.pending == Some(es[n].snapshot)
    requires Supersedes(es[j], es[n].snapshot)
    ensures ws[n + 1].store == ws[n].store
  {
    var p := es[n].snapshot;
    RunInv(ws, es, b);
    RunInv(ws, es, j);
    assert Follows(ws[j], es[j], ws[j + 1]) && Follows(ws[n], es[n], ws[n + 1]);
    GoneOn(ws, es, b, j, p);
    GoneStep(ws[j], es[j], ws[j + 1], p);
    GoneOn(ws, es, j + 1, n, p);
  }

  /** No step in this stretch takes the record out of pending. */
  ghost predicate StillAwaited(es: seq<Event>, from: nat, to: nat, p: Pending) {
    forall j :: from <= j < to && j < |es| ==> !Supersedes(es[j], p)
  }

  lemma {:induction false} AwaitedOn(ws: seq<World>, es: seq<Event>, from: nat, n: nat, p: Pending)
    requires IsRun(ws, es) && from <= n <= |es| && ws[from].store.pending == Some(p) && StillAwaited(es, from, n, p)
    ensures ws[n].store.pending == Some(p)
    decreases n
  {
    hide Inv, Follows, Supersedes;
    if from < n {
      AwaitedOn(ws, es, from, n - 1, p);
      RunInv(ws, es, n - 1);
      assert Follows(ws[n - 1], es[n - 1], ws[n - 1 + 1]);
      GoneStep(ws[n - 1], es[n - 1], ws[n], p);
    }
  }

  /** An approval brings a poll's token to life exactly when nothing took its record away since the poll began. */
  lemma ApprovalCountsIff(ws: seq<World>, es: seq<Event>, b: nat, n: nat)
    requires IsRun(ws, es) && b < n < |es| && es[b].PollBegins?
    requires es[n].PollReturns? && es[n].status == "approved" && ws[b].store.pending == Some(es[n].snapshot)
    ensures StillAwaited(es, b + 1, n, es[n].snapshot) <==>
      ws[n].store.pending == Some(es[n].snapshot)
        && ws[n + 1].store.liveToken == Some(es[n].snapshot.challenge.boardToken)
  {
    var p := es[n].snapshot;
    assert Follows(ws[n], es[n], ws[n + 1]) && Follows(ws[b], es[b], ws[b + 1]);
    if StillAwaited(es, b + 1, n, p) {
      AwaitedOn(ws, es, b + 1, n, p);
    } else {
      var j :| b + 1 <= j < n && Supersedes(es[j], p);
      RunInv(ws, es, b);
      RunInv(ws, es, j);
      assert Follows(ws[j], es[j], ws[j + 1]);
      GoneOn(ws, es, b, j, p);
      GoneStep(ws[j], es[j], ws[j + 1], p);
      GoneOn(ws, es, j + 1, n, p);
    }
  }

  /** This step approved the challenge whose token is then live. */
  ghost predicate Approves(ws: seq<World>, es: seq<Event>, k: nat, token: string) {
    k < |es| && k < |ws| && es[k].PollReturns? && es[k].status == "approved"
      && ws[k].store.pending == Some(es[k].snapshot)
    && es[k].snapshot.challenge.boardToken == token
  }

  /** Neither a new challenge nor a disconnect happens in this stretch. */
  ghost predicate Undisturbed(es: seq<Event>, from: nat, to: nat) {
    forall j :: from <= j < to && j < |es| ==> !es[j].ChallengeCreated? && !es[j].Disconnects?
  }

  /** A live token is the token of a challenge whose own poll came back approved while it was still the pending one,
      and nothing has replaced or dropped it since. */
  lemma {:induction false} LiveTokenWasApproved(ws: seq<World>, es: seq<Event>, n: nat) returns (k: nat)
    requires IsRun(ws, es) && n <= |es| && ws[n].store.liveToken.Some?
    ensures k < n && Approves(ws, es, k, ws[n].store.liveToken.value) && Undisturbed(es, k + 1, n)
  {
    assert n > 0;
    hide Inv, Follows;
    RunInv(ws, es, n - 1);
    assert Follows(ws[n - 1], es[n - 1], ws[n - 1 + 1]);
    LiveStep(ws[n - 1], es[n - 1], ws[n]);
    if ws[n - 1].store.liveToken.None? {
      k := n - 1;
    } else {
      k := LiveTokenWasApproved(ws, es, n - 1);
    }
  }

  /** The pending snapshot of a poll was set by a challenge that was really created, the latest one. */
  lemma {:induction false} PendingIsLatest(ws: seq<World>, es: seq<Event>, n: nat) returns (k: nat)
    requires IsRun(ws, es) && n <= |es| && ws[n].store.pending.Some?
    ensures k < n && es[k] == ChallengeCreated(ws[n].store.pending.value.challenge) && Undisturbed(es, k + 1, n)
  {
    assert n > 0;
    assert Follows(ws[n - 1], es[n - 1], ws[n - 1 + 1]);
    if es[n - 1].ChallengeCreated? {
      k := n - 1;
    } else {
      k := PendingIsLatest(ws, es, n - 1);
    }
  }

  /** So the live token always belongs to the latest challenge created before its approval. */
  lemma LiveTokenIsOfLatestChallenge(ws: seq<World>, es: seq<Event>, n: nat) returns (c: nat, k: nat)
    requires IsRun(ws, es) && n <= |es| && ws[n].store.liveToken.Some?
    ensures c < k < n && Approves(ws, es, k, ws[n].store.liveToken.value) && Undisturbed(es, c + 1, n)
    ensures es[c] == ChallengeCreated(es[k].snapshot.challenge)
  {
    k := LiveTokenWasApproved(ws, es, n);
    c := PendingIsLatest(ws, es, k);
  }
}
