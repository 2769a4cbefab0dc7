/** Which approvals a poller pass has to settle, read off the ledger. */
module Poller {
  import opened Options
  import opened Texts
  import opened CanonicalJson
  import opened Receipts
  import opened Operations

  datatype Item = Item(approval: Text, issue: Option<Text>, tool: Text)

  /** The line carries this approval id; the empty id is no id. */
  predicate Names(line: Line, a: Text) {
    a != [] && ApprovalOf(line) == Some(a)
  }

  predicate IsPending(line: Line, a: Text) {
    Names(line, a) && HasOutcome(line, Pending)
  }

  predicate Settles(line: Line, a: Text) {
    Names(line, a) && !HasOutcome(line, Pending) && !HasOutcome(line, Reserved)
  }

  predicate Resolved(lines: seq<Line>, a: Text) {
    exists i :: 0 <= i < |lines| && Settles(lines[i], a)
  }

  /** The first pending receipt for an approval among the first n lines. */
  function FirstPending(lines: seq<Line>, n: nat, a: Text): Option<Item>
    requires n <= |lines|
  {
    if n == 0 then None
    else if FirstPending(lines, n - 1, a).Some? then FirstPending(lines, n - 1, a)
    else if IsPending(lines[n - 1], a) then Some(Item(a, IssueOf(lines[n - 1]), ToolOf(lines[n - 1])))
    else None
  }

  function ApprovalIn(line: Line): Text {
    if ApprovalOf(line).Some? then ApprovalOf(line).value else []
  }

  /** The items the second scan of findUnresolvedApprovals collects from the first n lines. */
  function Unresolved(lines: seq<Line>, n: nat): seq<Item>
    requires n <= |lines|
  {
    if n == 0 then []
    else
      var a := ApprovalIn(lines[n - 1]);
      if IsPending(lines[n - 1], a) && !Resolved(lines, a) && FirstPending(lines, n - 1, a).None?
      then Unresolved(lines, n - 1) + [Item(a, IssueOf(lines[n - 1]), ToolOf(lines[n - 1]))]
      else Unresolved(lines, n - 1)
  }

  lemma {:induction false} FirstPendingNamed(lines: seq<Line>, n: nat, a: Text)
    requires n <= |lines|
    ensures FirstPending(lines, n, a).Some? ==> FirstPending(lines, n, a).value.approval == a
    ensures FirstPending(lines, n, a).Some? <==> exists i :: 0 <= i < n && IsPending(lines[i], a)
  {
    hide IsPending;
    if n > 0 { FirstPendingNamed(lines, n - 1, a); }
  }

  /** Exactness: an approval is listed, with its first pending receipt, iff it is pending and unresolved. */
  lemma {:induction false} UnresolvedExact(lines: seq<Line>, n: nat, x: Item)
    requires n <= |lines|
    ensures x in Unresolved(lines, n) <==> FirstPending(lines, n, x.approval) == Some(x) && !Resolved(lines, x.approval)
  {
    hide Resolved, HasOutcome, ApprovalOf, IssueOf, ToolOf;
    if n > 0 {
      UnresolvedExact(lines, n - 1, x);
      FirstPendingNamed(lines, n - 1, x.approval);
    }
  }

  /** No approval is listed twice. */
  lemma {:induction false} UnresolvedDistinct(lines: seq<Line>, n: nat)
    requires n <= |lines|
    ensures DistinctApprovals(Unresolved(lines, n))
  {
    hide Resolved, HasOutcome, ApprovalOf, IssueOf, ToolOf, IsPending;
    if n > 0 {
      UnresolvedDistinct(lines, n - 1);
      var u, a := Unresolved(lines, n - 1), ApprovalIn(lines[n - 1]);
      forall i | 0 <= i < |u| ensures FirstPending(lines, n - 1, u[i].approval).Some? {
        assert u[i] in u;
        UnresolvedExact(lines, n - 1, u[i]);
      }
      if FirstPending(lines, n - 1, a).None? {
        assert forall i :: 0 <= i < |u| ==> u[i].approval != a;
      }
    }
  }

  ghost predicate DistinctApprovals(items: seq<Item>) {
    forall i, j :: 0 <= i < j < |items| ==> items[i].approval != items[j].approval
  }

  /** The first pending receipt never changes once it is there. */
  lemma {:induction false} FirstPendingStable(lines: seq<Line>, n: nat, more: seq<Line>, m: nat, a: Text)
    requires n <= |lines| && n <= m <= |more| && more[..n] == lines[..n]
    ensures FirstPending(lines, n, a).Some? ==> FirstPending(more, m, a) == FirstPending(lines, n, a)
    decreases m
  {
    hide IsPending;
    if m > n {
      FirstPendingStable(lines, n, more, m - 1, a);
    } else if n > 0 {
      assert more[n - 1] == more[..n][n - 1] == lines[n - 1];
      assert more[..n - 1] == more[..n][..n - 1] == lines[..n - 1];
      FirstPendingStable(lines, n - 1, more, m - 1, a);
      FirstPendingSame(lines, more, n - 1, a);
    }
  }

  lemma {:induction false} FirstPendingSame(lines: seq<Line>, more: seq<Line>, n: nat, a: Text)
    requires n <= |lines| && n <= |more| && more[..n] == lines[..n]
    ensures FirstPending(more, n, a) == FirstPending(lines, n, a)
  {
    hide IsPending;
    if n > 0 {
      assert more[n - 1] == more[..n][n - 1] == lines[n - 1];
      assert more[..n - 1] == more[..n][..n - 1] == lines[..n - 1];
      FirstPendingSame(lines, more, n - 1, a);
    }
  }

  /** Once settled, an approval is never listed again, however the ledger grows. */
  lemma ResolvedForEver(lines: seq<Line>, more: seq<Line>, x: Item)
    requires |lines| <= |more| && more[..|lines|] == lines && Resolved(lines, x.approval)
    ensures x !in Unresolved(more, |more|)
  {
    hide Settles;
    var i :| 0 <= i < |lines| && Settles(lines[i], x.approval);
    assert more[i] == more[..|lines|][i];
    UnresolvedExact(more, |more|, x);
  }

  // ---------------------------------------------------------- what is listed, spelled out

  predicate PendingAt(lines: seq<Line>, k: int, a: Text) {
    0 <= k < |lines| && Says(lines[k], "approvalId", a) && Says(lines[k], "outcome", Lit("pending"))
  }

  /** The approval was asked for, and nothing but reservations and repeated requests names it. */
  ghost predicate IsOpen(lines: seq<Line>, a: Text) {
    && a != [] && (exists k :: PendingAt(lines, k, a))
    && forall k :: 0 <= k < |lines| && Says(lines[k], "approvalId", a) ==>
      Says(lines[k], "outcome", Lit("pending")) || Says(lines[k], "outcome", Lit("reserved"))
  }

  /** Line k is the first to ask for the approval, and the item tells its issue and tool. */
  ghost predicate FirstAsked(lines: seq<Line>, k: int, x: Item) {
    && PendingAt(lines, k, x.approval) && (forall j :: 0 <= j < k ==> !PendingAt(lines, j, x.approval))
    && (if x.issue.Some? then Says(lines[k], "issueId", x.issue.value) else IssueOf(lines[k]) == None)
    && (Says(lines[k], "tool", x.tool) || (x.tool == [] && ToolOf(lines[k]) == []))
  }

  lemma IsPendingIs(lines: seq<Line>, k: int, a: Text)
    requires a != [] && 0 <= k < |lines|
    ensures IsPending(lines[k], a) <==> PendingAt(lines, k, a)
  {
    OutcomesNamed(lines[k]);
    hide HasOutcome, Lit, OutcomeText;
  }

  lemma IsOpenIs(lines: seq<Line>, a: Text)
    ensures IsOpen(lines, a) <==> a != [] && FirstPending(lines, |lines|, a).Some? && !Resolved(lines, a)
  {
    FirstPendingNamed(lines, |lines|, a);
    hide FirstPending;
    if a != [] {
      forall k | 0 <= k < |lines|
        ensures IsPending(lines[k], a) <==> PendingAt(lines, k, a)
        ensures Settles(lines[k], a) <==>
          && Says(lines[k], "approvalId", a)
          && !Says(lines[k], "outcome", Lit("pending")) && !Says(lines[k], "outcome", Lit("reserved"))
      {
        IsPendingIs(lines, k, a);
        OutcomesNamed(lines[k]);
        hide HasOutcome, Lit, OutcomeText;
      }
      hide IsPending, Settles, Says, PendingAt;
    }
  }

  lemma PendingSays(lines: seq<Line>, k: nat, a: Text)
    requires k < |lines| && PendingAt(lines, k, a)
    ensures var x := Item(a, IssueOf(lines[k]), ToolOf(lines[k]));
      && (if x.issue.Some? then Says(lines[k], "issueId", x.issue.value) else IssueOf(lines[k]) == None)
      && (Says(lines[k], "tool", x.tool) || (x.tool == [] && ToolOf(lines[k]) == []))
  {
    hide Lit;
  }

  /** Exactly the open approvals are listed, each as its first request tells it, in the order of these requests. */
  lemma ListedInOrder(lines: seq<Line>) returns (ks: seq<nat>)
    ensures var u := Unresolved(lines, |lines|);
      && |ks| == |u| && (forall i, j :: 0 <= i < j < |u| ==> ks[i] < ks[j])
      && (forall i :: 0 <= i < |u| ==> FirstAsked(lines, ks[i], u[i]) && IsOpen(lines, u[i].approval))
      && (forall a :: IsOpen(lines, a) ==> exists i :: 0 <= i < |u| && u[i].approval == a)
  {
    ks := ListedUpTo(lines, |lines|);
    hide FirstAsked, Resolved, Unresolved, FirstPending;
    var u := Unresolved(lines, |lines|);
    forall i | 0 <= i < |u| ensures IsOpen(lines, u[i].approval) {
      assert u[i] in u;
      UnresolvedExact(lines, |lines|, u[i]);
      IsOpenIs(lines, u[i].approval);
      ListedNamed(lines, |lines|, i);
    }
    forall a | IsOpen(lines, a) ensures exists i :: 0 <= i < |u| && u[i].approval == a {
      IsOpenIs(lines, a);
      FirstPendingNamed(lines, |lines|, a);
      var x := FirstPending(lines, |lines|, a).value;
      UnresolvedExact(lines, |lines|, x);
      var i :| 0 <= i < |u| && u[i] == x;
    }
  }

  lemma {:induction false} ListedNamed(lines: seq<Line>, n: nat, i: nat)
    requires n <= |lines| && i < |Unresolved(lines, n)|
    ensures Unresolved(lines, n)[i].approval != []
  {
    hide Resolved, HasOutcome, FirstPending;
    if i < |Unresolved(lines, n - 1)| { ListedNamed(lines, n - 1, i); }
  }

  /** Each item stands at its first request, and the requests are in order. */
  ghost predicate AskedAt(lines: seq<Line>, u: seq<Item>, ks: seq<nat>, n: nat) {
    && |ks| == |u| && (forall i, j :: 0 <= i < j < |u| ==> ks[i] < ks[j])
    && (forall i :: 0 <= i < |u| ==> ks[i] < n && FirstAsked(lines, ks[i], u[i]))
  }

  lemma AskedMore(lines: seq<Line>, before: seq<Item>, ks: seq<nat>, n: nat, u: seq<Item>)
    requires n > 0 && AskedAt(lines, before, ks, n - 1)
    requires |u| == |before| + 1 && u[..|before|] == before && FirstAsked(lines, n - 1, u[|before|])
    ensures AskedAt(lines, u, ks + [n - 1], n)
  {
    hide FirstAsked;
    assert forall i :: 0 <= i < |before| ==> u[i] == u[..|before|][i];
  }

  lemma {:induction false} ListedUpTo(lines: seq<Line>, n: nat) returns (ks: seq<nat>)
    requires n <= |lines|
    ensures AskedAt(lines, Unresolved(lines, n), ks, n)
  {
    hide Unresolved, FirstAsked;
    ks := [];
    if n > 0 {
      ks := ListedUpTo(lines, n - 1);
      var u, before := Unresolved(lines, n), Unresolved(lines, n - 1);
      OneListed(lines, n);
      if |u| > |before| {
        LastListed(lines, n);
        AskedMore(lines, before, ks, n, u);
        ks := ks + [n - 1];
      }
    } else {
      NoneListed(lines);
    }
  }

  lemma NoneListed(lines: seq<Line>)
    ensures Unresolved(lines, 0) == []
  {}

  lemma OneListed(lines: seq<Line>, n: nat)
    requires 0 < n <= |lines|
    ensures var (u, before) := (Unresolved(lines, n), Unresolved(lines, n - 1));
      u == before || (|u| == |before| + 1 && u[..|before|] == before)
  {
    hide Resolved, IsPending, FirstPending, IssueOf, ToolOf;
  }

  lemma LastListed(lines: seq<Line>, n: nat)
    requires 0 < n <= |lines| && |Unresolved(lines, n)| > |Unresolved(lines, n - 1)|
    ensures var u := Unresolved(lines, n);
      && u[..|u| - 1] == Unresolved(lines, n - 1) && FirstAsked(lines, n - 1, u[|u| - 1])
  {
    hide Resolved, HasOutcome, Lit, Says;
    var a := ApprovalIn(lines[n - 1]);
    FirstPendingNamed(lines, n - 1, a);
    forall j | 0 <= j < n ensures IsPending(lines[j], a) <==> PendingAt(lines, j, a) { IsPendingIs(lines, j, a); }
    PendingSays(lines, n - 1, a);
    hide IsPending, PendingAt, FirstPending, IssueOf, ToolOf;
  }

  /** findUnresolvedApprovals: one scan for settled ids, one for first pending receipts. */
  method FindUnresolvedApprovals(lines: seq<Line>) returns (result: seq<Item>)
    ensures result == Unresolved(lines, |lines|)
  {
    hide HasOutcome, ApprovalOf, IssueOf, ToolOf;
    var resolvedIds: set<Text> := {};
    for i := 0 to |lines|
      invariant forall a :: a in resolvedIds <==> exists k :: 0 <= k < i && Settles(lines[k], a)
    {
      var a := ApprovalIn(lines[i]);
      ghost var before := resolvedIds;
      if Settles(lines[i], a) { resolvedIds := resolvedIds + {a}; }
      forall b ensures b in resolvedIds <==> exists k :: 0 <= k < i + 1 && Settles(lines[k], b) {
        assert Settles(lines[i], b) ==> b == a;
        assert b in resolvedIds <==> b in before || Settles(lines[i], b);
      }
    }
    var seen: set<Text> := {};
    result := [];
    for i := 0 to |lines|
      invariant result == Unresolved(lines, i)
      invariant forall a :: a in seen <==> FirstPending(lines, i, a).Some? && !Resolved(lines, a)
    {
      var a := ApprovalIn(lines[i]);
      assert a in resolvedIds <==> Resolved(lines, a);
      if IsPending(lines[i], a) && a !in resolvedIds && a !in seen {
        seen := seen + {a};
        result := result + [Item(a, IssueOf(lines[i]), ToolOf(lines[i]))];
      }
      assert forall b :: IsPending(lines[i], b) ==> b == a;
    }
  }
}
