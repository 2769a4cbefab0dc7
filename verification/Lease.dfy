/** The writer lease: an exclusive lock file beside the ledger, and the processes that contend for it. */
module Lease {
  import opened Options
  import opened Texts
  import opened CanonicalJson
  import opened Receipts

  // ------------------------------------------------------------------ one process

  datatype LeaseRecord = LeaseRecord(instance: Text, token: Text)

  /** The lock file: absent, or present with the record in it once that is written. */
  class LockFile {
    var present: bool
    var record: Option<LeaseRecord>

    constructor ()
      ensures !present && record == None
    {
      present, record := false, None;
    }
  }

  datatype LeaseError = InvalidInstance | AlreadyExists | NotPersisted | OwnershipChanged
  datatype Acquired = Granted(lease: WriterLease) | NotGranted(error: LeaseError)

  /** [A-Za-z0-9._-]{1,128} */
  predicate ValidInstance(t: Text) {
    && 1 <= |t| <= 128
    && forall i :: 0 <= i < |t| ==>
         IsDigit(t[i]) || 65 <= t[i] <= 90 || 97 <= t[i] <= 122 || t[i] == 46 || t[i] == 95 || t[i] == 45
  }

  /** Letters, digits, dots, underscores and hyphens, 1 to 128 of them. */
  predicate IsInstance(t: Text) { SpelledIn(t, UPPER + LOWER + DIGITS + "._-", 1, 128) }

  lemma IsInstanceIs(t: Text)
    ensures ValidInstance(t) <==> IsInstance(t)
  {
    hide Lit;
    forall u: CodeUnit
      ensures u in Lit(UPPER + LOWER + DIGITS + "._-") <==>
        IsDigit(u) || 65 <= u <= 90 || 97 <= u <= 122 || u == 46 || u == 95 || u == 45
    {
      InAlphabet(u, "._-");
      InLit(u, "._-");
      assert "._-"[0] as int == 46 && "._-"[1] as int == 95 && "._-"[2] as int == 45;
    }
  }

  class WriterLease {
    const file: LockFile
    const record: LeaseRecord
    var released: bool

    constructor (file: LockFile, record: LeaseRecord)
      ensures this.file == file && this.record == record && !released
    {
      this.file, this.record, released := file, record, false;
    }

    /** Removes the lock file only while it still holds this lease's record; a second call does nothing. */
    method Release() returns (error: Option<LeaseError>)
      modifies this, file
      ensures old(released) ==> error == None && unchanged(this) && unchanged(file)
      ensures !old(released) && old(file.present) && old(file.record) == Some(record)
        ==> error == None && released && !file.present
      ensures !old(released) && !(old(file.present) && old(file.record) == Some(record))
        ==> error == Some(OwnershipChanged) && unchanged(this) && unchanged(file)
    {
      if released { return None; }
      if !file.present || file.record != Some(record) { return Some(OwnershipChanged); }
      file.present, file.record := false, None;
      released := true;
      error := None;
    }
  }

  /** Exclusive create, then the record; a record that cannot be persisted takes the file away again. */
  method Acquire(file: LockFile, instance: Text, token: Text, persisted: bool) returns (r: Acquired)
    modifies file
    ensures r.Granted? <==> IsInstance(instance) && !old(file.present) && persisted
    ensures r.NotGranted? ==>
      r.error == if !IsInstance(instance) then InvalidInstance else if old(file.present) then AlreadyExists
                 else NotPersisted
    ensures r.Granted? ==> fresh(r.lease) && r.lease.file == file && !r.lease.released
    ensures r.Granted? ==>
      r.lease.record == LeaseRecord(instance, token) && file.present && file.record == Some(r.lease.record)
    ensures r.NotGranted? ==> file.present == old(file.present)
    ensures old(file.present) ==> unchanged(file)
  {
    IsInstanceIs(instance);
    hide ValidInstance, IsInstance;
    if !ValidInstance(instance) { return NotGranted(InvalidInstance); }
    if file.present { return NotGranted(AlreadyExists); }
    file.present, file.record := true, None;
    if !persisted {
      file.present := false;
      return NotGranted(NotPersisted);
    }
    var record := LeaseRecord(instance, token);
    file.record := Some(record);
    var lease := new WriterLease(file, record);
    r := Granted(lease);
  }

  // ------------------------------------------------------------- many processes

  /**
   * Where a process is. Opened: file created, record not written. Tailed: tail read, entry not
   * written. Leaving: record compared, file not removed. Backing: record write failed, file not removed.
   */
  datatype Phase = Idle | Opened | Backing | Holding | Tailed(entry: Line) | Leaving | Dead

  /** The lock path names no file, or the file some process created. */
  datatype Lock = Free | Taken(creator: nat, written: bool)

  datatype World = World(phases: seq<Phase>, lock: Lock, lines: seq<Line>)

  /** System calls of the processes, their deaths and births, and an operator removing the file by hand. */
  datatype Act =
    | Start
    | Open(p: nat)
    | WriteRecord(p: nat, ok: bool)
    | BackOut(p: nat)
    | ReadTail(p: nat, body: Json, ts: Text)
    | WriteEntry(p: nat)
    | Compare(p: nat)
    | Unlink(p: nat)
    | Die(p: nat)
    | Remove

  function Set(w: World, p: nat, phase: Phase): World
    requires p < |w.phases|
  {
    w.(phases := w.phases[p := phase])
  }

  function At(w: World, p: nat): Phase {
    if p < |w.phases| then w.phases[p] else Dead
  }

  function Do(c: Custody, w: World, a: Act): World {
    match a
    case Start => w.(phases := w.phases + [Idle])
    case Open(p) => if At(w, p).Idle? && w.lock.Free? then Set(w, p, Opened).(lock := Taken(p, false)) else w
    case WriteRecord(p, ok) =>
      if !At(w, p).Opened? then w
      else if !ok then Set(w, p, Backing)
      else Set(w, p, Holding).(lock := if w.lock == Taken(p, false) then Taken(p, true) else w.lock)
    case BackOut(p) => if At(w, p).Backing? then Set(w, p, Idle).(lock := Free) else w
    case ReadTail(p, body, ts) =>
      if !At(w, p).Holding? || !body.Obj? then w
      else
        var n := Next(c, w.lines, body, ts);
        if n.Draft? then Set(w, p, Tailed(n.entry)) else w
    case WriteEntry(p) =>
      if At(w, p).Tailed? then Set(w, p, Holding).(lines := w.lines + [w.phases[p].entry]) else w
    case Compare(p) => if At(w, p).Holding? && w.lock == Taken(p, true) then Set(w, p, Leaving) else w
    case Unlink(p) => if At(w, p).Leaving? then Set(w, p, Idle).(lock := Free) else w
    case Die(p) => if p < |w.phases| then Set(w, p, Dead) else w
    case Remove => w.(lock := Free)
  }

  const NOTHING := World([], Free, [])

  function After(c: Custody, acts: seq<Act>): World {
    if acts == [] then NOTHING else Do(c, After(c, acts[..|acts| - 1]), acts[|acts| - 1])
  }

  /** The operator may remove the file: it names none, or one whose creator is dead. */
  predicate MayRemove(w: World) {
    w.lock.Taken? ==> At(w, w.lock.creator).Dead?
  }

  /** The operator removes the file only after checking that its creator is dead. */
  predicate Careful(c: Custody, acts: seq<Act>) {
    acts == [] ||
    (var before := acts[..|acts| - 1];
     && Careful(c, before)
     && (acts[|acts| - 1].Remove? ==> MayRemove(After(c, before))))
  }

  /** Alive and past the exclusive create. */
  predicate InLease(f: Phase) {
    f.Opened? || f.Backing? || f.Holding? || f.Tailed? || f.Leaving?
  }

  ghost predicate WellLeased(c: Custody, w: World) {
    && (forall p :: 0 <= p < |w.phases| && InLease(w.phases[p]) ==>
      w.lock == Taken(p, !w.phases[p].Opened? && !w.phases[p].Backing?))
    && Verified(c, w.lines)
    && (forall p :: 0 <= p < |w.phases| && w.phases[p].Tailed? ==> Verified(c, w.lines + [w.phases[p].entry]))
  }

  lemma DraftVerifies(c: Custody, lines: seq<Line>, body: Json, ts: Text)
    requires Verified(c, lines) && body.Obj?
    ensures Next(c, lines, body, ts).Draft? ==> Verified(c, lines + [Next(c, lines, body, ts).entry])
  {
    hide Fault, Verified, Next;
    NextIsSound(c, lines, body, ts);
  }

  lemma DoKeeps(c: Custody, w: World, a: Act)
    requires WellLeased(c, w) && (a.Remove? ==> MayRemove(w))
    ensures WellLeased(c, Do(c, w, a))
  {
    hide Verified, Next;
    if a.ReadTail? && a.body.Obj? { DraftVerifies(c, w.lines, a.body, a.ts); }
  }

  lemma {:induction false} AfterKeeps(c: Custody, acts: seq<Act>)
    requires Careful(c, acts)
    ensures WellLeased(c, After(c, acts))
  {
    if acts == [] {
      assert WellLeased(c, NOTHING);
    } else {
      hide WellLeased, Do;
      AfterKeeps(c, acts[..|acts| - 1]);
      DoKeeps(c, After(c, acts[..|acts| - 1]), acts[|acts| - 1]);
    }
  }

  // ------------------------------------------------------------------ main results

  /** At most one live process is past the exclusive create. */
  lemma SingleWriter(c: Custody, acts: seq<Act>, p: nat, q: nat)
    requires Careful(c, acts) && InLease(At(After(c, acts), p)) && InLease(At(After(c, acts), q))
    ensures p == q
  {
    hide Verified, After;
    AfterKeeps(c, acts);
  }

  /** Two-step appends by lease holders leave a ledger that verifies in every reachable state. */
  lemma LedgerAlwaysVerifies(c: Custody, acts: seq<Act>)
    requires Careful(c, acts)
    ensures Verified(c, After(c, acts).lines)
  {
    hide Verified, After;
    AfterKeeps(c, acts);
  }

  /** The file a process unlinks is the one it created. */
  lemma UnlinksOwnFile(c: Custody, acts: seq<Act>, p: nat)
    requires Careful(c, acts)
    requires At(After(c, acts), p).Leaving? || At(After(c, acts), p).Backing?
    ensures After(c, acts).lock.Taken? && After(c, acts).lock.creator == p
  {
    hide Verified, After;
    AfterKeeps(c, acts);
  }

  predicate NoRemoval(acts: seq<Act>) {
    forall i :: 0 <= i < |acts| ==> !acts[i].Remove?
  }

  ghost predicate Stranded(w: World) {
    && w.lock.Taken? && w.lock.creator < |w.phases| && w.phases[w.lock.creator].Dead?
    && forall p :: 0 <= p < |w.phases| ==> !InLease(w.phases[p])
  }

  lemma StrandedStays(c: Custody, w: World, a: Act)
    requires Stranded(w) && !a.Remove?
    ensures Stranded(Do(c, w, a)) && Do(c, w, a).lock == w.lock && Do(c, w, a).lines == w.lines
  {}

  lemma FrontUndisturbed(later: seq<Act>)
    requires NoRemoval(later) && later != []
    ensures NoRemoval(later[..|later| - 1]) && !later[|later| - 1].Remove?
  {}

  /** After a holder crashes nobody gets in, and nothing is written, until an operator removes the file. */
  lemma {:induction false} CrashBlocks(c: Custody, acts: seq<Act>, later: seq<Act>)
    requires Careful(c, acts) && NoRemoval(later)
    requires var w := After(c, acts); w.lock.Taken? && At(w, w.lock.creator).Dead? && w.lock.creator < |w.phases|
    ensures var v := After(c, acts + later);
      Stranded(v) && v.lock == After(c, acts).lock && v.lines == After(c, acts).lines
    decreases |later|
  {
    if later == [] {
      assert acts + later == acts;
      hide Verified, After;
      AfterKeeps(c, acts);
    } else {
      hide Do, Stranded, Careful;
      var front := later[..|later| - 1];
      FrontUndisturbed(later);
      CrashBlocks(c, acts, front);
      assert (acts + later)[..|acts + later| - 1] == acts + front;
      StrandedStays(c, After(c, acts + front), later[|later| - 1]);
    }
  }

  // ------------------------------------------------------------- after a removal by hand

  /** Every later removal is a careful one. */
  predicate CarefulFrom(c: Custody, w: World, more: seq<Act>)
    decreases |more|
  {
    more == [] || ((more[0].Remove? ==> MayRemove(w)) && CarefulFrom(c, Do(c, w, more[0]), more[1..]))
  }

  function Continue(c: Custody, w: World, more: seq<Act>): World
    decreases |more|
  {
    if more == [] then w else Continue(c, Do(c, w, more[0]), more[1..])
  }

  ghost predicate Reaches(c: Custody, w: World, v: World) {
    exists more :: CarefulFrom(c, w, more) && Continue(c, w, more) == v
  }

  /** From w on, no two live processes are ever in the lease. */
  ghost predicate KeepsSingleWriter(c: Custody, w: World) {
    forall v, p, q :: Reaches(c, w, v) && InLease(At(v, p)) && InLease(At(v, q)) ==> p == q
  }

  /** From w on, the ledger verifies in every state. */
  ghost predicate KeepsLedger(c: Custody, w: World) {
    forall v :: Reaches(c, w, v) ==> Verified(c, v.lines)
  }

  predicate NoneInLease(w: World) {
    forall p :: 0 <= p < |w.phases| ==> !InLease(w.phases[p])
  }

  lemma {:induction false} ContinueKeeps(c: Custody, w: World, more: seq<Act>)
    requires WellLeased(c, w) && CarefulFrom(c, w, more)
    ensures WellLeased(c, Continue(c, w, more))
    decreases |more|
  {
    hide WellLeased, Do;
    if more != [] {
      DoKeeps(c, w, more[0]);
      ContinueKeeps(c, Do(c, w, more[0]), more[1..]);
    }
  }

  lemma WellLeasedSingle(c: Custody, w: World)
    requires WellLeased(c, w)
    ensures Verified(c, w.lines) && forall p, q :: InLease(At(w, p)) && InLease(At(w, q)) ==> p == q
  {
    hide Verified;
  }

  lemma HarmlessIfNone(c: Custody, w: World)
    requires WellLeased(c, w)
    ensures KeepsSingleWriter(c, w) && KeepsLedger(c, w)
  {
    hide WellLeased, Verified, InLease;
    forall v | Reaches(c, w, v) ensures WellLeased(c, v) {
      var more :| CarefulFrom(c, w, more) && Continue(c, w, more) == v;
      ContinueKeeps(c, w, more);
    }
    forall v | Reaches(c, w, v)
      ensures Verified(c, v.lines) && forall p, q :: InLease(At(v, p)) && InLease(At(v, q)) ==> p == q
    {
      WellLeasedSingle(c, v);
    }
  }

  // Reaching a second writer.

  lemma {:induction false} ContinueBoth(c: Custody, w: World, a: seq<Act>, b: seq<Act>)
    ensures Continue(c, w, a + b) == Continue(c, Continue(c, w, a), b)
    ensures CarefulFrom(c, w, a) && CarefulFrom(c, Continue(c, w, a), b) ==> CarefulFrom(c, w, a + b)
    decreases |a|
  {
    hide Do;
    if a == [] {
      assert a + b == b;
    } else {
      ContinueBoth(c, Do(c, w, a[0]), a[1..], b);
      assert (a + b)[1..] == a[1..] + b && (a + b)[0] == a[0];
    }
  }

  lemma ReachesOn(c: Custody, u: World, v: World, w: World)
    requires Reaches(c, u, v) && Reaches(c, v, w)
    ensures Reaches(c, u, w)
  {
    hide Continue, CarefulFrom;
    var a :| CarefulFrom(c, u, a) && Continue(c, u, a) == v;
    var b :| CarefulFrom(c, v, b) && Continue(c, v, b) == w;
    ContinueBoth(c, u, a, b);
    assert CarefulFrom(c, u, a + b);
  }

  lemma ReachesStep(c: Custody, u: World, v: World, a: Act)
    requires Reaches(c, u, v) && !a.Remove?
    ensures Reaches(c, u, Do(c, v, a))
  {
    hide Do;
    assert [a][1..] == [];
    assert CarefulFrom(c, v, [a]) && Continue(c, v, [a]) == Do(c, v, a);
    ReachesOn(c, u, v, Do(c, v, a));
  }

  lemma ReachesSelf(c: Custody, w: World)
    ensures Reaches(c, w, w)
  {
    assert CarefulFrom(c, w, []) && Continue(c, w, []) == w;
  }

  /** While the path is free a new process gets in and writes its record. */
  lemma NewHolder(c: Custody, u: World, v: World) returns (w: World)
    requires Reaches(c, u, v) && v.lock.Free?
    ensures Reaches(c, u, w) && w.lines == v.lines && w.phases == v.phases + [Holding]
      && w.lock == Taken(|v.phases|, true)
  {
    hide Reaches;
    var n := |v.phases|;
    var a := Do(c, v, Start);
    var b := Do(c, a, Open(n));
    ReachesStep(c, u, v, Start);
    ReachesStep(c, u, a, Open(n));
    w := Do(c, b, WriteRecord(n, true));
    ReachesStep(c, u, b, WriteRecord(n, true));
  }

  /** With the file gone and process p still in its lease, two processes come to hold it at once. */
  lemma TwoHolders(c: Custody, u: World, p: nat) returns (w: World, i: nat, j: nat)
    requires u.lock.Free? && InLease(At(u, p)) && Verified(c, u.lines)
    requires u.phases[p].Tailed? ==> Verified(c, u.lines + [u.phases[p].entry])
    ensures Reaches(c, u, w) && i != j && At(w, i).Holding? && At(w, j).Holding? && Verified(c, w.lines)
  {
    hide Reaches, Verified;
    ReachesSelf(c, u);
    var f := u.phases[p];
    if f.Leaving? || f.Backing? {
      var v := NewHolder(c, u, u);
      var a := if f.Leaving? then Unlink(p) else BackOut(p);
      ReachesStep(c, u, v, a);
      w := NewHolder(c, u, Do(c, v, a));
      i, j := |u.phases|, |u.phases| + 1;
    } else {
      var a := if f.Opened? then WriteRecord(p, true) else WriteEntry(p);
      var v := Do(c, u, a);
      ReachesStep(c, u, u, a);
      w := NewHolder(c, u, v);
      i, j := p, |u.phases|;
    }
  }

  const BODY: Json := Obj([])

  /** An empty body is appended to any verified ledger. */
  lemma Drafts(c: Custody, lines: seq<Line>)
    requires Verified(c, lines)
    ensures Next(c, lines, BODY, []).Draft? && Next(c, lines, BODY, []).entry.Entry?
    ensures Next(c, lines, BODY, []).entry.number == |lines| + 1
  {
    if |lines| > 0 { VerifiedLine(c, lines, |lines| - 1); }
    assert Field(BODY, Lit("companyId")).None?;
    MetaNotNamed(c);
    hide ComputeHash, IsHex64, IsLink, Genesis, Verified, Fault, LinkBefore, WithCompany, Lookup, CompanyHeld, Lit;
  }

  lemma MetaNotNamed(c: Custody)
    ensures Field(WithCompany(c, BODY), Lit("meta")).None?
  {
    assert Lit("meta") != Lit("companyId") by {
      assert |Lit("meta")| != |Lit("companyId")|;
    }
    hide Lit;
    if c.company.Some? {
      var m := Member(Lit("companyId"), Str(c.company.value));
      LookupAppended([], m, Lit("meta"));
    }
  }

  /** Two holders that read the same tail leave two lines with one number. */
  lemma TwoHoldersBreak(c: Custody, u: World, w: World, i: nat, j: nat) returns (v: World)
    requires Reaches(c, u, w) && i != j && At(w, i).Holding? && At(w, j).Holding? && Verified(c, w.lines)
    ensures Reaches(c, u, v) && !Verified(c, v.lines)
  {
    hide Reaches, Verified, Next;
    Drafts(c, w.lines);
    var e := Next(c, w.lines, BODY, []).entry;
    var a := Do(c, w, ReadTail(i, BODY, []));
    var b := Do(c, a, ReadTail(j, BODY, []));
    var d := Do(c, b, WriteEntry(i));
    v := Do(c, d, WriteEntry(j));
    ReachesStep(c, u, w, ReadTail(i, BODY, []));
    ReachesStep(c, u, a, ReadTail(j, BODY, []));
    ReachesStep(c, u, b, WriteEntry(i));
    ReachesStep(c, u, d, WriteEntry(j));
    assert v.lines == w.lines + [e] + [e];
    SameNumberBreaks(c, w.lines, e);
  }

  lemma SameNumberBreaks(c: Custody, lines: seq<Line>, e: Line)
    requires e.Entry? && e.number == |lines| + 1
    ensures !Verified(c, lines + [e] + [e])
  {
    var all := lines + [e] + [e];
    hide ComputeHash, CompanyHeld;
    assert Fault(c, LinkBefore(all, |lines| + 1), |lines| + 2, all[|lines| + 1]).Some?;
  }

  /** Once the file is taken away by hand, the lease still admits one writer at a time, and the ledger still verifies in
      every later state, exactly when no live process was in the lease. */
  lemma RemovalHarmlessIff(c: Custody, acts: seq<Act>)
    requires Careful(c, acts)
    ensures NoneInLease(After(c, acts)) <==> KeepsSingleWriter(c, Do(c, After(c, acts), Remove))
    ensures NoneInLease(After(c, acts)) <==> KeepsLedger(c, Do(c, After(c, acts), Remove))
  {
    hide Verified, After, KeepsSingleWriter, KeepsLedger;
    AfterKeeps(c, acts);
    var w := After(c, acts);
    var u := Do(c, w, Remove);
    if NoneInLease(w) {
      HarmlessIfNone(c, u);
    } else {
      var p :| 0 <= p < |w.phases| && InLease(w.phases[p]);
      hide WellLeased;
      RemovalBreaks(c, w, u, p);
    }
  }

  lemma RemovalBreaks(c: Custody, w: World, u: World, p: nat)
    requires WellLeased(c, w) && u == w.(lock := Free) && p < |w.phases| && InLease(w.phases[p])
    ensures !KeepsSingleWriter(c, u) && !KeepsLedger(c, u)
  {
    hide Verified, Reaches;
    var v, i, j := TwoHolders(c, u, p);
    var x := TwoHoldersBreak(c, u, v, i, j);
  }

  /** A careless removal while a process compares and unlinks makes it remove another's lock file. */
  lemma CarelessRemovalUnlinksAnother(c: Custody) returns (acts: seq<Act>)
    ensures !Careful(c, acts)
    ensures var w := After(c, acts); At(w, 0).Leaving? && w.lock == Taken(1, true) && InLease(At(w, 1))
    ensures Do(c, After(c, acts), Unlink(0)).lock == Free
  {
    var first := [Start, Start, Open(0), WriteRecord(0, true), Compare(0)];
    var a6 := first + [Remove];
    var a7 := a6 + [Open(1)];
    acts := a7 + [WriteRecord(1, true)];
    FirstFive(c);
    assert a6[..5] == first && a7[..6] == a6 && acts[..7] == a7;
    assert a6[5] == Remove;
    AfterOneMore(c, first, Remove);
    AfterOneMore(c, a6, Open(1));
    AfterOneMore(c, a7, WriteRecord(1, true));
    assert !Careful(c, a6);
    assert !Careful(c, a7);
  }

  lemma AfterOneMore(c: Custody, acts: seq<Act>, a: Act)
    ensures After(c, acts + [a]) == Do(c, After(c, acts), a)
  {
    hide Do;
    assert (acts + [a])[..|acts|] == acts;
  }

  lemma FirstFive(c: Custody)
    ensures After(c, [Start, Start, Open(0), WriteRecord(0, true), Compare(0)]) ==
      World([Leaving, Idle], Taken(0, true), [])
  {
    var a := [Start, Start, Open(0), WriteRecord(0, true), Compare(0)];
    assert a[..4] == [Start, Start, Open(0), WriteRecord(0, true)];
    assert a[..4][..3] == [Start, Start, Open(0)];
    assert a[..3][..2] == [Start, Start] && a[..2][..1] == [Start] && a[..1][..0] == [];
    assert After(c, [Start]) == World([Idle], Free, []);
    assert After(c, [Start, Start]) == World([Idle, Idle], Free, []);
    assert [Start, Start, Open(0)][..2] == [Start, Start];
    assert After(c, [Start, Start, Open(0)]) == World([Opened, Idle], Taken(0, false), []);
    assert After(c, [Start, Start, Open(0), WriteRecord(0, true)]) == World([Holding, Idle], Taken(0, true), []);
  }
}
