/** Confidentiality floors: the raise-only registry over the receipt ledger, and the tier in force for a request. */
module Confidentiality {
  import opened Options
  import opened Texts
  import opened CanonicalJson
  import opened Receipts
  import opened Operations

  datatype Tier = Standard | Confidential | Privileged

  function Rank(t: Tier): int {
    match t
    case Standard => 0
    case Confidential => 1
    case Privileged => 2
  }

  type Floor = Option<Tier>

  /** The order on what is known: nothing lies below every tier. */
  function Level(f: Floor): int {
    if f.None? then -1 else Rank(f.value)
  }

  lemma LevelInjective(a: Floor, b: Floor)
    requires Level(a) == Level(b)
    ensures a == b
  {}

  /** best is the highest of the tiers, or nothing when none is known. */
  predicate IsHighest(tiers: seq<Floor>, best: Floor) {
    (best == None || best in tiers) && forall i :: 0 <= i < |tiers| ==> Level(tiers[i]) <= Level(best)
  }

  /** best is the highest of the known tiers, tier by tier. */
  ghost predicate Tops(known: iset<Floor>, best: Floor) {
    && (best == Some(Privileged) <==> Some(Privileged) in known)
    && (best == Some(Confidential) <==> Some(Confidential) in known && Some(Privileged) !in known)
    && (best == Some(Standard) <==>
          Some(Standard) in known && Some(Confidential) !in known && Some(Privileged) !in known)
  }

  lemma HighestTops(tiers: seq<Floor>, best: Floor)
    requires IsHighest(tiers, best)
    ensures Tops((iset f | f in tiers), best)
  {
    forall f: Floor | f in tiers ensures Level(f) <= Level(best) {
      var i :| 0 <= i < |tiers| && tiers[i] == f;
    }
  }

  method MaxConfidentiality(tiers: seq<Floor>) returns (best: Floor)
    ensures IsHighest(tiers, best) && Tops((iset f | f in tiers), best)
  {
    best := None;
    for i := 0 to |tiers|
      invariant best == None || best in tiers
      invariant forall j :: 0 <= j < i ==> Level(tiers[j]) <= Level(best)
    {
      if tiers[i].Some? && (best.None? || Rank(tiers[i].value) > Rank(best.value)) { best := tiers[i]; }
    }
    HighestTops(tiers, best);
  }

  // ---------------------------------------------------------------------- effective tier

  /** An unrecognized claim counts as none. */
  datatype Request = Request(claimed: Floor, registered: Floor, contributing: seq<Floor>, default: Floor)

  datatype Effective = Effective(tier: Floor, floorApplied: bool, defaultApplied: bool, provenanceApplied: bool)

  /** The usable claim, the matter's own floor, and those of all contributing matters. */
  ghost predicate IsSource(r: Request, f: Floor) {
    f.Some? && (f == r.claimed || f == r.registered || f in r.contributing)
  }

  method ResolveEffective(r: Request) returns (e: Effective)
    ensures IsEffective(r, e.tier)
    ensures (exists f :: IsSource(r, f)) ==> Tops((iset f | IsSource(r, f)), e.tier)
    ensures (forall f :: !IsSource(r, f)) ==> e.tier == r.default
    ensures e.defaultApplied <==> Known(r) == [] && r.default.Some?
    ensures e.floorApplied <==> HasFloor(r) && e.tier != r.claimed
    ensures e.provenanceApplied <==> Provenance(r, e.tier)
  {
    hide IsHighest, IsEffective, Known, Floors, Provenance, Tops;
    EffectiveTops(r);
    var provenance := MaxConfidentiality(r.contributing);
    var floor := MaxConfidentiality([r.registered, provenance]);
    FloorIs(r, provenance, floor);
    var provenanceApplied := provenance.Some?
      && (r.registered.None? || Rank(provenance.value) > Rank(r.registered.value));
    if floor.Some? {
      var tier := if r.claimed.Some? && Rank(r.claimed.value) >= Rank(floor.value) then r.claimed else floor;
      FloorDecides(r, floor, tier);
      ProvenanceIff(r, provenance, floor, tier);
      e := Effective(tier, tier != r.claimed, false, provenanceApplied && tier == floor);
    } else {
      NoFloorDecides(r);
      if r.claimed.Some? {
        e := Effective(r.claimed, false, false, false);
      } else if r.default.Some? {
        e := Effective(r.default, false, true, false);
      } else {
        e := Effective(None, false, false, false);
      }
    }
  }

  /** A contributing matter set the tier above what the filed matter gives. */
  predicate Provenance(r: Request, tier: Floor) {
    exists c :: c in r.contributing && c == tier && Level(c) > Level(r.registered) && Level(c) >= Level(r.claimed)
  }

  /** Some matter that was filed under or contributed has a floor. */
  predicate HasFloor(r: Request) {
    exists f :: f in Floors(r) && f.Some?
  }

  lemma FloorIs(r: Request, provenance: Floor, floor: Floor)
    requires IsHighest(r.contributing, provenance) && IsHighest([r.registered, provenance], floor)
    ensures IsHighest(Floors(r), floor) && (HasFloor(r) <==> floor.Some?)
  {
    var two, all := [r.registered, provenance], Floors(r);
    assert Level(two[0]) <= Level(floor) && Level(two[1]) <= Level(floor);
    assert all[0] == r.registered;
    forall i | 0 <= i < |all| ensures Level(all[i]) <= Level(floor) {
      if i > 0 { assert all[i] == r.contributing[i - 1]; }
    }
    if floor.Some? {
      assert floor == r.registered || floor == provenance;
      if floor == provenance { assert floor in r.contributing; }
      assert floor in all;
    }
    if HasFloor(r) {
      var f :| f in all && f.Some?;
      var i :| 0 <= i < |all| && all[i] == f;
    }
  }

  lemma FloorDecides(r: Request, floor: Floor, tier: Floor)
    requires IsHighest(Floors(r), floor) && floor.Some?
    requires tier == if r.claimed.Some? && Rank(r.claimed.value) >= Rank(floor.value) then r.claimed else floor
    ensures Known(r) != [] && IsEffective(r, tier)
  {
    KnownAll(r);
    hide Known;
    var known := Known(r);
    assert floor in Floors(r) && floor in known;
    assert tier in known;
    forall i | 0 <= i < |known| ensures Level(known[i]) <= Level(tier) {
      assert known[i] in known;
      if known[i] in Floors(r) {
        var j :| 0 <= j < |Floors(r)| && Floors(r)[j] == known[i];
      }
    }
  }

  lemma NoFloorDecides(r: Request)
    requires !HasFloor(r)
    ensures r.claimed.Some? ==> Known(r) != [] && IsEffective(r, r.claimed)
    ensures r.claimed.None? ==> Known(r) == [] && IsEffective(r, r.default)
    ensures !Provenance(r, r.claimed) && (r.claimed.None? ==> !Provenance(r, r.default))
  {
    forall c | c in r.contributing ensures c.None? {
      assert c in Floors(r);
    }
    if r.claimed.None? {
      NoSomes([r.claimed] + Floors(r));
    } else {
      KnownAll(r);
      var known := Known(r);
      assert r.claimed in known;
      forall i | 0 <= i < |known| ensures Level(known[i]) <= Level(r.claimed) {
        assert known[i] in known;
      }
    }
  }

  lemma ProvenanceIff(r: Request, provenance: Floor, floor: Floor, tier: Floor)
    requires IsHighest(r.contributing, provenance) && IsHighest([r.registered, provenance], floor) && floor.Some?
    requires tier == if r.claimed.Some? && Rank(r.claimed.value) >= Rank(floor.value) then r.claimed else floor
    ensures Provenance(r, tier) <==> Level(provenance) > Level(r.registered) && tier == floor
  {
    var two := [r.registered, provenance];
    assert Level(two[0]) <= Level(floor) && Level(two[1]) <= Level(floor);
    if Level(provenance) > Level(r.registered) && tier == floor {
      assert floor == provenance && provenance in r.contributing;
    }
    if Provenance(r, tier) {
      var c :| c in r.contributing && c == tier && Level(c) > Level(r.registered) && Level(c) >= Level(r.claimed);
      var i :| 0 <= i < |r.contributing| && r.contributing[i] == c;
      assert Level(c) <= Level(provenance);
      if tier != floor { LevelInjective(tier, floor); }
    }
  }

  function Floors(r: Request): seq<Floor> { [r.registered] + r.contributing }

  /** Every known claim and floor. */
  function Known(r: Request): seq<Floor> { Somes([r.claimed] + Floors(r)) }

  function Somes(s: seq<Floor>): seq<Floor> {
    if s == [] then [] else Somes(s[..|s| - 1]) + (if s[|s| - 1].Some? then [s[|s| - 1]] else [])
  }

  /** The tier in force: the maximum of the usable claim and all known floors, or the default when none is known. */
  predicate IsEffective(r: Request, tier: Floor) {
    if Known(r) == [] then tier == r.default else IsHighest(Known(r), tier)
  }

  lemma {:induction false} SomesAre(s: seq<Floor>, f: Floor)
    ensures f in Somes(s) <==> f in s && f.Some?
  {
    if s != [] {
      SomesAre(s[..|s| - 1], f);
      assert s == s[..|s| - 1] + [s[|s| - 1]];
    }
  }

  lemma KnownMember(r: Request, f: Floor)
    ensures f in Known(r) <==> (f == r.claimed || f in Floors(r)) && f.Some?
  {
    SomesAre([r.claimed] + Floors(r), f);
  }

  lemma KnownAll(r: Request)
    ensures forall f :: f in Known(r) <==> (f == r.claimed || f in Floors(r)) && f.Some?
  {
    forall f ensures f in Known(r) <==> (f == r.claimed || f in Floors(r)) && f.Some? {
      KnownMember(r, f);
    }
  }

  /** The effective tier, tier by tier. */
  lemma EffectiveTops(r: Request)
    ensures forall tier :: IsEffective(r, tier) ==>
      ((exists f :: IsSource(r, f)) ==> Tops((iset f | IsSource(r, f)), tier))
        && ((forall f :: !IsSource(r, f)) ==> tier == r.default)
  {
    KnownAll(r);
    var known := Known(r);
    assert forall f :: f in known <==> IsSource(r, f);
    assert (iset f | f in known) == (iset f | IsSource(r, f));
    hide Known, IsSource, Tops;
    forall tier | IsEffective(r, tier)
      ensures (exists f :: IsSource(r, f)) ==> Tops((iset f | IsSource(r, f)), tier)
      ensures (forall f :: !IsSource(r, f)) ==> tier == r.default
    {
      if known != [] {
        assert known[0] in known;
        HighestTops(known, tier);
      }
    }
  }

  /** More contributing matters never lower the tier, whenever a claim or a floor is already known. */
  lemma MoreContextRaises(r: Request, more: seq<Floor>, before: Floor, after: Floor)
    requires IsEffective(r, before) && IsEffective(r.(contributing := r.contributing + more), after)
    requires Known(r) != []
    ensures Level(before) <= Level(after)
  {
    var s := r.(contributing := r.contributing + more);
    KnownAll(r);
    KnownAll(s);
    assert before in Known(r) by {
      var f := Known(r)[0];
      assert f in Known(r);
      if before == None { assert f.Some?; }
    }
    assert before in Known(s);
    var i :| 0 <= i < |Known(s)| && Known(s)[i] == before;
  }

  /** With nothing known the default stands, and more context lowers it exactly when the highest floor added lies below
      it. */
  lemma DefaultLoweredIff(r: Request, more: seq<Floor>, after: Floor, added: Floor)
    requires Known(r) == [] && IsEffective(r.(contributing := r.contributing + more), after) && IsHighest(more, added)
    ensures Level(after) < Level(r.default) <==> added.Some? && Level(added) < Level(r.default)
  {
    var s := r.(contributing := r.contributing + more);
    NothingKnown(r);
    assert forall f :: f in Floors(s) <==> f in Floors(r) || f in more;
    KnownAll(s);
    hide Known, Floors;
    if added.Some? {
      assert added in Known(s);
      SameHighestTier(Known(s), more, after, added);
    } else {
      HighestOfNone(more);
      NoneKnown(s);
    }
  }

  /** Lists with the same known tiers have the same highest one. */
  lemma SameHighestTier(a: seq<Floor>, b: seq<Floor>, f: Floor, g: Floor)
    requires IsHighest(a, f) && IsHighest(b, g) && forall x: Floor :: x.Some? ==> (x in a <==> x in b)
    ensures f == g
  {
    if f.Some? { assert f in b; var i :| 0 <= i < |b| && b[i] == f; }
    if g.Some? { assert g in a; var i :| 0 <= i < |a| && a[i] == g; }
    LevelInjective(f, g);
  }

  lemma HighestOfNone(tiers: seq<Floor>)
    requires IsHighest(tiers, None)
    ensures forall f :: f in tiers ==> f.None?
  {}

  lemma {:induction false} NoSomes(s: seq<Floor>)
    requires forall f :: f in s ==> f.None?
    ensures Somes(s) == []
  {
    if s != [] {
      NoSomes(s[..|s| - 1]);
      assert s[|s| - 1] in s;
    }
  }

  lemma NoneKnown(r: Request)
    requires r.claimed.None? && forall f :: f in Floors(r) ==> f.None?
    ensures Known(r) == []
  {
    hide Floors;
    NoSomes([r.claimed] + Floors(r));
  }

  lemma NothingKnown(r: Request)
    requires Known(r) == []
    ensures r.claimed.None? && forall f :: f in Floors(r) ==> f.None?
  {
    KnownAll(r);
    assert forall f: Floor :: f !in Known(r);
  }

  // --------------------------------------------------------------------------- registry

  predicate SafeIssue(t: Text) {
    1 <= |t| <= 64 && forall i :: 0 <= i < |t| ==> IsDigit(t[i]) || 65 <= t[i] <= 90 || 97 <= t[i] <= 122 || t[i] == 45
  }

  function TierOf(t: Option<Text>): Floor {
    if t == Some(Lit("standard")) then Some(Standard)
    else if t == Some(Lit("confidential")) then Some(Confidential)
    else if t == Some(Lit("privileged")) then Some(Privileged)
    else None
  }

  /** Letters, digits and hyphens, 1 to 64 of them. */
  predicate IsIssue(t: Text) { SpelledIn(t, UPPER + LOWER + DIGITS + "-", 1, 64) }

  lemma IsIssueIs(t: Text)
    ensures SafeIssue(t) <==> IsIssue(t)
  {
    hide Lit;
    forall u: CodeUnit
      ensures u in Lit(UPPER + LOWER + DIGITS + "-") <==>
        IsDigit(u) || 65 <= u <= 90 || 97 <= u <= 122 || u == 45
    {
      InAlphabet(u, "-");
      InLit(u, "-");
      assert "-"[0] as int == 45;
    }
  }

  datatype Registration = Registration(issueId: Text, tier: Tier)

  type FloorMap = map<Text, Tier>

  /** Raise-only merge: a lower tier never replaces a higher one. */
  function Raised(floors: FloorMap, g: Registration): FloorMap {
    var kept := g.issueId in floors && Rank(floors[g.issueId]) > Rank(g.tier);
    floors[g.issueId := if kept then floors[g.issueId] else g.tier]
  }

  function Replay(gs: seq<Registration>): FloorMap {
    if gs == [] then map[] else Raised(Replay(gs[..|gs| - 1]), gs[|gs| - 1])
  }

  function FloorOf(floors: FloorMap, issueId: Text): Floor {
    if issueId in floors then Some(floors[issueId]) else None
  }

  /** The tiers registered for a matter. */
  function TiersFor(gs: seq<Registration>, issueId: Text): seq<Floor> {
    if gs == [] then []
    else TiersFor(gs[..|gs| - 1], issueId) + (if gs[|gs| - 1].issueId == issueId then [Some(gs[|gs| - 1].tier)] else [])
  }

  /** The floor of a matter is the maximum of everything registered for it. */
  lemma {:induction false} FloorIsHighest(gs: seq<Registration>, issueId: Text)
    ensures IsHighest(TiersFor(gs, issueId), FloorOf(Replay(gs), issueId))
  {
    if gs != [] { FloorIsHighest(gs[..|gs| - 1], issueId); }
  }

  lemma {:induction false} TierRegistered(gs: seq<Registration>, issueId: Text, f: Floor)
    ensures f in TiersFor(gs, issueId) <==> f.Some? && Registration(issueId, f.value) in gs
  {
    if gs != [] {
      TierRegistered(gs[..|gs| - 1], issueId, f);
      assert gs == gs[..|gs| - 1] + [gs[|gs| - 1]];
    }
  }

  /** Replay gives the same floors for any two registration histories with the same registrations, in any order and
      number. */
  lemma ReplayOrderFree(a: seq<Registration>, b: seq<Registration>)
    requires forall g :: g in a <==> g in b
    ensures Replay(a) == Replay(b)
  {
    forall issueId ensures FloorOf(Replay(a), issueId) == FloorOf(Replay(b), issueId) {
      var f, g := FloorOf(Replay(a), issueId), FloorOf(Replay(b), issueId);
      FloorIsHighest(a, issueId);
      FloorIsHighest(b, issueId);
      SameHighest(a, b, issueId, f, g);
      SameHighest(b, a, issueId, g, f);
      LevelInjective(f, g);
    }
    assert forall k :: k in Replay(a) <==> FloorOf(Replay(a), k).Some?;
    assert forall k :: k in Replay(b) <==> FloorOf(Replay(b), k).Some?;
    assert forall k :: k in Replay(a) ==> FloorOf(Replay(a), k) == Some(Replay(a)[k]);
  }

  lemma SameHighest(a: seq<Registration>, b: seq<Registration>, issueId: Text, f: Floor, g: Floor)
    requires forall r :: r in a <==> r in b
    requires IsHighest(TiersFor(a, issueId), f) && IsHighest(TiersFor(b, issueId), g)
    ensures Level(f) <= Level(g)
  {
    if f.Some? {
      TierRegistered(a, issueId, f);
      TierRegistered(b, issueId, f);
      var i :| 0 <= i < |TiersFor(b, issueId)| && TiersFor(b, issueId)[i] == f;
    }
  }

  // ------------------------------------------------------------------ over the ledger

  function TierText(t: Tier): Text {
    match t
    case Standard => Lit("standard")
    case Confidential => Lit("confidential")
    case Privileged => Lit("privileged")
  }

  lemma TierReadsBack(t: Tier)
    ensures TierOf(Some(TierText(t))) == Some(t)
  {
    assert Lit("standard")[0] == 115 && Lit("confidential")[0] == 99 && Lit("privileged")[0] == 112;
  }

  predicate IsClassification(line: Line) {
    && line.Entry?
    && TextField(line.body, Lit("kind")) == Some(Lit("quality"))
    && TextField(line.body, Lit("tool")) == Some(Lit("matter_classification"))
    && HasOutcome(line, Performed)
  }

  /** The registration a receipt records; anything malformed is ignored. */
  function Decode(line: Line): Option<Registration> {
    var tier := TierOf(MetaText(MetaOf(line), "tier"));
    if IsClassification(line) && IssueOf(line).Some? && SafeIssue(IssueOf(line).value) && tier.Some?
    then Some(Registration(IssueOf(line).value, tier.value))
    else None
  }

  predicate Named(tier: Tier, name: Text) {
    match tier
    case Standard => name == Lit("standard")
    case Confidential => name == Lit("confidential")
    case Privileged => name == Lit("privileged")
  }

  /** Only a performed classification receipt with a well-formed issue and tier counts, and it counts as what it
      says. */
  lemma DecodeIff(line: Line, g: Registration)
    ensures Decode(line) == Some(g) <==>
      && Says(line, "kind", Lit("quality")) && Says(line, "tool", Lit("matter_classification"))
      && Says(line, "outcome", Lit("performed"))
      && TextField(line.body, Lit("issueId")) == Some(g.issueId) && IsIssue(g.issueId)
      && Field(line.body, Lit("meta")).Some?
      && var tier := TextField(Field(line.body, Lit("meta")).value, Lit("tier"));
        tier.Some? && Named(g.tier, tier.value)
  {
    IsIssueIs(g.issueId);
    assert Lit("standard")[0] == 115 && Lit("confidential")[0] == 99 && Lit("privileged")[0] == 112;
    NoField(Lit("tier"));
    hide Lit, SafeIssue, IsIssue, Lookup;
  }

  lemma NoField(key: Text)
    ensures TextField(Obj([]), key) == None
  {}

  function Registrations(lines: seq<Line>, n: nat): seq<Registration>
    requires n <= |lines|
  {
    if n == 0 then []
    else
      var g := Decode(lines[n - 1]);
      Registrations(lines, n - 1) + (if g.Some? then [g.value] else [])
  }

  function Rebuilt(lines: seq<Line>): FloorMap { Replay(Registrations(lines, |lines|)) }

  function RegistrationMeta(tier: Tier, effective: Tier): Json {
    Obj([Member(Lit("tier"), Str(TierText(tier))), Member(Lit("effectiveTier"), Str(TierText(effective)))])
  }

  function RegistrationReceipt(h: Hash, g: Registration, effective: Tier, agent: Option<Text>): Receipt {
    Receipt(Lit("quality"), Lit("matter_classification"), Null, Null, Performed,
      h(Canonical(Obj([Member(Lit("issueId"), Str(g.issueId)), Member(Lit("tier"), Str(TierText(g.tier)))]))),
      agent, Some(g.issueId), None, None, Some(RegistrationMeta(g.tier, effective)))
  }

  lemma MetaReads(tier: Tier, effective: Tier)
    ensures MetaText(RegistrationMeta(tier, effective), "tier") == Some(TierText(tier))
  {
    var ms := RegistrationMeta(tier, effective).members;
    assert DistinctKeys(ms);
    hide Lit, TierText, Lookup;
    LookupUnique(ms, 0);
  }

  /** The receipt of a registration decodes to it, whatever floor was in force. */
  lemma RegistrationReads(c: Custody, g: Registration, effective: Tier, agent: Option<Text>, number: int, ts: Text,
                          prev: Text, hash: Text)
    requires SafeIssue(g.issueId)
    ensures Decode(Entry(number, ts, prev, hash,
                         WithCompany(c, Body(RegistrationReceipt(c.hash, g, effective, agent))))) == Some(g)
  {
    hide Body, WithCompany, Lit, OutcomeText, Field, Canonical, RegistrationMeta, TierText, TierOf, SafeIssue, MetaText;
    var r := RegistrationReceipt(c.hash, g, effective, agent);
    BodyReads(c, r, 0);
    BodyReads(c, r, 1);
    BodyReads(c, r, 4);
    BodyReads(c, r, 7);
    BodyReads(c, r, 10);
    MetaReads(g.tier, effective);
    TierReadsBack(g.tier);
  }

  function EffectiveFor(floors: FloorMap, g: Registration): Tier {
    if g.issueId in floors && Rank(floors[g.issueId]) > Rank(g.tier) then floors[g.issueId] else g.tier
  }

  /** Ledger and live floors after a registration; a refused or failed one changes neither. */
  function Execute(c: Custody, lines: seq<Line>, floors: FloorMap, g: Registration, agent: Option<Text>, ts: Text,
                   disk: Disk)
    : (r: (seq<Line>, FloorMap, bool))
  {
    if !SafeIssue(g.issueId) then (lines, floors, false)
    else
      var (after, append) :=
        AppendTo(c, lines, Body(RegistrationReceipt(c.hash, g, EffectiveFor(floors, g), agent)), ts, disk);
      if append.Appended? then (after, floors[g.issueId := EffectiveFor(floors, g)], true) else (after, floors, false)
  }

  lemma {:induction false} RegistrationsPrefix(lines: seq<Line>, more: seq<Line>, n: nat)
    requires n <= |lines| <= |more| && more[..|lines|] == lines
    ensures Registrations(more, n) == Registrations(lines, n)
  {
    hide Decode;
    if n > 0 {
      RegistrationsPrefix(lines, more, n - 1);
      assert more[n - 1] == more[..|lines|][n - 1];
    }
  }

  lemma RebuiltExtends(lines: seq<Line>, line: Line)
    ensures Rebuilt(lines + [line]) == if Decode(line).Some? then Raised(Rebuilt(lines), Decode(line).value)
      else Rebuilt(lines)
  {
    hide Decode, Raised;
    var more := lines + [line];
    assert more[..|lines|] == lines;
    RegistrationsPrefix(lines, more, |lines|);
    var gs := Registrations(lines, |lines|);
    if Decode(line).Some? { assert (gs + [Decode(line).value])[..|gs|] == gs; } else { assert gs + [] == gs; }
  }

  ghost predicate InStep(c: Custody, lines: seq<Line>, floors: FloorMap) {
    Verified(c, lines) && floors == Rebuilt(lines)
  }

  lemma RegisterKeepsStep(c: Custody, lines: seq<Line>, floors: FloorMap, g: Registration, agent: Option<Text>,
                          ts: Text, disk: Disk)
    requires InStep(c, lines, floors) && (disk.Written? || disk.NotWritten?)
    ensures var (after, live, ok) := Execute(c, lines, floors, g, agent, ts, disk);
      && InStep(c, after, live)
      && (!ok ==> after == lines && live == floors)
      && (ok ==> live == Raised(floors, g))
  {
    hide Body, Next, Verified, Decode, RegistrationReceipt, Rebuilt, SafeIssue;
    if SafeIssue(g.issueId) {
      var r := RegistrationReceipt(c.hash, g, EffectiveFor(floors, g), agent);
      NextIsSound(c, lines, Body(r), ts);
      var n := Next(c, lines, Body(r), ts);
      if n.Draft? {
        DraftDecodes(c, lines, g, EffectiveFor(floors, g), agent, ts);
        RebuiltExtends(lines, n.entry);
      }
    }
  }

  lemma DraftDecodes(c: Custody, lines: seq<Line>, g: Registration, effective: Tier, agent: Option<Text>, ts: Text)
    requires SafeIssue(g.issueId)
    ensures var n := Next(c, lines, Body(RegistrationReceipt(c.hash, g, effective, agent)), ts);
      n.Draft? ==> Decode(n.entry) == Some(g)
  {
    hide Body, WithCompany, MetaAllowed, ComputeHash, Field, CompanyHeld, Lit, RegistrationReceipt, Decode, SafeIssue;
    var n := Next(c, lines, Body(RegistrationReceipt(c.hash, g, effective, agent)), ts);
    if n.Draft? { RegistrationReads(c, g, effective, agent, n.entry.number, ts, n.entry.prevHash, n.entry.hash); }
  }

  /** Registrations, other routes' receipts, restarts, and the repair of a torn tail. */
  datatype Event =
    | Register(g: Registration, agent: Option<Text>, ts: Text, disk: Disk)
    | Append(body: Json, ts: Text, disk: Disk)
    | Restart
    | RepairTail

  datatype Live = Live(lines: seq<Line>, floors: FloorMap, corrupt: bool)

  /** A registry started over a ledger that does not verify holds no floors and takes no registrations. */
  function Then(c: Custody, s: Live, e: Event): Live {
    match e
    case Register(g, agent, ts, disk) =>
      if s.corrupt then s
      else
        var (after, live, _) := Execute(c, s.lines, s.floors, g, agent, ts, disk);
        s.(lines := after, floors := live)
    case Append(body, ts, disk) => if body.Obj? then s.(lines := AppendTo(c, s.lines, body, ts, disk).0) else s
    case Restart =>
      if Verified(c, s.lines) then s.(floors := Rebuilt(s.lines), corrupt := false)
      else s.(floors := map[], corrupt := true)
    case RepairTail =>
      if |s.lines| > 0 && s.lines[|s.lines| - 1] == Unparseable then s.(lines := s.lines[..|s.lines| - 1]) else s
  }

  function After(c: Custody, run: seq<Event>, n: nat): Live
    requires n <= |run|
  {
    if n == 0 then Live([], map[], false) else Then(c, After(c, run, n - 1), run[n - 1])
  }

  /** Other routes record no registration; their writes, and those of registrations, may end in any way. */
  ghost predicate Foreign(c: Custody, run: seq<Event>) {
    forall i :: 0 <= i < |run| ==> ForeignStep(c, After(c, run, i).lines, run[i])
  }

  ghost predicate ForeignStep(c: Custody, lines: seq<Line>, e: Event) {
    e.Append? && e.body.Obj? ==> var n := Next(c, lines, e.body, e.ts); n.Draft? ==> Decode(n.entry) == None
  }

  /** No write is torn, and no registration's write fails after its line reached the file. */
  predicate WholeWrites(run: seq<Event>) {
    forall i :: 0 <= i < |run| ==> WholeWrite(run[i])
  }

  predicate WholeWrite(e: Event) {
    (e.Register? ==> e.disk.Written? || e.disk.NotWritten?) && (e.Append? ==> !e.disk.Torn?)
  }

  // Any way of writing: live floors never run ahead of the ledger.

  /** Every live floor is at most the one the ledger holds. */
  ghost predicate Behind(floors: FloorMap, lines: seq<Line>) {
    forall issueId :: Level(FloorOf(floors, issueId)) <= Level(FloorOf(Rebuilt(lines), issueId))
  }

  ghost predicate Tracks(c: Custody, s: Live) {
    Sturdy(c, s.lines) && Behind(s.floors, s.lines) && (s.corrupt ==> s.floors == map[])
  }

  lemma RaisedLevel(floors: FloorMap, g: Registration, issueId: Text)
    ensures var f := Level(FloorOf(floors, issueId));
      Level(FloorOf(Raised(floors, g), issueId)) ==
        if issueId == g.issueId && f < Rank(g.tier) then Rank(g.tier) else f
  {}

  lemma RaisedBehind(floors: FloorMap, held: FloorMap, g: Registration, issueId: Text)
    requires Level(FloorOf(floors, issueId)) <= Level(FloorOf(held, issueId))
    ensures Level(FloorOf(Raised(floors, g), issueId)) <= Level(FloorOf(Raised(held, g), issueId))
    ensures Level(FloorOf(floors, issueId)) <= Level(FloorOf(Raised(held, g), issueId))
    ensures Level(FloorOf(floors, issueId)) <= Level(FloorOf(Raised(floors, g), issueId))
  {
    hide Raised, FloorOf;
    RaisedLevel(floors, g, issueId);
    RaisedLevel(held, g, issueId);
  }

  lemma UnreadableAdds(lines: seq<Line>)
    ensures Rebuilt(lines + [Unparseable]) == Rebuilt(lines)
  {
    hide Rebuilt;
    RebuiltExtends(lines, Unparseable);
  }

  lemma RegisterTracks(c: Custody, s: Live, g: Registration, agent: Option<Text>, ts: Text, disk: Disk, issueId: Text)
    requires Tracks(c, s) && !s.corrupt
    ensures var t := Then(c, s, Register(g, agent, ts, disk));
      Sturdy(c, t.lines) && Level(FloorOf(t.floors, issueId)) <= Level(FloorOf(Rebuilt(t.lines), issueId))
      && Level(FloorOf(s.floors, issueId)) <= Level(FloorOf(t.floors, issueId))
  {
    hide Body, Next, Sturdy, Decode, RegistrationReceipt, Rebuilt, SafeIssue, FloorOf;
    if SafeIssue(g.issueId) {
      var r := RegistrationReceipt(c.hash, g, EffectiveFor(s.floors, g), agent);
      AppendKeepsSturdy(c, s.lines, Body(r), ts, disk);
      var n := Next(c, s.lines, Body(r), ts);
      if n.Draft? {
        DraftDecodes(c, s.lines, g, EffectiveFor(s.floors, g), agent, ts);
        RebuiltExtends(s.lines, n.entry);
        UnreadableAdds(s.lines);
        assert Behind(s.floors, s.lines);
        RaisedBehind(s.floors, Rebuilt(s.lines), g, issueId);
      }
    }
  }

  lemma AppendTracks(c: Custody, s: Live, e: Event)
    requires Tracks(c, s) && e.Append? && ForeignStep(c, s.lines, e)
    ensures Tracks(c, Then(c, s, e)) && Then(c, s, e).floors == s.floors
  {
    hide Next, Sturdy, Decode, Rebuilt, FloorOf;
    if e.body.Obj? {
      AppendKeepsSturdy(c, s.lines, e.body, e.ts, e.disk);
      var n := Next(c, s.lines, e.body, e.ts);
      if n.Draft? {
        RebuiltExtends(s.lines, n.entry);
        UnreadableAdds(s.lines);
      }
    }
  }

  lemma RepairTracks(c: Custody, s: Live)
    requires Tracks(c, s)
    ensures Tracks(c, Then(c, s, RepairTail))
  {
    hide Verified, Rebuilt, FloorOf;
    if |s.lines| > 0 && s.lines[|s.lines| - 1] == Unparseable {
      var front := s.lines[..|s.lines| - 1];
      RepairVerifies(c, s.lines);
      assert front + [Unparseable] == s.lines;
      UnreadableAdds(front);
    }
  }

  lemma RegisterTracksAll(c: Custody, s: Live, e: Event)
    requires Tracks(c, s) && e.Register?
    ensures Tracks(c, Then(c, s, e))
  {
    if !s.corrupt {
      var t := Then(c, s, e);
      RegisterLive(c, s, e);
      hide Then, Rebuilt, FloorOf, Sturdy;
      RegisterTracks(c, s, e.g, e.agent, e.ts, e.disk, []);
      forall issueId ensures Level(FloorOf(t.floors, issueId)) <= Level(FloorOf(Rebuilt(t.lines), issueId)) {
        RegisterTracks(c, s, e.g, e.agent, e.ts, e.disk, issueId);
      }
    }
  }

  lemma RegisterLive(c: Custody, s: Live, e: Event)
    requires e.Register?
    ensures Then(c, s, e).corrupt == s.corrupt
  {
    hide Execute;
  }

  /** A restart shows the ledger's floors, or none over a ledger that does not verify. */
  lemma RestartTracks(c: Custody, s: Live, issueId: Text)
    requires Tracks(c, s)
    ensures var t := Then(c, s, Restart);
      && Tracks(c, t)
      && (Level(FloorOf(t.floors, issueId)) < Level(FloorOf(s.floors, issueId)) <==>
            !Verified(c, s.lines) && FloorOf(s.floors, issueId).Some?)
  {
    hide Verified, Rebuilt;
    assert Behind(s.floors, s.lines);
  }

  lemma StepTracks(c: Custody, s: Live, e: Event)
    requires Tracks(c, s) && ForeignStep(c, s.lines, e)
    ensures Tracks(c, Then(c, s, e))
  {
    hide Then, Tracks, ForeignStep;
    match e
    case Register(_, _, _, _) => RegisterTracksAll(c, s, e);
    case Append(_, _, _) => AppendTracks(c, s, e);
    case Restart => RestartTracks(c, s, []);
    case RepairTail => RepairTracks(c, s);
  }

  lemma {:induction false} RunTracks(c: Custody, run: seq<Event>, n: nat)
    requires n <= |run| && Foreign(c, run)
    ensures Tracks(c, After(c, run, n))
  {
    hide Then, Tracks, ForeignStep;
    if n == 0 {
      EmptyTracks(c);
    } else {
      RunTracks(c, run, n - 1);
      StepTracks(c, After(c, run, n - 1), run[n - 1]);
    }
  }

  lemma EmptyTracks(c: Custody)
    ensures Tracks(c, Live([], map[], false)) && InStep(c, [], map[])
  {}

  /** With writes that end in any way, a floor goes down in exactly one step: a restart over a ledger that does not
      verify, which then shows no floor at all. */
  lemma FloorFallsIff(c: Custody, run: seq<Event>, n: nat, issueId: Text)
    requires n < |run| && Foreign(c, run)
    ensures var (s, t) := (After(c, run, n), After(c, run, n + 1));
      Level(FloorOf(t.floors, issueId)) < Level(FloorOf(s.floors, issueId)) <==>
        run[n].Restart? && !Verified(c, s.lines) && FloorOf(s.floors, issueId).Some?
  {
    var s, e := After(c, run, n), run[n];
    RunTracks(c, run, n);
    assert ForeignStep(c, s.lines, e);
    assert After(c, run, n + 1) == Then(c, s, e);
    hide After, Foreign, ForeignStep, Verified, FloorOf;
    StepLevels(c, s, e, issueId);
  }

  lemma StepLevels(c: Custody, s: Live, e: Event, issueId: Text)
    requires Tracks(c, s) && ForeignStep(c, s.lines, e)
    ensures Level(FloorOf(Then(c, s, e).floors, issueId)) < Level(FloorOf(s.floors, issueId)) <==>
      e.Restart? && !Verified(c, s.lines) && FloorOf(s.floors, issueId).Some?
  {
    hide Then, Tracks, ForeignStep, Verified, FloorOf;
    match e
    case Register(g, agent, ts, disk) =>
      if s.corrupt { CorruptStays(c, s, e); } else { RegisterTracks(c, s, g, agent, ts, disk, issueId); }
    case Append(_, _, _) => AppendTracks(c, s, e);
    case Restart => RestartTracks(c, s, issueId);
    case RepairTail => CorruptStays(c, s, e);
  }

  lemma CorruptStays(c: Custody, s: Live, e: Event)
    requires e.RepairTail? || (e.Register? && s.corrupt)
    ensures Then(c, s, e).floors == s.floors
  {
    hide Execute;
  }

  /** No floor goes down while every restart finds the ledger verified. */
  lemma {:induction false} FloorsNeverFall(c: Custody, run: seq<Event>, m: nat, n: nat, issueId: Text)
    requires m <= n <= |run| && Foreign(c, run)
    requires forall k :: m <= k < n && run[k].Restart? ==> Verified(c, After(c, run, k).lines)
    ensures Level(FloorOf(After(c, run, m).floors, issueId)) <= Level(FloorOf(After(c, run, n).floors, issueId))
    decreases n
  {
    hide After, Foreign, FloorOf, Verified;
    if m < n {
      FloorsNeverFall(c, run, m, n - 1, issueId);
      FloorFallsIff(c, run, n - 1, issueId);
    }
  }

  /** A matter once registered privileged stays so, whatever is registered later. */
  lemma PrivilegedForEver(c: Custody, run: seq<Event>, m: nat, n: nat, issueId: Text)
    requires m <= n <= |run| && Foreign(c, run) && FloorOf(After(c, run, m).floors, issueId) == Some(Privileged)
    requires forall k :: m <= k < n && run[k].Restart? ==> Verified(c, After(c, run, k).lines)
    ensures FloorOf(After(c, run, n).floors, issueId) == Some(Privileged)
  {
    hide After, Foreign, FloorOf, Verified;
    FloorsNeverFall(c, run, m, n, issueId);
  }

  /** A registration that returns leaves the higher of the floor before it and the tier asked for, and touches no
      other matter. */
  lemma RegisteredFloor(c: Custody, lines: seq<Line>, floors: FloorMap, g: Registration, agent: Option<Text>, ts: Text,
                        disk: Disk, other: Text)
    ensures var (after, live, ok) := Execute(c, lines, floors, g, agent, ts, disk);
      && (ok ==> Tops(iset{FloorOf(floors, g.issueId), Some(g.tier)}, FloorOf(live, g.issueId)))
      && (!ok ==> live == floors)
      && (other != g.issueId ==> FloorOf(live, other) == FloorOf(floors, other))
  {
    hide AppendTo, Body, RegistrationReceipt, SafeIssue;
  }

  lemma EffectiveReads(tier: Tier, effective: Tier)
    ensures MetaText(RegistrationMeta(tier, effective), "effectiveTier") == Some(TierText(effective))
  {
    var ms := RegistrationMeta(tier, effective).members;
    assert DistinctKeys(ms);
    hide Lit, TierText, Lookup;
    LookupUnique(ms, 1);
  }

  /** The receipt of a registration tells the tier asked for and, apart from it, the floor that is then in force; an
      attempt to lower a floor is on the ledger as just that. */
  lemma RegistrationIsHonest(c: Custody, lines: seq<Line>, floors: FloorMap, g: Registration, agent: Option<Text>,
                             ts: Text, disk: Disk, name: Text)
    requires Execute(c, lines, floors, g, agent, ts, disk).2
    ensures var (after, live, _) := Execute(c, lines, floors, g, agent, ts, disk);
      && |after| == |lines| + 1 && after[..|lines|] == lines && Decode(after[|lines|]) == Some(g)
      && FloorOf(live, g.issueId).Some?
      && (MetaText(MetaOf(after[|lines|]), "effectiveTier") == Some(name) <==>
            Named(FloorOf(live, g.issueId).value, name))
  {
    hide AppendTo, Body, RegistrationReceipt, SafeIssue, Decode, MetaText, MetaOf, TierText, RegistrationMeta, Lit;
    var effective := EffectiveFor(floors, g);
    DraftDecodes(c, lines, g, effective, agent, ts);
    MetaIsRegistration(c.hash, g, effective, agent);
    LastLine(c, lines, RegistrationReceipt(c.hash, g, effective, agent), ts, disk);
    EffectiveReads(g.tier, effective);
    NamedIs(effective, name);
  }

  lemma NamedIs(tier: Tier, name: Text)
    ensures Named(tier, name) <==> TierText(tier) == name
  {
    hide Lit;
  }

  lemma MetaIsRegistration(h: Hash, g: Registration, effective: Tier, agent: Option<Text>)
    ensures RegistrationReceipt(h, g, effective, agent).meta == Some(RegistrationMeta(g.tier, effective))
  {
    hide Lit, Canonical, RegistrationMeta;
  }

  /** A returned append leaves the drafted line, with the receipt's meta. */
  lemma LastLine(c: Custody, lines: seq<Line>, r: Receipt, ts: Text, disk: Disk)
    requires AppendTo(c, lines, Body(r), ts, disk).1.Appended? && r.meta.Some?
    ensures var (after, n) := (AppendTo(c, lines, Body(r), ts, disk).0, Next(c, lines, Body(r), ts));
      n.Draft? && after == lines + [n.entry] && MetaOf(n.entry) == r.meta.value
  {
    AppendHolds(c, lines, r, ts, disk);
    AppendEnds(c, lines, Body(r), ts, disk);
    hide Body, Next, Reads, Lit, Lookup;
  }

  // Whole writes: live floors and the ledger's are the same.

  lemma StepKeeps(c: Custody, s: Live, e: Event)
    requires InStep(c, s.lines, s.floors) && !s.corrupt && ForeignStep(c, s.lines, e) && WholeWrite(e)
    ensures var t := Then(c, s, e); InStep(c, t.lines, t.floors) && !t.corrupt
  {
    hide Next, Verified, Decode, Rebuilt, Execute, Body;
    match e
    case Register(g, agent, ts, disk) => RegisterKeepsStep(c, s.lines, s.floors, g, agent, ts, disk);
    case Append(body, ts, disk) =>
      if body.Obj? {
        NextIsSound(c, s.lines, body, ts);
        var n := Next(c, s.lines, body, ts);
        if n.Draft? { RebuiltExtends(s.lines, n.entry); }
      }
    case Restart =>
    case RepairTail => NoTornTail(c, s.lines);
  }

  lemma NoTornTail(c: Custody, lines: seq<Line>)
    requires Verified(c, lines)
    ensures |lines| > 0 ==> lines[|lines| - 1] != Unparseable
  {
    if |lines| > 0 { VerifiedLine(c, lines, |lines| - 1); }
  }

  /** After any run of whole writes the live floors are those a replay of the ledger gives: for each matter the maximum
      ever registered. */
  lemma {:induction false} ReplayEqualsLive(c: Custody, run: seq<Event>, n: nat, issueId: Text)
    requires n <= |run| && Foreign(c, run) && WholeWrites(run)
    ensures var s := After(c, run, n);
      && InStep(c, s.lines, s.floors) && !s.corrupt
      && IsHighest(TiersFor(Registrations(s.lines, |s.lines|), issueId), FloorOf(s.floors, issueId))
  {
    hide Execute, Verified, ForeignStep, AppendTo, Then;
    if n == 0 {
      EmptyTracks(c);
    } else {
      ReplayEqualsLive(c, run, n - 1, issueId);
      StepKeeps(c, After(c, run, n - 1), run[n - 1]);
    }
    var s := After(c, run, n);
    FloorIsHighest(Registrations(s.lines, |s.lines|), issueId);
  }

  // --------------------------------------------------------------------------- the class

  class MatterClassificationRegistry {
    const receipts: ReceiptChain
    var tiers: FloorMap
    var corrupt: bool

    /** Replays the ledger, or reads no floors when it does not verify. */
    constructor (receipts: ReceiptChain)
      ensures this.receipts == receipts && (corrupt <==> !Verified(receipts.custody, receipts.lines))
      ensures !corrupt ==> tiers == Rebuilt(receipts.lines)
    {
      hide Verified, Decode, Raised;
      var verdict := receipts.Verify();
      var tiers: FloorMap := map[];
      if verdict.Intact? {
        var lines := receipts.lines;
        for i := 0 to |lines|
          invariant tiers == Replay(Registrations(lines, i))
        {
          var g := Decode(lines[i]);
          var gs := Registrations(lines, i);
          if g.Some? {
            assert (gs + [g.value])[..|gs|] == gs;
            tiers := Raised(tiers, g.value);
          } else {
            assert gs + [] == gs;
          }
        }
      }
      this.receipts, this.tiers, this.corrupt := receipts, tiers, verdict.Broken?;
    }

    method Get(issueId: Text) returns (f: Floor)
      ensures f == if corrupt then None else FloorOf(tiers, issueId)
    {
      f := if corrupt || issueId !in tiers then None else Some(tiers[issueId]);
    }

    /** None is the thrown error; tier None is no known tier. */
    method Register(issueId: Text, tier: Floor, agent: Option<Text>, ts: Text, disk: Disk) returns (effective: Floor)
      modifies this`tiers, receipts`lines
      ensures corrupt || tier.None? ==>
        effective == None && tiers == old(tiers) && receipts.lines == old(receipts.lines)
      ensures !corrupt && tier.Some? ==>
        && (receipts.lines, tiers, effective.Some?)
           == Execute(receipts.custody, old(receipts.lines), old(tiers), Registration(issueId, tier.value), agent, ts,
                      disk)
        && (effective.Some? ==> effective == FloorOf(tiers, issueId))
    {
      hide AppendTo, Body, RegistrationReceipt, SafeIssue;
      if corrupt || !SafeIssue(issueId) || tier.None? { return None; }
      var g := Registration(issueId, tier.value);
      var inForce := if issueId in tiers && Rank(tiers[issueId]) > Rank(tier.value) then tiers[issueId] else tier.value;
      var r := receipts.Append(Body(RegistrationReceipt(receipts.custody.hash, g, inForce, agent)), ts, disk);
      if r.Refused? { return None; }
      tiers := tiers[issueId := inForce];
      return Some(inForce);
    }
  }
}
