/** Which agents and skills a selection of teams ships. */
module Teams {
  import opened Options

  type Slug = string

  datatype Agent = Agent(reportsTo: Option<Slug>, skills: set<Slug>)

  const CHIEFS: set<Slug> := {"chief-of-staff", "chief-counsel"}
  const ALWAYS: set<Slug> := CHIEFS +
    {"firm-facade-recorder", "capability-builder", "risk-spotter", "debate-judge", "reconciler"}
  const LEAD := "-lead"

  predicate EndsWith(s: Slug, suffix: string) {
    |suffix| <= |s| && s[|s| - |suffix|..] == suffix
  }

  predicate ReportsIn(a: Agent, s: set<Slug>) {
    a.reportsTo.Some? && a.reportsTo.value in s
  }

  predicate IsLead(agents: map<Slug, Agent>, s: Slug) {
    s in agents && EndsWith(s, LEAD) && ReportsIn(agents[s], CHIEFS)
  }

  /** The team has a lead that reports to one of the two chiefs. */
  predicate LeadsTeam(agents: map<Slug, Agent>, team: string) {
    (team + "-lead") in agents &&
    agents[team + "-lead"].reportsTo in {Some("chief-of-staff"), Some("chief-counsel")}
  }

  lemma IsLeadIs(agents: map<Slug, Agent>, team: string)
    ensures IsLead(agents, team + LEAD) <==> LeadsTeam(agents, team)
  {
    assert (team + LEAD)[|team|..] == LEAD;
  }

  /** Team names, each with its lead: the lead's slug is the name and the suffix. */
  method ValidTeams(agents: map<Slug, Agent>) returns (teams: map<string, Slug>)
    ensures forall t :: t in teams <==> IsLead(agents, t + LEAD)
    ensures forall t :: t in teams <==> LeadsTeam(agents, t)
    ensures forall t :: t in teams ==> teams[t] == t + "-lead"
  {
    forall t ensures IsLead(agents, t + LEAD) <==> LeadsTeam(agents, t) { IsLeadIs(agents, t); }
    teams := map[];
    var rest := agents.Keys;
    while rest != {}
      invariant rest <= agents.Keys
      invariant forall t :: t in teams <==> IsLead(agents, t + LEAD) && t + LEAD !in rest
      invariant forall t :: t in teams ==> teams[t] == t + LEAD
    {
      var slug :| slug in rest;
      rest := rest - {slug};
      if EndsWith(slug, LEAD) && ReportsIn(agents[slug], CHIEFS) {
        var t := slug[..|slug| - |LEAD|];
        assert t + LEAD == slug;
        forall u | u + LEAD == slug ensures u == t {
          assert u == (u + LEAD)[..|u|];
        }
        teams := teams[t := slug];
      }
    }
  }

  // --------------------------------------------------------------------------- closure

  /** An agent reporting to an included agent other than a chief is included. */
  predicate Closed(agents: map<Slug, Agent>, s: set<Slug>) {
    forall a :: a in agents && ReportsIn(agents[a], s - CHIEFS) ==> a in s
  }

  predicate IsSelection(agents: map<Slug, Agent>, seeds: set<Slug>, s: set<Slug>) {
    seeds <= s <= seeds + agents.Keys && Closed(agents, s)
  }

  /** s is the least closed set with the seeds in it. */
  ghost predicate IsLeast(agents: map<Slug, Agent>, seeds: set<Slug>, s: set<Slug>) {
    IsSelection(agents, seeds, s) && forall t: set<Slug> :: seeds <= t && Closed(agents, t) ==> s <= t
  }

  function Seeds(agents: map<Slug, Agent>, teams: set<string>): set<Slug> {
    (set s | s in ALWAYS && s in agents) + (set t | t in teams :: t + LEAD)
  }

  /** The agents that come with every selection, and the leads of the teams selected. */
  predicate IsSeed(agents: map<Slug, Agent>, teams: set<string>, s: Slug) {
    || (s in agents && s in {"chief-of-staff", "chief-counsel", "firm-facade-recorder", "capability-builder",
                             "risk-spotter", "debate-judge", "reconciler"})
    || exists t :: t in teams && s == t + "-lead"
  }

  lemma SeedsAre(agents: map<Slug, Agent>, teams: set<string>, s: Slug)
    ensures s in Seeds(agents, teams) <==> IsSeed(agents, teams, s)
  {}

  /** Grow the seeds until a whole pass over the agents changes nothing; ends on any reporting graph, cycles
      included. */
  method Grow(agents: map<Slug, Agent>, seeds: set<Slug>) returns (included: set<Slug>)
    requires forall c :: c in CHIEFS && c in agents ==> c in seeds
    ensures IsLeast(agents, seeds, included)
  {
    included := seeds;
    var expandable := included - CHIEFS;
    var changed := true;
    while changed
      invariant seeds <= included <= seeds + agents.Keys && expandable == included - CHIEFS
      invariant forall t: set<Slug> :: seeds <= t && Closed(agents, t) ==> included <= t
      invariant !changed ==> Closed(agents, included)
      decreases |agents.Keys - included|, changed
    {
      changed := false;
      ghost var before := included;
      var rest := agents.Keys;
      while rest != {}
        invariant rest <= agents.Keys && before <= included && seeds <= included <= seeds + agents.Keys
        invariant expandable == included - CHIEFS
        invariant forall t: set<Slug> :: seeds <= t && Closed(agents, t) ==> included <= t
        invariant changed <==> included != before
        invariant !changed ==> forall a :: a in agents && a !in rest && ReportsIn(agents[a], included - CHIEFS) ==>
          a in included
      {
        var slug :| slug in rest;
        rest := rest - {slug};
        if slug !in included && ReportsIn(agents[slug], expandable) {
          StillForced(agents, seeds, included, slug);
          included := included + {slug};
          expandable := expandable + {slug};
          changed := true;
        }
      }
      if changed { Fewer(agents.Keys, before, included); }
    }
  }

  lemma StillForced(agents: map<Slug, Agent>, seeds: set<Slug>, included: set<Slug>, slug: Slug)
    requires slug in agents && ReportsIn(agents[slug], included - CHIEFS)
    requires forall t: set<Slug> :: seeds <= t && Closed(agents, t) ==> included <= t
    ensures forall t: set<Slug> :: seeds <= t && Closed(agents, t) ==> included + {slug} <= t
  {
    forall t: set<Slug> | seeds <= t && Closed(agents, t) ensures included + {slug} <= t {
      assert included <= t;
      assert ReportsIn(agents[slug], t - CHIEFS);
    }
  }

  lemma Fewer(all: set<Slug>, before: set<Slug>, after: set<Slug>)
    requires before <= after && before != after && after - before <= all
    ensures |all - after| < |all - before|
  {
    var x :| x in after && x !in before;
    assert all - before == (all - after) + (after - before) && (all - after) * (after - before) == {};
    assert |all - before| == |all - after| + |after - before|;
    assert after - before != {};
  }

  /** The least closed set is unique. */
  lemma LeastUnique(agents: map<Slug, Agent>, seeds: set<Slug>, s: set<Slug>, t: set<Slug>)
    requires IsLeast(agents, seeds, s) && IsLeast(agents, seeds, t)
    ensures s == t
  {}

  /** Selecting two lists of teams together selects the union of what each selects. */
  lemma LeastUnion(agents: map<Slug, Agent>, a: set<Slug>, b: set<Slug>, s: set<Slug>, t: set<Slug>)
    requires IsLeast(agents, a, s) && IsLeast(agents, b, t)
    ensures IsLeast(agents, a + b, s + t)
  {
    forall x | x in agents && ReportsIn(agents[x], s + t - CHIEFS) ensures x in s + t {
      if ReportsIn(agents[x], s - CHIEFS) { assert x in s; } else { assert x in t; }
    }
    forall u: set<Slug> | a + b <= u && Closed(agents, u) ensures s + t <= u {
      assert a <= u && b <= u;
    }
  }

  /** Up the reporting line: slug reports in k steps to a seed, past no chief. */
  ghost predicate LeadsTo(agents: map<Slug, Agent>, seeds: set<Slug>, slug: Slug, k: nat)
    decreases k
  {
    slug in seeds ||
    (k > 0 && slug in agents && agents[slug].reportsTo.Some? && agents[slug].reportsTo.value !in CHIEFS
     && LeadsTo(agents, seeds, agents[slug].reportsTo.value, k - 1))
  }

  ghost predicate Reaches(agents: map<Slug, Agent>, seeds: set<Slug>, slug: Slug) {
    exists k: nat :: LeadsTo(agents, seeds, slug, k)
  }

  ghost function Led(agents: map<Slug, Agent>, seeds: set<Slug>): set<Slug> {
    seeds + set a | a in agents && Reaches(agents, seeds, a)
  }

  lemma {:induction false} LedStays(agents: map<Slug, Agent>, seeds: set<Slug>, t: set<Slug>, slug: Slug, k: nat)
    requires seeds <= t && Closed(agents, t) && LeadsTo(agents, seeds, slug, k)
    ensures slug in t
    decreases k
  {
    if slug !in seeds { LedStays(agents, seeds, t, agents[slug].reportsTo.value, k - 1); }
  }

  /** An agent is included exactly when it is a seed or its reporting line reaches one before any chief. */
  lemma IncludedIff(agents: map<Slug, Agent>, seeds: set<Slug>, s: set<Slug>, slug: Slug)
    requires IsLeast(agents, seeds, s)
    ensures slug in s <==> Reaches(agents, seeds, slug)
  {
    var led := Led(agents, seeds);
    forall a | a in agents && ReportsIn(agents[a], led - CHIEFS) ensures a in led {
      var r := agents[a].reportsTo.value;
      if r in seeds {
        assert LeadsTo(agents, seeds, r, 0);
        assert LeadsTo(agents, seeds, a, 1);
      } else {
        var k: nat :| LeadsTo(agents, seeds, r, k);
        assert LeadsTo(agents, seeds, a, k + 1);
      }
    }
    assert Closed(agents, led) && s <= led;
    if slug in s && slug in seeds { assert LeadsTo(agents, seeds, slug, 0); }
    if k: nat :| LeadsTo(agents, seeds, slug, k) { LedStays(agents, seeds, s, slug, k); }
  }

  // ---------------------------------------------------------------------------- skills

  function SkillsOf(agents: map<Slug, Agent>, s: set<Slug>): set<Slug> {
    set a, k | a in agents && a in s && k in agents[a].skills :: k
  }

  /** Skills of included agents that exist, and skills no agent refers to. */
  function IncludedSkills(agents: map<Slug, Agent>, onDisk: set<Slug>, s: set<Slug>): set<Slug> {
    SkillsOf(agents, s) * onDisk + (onDisk - SkillsOf(agents, agents.Keys))
  }

  method ComputeSubset(agents: map<Slug, Agent>, onDisk: set<Slug>, teams: set<string>)
    returns (r: Option<(set<Slug>, set<Slug>)>)
    ensures r.Some? <==> forall t :: t in teams ==> LeadsTeam(agents, t)
    ensures forall s :: s in Seeds(agents, teams) <==> IsSeed(agents, teams, s)
    ensures r.Some? ==>
      && IsLeast(agents, Seeds(agents, teams), r.value.0)
      && r.value.1 == IncludedSkills(agents, onDisk, r.value.0)
      && forall k :: k in r.value.1 <==>
        k in onDisk && ((exists a :: a in agents && a in r.value.0 && k in agents[a].skills) ||
                        (forall a :: a in agents ==> k !in agents[a].skills))
  {
    forall s ensures s in Seeds(agents, teams) <==> IsSeed(agents, teams, s) { SeedsAre(agents, teams, s); }
    var valid := ValidTeams(agents);
    if t :| t in teams && t !in valid { return None; }
    var included := Grow(agents, Seeds(agents, teams));
    var byIncluded: set<Slug>, byAnyone: set<Slug> := {}, {};
    var rest := agents.Keys;
    while rest != {}
      invariant rest <= agents.Keys
      invariant forall k :: k in byAnyone <==> k in SkillsOf(agents, agents.Keys - rest)
      invariant forall k :: k in byIncluded <==> k in SkillsOf(agents, included - rest)
    {
      var slug :| slug in rest;
      rest := rest - {slug};
      byAnyone := byAnyone + agents[slug].skills;
      if slug in included { byIncluded := byIncluded + agents[slug].skills; }
    }
    assert agents.Keys - {} == agents.Keys && included - {} == included;
    return Some((included, byIncluded * onDisk + (onDisk - byAnyone)));
  }

  lemma SeedsUnion(agents: map<Slug, Agent>, a: set<string>, b: set<string>)
    ensures Seeds(agents, a + b) == Seeds(agents, a) + Seeds(agents, b)
  {}

  /** Agents and skills for a union of team lists are the unions of the results. */
  lemma SubsetOfUnion(agents: map<Slug, Agent>, onDisk: set<Slug>, a: set<string>, b: set<string>, s: set<Slug>,
                      t: set<Slug>, u: set<Slug>)
    requires IsLeast(agents, Seeds(agents, a), s) && IsLeast(agents, Seeds(agents, b), t)
    requires IsLeast(agents, Seeds(agents, a + b), u)
    ensures u == s + t
    ensures IncludedSkills(agents, onDisk, u) == IncludedSkills(agents, onDisk, s) + IncludedSkills(agents, onDisk, t)
  {
    SeedsUnion(agents, a, b);
    LeastUnion(agents, Seeds(agents, a), Seeds(agents, b), s, t);
    LeastUnique(agents, Seeds(agents, a + b), u, s + t);
    hide IsLeast, Seeds;
    assert SkillsOf(agents, s + t) == SkillsOf(agents, s) + SkillsOf(agents, t);
  }
}
