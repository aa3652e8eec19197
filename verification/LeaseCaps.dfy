/**
  Caps and limits: what a granted claim checks, what holds in every run whose reloads only add or raise,
  and how a reload that rebinds a repository takes a project past its cap.
  */
module LeaseCaps {
  import opened Basics
  import opened Turns
  import opened TurnRuns
  import opened Claims
  import opened ClaimRuns

  // ----- counting leases -----

  function CapOf(pol: Policy, slug: string): nat {
    if slug in pol.projects then pol.projects[slug].cap else 0
  }

  ghost predicate CapsHold(pl: Plane, pol: Policy) {
    && (forall slug :: slug in pol.projects ==> |ProjectLeases(pl, pol.projects[slug])| <= pol.projects[slug].cap)
    && (forall r :: r in pl.sessions && pl.sessions[r].parent == None && pl.sessions[r].project != "" ==>
          |TreeLeases(pl, r)| <= CapOf(pol, pl.sessions[r].project))
  }

  lemma {:induction false} SubsetSize<T>(a: set<T>, b: set<T>)
    requires a <= b
    ensures |a| <= |b|
  {
    if a != {} {
      var x :| x in a;
      SubsetSize(a - {x}, b - {x});
    }
  }

  /** No lease appears and sessions stay as they are: counts can only fall. */
  lemma FewerLeases(pl: Plane, next: Plane, pol: Policy)
    requires CapsHold(pl, pol) && pl.turns.Keys == pl.sessions.Keys
    requires LeasedTurns(next) <= LeasedTurns(pl)
    requires forall id :: id in pl.sessions ==> id in next.sessions && next.sessions[id] == pl.sessions[id]
    requires forall id :: id in next.sessions && id !in pl.sessions ==> forall o :: o in pl.sessions ==> pl.sessions[o].parent != Some(id)
    ensures CapsHold(next, pol)
  {
    forall id | id in LeasedTurns(next) ensures id in LeasedTurns(pl) && id in pl.sessions { }
    forall slug | slug in pol.projects ensures |ProjectLeases(next, pol.projects[slug])| <= pol.projects[slug].cap {
      var p := pol.projects[slug];
      forall id | id in ProjectLeases(next, p) ensures id in ProjectLeases(pl, p) {
        assert next.sessions[id] == pl.sessions[id];
      }
      SubsetSize(ProjectLeases(next, p), ProjectLeases(pl, p));
    }
    forall r | r in next.sessions && next.sessions[r].parent == None && next.sessions[r].project != ""
      ensures |TreeLeases(next, r)| <= CapOf(pol, next.sessions[r].project)
    {
      if r in pl.sessions {
        SubsetSize(TreeLeases(next, r), TreeLeases(pl, r));
      } else {
        assert TreeLeases(next, r) == {};
      }
    }
  }

  lemma GrantLeasesOne(pl: Plane, id: int, who: Claimer, t2: nat, t3: nat)
    requires id in pl.turns && pl.turns[id].job.state == Queued
    ensures LeasedTurns(Lease(pl, id, who, t2, t3)) == LeasedTurns(pl) + {id}
    ensures id !in LeasedTurns(pl)
    ensures Lease(pl, id, who, t2, t3).sessions == pl.sessions
  {
  }

  /** A grant adds one lease, and only to the projects that count the session. */
  lemma GrantCountsInProject(pl: Plane, next: Plane, id: int, p: Project)
    requires id in pl.sessions && id !in LeasedTurns(pl)
    requires LeasedTurns(next) == LeasedTurns(pl) + {id} && next.sessions == pl.sessions
    ensures |ProjectLeases(next, p)| == |ProjectLeases(pl, p)| + (if Counted(p, pl.sessions[id]) then 1 else 0)
  {
    assert ProjectLeases(next, p) == ProjectLeases(pl, p) + (if Counted(p, pl.sessions[id]) then {id} else {});
  }

  /** A grant adds one lease, and only to the tree of the session. */
  lemma GrantCountsInTree(pl: Plane, next: Plane, id: int, r: int)
    requires id in pl.sessions && id !in LeasedTurns(pl)
    requires LeasedTurns(next) == LeasedTurns(pl) + {id} && next.sessions == pl.sessions
    ensures |TreeLeases(next, r)| == |TreeLeases(pl, r)| + (if id == r || pl.sessions[id].parent == Some(r) then 1 else 0)
  {
    assert TreeLeases(next, r) ==
           TreeLeases(pl, r) + (if id == r || pl.sessions[id].parent == Some(r) then {id} else {});
  }

  // ----- sessions on their own project -----

  /** The project of a session is the one its repository stands for; a review session has none. */
  ghost predicate Scoped(pol: Policy, s: Session) {
    ScopeOf(pol, s.repo).Some? && (s.project == "" || ScopeOf(pol, s.repo) == Some(s.project))
  }

  ghost predicate ScopesInv(pl: Plane, pol: Policy) {
    forall id :: id in pl.sessions ==> Scoped(pol, pl.sessions[id])
  }

  /** Every way to open a session puts it on its own project. */
  lemma CreatedIsScoped(pl: Plane, pol: Policy, how: Creation, env: int, tenant: string)
    requires PolicyWF(pol) && ScopesInv(pl, pol) && Creates(pl, pol, how)
    ensures Scoped(pol, SessionOf(how, env, tenant))
  {
    if how.Child? { assert Scoped(pol, pl.sessions[how.parent]); }
  }

  /** Only the project its repository stands for counts a session. */
  lemma CountedIsScope(pol: Policy, s: Session, q: string)
    requires PolicyWF(pol) && Scoped(pol, s) && q in pol.projects && Counted(pol.projects[q], s)
    ensures ScopeOf(pol, s.repo) == Some(q)
  {
  }

  // ----- policies that only add -----

  /** The new policy only adds: no project or binding goes away, no cap or limit falls. */
  ghost predicate OnlyAdds(pol: Policy, next: Policy) {
    && (forall slug :: slug in pol.projects ==> slug in next.projects && pol.projects[slug].cap <= next.projects[slug].cap)
    && (forall r :: r in pol.repos ==>
          && r in next.repos && next.repos[r].project == pol.repos[r].project
          && pol.repos[r].maxPerDay <= next.repos[r].maxPerDay)
  }

  // ----- one claim -----

  /**
    A granted claim for project `slug` takes project `q` past its cap exactly when `q` is another project,
    the session belongs to `q`, and `q` was full.
    */
  lemma GrantPassesCapExactly(pl: Plane, pol: Policy, g: Gates, who: Claimer, slug: string, tenant: string, id: int,
                              t1: nat, t2: nat, t3: nat, q: string)
    requires PolicyWF(pol) && MayLease(pl, pol, g, who, slug, tenant, id, t1, t2, t3)
    requires q in pol.projects && |ProjectLeases(pl, pol.projects[q])| <= pol.projects[q].cap
    ensures |ProjectLeases(Lease(pl, id, who, t2, t3), pol.projects[q])| > pol.projects[q].cap <==>
      q != slug && pl.sessions[id].project == q && |ProjectLeases(pl, pol.projects[q])| == pol.projects[q].cap
  {
    ClaimedKey(pl, pol, g, who, slug, tenant, id, t1, t2, t3);
    GrantLeasesOne(pl, id, who, t2, t3);
    GrantCountsInProject(pl, Lease(pl, id, who, t2, t3), id, pol.projects[q]);
    assert q != slug ==> (Counted(pol.projects[q], pl.sessions[id]) <==> pl.sessions[id].project == q);
  }

  /** A granted claim lets a session tree grow only up to the cap of its root's project in the policy the call began with. */
  lemma GrantKeepsTree(pl: Plane, pol: Policy, g: Gates, who: Claimer, slug: string, tenant: string, id: int,
                       t1: nat, t2: nat, t3: nat, r: int)
    requires SessionsInv(pl) && MayLease(pl, pol, g, who, slug, tenant, id, t1, t2, t3)
    requires r in pl.sessions && pl.sessions[r].parent == None && pl.sessions[r].project != ""
    ensures var next := Lease(pl, id, who, t2, t3);
      || |TreeLeases(next, r)| == |TreeLeases(pl, r)|
      || (|TreeLeases(next, r)| == |TreeLeases(pl, r)| + 1 <= CapOf(who.snap, pl.sessions[r].project))
  {
    ClaimedKey(pl, pol, g, who, slug, tenant, id, t1, t2, t3);
    assert Rooted(pl, pl.sessions[id]);
    GrantLeasesOne(pl, id, who, t2, t3);
    GrantCountsInTree(pl, Lease(pl, id, who, t2, t3), id, r);
    if id == r || pl.sessions[id].parent == Some(r) {
      assert RootOf(pl, id) == r && RootProject(pl, id) == pl.sessions[r].project;
      assert TreeHasRoom(pl, who.snap, id);
    }
  }

  lemma GrantKeepsCaps(pl: Plane, pol: Policy, g: Gates, who: Claimer, slug: string, tenant: string, id: int,
                       t1: nat, t2: nat, t3: nat)
    requires PolicyWF(pol) && SessionsInv(pl) && ScopesInv(pl, pol) && CapsHold(pl, pol)
    requires MayLease(pl, pol, g, who, slug, tenant, id, t1, t2, t3) && OnlyAdds(who.snap, pol)
    ensures CapsHold(Lease(pl, id, who, t2, t3), pol)
  {
    var next := Lease(pl, id, who, t2, t3);
    ClaimedKey(pl, pol, g, who, slug, tenant, id, t1, t2, t3);
    assert Scoped(pol, pl.sessions[id]);
    forall q | q in pol.projects ensures |ProjectLeases(next, pol.projects[q])| <= pol.projects[q].cap {
      GrantPassesCapExactly(pl, pol, g, who, slug, tenant, id, t1, t2, t3, q);
    }
    forall r | r in pl.sessions && pl.sessions[r].parent == None && pl.sessions[r].project != ""
      ensures |TreeLeases(next, r)| <= CapOf(pol, pl.sessions[r].project)
    {
      GrantKeepsTree(pl, pol, g, who, slug, tenant, id, t1, t2, t3, r);
    }
    GrantLeasesOne(pl, id, who, t2, t3);
  }

  // ----- one step -----

  lemma OpenKeepsCaps(pl: Plane, pol: Policy, id: int, s: Session, lane: Lane)
    requires SessionsInv(pl) && CapsHold(pl, pol) && id !in pl.sessions
    ensures CapsHold(Opened(pl, id, s, lane), pol)
  {
    forall o | o in pl.sessions ensures pl.sessions[o].parent != Some(id) { assert Rooted(pl, pl.sessions[o]); }
    FewerLeases(pl, Opened(pl, id, s, lane), pol);
  }

  lemma ActKeepsCaps(pl: Plane, pol: Policy, id: int, ev: Event, now: nat)
    requires SessionsInv(pl) && CapsHold(pl, pol) && id in pl.turns && !ev.Claim?
    ensures CapsHold(Acted(pl, id, ev, now), pol)
  {
    OnlyClaimsGrant(pl.turns[id], ev, now);
    FewerLeases(pl, Acted(pl, id, ev, now), pol);
  }

  lemma CapsStep(pl: Plane, pol: Policy, st: PlaneStep)
    requires PolicyWF(pol) && SessionsInv(pl) && ScopesInv(pl, pol) && CapsHold(pl, pol)
    requires Enabled(pl, pol, st) && !st.Reload? && (st.GrantLease? ==> OnlyAdds(st.who.snap, pol))
    ensures CapsHold(Next(pl, pol, st), pol)
  {
    match st {
      case OpenSession(id, how, env, tenant) => OpenKeepsCaps(pl, pol, id, SessionOf(how, env, tenant), LaneOf(how));
      case Act(id, ev, now) => ActKeepsCaps(pl, pol, id, ev, now);
      case GrantLease(id, who, slug, tenant, g, t1, t2, t3) => GrantKeepsCaps(pl, pol, g, who, slug, tenant, id, t1, t2, t3);
      case GiveBack(id, gen, claimed) => FewerLeases(pl, GivenBack(pl, id, gen, claimed), pol);
    }
  }

  lemma ScopesStep(pl: Plane, pol: Policy, st: PlaneStep)
    requires PolicyWF(pol) && ScopesInv(pl, pol) && Enabled(pl, pol, st) && !st.Reload?
    ensures ScopesInv(Next(pl, pol, st), pol)
  {
    if st.OpenSession? { CreatedIsScoped(pl, pol, st.how, st.env, st.tenant); }
  }

  // ----- the daily limits -----

  function LimitOf(pol: Policy, repo: string): nat {
    if repo in pol.repos then pol.repos[repo].maxPerDay else 0
  }

  ghost predicate WithinLimits(pl: Plane, pol: Policy) {
    forall repo, day :: CountOn(pl, repo, day) <= LimitOf(pol, repo)
  }

  /** The review lane is open to a claim only for a bound repository whose count of that day is below its limit. */
  lemma ReviewLaneIsBudgeted(pl: Plane, pol: Policy, who: Claimer, p: Project, t1: nat)
    requires ReviewLane in ClaimLanes(pl, pol, who, p, t1)
    ensures who.repo.Bound? && CountOn(pl, who.repo.name, Day(t1)) < LimitOf(who.snap, who.repo.name)
  {
  }

  /** The claim's charge fits although the clock is read again after the check: a day that has not come counts nothing. */
  lemma ChargeFits(pl: Plane, pol: Policy, g: Gates, who: Claimer, slug: string, tenant: string, id: int,
                   t1: nat, t2: nat, t3: nat)
    requires LedgerInv(pl) && ExactCounts(pl)
    requires MayLease(pl, pol, g, who, slug, tenant, id, t1, t2, t3) && pl.turns[id].job.lane == ReviewLane
    ensures who.repo.Bound? && CountOn(pl, who.repo.name, Day(t3)) < LimitOf(who.snap, who.repo.name)
  {
    ClaimedKey(pl, pol, g, who, slug, tenant, id, t1, t2, t3);
    ReviewLaneIsBudgeted(pl, pol, who, pol.projects[slug], t1);
    LaterDayFits(pl, who.snap, who.repo.name, t1, t3);
  }

  lemma LaterDayFits(pl: Plane, pol: Policy, repo: string, t1: nat, t2: nat)
    requires LedgerInv(pl) && ExactCounts(pl) && pl.clock <= t1 <= t2
    requires CountOn(pl, repo, Day(t1)) < LimitOf(pol, repo)
    ensures CountOn(pl, repo, Day(t2)) < LimitOf(pol, repo)
  {
    DayMonotone(pl.clock, t1);
    DayMonotone(t1, t2);
    if Day(t1) < Day(t2) {
      forall k | k in pl.ledger ensures pl.ledger[k].day < Day(t2) { assert ChargeInv(pl, k, pl.ledger[k]); }
      assert Charged(pl, repo, Day(t2)) == {};
      assert CountOn(pl, repo, Day(t2)) == |Charged(pl, repo, Day(t2))|;
    }
  }

  lemma LeaseCount(pl: Plane, id: int, who: Claimer, t2: nat, t3: nat, repo: string, day: nat)
    requires id in pl.turns
    ensures CountOn(Lease(pl, id, who, t2, t3), repo, day) ==
      CountOn(pl, repo, day) +
      (if pl.turns[id].job.lane == ReviewLane && who.repo == Bound(repo) && day == Day(t3) then 1 else 0)
  {
  }

  lemma GrantKeepsLimits(pl: Plane, pol: Policy, g: Gates, who: Claimer, slug: string, tenant: string, id: int,
                         t1: nat, t2: nat, t3: nat)
    requires LedgerInv(pl) && ExactCounts(pl) && WithinLimits(pl, pol)
    requires MayLease(pl, pol, g, who, slug, tenant, id, t1, t2, t3) && OnlyAdds(who.snap, pol)
    ensures WithinLimits(Lease(pl, id, who, t2, t3), pol)
  {
    ClaimedKey(pl, pol, g, who, slug, tenant, id, t1, t2, t3);
    if pl.turns[id].job.lane == ReviewLane { ChargeFits(pl, pol, g, who, slug, tenant, id, t1, t2, t3); }
    forall repo, day ensures CountOn(Lease(pl, id, who, t2, t3), repo, day) <= LimitOf(pol, repo) {
      assert CountOn(pl, repo, day) <= LimitOf(pol, repo);
      LeaseCount(pl, id, who, t2, t3, repo, day);
    }
  }

  lemma LimitsKept(pl: Plane, next: Plane, pol: Policy)
    requires WithinLimits(pl, pol) && forall repo, day :: CountOn(next, repo, day) <= CountOn(pl, repo, day)
    ensures WithinLimits(next, pol)
  {
    forall repo, day ensures CountOn(next, repo, day) <= LimitOf(pol, repo) {
      assert CountOn(pl, repo, day) <= LimitOf(pol, repo);
    }
  }

  lemma LimitsStep(pl: Plane, pol: Policy, st: PlaneStep)
    requires LedgerInv(pl) && ExactCounts(pl) && WithinLimits(pl, pol)
    requires Enabled(pl, pol, st) && (st.GrantLease? ==> OnlyAdds(st.who.snap, pol))
    ensures WithinLimits(Next(pl, pol, st), pol)
  {
    match st {
      case GrantLease(id, who, slug, tenant, g, t1, t2, t3) => GrantKeepsLimits(pl, pol, g, who, slug, tenant, id, t1, t2, t3);
      case _ => LimitsKept(pl, Next(pl, pol, st), pol);
    }
  }

  // ----- reloads -----

  lemma SameScope(pol: Policy, next: Policy, s: Session)
    requires PolicyWF(pol) && PolicyWF(next) && OnlyAdds(pol, next) && Scoped(pol, s)
    ensures ScopeOf(next, s.repo) == ScopeOf(pol, s.repo) && Scoped(next, s)
  {
  }

  lemma ReloadKeepsProject(pl: Plane, pol: Policy, next: Policy, q: string)
    requires PolicyWF(pol) && PolicyWF(next) && OnlyAdds(pol, next) && ScopesInv(pl, pol) && CapsHold(pl, pol) && q in next.projects
    ensures |ProjectLeases(pl, next.projects[q])| <= next.projects[q].cap
  {
    forall id | id in ProjectLeases(pl, next.projects[q])
      ensures q in pol.projects && Counted(pol.projects[q], pl.sessions[id])
    {
      SameScope(pol, next, pl.sessions[id]);
      CountedIsScope(next, pl.sessions[id], q);
    }
    if q in pol.projects {
      SubsetSize(ProjectLeases(pl, next.projects[q]), ProjectLeases(pl, pol.projects[q]));
    } else {
      assert ProjectLeases(pl, next.projects[q]) == {};
    }
  }

  lemma ReloadKeeps(pl: Plane, pol: Policy, next: Policy)
    requires PolicyWF(pol) && PolicyWF(next) && OnlyAdds(pol, next)
    requires ScopesInv(pl, pol) && CapsHold(pl, pol) && WithinLimits(pl, pol)
    ensures ScopesInv(pl, next) && CapsHold(pl, next) && WithinLimits(pl, next)
  {
    forall id | id in pl.sessions ensures Scoped(next, pl.sessions[id]) { SameScope(pol, next, pl.sessions[id]); }
    forall q | q in next.projects ensures |ProjectLeases(pl, next.projects[q])| <= next.projects[q].cap {
      ReloadKeepsProject(pl, pol, next, q);
    }
    forall repo, day ensures CountOn(pl, repo, day) <= LimitOf(next, repo) {
      assert CountOn(pl, repo, day) <= LimitOf(pol, repo);
    }
  }

  /** Every reload of a run only adds. A run without reloads is one. */
  ghost predicate Additive(pols: seq<Policy>, steps: seq<PlaneStep>) {
    forall n :: 0 <= n < |steps| && n < |pols| && steps[n].Reload? ==> OnlyAdds(pols[n], steps[n].policy)
  }

  ghost predicate Within(pl: Plane, pol: Policy) {
    ScopesInv(pl, pol) && CapsHold(pl, pol) && WithinLimits(pl, pol)
  }

  lemma EmptyWithin(pol: Policy)
    ensures Within(Empty(), pol)
  {
    forall slug | slug in pol.projects ensures |ProjectLeases(Empty(), pol.projects[slug])| <= pol.projects[slug].cap {
      assert ProjectLeases(Empty(), pol.projects[slug]) == {};
    }
  }

  lemma WithinStep(pl: Plane, pol: Policy, st: PlaneStep)
    requires PolicyWF(pol) && PlaneInv(pl) && Within(pl, pol) && Enabled(pl, pol, st)
    requires (st.Reload? ==> OnlyAdds(pol, st.policy)) && (st.GrantLease? ==> OnlyAdds(st.who.snap, pol))
    ensures Within(Next(pl, pol, st), PolicyAfter(pol, st))
  {
    if st.Reload? {
      ReloadKeeps(pl, pol, st.policy);
    } else {
      ScopesStep(pl, pol, st);
      CapsStep(pl, pol, st);
      LimitsStep(pl, pol, st);
    }
  }

  /** In such a run a policy only adds to every earlier one, so also to the one a call began with. */
  lemma {:induction false} OnlyAddsSince(pls: seq<Plane>, pols: seq<Policy>, steps: seq<PlaneStep>, m: nat, n: nat)
    requires IsRun(pls, pols, steps) && Additive(pols, steps) && m <= n < |pols|
    ensures OnlyAdds(pols[m], pols[n])
    decreases n
  {
    if m < n {
      OnlyAddsSince(pls, pols, steps, m, n - 1);
      assert Taken(pls, pols, steps, n - 1);
    }
  }

  lemma {:induction false} WithinNext(pls: seq<Plane>, pols: seq<Policy>, steps: seq<PlaneStep>, n: nat)
    requires IsRun(pls, pols, steps) && Additive(pols, steps) && n < |steps| && Within(pls[n], pols[n])
    ensures Within(pls[n + 1], pols[n + 1])
  {
    CountsAreExact(pls, pols, steps, n);
    assert Taken(pls, pols, steps, n);
    if steps[n].GrantLease? {
      var m :| 0 <= m <= n && m < |pols| && pols[m] == steps[n].who.snap;
      OnlyAddsSince(pls, pols, steps, m, n);
    }
    WithinStep(pls[n], pols[n], steps[n]);
  }

  /**
    In every run whose reloads only add, in particular in every run under one policy: each project and each
    session tree is within its cap, and each daily count within its limit.
    */
  lemma {:induction false} CapsAndLimitsHold(pls: seq<Plane>, pols: seq<Policy>, steps: seq<PlaneStep>, n: nat)
    requires IsRun(pls, pols, steps) && Additive(pols, steps) && n < |pls|
    ensures Within(pls[n], pols[n])
  {
    if n == 0 {
      EmptyWithin(pols[0]);
    } else {
      CapsAndLimitsHold(pls, pols, steps, n - 1);
      WithinNext(pls, pols, steps, n - 1);
    }
  }

  // ----- a reload that rebinds -----

  /** The repository "r" belongs to "a", and after the reload to "b". */
  const BOUND_TO_A := Policy(
    map["a" := Project("a", {"r"}, 1, {RunLane}), "b" := Project("b", {}, 2, {RunLane})],
    map["r" := RepoPolicy("a", false, 0)])

  const BOUND_TO_B := Policy(
    map["a" := Project("a", {}, 1, {RunLane}), "b" := Project("b", {"r"}, 2, {RunLane})],
    map["r" := RepoPolicy("b", false, 0)])

  function Runner(pol: Policy): Claimer {
    Claimer(Bound("r"), "", 0, pol)
  }

  const NO_GATES := Gates({}, {}, {})

  function OnA(env: int): Session {
    Session("a", Bound("r"), None, env, false, "")
  }

  /** Two runs of project "a" are waiting. */
  function TwoWaiting(): Plane {
    Opened(Opened(Empty(), 1, OnA(1), RunLane), 2, OnA(2), RunLane)
  }

  function OneLeased(): Plane {
    Lease(TwoWaiting(), 1, Runner(BOUND_TO_A), 0, 0)
  }

  lemma FirstClaim()
    ensures MayLease(TwoWaiting(), BOUND_TO_A, NO_GATES, Runner(BOUND_TO_A), "a", "", 1, 0, 0, 0)
  {
    var pl := TwoWaiting();
    assert LeasedTurns(pl) == {};
    assert ProjectLeases(pl, BOUND_TO_A.projects["a"]) == {} && TreeLeases(pl, 1) == {};
    assert RunLane in ClaimLanes(pl, BOUND_TO_A, Runner(BOUND_TO_A), BOUND_TO_A.projects["a"], 0);
  }

  lemma OneLeasedShape()
    ensures LeasedTurns(OneLeased()) == {1} && OneLeased().sessions == TwoWaiting().sessions && 2 in OneLeased().turns
    ensures OneLeased().turns[2] == Fresh(RunLane) && OneLeased().clock == 0 && OneLeased().turns.Keys == {1, 2}
  {
    GrantLeasesOne(TwoWaiting(), 1, Runner(BOUND_TO_A), 0, 0);
    assert LeasedTurns(TwoWaiting()) == {};
  }

  lemma SecondClaim()
    ensures MayLease(OneLeased(), BOUND_TO_B, NO_GATES, Runner(BOUND_TO_B), "b", "", 2, 0, 0, 0)
  {
    var pl := OneLeased();
    OneLeasedShape();
    assert ProjectLeases(pl, BOUND_TO_B.projects["b"]) == {1} && TreeLeases(pl, 2) == {};
    assert RunLane in ClaimLanes(pl, BOUND_TO_B, Runner(BOUND_TO_B), BOUND_TO_B.projects["b"], 0);
  }

  lemma RunToTwoWaiting() returns (pls: seq<Plane>, pols: seq<Policy>, steps: seq<PlaneStep>)
    ensures IsRun(pls, pols, steps) && |steps| == 2 && pls[2] == TwoWaiting() && pols[2] == BOUND_TO_A
  {
    var how := Operator("a", Bound("r"), RunLane);
    assert IsRun([Empty()], [BOUND_TO_A], []);
    var one := Opened(Empty(), 1, OnA(1), RunLane);
    Longer([Empty()], [BOUND_TO_A], [], OpenSession(1, how, 1, ""));
    assert [Empty()] + [one] == [Empty(), one] && [BOUND_TO_A] + [BOUND_TO_A] == [BOUND_TO_A, BOUND_TO_A];
    assert [] + [OpenSession(1, how, 1, "")] == [OpenSession(1, how, 1, "")];
    Longer([Empty(), one], [BOUND_TO_A, BOUND_TO_A], [OpenSession(1, how, 1, "")], OpenSession(2, how, 2, ""));
    pls := [Empty(), one] + [TwoWaiting()];
    pols := [BOUND_TO_A, BOUND_TO_A] + [BOUND_TO_A];
    steps := [OpenSession(1, how, 1, "")] + [OpenSession(2, how, 2, "")];
  }

  lemma RunToOneLeased() returns (pls: seq<Plane>, pols: seq<Policy>, steps: seq<PlaneStep>)
    ensures IsRun(pls, pols, steps) && |steps| == 3 && pls[3] == OneLeased() && pols[3] == BOUND_TO_A
  {
    var qls, qols, qteps := RunToTwoWaiting();
    FirstClaim();
    var claim := GrantLease(1, Runner(BOUND_TO_A), "a", "", NO_GATES, 0, 0, 0);
    Longer(qls, qols, qteps, claim);
    pls, pols, steps := qls + [OneLeased()], qols + [BOUND_TO_A], qteps + [claim];
  }

  lemma RunToRebound() returns (pls: seq<Plane>, pols: seq<Policy>, steps: seq<PlaneStep>)
    ensures IsRun(pls, pols, steps) && |steps| == 4 && pls[4] == OneLeased() && pols[4] == BOUND_TO_B
  {
    var qls, qols, qteps := RunToOneLeased();
    Longer(qls, qols, qteps, Reload(BOUND_TO_B));
    pls, pols, steps := qls + [OneLeased()], qols + [BOUND_TO_B], qteps + [Reload(BOUND_TO_B)];
  }

  lemma SecondLeasePasses()
    ensures var a := BOUND_TO_B.projects["a"];
      |ProjectLeases(OneLeased(), a)| <= a.cap < |ProjectLeases(Lease(OneLeased(), 2, Runner(BOUND_TO_B), 0, 0), a)|
  {
    var a := BOUND_TO_B.projects["a"];
    OneLeasedShape();
    assert ProjectLeases(OneLeased(), a) == {1};
    GrantLeasesOne(OneLeased(), 2, Runner(BOUND_TO_B), 0, 0);
    GrantCountsInProject(OneLeased(), Lease(OneLeased(), 2, Runner(BOUND_TO_B), 0, 0), 2, a);
  }

  /**
    It happens: two runs of "a" wait on its repository, one is leased, the repository is rebound to "b", and
    a claim for "b" leases the other, so "a" holds two leases with a cap of one.
    */
  lemma RebindingPassesCap() returns (pls: seq<Plane>, pols: seq<Policy>, steps: seq<PlaneStep>)
    ensures IsRun(pls, pols, steps) && |steps| == 5 && steps[4].GrantLease? && steps[4].slug == "b"
    ensures "a" in pols[5].projects
    ensures |ProjectLeases(pls[4], pols[5].projects["a"])| <= pols[5].projects["a"].cap < |ProjectLeases(pls[5], pols[5].projects["a"])|
  {
    var qls, qols, qteps := RunToRebound();
    SecondClaim();
    SecondLeasePasses();
    var claim := GrantLease(2, Runner(BOUND_TO_B), "b", "", NO_GATES, 0, 0, 0);
    Longer(qls, qols, qteps, claim);
    pls := qls + [Lease(OneLeased(), 2, Runner(BOUND_TO_B), 0, 0)];
    pols := qols + [BOUND_TO_B];
    steps := qteps + [claim];
  }
}
