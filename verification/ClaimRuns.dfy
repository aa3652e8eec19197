/**
  Whole runs of the plane: sessions are opened the ways the engine opens them, turns make any transaction,
  claims lease, a claim whose environment is busy gives its own lease back, and the policy is reloaded.
  What every run keeps whatever policies are loaded: sessions, the charges of review leases with the daily
  counts, and the claim tokens.
  */
module ClaimRuns {
  import opened Basics
  import opened Turns
  import opened TurnRuns
  import opened Claims

  /** How a session comes about. A task starts its session the way an operator's run does. */
  datatype Creation =
    | Review(name: string)
    | Operator(slug: string, repo: RepoKey, lane: Lane)
    | Child(parent: int, slug: string, repo: RepoKey)

  datatype PlaneStep =
    | OpenSession(id: int, how: Creation, env: int, tenant: string)
    | Act(id: int, ev: Event, now: nat)
    | GrantLease(id: int, who: Claimer, slug: string, tenant: string, gates: Gates, t1: nat, t2: nat, t3: nat)
    | GiveBack(id: int, gen: nat, claimed: nat)
    | Reload(policy: Policy)

  // ----- the policy -----

  /** What the loader makes sure of: no empty slug, a cap of at least one, every repository bound to one project. */
  ghost predicate PolicyWF(pol: Policy) {
    && (forall slug :: slug in pol.projects ==>
          && slug != "" && pol.projects[slug].slug == slug && 1 <= pol.projects[slug].cap
          && forall r :: r in pol.projects[slug].repos ==> r in pol.repos && pol.repos[r].project == slug)
    && (forall r :: r in pol.repos ==>
          pol.repos[r].project in pol.projects && r in pol.projects[pol.repos[r].project].repos)
  }

  // ----- sessions -----

  /** The repository a session of a project is pinned to: one of its own, or its project key when it has none. */
  predicate Pins(pol: Policy, slug: string, repo: RepoKey) {
    && slug in pol.projects
    && if pol.projects[slug].repos == {} then repo == ProjectKey(slug)
       else repo.Bound? && repo.name in pol.projects[slug].repos
  }

  /** The checks of each way to open a session; a child of the parent's own project stays on the parent's pin. */
  predicate Creates(pl: Plane, pol: Policy, how: Creation) {
    match how
    case Review(name) => ReviewAccess(pol, name, false) == Allowed
    case Operator(slug, repo, lane) => Pins(pol, slug, repo) && lane != ReviewLane && lane in pol.projects[slug].kinds
    case Child(parent, slug, repo) =>
      && parent in pl.sessions && parent in pl.turns && pl.turns[parent].job.lane != ReviewLane
      && !pl.sessions[parent].archived && pl.sessions[parent].parent == None && pl.sessions[parent].project in pol.projects
      && slug in pol.projects && RunLane in pol.projects[slug].kinds
      && if slug == pl.sessions[parent].project then repo == pl.sessions[parent].repo else Pins(pol, slug, repo)
  }

  function LaneOf(how: Creation): Lane {
    match how
    case Review(_) => ReviewLane
    case Operator(_, _, lane) => lane
    case Child(_, _, _) => RunLane
  }

  /** A review session carries no project. */
  function SessionOf(how: Creation, env: int, tenant: string): Session {
    match how
    case Review(name) => Session("", Bound(name), None, env, false, tenant)
    case Operator(slug, repo, _) => Session(slug, repo, None, env, false, tenant)
    case Child(parent, slug, repo) => Session(slug, repo, Some(parent), env, false, tenant)
  }

  function Opened(pl: Plane, id: int, s: Session, lane: Lane): Plane {
    pl.(sessions := pl.sessions[id := s], turns := pl.turns[id := Fresh(lane)])
  }

  // ----- steps -----

  ghost predicate Enabled(pl: Plane, pol: Policy, st: PlaneStep) {
    match st
    case OpenSession(id, how, _, _) => id !in pl.sessions && id !in pl.turns && Creates(pl, pol, how)
    case Act(id, ev, _) => id in pl.turns && !ev.Claim? && !ev.RequeueBusy?
    case GrantLease(id, who, slug, tenant, g, t1, t2, t3) => MayLease(pl, pol, g, who, slug, tenant, id, t1, t2, t3)
    case GiveBack(id, gen, claimed) => id in pl.turns && id in pl.sessions
    case Reload(policy) => PolicyWF(policy)
  }

  /** The requeue of a busy claim undoes the charge of that very claim. */
  function GivenBack(pl: Plane, id: int, gen: nat, claimed: nat): Plane
    requires id in pl.turns && id in pl.sessions
  {
    if !Holds(pl.turns[id].job, gen, claimed) then pl
    else
      var back := pl.(turns := pl.turns[id := RequeueStep(pl.turns[id], gen, claimed).0]);
      if (id, gen) !in pl.ledger || pl.sessions[id].repo.ProjectKey? then back
      else
        var repo, day := pl.sessions[id].repo.name, pl.ledger[(id, gen)].day;
        if CountOn(pl, repo, day) == 0 then pl // the count is missing: the transaction is rolled back
        else back.(counts := pl.counts[(repo, day) := CountOn(pl, repo, day) - 1],
                   ledger := pl.ledger[(id, gen) := pl.ledger[(id, gen)].(refunded := true)])
  }

  function Acted(pl: Plane, id: int, ev: Event, now: nat): Plane
    requires id in pl.turns
  {
    pl.(turns := pl.turns[id := Step(pl.turns[id], ev, now).0])
  }

  ghost function Next(pl: Plane, pol: Policy, st: PlaneStep): Plane
    requires Enabled(pl, pol, st)
  {
    match st
    case OpenSession(id, how, env, tenant) => Opened(pl, id, SessionOf(how, env, tenant), LaneOf(how))
    case Act(id, ev, now) => Acted(pl, id, ev, now)
    case GrantLease(id, who, slug, tenant, g, t1, t2, t3) => Lease(pl, id, who, t2, t3)
    case GiveBack(id, gen, claimed) => GivenBack(pl, id, gen, claimed)
    case Reload(_) => pl
  }

  function PolicyAfter(pol: Policy, st: PlaneStep): Policy {
    if st.Reload? then st.policy else pol
  }

  // ----- what holds whatever policies are loaded -----

  /** A parent exists and is no child itself. */
  ghost predicate Rooted(pl: Plane, s: Session) {
    s.parent.Some? ==> s.parent.value in pl.sessions && pl.sessions[s.parent.value].parent == None
  }

  ghost predicate SessionsInv(pl: Plane) {
    && pl.turns.Keys == pl.sessions.Keys
    && (forall id :: id in pl.sessions ==>
          Rooted(pl, pl.sessions[id]) && (pl.turns[id].job.lane == ReviewLane ==> pl.sessions[id].repo.Bound?))
  }

  lemma OnlyClaimsGrant(t: Turn, ev: Event, now: nat)
    requires !ev.Claim?
    ensures !Step(t, ev, now).1.Granted?
    ensures Step(t, ev, now).0.job.state == Leased ==> t.job.state == Leased && Step(t, ev, now).0.job.gen == t.job.gen
    ensures t.job.gen <= Step(t, ev, now).0.job.gen
  {
    StepShape(t, ev, now);
  }

  lemma EndsKeepLane(t: Turn, gen: nat, claimed: nat, valid: bool, acks: seq<nat>, now: nat)
    ensures CompleteStep(t, gen, claimed, valid, acks, now).0.job.lane == t.job.lane
    ensures FailStep(t, gen, claimed, now).0.job.lane == t.job.lane
    ensures ExpireStep(t, now).0.job.lane == t.job.lane
  {
  }

  lemma StopsKeepLane(t: Turn, now: nat)
    ensures CancelStep(t, now).0.job.lane == t.job.lane
    ensures HaltStep(t, now).0.job.lane == t.job.lane
    ensures ArchiveStep(t, now).0.job.lane == t.job.lane
  {
  }

  lemma StepKeepsLane(t: Turn, ev: Event, now: nat)
    ensures Step(t, ev, now).0.job.lane == t.job.lane
  {
    match ev {
      case Complete(gen, claimed, valid, acks) => EndsKeepLane(t, gen, claimed, valid, acks, now);
      case Fail(gen, claimed) => EndsKeepLane(t, gen, claimed, true, [], now);
      case Expire => EndsKeepLane(t, 0, 0, true, [], now);
      case Cancel => StopsKeepLane(t, now);
      case Halt => StopsKeepLane(t, now);
      case FailArchived => StopsKeepLane(t, now);
      case _ =>
    }
  }

  lemma SessionsKept(pl: Plane, next: Plane)
    requires SessionsInv(pl) && next.sessions == pl.sessions && next.turns.Keys == pl.turns.Keys
    requires forall id :: id in pl.turns ==> next.turns[id].job.lane == pl.turns[id].job.lane
    ensures SessionsInv(next)
  {
  }

  lemma SessionsOpened(pl: Plane, id: int, s: Session, lane: Lane)
    requires SessionsInv(pl) && id !in pl.sessions && Rooted(pl, s) && (lane == ReviewLane ==> s.repo.Bound?)
    ensures SessionsInv(Opened(pl, id, s, lane))
  {
  }

  lemma LeaseKeepsSessions(pl: Plane, id: int, who: Claimer, t2: nat, t3: nat)
    requires SessionsInv(pl) && id in pl.turns
    ensures SessionsInv(Lease(pl, id, who, t2, t3))
  {
  }

  lemma GiveBackKeepsSessions(pl: Plane, id: int, gen: nat, claimed: nat)
    requires SessionsInv(pl) && id in pl.turns && id in pl.sessions
    ensures SessionsInv(GivenBack(pl, id, gen, claimed))
  {
  }

  lemma ActKeepsSessions(pl: Plane, id: int, ev: Event, now: nat)
    requires SessionsInv(pl) && id in pl.turns
    ensures SessionsInv(Acted(pl, id, ev, now))
  {
    StepKeepsLane(pl.turns[id], ev, now);
    SessionsKept(pl, Acted(pl, id, ev, now));
  }

  lemma SessionsStep(pl: Plane, pol: Policy, st: PlaneStep)
    requires SessionsInv(pl) && Enabled(pl, pol, st)
    ensures SessionsInv(Next(pl, pol, st))
  {
    match st {
      case OpenSession(id, how, env, tenant) => SessionsOpened(pl, id, SessionOf(how, env, tenant), LaneOf(how));
      case Act(id, ev, now) => ActKeepsSessions(pl, id, ev, now);
      case GrantLease(id, who, _, _, _, _, t2, t3) => LeaseKeepsSessions(pl, id, who, t2, t3);
      case GiveBack(id, gen, claimed) => GiveBackKeepsSessions(pl, id, gen, claimed);
      case Reload(_) =>
    }
  }

  /** A charge belongs to a lease of its session; a lease that was given back is no longer held. */
  ghost predicate ChargeInv(pl: Plane, k: (int, nat), c: Charge) {
    && k.0 in pl.turns && k.0 in pl.sessions && k.1 <= pl.turns[k.0].job.gen
    && pl.sessions[k.0].repo == Bound(c.repo) && c.day <= Day(pl.clock)
    && (c.refunded && k.1 == pl.turns[k.0].job.gen ==> pl.turns[k.0].job.state != Leased)
  }

  ghost predicate LedgerInv(pl: Plane) {
    forall k :: k in pl.ledger ==> ChargeInv(pl, k, pl.ledger[k])
  }

  /** The stored count is the number of leases charged and not given back. */
  ghost predicate ExactCounts(pl: Plane) {
    forall repo, day :: CountOn(pl, repo, day) == |Charged(pl, repo, day)|
  }

  lemma DayMonotone(a: nat, b: nat)
    requires a <= b
    ensures Day(a) <= Day(b)
  {
  }

  lemma ChargeAdds(pl: Plane, next: Plane, key: (int, nat), repo: string, day: nat)
    requires ExactCounts(pl) && key !in pl.ledger
    requires next.counts == pl.counts[(repo, day) := CountOn(pl, repo, day) + 1]
    requires next.ledger == pl.ledger[key := Charge(repo, day, false)]
    ensures ExactCounts(next)
  {
    forall r, d ensures CountOn(next, r, d) == |Charged(next, r, d)| {
      assert CountOn(pl, r, d) == |Charged(pl, r, d)|;
      ChargedAdds(pl, next, key, repo, day, r, d);
      assert (r, d) == (repo, day) <==> r == repo && d == day;
    }
  }

  lemma ChargedAdds(pl: Plane, next: Plane, key: (int, nat), repo: string, day: nat, r: string, d: nat)
    requires key !in pl.ledger && next.ledger == pl.ledger[key := Charge(repo, day, false)]
    ensures |Charged(next, r, d)| == |Charged(pl, r, d)| + (if r == repo && d == day then 1 else 0)
  {
    assert Charged(next, r, d) == Charged(pl, r, d) + (if r == repo && d == day then {key} else {});
  }

  lemma LeaseCharges(pl: Plane, id: int, who: Claimer, t2: nat, t3: nat)
    requires LedgerInv(pl) && ExactCounts(pl) && id in pl.turns
    ensures ExactCounts(Lease(pl, id, who, t2, t3))
  {
    var next := Lease(pl, id, who, t2, t3);
    if pl.turns[id].job.lane == ReviewLane && who.repo.Bound? {
      var key := (id, pl.turns[id].job.gen + 1);
      forall k | k in pl.ledger ensures k != key { assert ChargeInv(pl, k, pl.ledger[k]); }
      ChargeAdds(pl, next, key, who.repo.name, Day(t3));
    } else {
      SameCounts(pl, next);
    }
  }

  lemma SameCounts(pl: Plane, next: Plane)
    requires ExactCounts(pl) && next.counts == pl.counts && next.ledger == pl.ledger
    ensures ExactCounts(next)
  {
    forall repo, day ensures CountOn(next, repo, day) == |Charged(next, repo, day)| {
      assert CountOn(pl, repo, day) == |Charged(pl, repo, day)|;
      assert Charged(next, repo, day) == Charged(pl, repo, day);
    }
  }

  lemma ChargedDrops(pl: Plane, next: Plane, key: (int, nat), r: string, d: nat)
    requires key in pl.ledger && !pl.ledger[key].refunded
    requires next.ledger == pl.ledger[key := pl.ledger[key].(refunded := true)]
    ensures |Charged(next, r, d)| == |Charged(pl, r, d)| - (if r == pl.ledger[key].repo && d == pl.ledger[key].day then 1 else 0)
  {
    assert Charged(next, r, d) ==
           Charged(pl, r, d) - (if r == pl.ledger[key].repo && d == pl.ledger[key].day then {key} else {});
  }

  /** A busy requeue finds its count and takes back the charge of its own lease, once. */
  lemma GiveBackRefunds(pl: Plane, id: int, gen: nat, claimed: nat)
    requires LedgerInv(pl) && ExactCounts(pl) && id in pl.turns && id in pl.sessions
    ensures ExactCounts(GivenBack(pl, id, gen, claimed))
    ensures Holds(pl.turns[id].job, gen, claimed) && (id, gen) in pl.ledger ==>
      var c := pl.ledger[(id, gen)];
      !c.refunded && CountOn(GivenBack(pl, id, gen, claimed), c.repo, c.day) == CountOn(pl, c.repo, c.day) - 1
  {
    var next := GivenBack(pl, id, gen, claimed);
    var key := (id, gen);
    if Holds(pl.turns[id].job, gen, claimed) && key in pl.ledger {
      var c := pl.ledger[key];
      assert ChargeInv(pl, key, c) && !c.refunded;
      assert key in Charged(pl, c.repo, c.day);
      assert CountOn(pl, c.repo, c.day) == |Charged(pl, c.repo, c.day)|;
      forall repo, day ensures CountOn(next, repo, day) == |Charged(next, repo, day)| {
        assert CountOn(pl, repo, day) == |Charged(pl, repo, day)|;
        ChargedDrops(pl, next, key, repo, day);
      }
    } else {
      SameCounts(pl, next);
    }
  }

  lemma CountsStep(pl: Plane, pol: Policy, st: PlaneStep)
    requires LedgerInv(pl) && ExactCounts(pl) && Enabled(pl, pol, st)
    ensures ExactCounts(Next(pl, pol, st))
  {
    match st {
      case OpenSession(_, _, _, _) => SameCounts(pl, Next(pl, pol, st));
      case Act(id, ev, now) => SameCounts(pl, Acted(pl, id, ev, now));
      case GrantLease(id, who, _, _, _, _, t2, t3) => LeaseCharges(pl, id, who, t2, t3);
      case GiveBack(id, gen, claimed) => GiveBackRefunds(pl, id, gen, claimed);
      case Reload(_) =>
    }
  }

  /** The turn a claim leases is on its own key or on the project key of its project. */
  lemma ClaimedKey(pl: Plane, pol: Policy, g: Gates, who: Claimer, slug: string, tenant: string, id: int, t1: nat, t2: nat, t3: nat)
    requires MayLease(pl, pol, g, who, slug, tenant, id, t1, t2, t3)
    ensures id in pl.turns && id in pl.sessions && pl.turns[id].job.state == Queued && pl.clock <= t1 <= t3
    ensures ScopeOf(pol, pl.sessions[id].repo) == Some(slug)
    ensures pl.sessions[id].repo == who.repo || pl.sessions[id].repo == ProjectKey(slug)
    ensures pl.turns[id].job.lane == ReviewLane ==> ReviewLane in ClaimLanes(pl, pol, who, pol.projects[slug], t1)
  {
  }

  lemma LeaseLedger(pl: Plane, id: int, who: Claimer, t2: nat, t3: nat)
    requires LedgerInv(pl) && id in pl.turns && id in pl.sessions && pl.clock <= t3
    requires pl.turns[id].job.lane == ReviewLane && who.repo.Bound? ==> pl.sessions[id].repo == who.repo
    ensures LedgerInv(Lease(pl, id, who, t2, t3))
  {
    DayMonotone(pl.clock, t3);
    var next := Lease(pl, id, who, t2, t3);
    forall k | k in next.ledger ensures ChargeInv(next, k, next.ledger[k]) {
      if k in pl.ledger { assert ChargeInv(pl, k, pl.ledger[k]); }
    }
  }

  lemma LedgerActStep(pl: Plane, id: int, ev: Event, now: nat)
    requires LedgerInv(pl) && id in pl.turns && !ev.Claim?
    ensures LedgerInv(Acted(pl, id, ev, now))
  {
    OnlyClaimsGrant(pl.turns[id], ev, now);
    forall k | k in pl.ledger
      ensures ChargeInv(Acted(pl, id, ev, now), k, pl.ledger[k])
    {
      assert ChargeInv(pl, k, pl.ledger[k]);
    }
  }

  lemma LedgerGiveBackStep(pl: Plane, id: int, gen: nat, claimed: nat)
    requires LedgerInv(pl) && id in pl.turns && id in pl.sessions
    ensures LedgerInv(GivenBack(pl, id, gen, claimed))
  {
  }

  lemma LedgerStep(pl: Plane, pol: Policy, st: PlaneStep)
    requires SessionsInv(pl) && LedgerInv(pl) && Enabled(pl, pol, st)
    ensures LedgerInv(Next(pl, pol, st))
  {
    match st {
      case OpenSession(_, _, _, _) =>
        forall k | k in pl.ledger ensures ChargeInv(Next(pl, pol, st), k, pl.ledger[k]) {
          assert ChargeInv(pl, k, pl.ledger[k]);
        }
      case Act(id, ev, now) => LedgerActStep(pl, id, ev, now);
      case GrantLease(id, who, slug, tenant, g, t1, t2, t3) =>
        ClaimedKey(pl, pol, g, who, slug, tenant, id, t1, t2, t3);
        LeaseLedger(pl, id, who, t2, t3);
      case GiveBack(id, gen, claimed) => LedgerGiveBackStep(pl, id, gen, claimed);
      case Reload(_) =>
    }
  }

  /** The token stored with a leased turn is the one its lease was granted to. */
  ghost predicate TokensInv(pl: Plane) {
    forall id :: id in LeasedTurns(pl) ==>
      id in pl.tokens && (id, pl.turns[id].job.gen) in pl.grants && pl.grants[(id, pl.turns[id].job.gen)] == pl.tokens[id]
  }

  /** No lease begins and no leased turn changes its generation: the tokens stay right. */
  lemma TokensKept(pl: Plane, next: Plane)
    requires TokensInv(pl) && next.tokens == pl.tokens && next.grants == pl.grants
    requires forall id :: id in LeasedTurns(next) ==> id in LeasedTurns(pl) && next.turns[id].job.gen == pl.turns[id].job.gen
    ensures TokensInv(next)
  {
  }

  lemma LeaseTokens(pl: Plane, id: int, who: Claimer, t2: nat, t3: nat)
    requires TokensInv(pl) && id in pl.turns
    ensures TokensInv(Lease(pl, id, who, t2, t3))
  {
    var next := Lease(pl, id, who, t2, t3);
    forall o | o in LeasedTurns(next) && o != id ensures o in LeasedTurns(pl) && next.turns[o] == pl.turns[o] { }
  }

  lemma ActTokens(pl: Plane, id: int, ev: Event, now: nat)
    requires TokensInv(pl) && id in pl.turns && !ev.Claim?
    ensures TokensInv(Acted(pl, id, ev, now))
  {
    OnlyClaimsGrant(pl.turns[id], ev, now);
    TokensKept(pl, Acted(pl, id, ev, now));
  }

  lemma TokensStep(pl: Plane, pol: Policy, st: PlaneStep)
    requires TokensInv(pl) && Enabled(pl, pol, st)
    ensures TokensInv(Next(pl, pol, st))
  {
    match st {
      case OpenSession(_, _, _, _) => TokensKept(pl, Next(pl, pol, st));
      case Act(id, ev, now) => ActTokens(pl, id, ev, now);
      case GrantLease(id, who, _, _, _, _, t2, t3) => LeaseTokens(pl, id, who, t2, t3);
      case GiveBack(id, gen, claimed) => TokensKept(pl, GivenBack(pl, id, gen, claimed));
      case Reload(_) =>
    }
  }

  ghost predicate PlaneInv(pl: Plane) {
    SessionsInv(pl) && LedgerInv(pl) && ExactCounts(pl) && TokensInv(pl)
  }

  // ----- runs -----

  function Empty(): Plane {
    Plane(0, map[], map[], map[], map[], map[], map[])
  }

  /** The policy a call read when it began was active then or at some earlier time. */
  ghost predicate WasActive(pols: seq<Policy>, n: nat, snap: Policy) {
    exists m :: 0 <= m <= n && m < |pols| && pols[m] == snap
  }

  /** Step `n` is possible where it is taken and leads from plane and policy `n` to the next ones. */
  ghost predicate Taken(pls: seq<Plane>, pols: seq<Policy>, steps: seq<PlaneStep>, n: nat) {
    && n < |steps| && n + 1 < |pls| && n + 1 < |pols|
    && Enabled(pls[n], pols[n], steps[n])
    && (steps[n].GrantLease? ==> WasActive(pols, n, steps[n].who.snap))
    && pls[n + 1] == Next(pls[n], pols[n], steps[n]) && pols[n + 1] == PolicyAfter(pols[n], steps[n])
  }

  /** The planes and the active policies of a run. */
  ghost predicate IsRun(pls: seq<Plane>, pols: seq<Policy>, steps: seq<PlaneStep>) {
    && |pls| == |pols| == |steps| + 1 && pls[0] == Empty() && PolicyWF(pols[0])
    && forall n :: 0 <= n < |steps| ==> Taken(pls, pols, steps, n)
  }

  /** One more step. */
  lemma Longer(pls: seq<Plane>, pols: seq<Policy>, steps: seq<PlaneStep>, st: PlaneStep)
    requires IsRun(pls, pols, steps) && Enabled(pls[|steps|], pols[|steps|], st)
    requires st.GrantLease? ==> WasActive(pols, |steps|, st.who.snap)
    ensures IsRun(pls + [Next(pls[|steps|], pols[|steps|], st)], pols + [PolicyAfter(pols[|steps|], st)], steps + [st])
  {
    var qls, qols, qteps := pls + [Next(pls[|steps|], pols[|steps|], st)], pols + [PolicyAfter(pols[|steps|], st)], steps + [st];
    forall n | 0 <= n < |qteps| ensures Taken(qls, qols, qteps, n) {
      if n < |steps| { TakenStill(pls, pols, steps, qls, qols, qteps, n); }
      if n == |steps| && st.GrantLease? { StillActive(pols, qols, n, st.who.snap); }
    }
  }

  lemma StillActive(pols: seq<Policy>, qols: seq<Policy>, n: nat, snap: Policy)
    requires WasActive(pols, n, snap) && pols <= qols
    ensures WasActive(qols, n, snap)
  {
    var m :| 0 <= m <= n && m < |pols| && pols[m] == snap;
    assert qols[m] == snap;
  }

  lemma TakenStill(pls: seq<Plane>, pols: seq<Policy>, steps: seq<PlaneStep>, qls: seq<Plane>, qols: seq<Policy>, qteps: seq<PlaneStep>, n: nat)
    requires n < |steps| && Taken(pls, pols, steps, n) && pls <= qls && pols <= qols && steps <= qteps
    ensures Taken(qls, qols, qteps, n)
  {
    if steps[n].GrantLease? { StillActive(pols, qols, n, steps[n].who.snap); }
  }

  lemma {:induction false} EmptyInv()
    ensures PlaneInv(Empty())
  {
    forall repo, day ensures CountOn(Empty(), repo, day) == |Charged(Empty(), repo, day)| {
      assert Charged(Empty(), repo, day) == {};
    }
  }

  lemma {:induction false} PlaneStepInv(pl: Plane, pol: Policy, step: PlaneStep)
    requires PlaneInv(pl) && PolicyWF(pol) && Enabled(pl, pol, step)
    ensures PlaneInv(Next(pl, pol, step)) && PolicyWF(PolicyAfter(pol, step))
  {
    SessionsStep(pl, pol, step);
    LedgerStep(pl, pol, step);
    CountsStep(pl, pol, step);
    TokensStep(pl, pol, step);
  }

  /** Whatever policies are loaded: every daily count is the number of review leases charged to it and not given back. */
  lemma {:induction false} CountsAreExact(pls: seq<Plane>, pols: seq<Policy>, steps: seq<PlaneStep>, n: nat)
    requires IsRun(pls, pols, steps) && n < |pls|
    ensures PlaneInv(pls[n]) && PolicyWF(pols[n])
  {
    if n == 0 {
      EmptyInv();
    } else {
      CountsAreExact(pls, pols, steps, n - 1);
      assert Taken(pls, pols, steps, n - 1);
      PlaneStepInv(pls[n - 1], pols[n - 1], steps[n - 1]);
    }
  }

  /** A claim repeated with its token is answered with a live lease granted to that very token, and with no other. */
  lemma ReplayIsTheGrant(pls: seq<Plane>, pols: seq<Policy>, steps: seq<PlaneStep>, n: nat, token: string, now: nat, id: int)
    requires IsRun(pls, pols, steps) && n < |pls| && ReplaysAs(pls[n], token, now, id)
    ensures (id, pls[n].turns[id].job.gen) in pls[n].grants && pls[n].grants[(id, pls[n].turns[id].job.gen)] == token
  {
    CountsAreExact(pls, pols, steps, n);
  }
}
