/**
  The claim transaction as steps of a run: the expiries it makes, one by one, and then its lease. So whatever
  holds in every run holds after every claim.
  */
module ClaimSteps {
  import opened Basics
  import opened Turns
  import opened TurnInvariants
  import opened Claims
  import opened ClaimToken
  import opened ClaimRuns
  import opened LeaseCaps

  // ----- the turns of a run -----

  ghost predicate TurnsInv(pl: Plane) {
    forall id :: id in pl.turns ==> Inv(pl.turns[id])
  }

  lemma PutTurn(pl: Plane, id: int, t: Turn)
    requires TurnsInv(pl) && Inv(t)
    ensures TurnsInv(pl.(turns := pl.turns[id := t]))
  {
  }

  lemma LeaseTurns(pl: Plane, id: int, who: Claimer, t2: nat, t3: nat)
    requires TurnsInv(pl) && id in pl.turns && pl.turns[id].job.state == Queued
    ensures TurnsInv(Lease(pl, id, who, t2, t3))
  {
    ClaimInv(pl.turns[id], who.exec, t2);
    var leased := ClaimStep(pl.turns[id], who.exec, t2).0;
    PutTurn(pl, id, leased);
    assert Lease(pl, id, who, t2, t3).turns == pl.turns[id := leased];
  }

  lemma GiveBackTurns(pl: Plane, id: int, gen: nat, claimed: nat)
    requires TurnsInv(pl) && id in pl.turns && id in pl.sessions
    ensures TurnsInv(GivenBack(pl, id, gen, claimed))
  {
    RequeueInv(pl.turns[id], gen, claimed);
    PutTurn(pl, id, RequeueStep(pl.turns[id], gen, claimed).0);
  }

  lemma TurnsStep(pl: Plane, pol: Policy, st: PlaneStep)
    requires TurnsInv(pl) && Enabled(pl, pol, st)
    ensures TurnsInv(Next(pl, pol, st))
  {
    match st {
      case OpenSession(id, how, _, _) =>
        FreshInv(LaneOf(how));
        PutTurn(pl, id, Fresh(LaneOf(how)));
      case Act(id, ev, now) =>
        StepInv(pl.turns[id], ev, now);
        PutTurn(pl, id, Step(pl.turns[id], ev, now).0);
      case GrantLease(id, who, slug, tenant, g, t1, t2, t3) =>
        ClaimedKey(pl, pol, g, who, slug, tenant, id, t1, t2, t3);
        LeaseTurns(pl, id, who, t2, t3);
      case GiveBack(id, gen, claimed) => GiveBackTurns(pl, id, gen, claimed);
      case Reload(_) =>
    }
  }

  /** In every run every turn keeps its invariant, which the claim transaction relies on. */
  lemma {:induction false} RunTurnsInv(pls: seq<Plane>, pols: seq<Policy>, steps: seq<PlaneStep>, n: nat)
    requires IsRun(pls, pols, steps) && n < |pls|
    ensures TurnsInv(pls[n])
  {
    if n > 0 {
      RunTurnsInv(pls, pols, steps, n - 1);
      assert Taken(pls, pols, steps, n - 1);
      TurnsStep(pls[n - 1], pols[n - 1], steps[n - 1]);
    }
  }

  // ----- the expiries of a claim -----

  function Expiries(due: seq<int>, times: map<int, nat>): seq<PlaneStep>
    requires forall i :: 0 <= i < |due| ==> due[i] in times
  {
    seq(|due|, i requires 0 <= i < |due| => Act(due[i], Expire, times[due[i]]))
  }

  /** A run that goes on from another one. */
  datatype Story = Story(pls: seq<Plane>, pols: seq<Policy>, steps: seq<PlaneStep>)

  ghost predicate IsStory(s: Story) {
    IsRun(s.pls, s.pols, s.steps)
  }

  function Ending(s: Story): Plane
    requires |s.pls| == |s.steps| + 1
  {
    s.pls[|s.steps|]
  }

  /** `s` goes on as `u` by the steps `more`, under the policy it ended with. */
  ghost predicate GoesOn(s: Story, u: Story, more: seq<PlaneStep>) {
    && IsStory(s) && IsStory(u)
    && s.pls <= u.pls && s.pols <= u.pols && u.steps == s.steps + more
    && u.pols[|u.steps|] == s.pols[|s.steps|]
  }

  function Told(s: Story, next: Plane, pol: Policy, st: PlaneStep): Story {
    Story(s.pls + [next], s.pols + [pol], s.steps + [st])
  }

  lemma OneMoreStep(s: Story, u: Story, more: seq<PlaneStep>, st: PlaneStep)
    requires GoesOn(s, u, more) && !st.Reload?
    requires Enabled(Ending(u), u.pols[|u.steps|], st)
    requires st.GrantLease? ==> WasActive(u.pols, |u.steps|, st.who.snap)
    ensures var pol := u.pols[|u.steps|];
      GoesOn(s, Told(u, Next(Ending(u), pol, st), pol, st), more + [st])
  {
    Longer(u.pls, u.pols, u.steps, st);
  }

  lemma OneMoreExpiry(s: Story, v: Story, more: seq<PlaneStep>, done: seq<int>, id: int, times: map<int, nat>) returns (u: Story)
    requires GoesOn(s, v, more) && id in Ending(s).turns && id !in done && id in times
    requires Ending(v) == Ending(s).(turns := ExpiredSome(Ending(s).turns, done, times))
    ensures GoesOn(s, u, more + [Act(id, Expire, times[id])])
    ensures Ending(u) == Ending(s).(turns := ExpiredSome(Ending(s).turns, done + [id], times))
  {
    ExpireOne(Ending(s).turns, done, id, times);
    var st := Act(id, Expire, times[id]);
    OneMoreStep(s, v, more, st);
    u := Told(v, Acted(Ending(v), id, Expire, times[id]), v.pols[|v.steps|], st);
  }

  lemma NoneExpired(s: Story, times: map<int, nat>)
    requires IsStory(s)
    ensures GoesOn(s, s, Expiries([], times)) && Ending(s) == Ending(s).(turns := ExpiredSome(Ending(s).turns, [], times))
  {
    assert s.steps + Expiries([], times) == s.steps;
    assert ExpiredSome(Ending(s).turns, [], times) == Ending(s).turns;
  }

  /** The expiries of a claim are steps of a run. */
  lemma {:induction false} ExpiriesRun(s: Story, due: seq<int>, times: map<int, nat>) returns (u: Story)
    requires IsStory(s) && Distinct(due) && forall i :: 0 <= i < |due| ==> due[i] in Ending(s).turns && due[i] in times
    ensures GoesOn(s, u, Expiries(due, times))
    ensures Ending(u) == Ending(s).(turns := ExpiredSome(Ending(s).turns, due, times))
    decreases |due|
  {
    if due == [] {
      NoneExpired(s, times);
      u := s;
    } else {
      var init, id := due[..|due| - 1], due[|due| - 1];
      u := ExpiriesRun(s, init, times);
      NextRow(due, |due| - 1);
      u := OneMoreExpiry(s, u, Expiries(init, times), init, id, times);
      assert due[..|due|] == due;
      assert Expiries(init, times) + [Act(id, Expire, times[id])] == Expiries(due, times);
    }
  }

  // ----- the whole claim -----

  ghost predicate TimedRows(pl: Plane, due: seq<int>, c: Clock) {
    DueRows(pl, c.asked, due) && forall i :: 0 <= i < |due| ==> due[i] in c.times
  }

  lemma SweepRunsOn(s: Story, due: seq<int>, c: Clock) returns (u: Story)
    requires IsStory(s) && TimedRows(Ending(s), due, c)
    ensures GoesOn(s, u, Expiries(due, c.times)) && Ending(u) == Ready(Ending(s), c)
  {
    u := ExpiriesRun(s, due, c.times);
    ExpiredAll(Ending(s), c.asked, due, c.times);
  }

  lemma LeaseRunsOn(s: Story, g: Gates, who: Claimer, slug: string, tenant: string, id: int, due: seq<int>, c: Clock) returns (u: Story)
    requires IsStory(s) && TimedRows(Ending(s), due, c) && WasActive(s.pols, |s.steps|, who.snap)
    requires MayLease(Ready(Ending(s), c), s.pols[|s.steps|], g, who, slug, tenant, id, c.t1, c.t2, c.t3)
    ensures GoesOn(s, u, Expiries(due, c.times) + [GrantLease(id, who, slug, tenant, g, c.t1, c.t2, c.t3)])
    ensures Ending(u) == Lease(Ready(Ending(s), c), id, who, c.t2, c.t3)
  {
    var v := SweepRunsOn(s, due, c);
    var st := GrantLease(id, who, slug, tenant, g, c.t1, c.t2, c.t3);
    LaterActive(s.pols, v.pols, |s.steps|, |v.steps|, who.snap);
    OneMoreStep(s, v, Expiries(due, c.times), st);
    u := Told(v, Lease(Ending(v), id, who, c.t2, c.t3), v.pols[|v.steps|], st);
  }

  lemma LaterActive(pols: seq<Policy>, qols: seq<Policy>, n: nat, m: nat, snap: Policy)
    requires WasActive(pols, n, snap) && pols <= qols && n <= m
    ensures WasActive(qols, m, snap)
  {
    var k :| 0 <= k <= n && k < |pols| && pols[k] == snap;
    assert qols[k] == snap;
  }

  /** What a claim does: nothing, its expiries, or its expiries and a lease. */
  ghost predicate ClaimOnly(more: seq<PlaneStep>, due: seq<int>, c: Clock, answer: Answer)
    requires forall i :: 0 <= i < |due| ==> due[i] in c.times
  {
    match answer
    case SameLease(_) => more == []
    case Refused => more == []
    case NoWork => more == Expiries(due, c.times)
    case NewLease(id) =>
      |more| == |due| + 1 && more[..|due|] == Expiries(due, c.times) && more[|due|].GrantLease? && more[|due|].id == id
  }

  /**
    A claim on a plane that a run reached leaves a plane that the run goes on to: by the claim's expiries if it
    was admitted and, if it leased a turn, by that lease.
    */
  lemma ClaimRunsOn(s: Story, g: Gates, who: Claimer, tenant: string, due: seq<int>, c: Clock, answer: Answer, next: Plane)
    returns (u: Story, more: seq<PlaneStep>)
    requires IsStory(s) && TimedRows(Ending(s), due, c) && WasActive(s.pols, |s.steps|, who.snap)
    requires Leaves(Ending(s), s.pols[|s.steps|], g, who, tenant, c, answer, next)
    ensures GoesOn(s, u, more) && Ending(u) == next && ClaimOnly(more, due, c, answer)
  {
    u, more := s, [];
    if answer.NoWork? {
      u := SweepRunsOn(s, due, c);
      more := Expiries(due, c.times);
    } else if answer.NewLease? {
      var slug := ScopeOf(s.pols[|s.steps|], who.repo).value;
      u := LeaseRunsOn(s, g, who, slug, tenant, answer.id, due, c);
      more := Expiries(due, c.times) + [GrantLease(answer.id, who, slug, tenant, g, c.t1, c.t2, c.t3)];
    }
  }

  lemma StillAdditive(s: Story, u: Story, more: seq<PlaneStep>)
    requires GoesOn(s, u, more) && Additive(s.pols, s.steps) && forall i :: 0 <= i < |more| ==> !more[i].Reload?
    ensures Additive(u.pols, u.steps)
  {
    forall n | 0 <= n < |u.steps| && n < |u.pols| && u.steps[n].Reload? ensures OnlyAdds(u.pols[n], u.steps[n].policy) {
      assert n < |s.steps| && u.steps[n] == s.steps[n] && u.pols[n] == s.pols[n];
    }
  }

  lemma NoReloads(more: seq<PlaneStep>, due: seq<int>, c: Clock, answer: Answer)
    requires (forall i :: 0 <= i < |due| ==> due[i] in c.times) && ClaimOnly(more, due, c, answer)
    ensures forall i :: 0 <= i < |more| ==> !more[i].Reload?
  {
    if answer.NewLease? {
      forall i | 0 <= i < |due| ensures !more[i].Reload? { assert more[..|due|][i] == more[i]; }
    }
  }

  /** The turn is leased and its lease was granted to the token. */
  ghost predicate HeldBy(pl: Plane, id: int, token: string) {
    && id in LeasedTurns(pl)
    && (id, pl.turns[id].job.gen) in pl.grants && pl.grants[(id, pl.turns[id].job.gen)] == token
  }

  lemma StoryHolds(s: Story)
    requires IsStory(s)
    ensures PlaneInv(Ending(s)) && TurnsInv(Ending(s)) && (Additive(s.pols, s.steps) ==> Within(Ending(s), s.pols[|s.steps|]))
  {
    CountsAreExact(s.pls, s.pols, s.steps, |s.steps|);
    RunTurnsInv(s.pls, s.pols, s.steps, |s.steps|);
    if Additive(s.pols, s.steps) { CapsAndLimitsHold(s.pls, s.pols, s.steps, |s.steps|); }
  }

  /**
    The claim on any plane a run has reached. It needs nothing more than the rows of its queries, and whatever
    it answers every count, charge, token and turn keeps its invariant; if reloads only add, each project, each
    session tree and each daily count is within its bound afterwards.
    */
  method ClaimOnPlane(ghost s: Story, pl: Plane, pol: Policy, g: Gates, who: Claimer, tenant: string, paused: bool,
                      mine: seq<int>, due: seq<int>, queued: seq<int>, c: Clock)
    returns (next: Plane, answer: Answer)
    requires IsStory(s) && pl == Ending(s) && pol == s.pols[|s.steps|] && WasActive(s.pols, |s.steps|, who.snap)
    requires pl.clock <= c.t0 <= c.t1 <= c.t2 <= c.t3 && TimedRows(pl, due, c)
    requires TokenRows(pl, who.token, mine) && QueryRows(pl, pol, who, tenant, due, queued, c)
    ensures PlaneInv(next) && TurnsInv(next) && (Additive(s.pols, s.steps) ==> Within(next, pol))
    ensures answer.SameLease? ==> HeldBy(pl, answer.id, who.token)
  {
    StoryHolds(s);
    next, answer := ClaimTx(pl, pol, g, who, tenant, paused, mine, due, queued, c);
    ghost var u, more := ClaimRunsOn(s, g, who, tenant, due, c, answer, next);
    NoReloads(more, due, c, answer);
    if Additive(s.pols, s.steps) { StillAdditive(s, u, more); }
    StoryHolds(u);
  }
}
