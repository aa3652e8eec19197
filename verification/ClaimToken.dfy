/**
  The whole claim transaction: the lease already granted to the claim token is returned again, otherwise a
  paused or unknown key is refused, due leases on the claim's keys are expired, and the next turn is leased.
  */
module ClaimToken {
  import opened Basics
  import opened Stamps
  import opened Turns
  import opened TurnInvariants
  import opened Engine
  import opened Claims

  /** Refusals roll the transaction back. */
  datatype Answer = SameLease(id: int) | Refused | NoWork | NewLease(id: int)

  // ----- replay -----

  /** The rows of the token's query: its leased turns, the latest first. */
  ghost predicate TokenRows(pl: Plane, token: string, rows: seq<int>) {
    && (forall id :: id in rows <==> id in LeasedBy(pl, token))
    && (forall i, k :: 0 <= i < k < |rows| ==> rows[i] > rows[k])
  }

  /** The lease a token is answered with, if it has one that is live. */
  method FindReplay(pl: Plane, token: string, rows: seq<int>, now: nat) returns (r: Option<int>)
    requires TokenRows(pl, token, rows)
    ensures r.Some? ==> ReplaysAs(pl, token, now, r.value)
    ensures r.None? ==> forall id :: !ReplaysAs(pl, token, now, id)
  {
    if token == "" || rows == [] {
      return None;
    }
    var id := rows[0];
    assert id in rows;
    var j := pl.turns[id].job;
    if (j.expires.Some? && j.expires.value <= now) || (j.deadline.Some? && j.deadline.value <= now) {
      return None;
    }
    return Some(id);
  }

  // ----- due leases -----

  /** When each query for due leases was made; there is one for every key and lane. */
  type Asked = map<(RepoKey, Lane), nat>

  /** Some query asks for leases like this one. */
  predicate IsAsked(pl: Plane, asked: Asked, id: int) {
    id in pl.turns && id in pl.sessions && (pl.sessions[id].repo, pl.turns[id].job.lane) in asked
  }

  function AskedAt(pl: Plane, asked: Asked, id: int): nat
    requires IsAsked(pl, asked, id)
  {
    asked[(pl.sessions[id].repo, pl.turns[id].job.lane)]
  }

  predicate IsDue(t: Turn, now: nat) {
    t.job.state == Leased && !LiveAt(t.job, now)
  }

  /** The query's condition, which compares stored text. */
  predicate Found(t: Turn, now: nat) {
    && t.job.state == Leased
    && ((t.job.expires.Some? && StoredLe(t.job.expires.value, now)) || (t.job.deadline.Some? && StoredLe(t.job.deadline.value, now)))
  }

  ghost predicate Distinct(ids: seq<int>) {
    forall i, k :: 0 <= i < k < |ids| ==> ids[i] != ids[k]
  }

  predicate IsRow(pl: Plane, asked: Asked, id: int) {
    IsAsked(pl, asked, id) && Found(pl.turns[id], AskedAt(pl, asked, id))
  }

  /** The rows of the queries for due leases, in any order. */
  ghost predicate DueRows(pl: Plane, asked: Asked, due: seq<int>) {
    && (forall i :: 0 <= i < |due| ==> IsRow(pl, asked, due[i]))
    && (forall id :: IsRow(pl, asked, id) ==> id in due)
    && Distinct(due)
  }

  /** The turns with those in `done` expired, each by the clock as it was read for it. */
  function ExpiredSome(turns: map<int, Turn>, done: seq<int>, times: map<int, nat>): map<int, Turn> {
    map id | id in turns :: if id in done && id in times then ExpireStep(turns[id], times[id]).0 else turns[id]
  }

  /** Every turn a query found after the expire step, which leaves a turn alone unless its lease is due. */
  function Swept(pl: Plane, asked: Asked, times: map<int, nat>): Plane {
    pl.(turns := map id | id in pl.turns ::
          if IsRow(pl, asked, id) && id in times then ExpireStep(pl.turns[id], times[id]).0 else pl.turns[id])
  }

  lemma ExpireOne(turns: map<int, Turn>, done: seq<int>, id: int, times: map<int, nat>)
    requires id in turns && id !in done && id in times
    ensures ExpiredSome(turns, done, times)[id] == turns[id]
    ensures ExpiredSome(turns, done, times)[id := ExpireStep(turns[id], times[id]).0] == ExpiredSome(turns, done + [id], times)
  {
  }

  lemma ExpiredAll(pl: Plane, asked: Asked, due: seq<int>, times: map<int, nat>)
    requires DueRows(pl, asked, due)
    ensures pl.(turns := ExpiredSome(pl.turns, due, times)) == Swept(pl, asked, times)
  {
  }

  ghost predicate Row(was: map<int, Turn>, times: map<int, nat>, id: int) {
    id in was && id in times && Inv(was[id])
  }

  lemma NextRow(due: seq<int>, i: nat)
    requires i < |due| && Distinct(due)
    ensures due[..i + 1] == due[..i] + [due[i]] && due[i] !in due[..i]
  {
  }

  /** One row of the loop. */
  method ExpireRowTx(ghost was: map<int, Turn>, ghost done: seq<int>, turns: map<int, Turn>, id: int, times: map<int, nat>)
    returns (next: map<int, Turn>)
    requires turns == ExpiredSome(was, done, times) && Row(was, times, id) && id !in done
    ensures next == ExpiredSome(was, done + [id], times)
  {
    ExpireOne(was, done, id, times);
    var u := ExpireLeaseTx(turns[id], times[id]);
    next := turns[id := u];
  }

  method ExpireRowsTx(was: map<int, Turn>, due: seq<int>, times: map<int, nat>) returns (turns: map<int, Turn>)
    requires (forall i :: 0 <= i < |due| ==> Row(was, times, due[i])) && Distinct(due)
    ensures turns == ExpiredSome(was, due, times)
  {
    turns := was;
    assert turns == ExpiredSome(was, [], times);
    for i := 0 to |due|
      invariant turns == ExpiredSome(was, due[..i], times)
    {
      NextRow(due, i);
      turns := ExpireRowTx(was, due[..i], turns, due[i], times);
    }
    assert due[..|due|] == due;
  }

  /** The loop over the rows the queries found; `times` is the clock as it was read for each of them. */
  method ExpireDueTx(pl: Plane, ghost asked: Asked, due: seq<int>, times: map<int, nat>) returns (next: Plane)
    requires forall id :: id in pl.turns ==> Inv(pl.turns[id])
    requires DueRows(pl, asked, due) && forall i :: 0 <= i < |due| ==> due[i] in times
    ensures next == Swept(pl, asked, times)
  {
    assert forall i :: 0 <= i < |due| ==> Row(pl.turns, times, due[i]);
    var turns := ExpireRowsTx(pl.turns, due, times);
    ExpiredAll(pl, asked, due, times);
    next := pl.(turns := turns);
  }

  // ----- what the query misses -----

  /** The query does not find a limit: one that has passed is the time of the query cut short, one to come is not cut short to it. */
  predicate Unfound(limit: Option<nat>, now: nat) {
    limit.Some? ==> if limit.value <= now then limit.value != now && CutOff(limit.value, now) else !CutOff(now, limit.value)
  }

  lemma FoundExactly(t: Turn, now: nat)
    ensures Found(t, now) <==> t.job.state == Leased && !(Unfound(t.job.expires, now) && Unfound(t.job.deadline, now))
  {
    if t.job.expires.Some? { StoredOrderExactly(t.job.expires.value, now); }
    if t.job.deadline.Some? { StoredOrderExactly(t.job.deadline.value, now); }
  }

  /** If the limit has passed it did so in the second of `now`. */
  predicate PassedNow(limit: Option<nat>, now: nat) {
    limit.Some? && limit.value <= now ==> limit.value / SECOND == now / SECOND
  }

  lemma UnfoundIsRecent(limit: Option<nat>, now: nat)
    ensures Unfound(limit, now) ==> PassedNow(limit, now)
  {
    if limit.Some? { CutInSecond(limit.value, now); }
  }

  lemma DueEnds(t: Turn, tq: nat, at: nat)
    requires Inv(t) && IsDue(t, tq) && tq <= at
    ensures ExpireStep(t, at).0.job.state != Leased
  {
    EndLeaseInv(t, PastDeadline(true));
    EndLeaseInv(t, Lapsing);
  }

  /**
    A lease that is due when its query is made survives the sweep exactly when the query finds neither of its
    limits, and then the limit has passed within that very second; a lease that is not due when its row is
    looked at survives unchanged.
    */
  lemma SweepMissesExactly(pl: Plane, asked: Asked, times: map<int, nat>, id: int)
    requires IsAsked(pl, asked, id) && Inv(pl.turns[id]) && id in times && AskedAt(pl, asked, id) <= times[id]
    ensures var t, u, tq := pl.turns[id], Swept(pl, asked, times).turns[id], AskedAt(pl, asked, id);
      && (IsDue(t, tq) ==> (u.job.state == Leased <==> Unfound(t.job.expires, tq) && Unfound(t.job.deadline, tq)))
      && (IsDue(t, tq) && u.job.state == Leased ==> u == t && PassedNow(t.job.expires, tq) && PassedNow(t.job.deadline, tq))
      && (!IsDue(t, times[id]) ==> u == t)
  {
    var t, tq := pl.turns[id], AskedAt(pl, asked, id);
    FoundExactly(t, tq);
    if IsDue(t, tq) { DueEnds(t, tq, times[id]); }
    UnfoundIsRecent(t.job.expires, tq);
    UnfoundIsRecent(t.job.deadline, tq);
  }

  /** It happens: a lease that expires on a full second is not found for the rest of that second. */
  lemma DueCanBeMissed(t: Turn, limit: nat, now: nat)
    requires t.job.state == Leased && t.job.expires == Some(limit) && limit % SECOND == 0 && limit < now < limit + SECOND
    requires t.job.deadline.Some? ==> t.job.deadline.value >= limit + SECOND
    ensures IsDue(t, now) && !Found(t, now)
  {
    FullSecondIsCut(limit, now);
    FoundExactly(t, now);
    if t.job.deadline.Some? { CutInSecond(now, t.job.deadline.value); }
  }

  lemma FullSecondIsCut(limit: nat, now: nat)
    requires limit % SECOND == 0 && limit <= now < limit + SECOND
    ensures CutOff(limit, now) && now / SECOND == limit / SECOND
  {
    Pow10Nine();
    assert limit == Cut(now, 9);
  }

  // ----- the claim -----

  /** A project key works for a project without repositories, or while a session on it is left. */
  predicate KeyUsable(pl: Plane, pol: Policy, repo: RepoKey) {
    && ScopeOf(pol, repo).Some?
    && (repo.ProjectKey? && pol.projects[ScopeOf(pol, repo).value].repos != {} ==>
          exists id :: id in pl.sessions && pl.sessions[id].repo == repo && !pl.sessions[id].archived)
  }

  predicate BudgetOut(pl: Plane, pol: Policy, who: Claimer, t1: nat) {
    ReviewGate(pl, pol, who, t1) == DailyBudget
  }

  /** What the claim's keys and lanes are once it is admitted. */
  function LanesOf(pl: Plane, pol: Policy, who: Claimer, t1: nat): set<Lane>
    requires ScopeOf(pol, who.repo).Some?
  {
    ClaimLanes(pl, pol, who, pol.projects[ScopeOf(pol, who.repo).value], t1)
  }

  function KeysOf(pol: Policy, repo: RepoKey): set<RepoKey>
    requires ScopeOf(pol, repo).Some?
  {
    SelectRepos(repo, ScopeOf(pol, repo).value)
  }

  predicate Admitted(pl: Plane, pol: Policy, who: Claimer, paused: bool, t1: nat) {
    !paused && KeyUsable(pl, pol, who.repo) && LanesOf(pl, pol, who, t1) != {}
  }

  /** When the clock is read: for the replay, the budget, each query for due leases, each of their rows, the lease and the charge. */
  datatype Clock = Clock(t0: nat, t1: nat, asked: Asked, times: map<int, nat>, t2: nat, t3: nat)

  /** The plane the claim chooses from. */
  function Ready(pl: Plane, c: Clock): Plane {
    Swept(pl, c.asked, c.times)
  }

  /** Every key of the claim is asked about in every lane. */
  ghost predicate AsksAbout(asked: Asked, keys: set<RepoKey>) {
    forall key, lane :: (key, lane) in asked <==> key in keys
  }

  /** The rows of the two queries: due leases before the expiry, candidates after it. */
  ghost predicate QueryRows(pl: Plane, pol: Policy, who: Claimer, tenant: string, due: seq<int>, queued: seq<int>, c: Clock) {
    ScopeOf(pol, who.repo).Some? ==>
      && AsksAbout(c.asked, KeysOf(pol, who.repo))
      && DueRows(pl, c.asked, due) && (forall i :: 0 <= i < |due| ==> due[i] in c.times)
      && Queried(Ready(pl, c), pol, who, tenant, queued, c.t1)
  }

  /** The plane a claim leaves, by its answer. */
  ghost predicate Leaves(pl: Plane, pol: Policy, g: Gates, who: Claimer, tenant: string, c: Clock, answer: Answer, next: Plane) {
    match answer
    case SameLease(_) => next == pl
    case Refused => next == pl
    case NoWork => next == Ready(pl, c)
    case NewLease(id) =>
      && ScopeOf(pol, who.repo).Some?
      && MayLease(Ready(pl, c), pol, g, who, ScopeOf(pol, who.repo).value, tenant, id, c.t1, c.t2, c.t3)
      && next == Lease(Ready(pl, c), id, who, c.t2, c.t3)
  }

  /** A claim. An exhausted budget with no candidate at all is an error, which also undoes the expiries. */
  method ClaimTx(pl: Plane, pol: Policy, g: Gates, who: Claimer, tenant: string, paused: bool,
                 mine: seq<int>, due: seq<int>, queued: seq<int>, c: Clock)
    returns (next: Plane, answer: Answer)
    requires (forall id :: id in pl.turns ==> Inv(pl.turns[id])) && pl.clock <= c.t0 <= c.t1 <= c.t2 <= c.t3
    requires TokenRows(pl, who.token, mine) && QueryRows(pl, pol, who, tenant, due, queued, c)
    ensures Leaves(pl, pol, g, who, tenant, c, answer, next)
    ensures answer.SameLease? ==> ReplaysAs(pl, who.token, c.t0, answer.id)
    ensures !answer.SameLease? ==> forall id :: !ReplaysAs(pl, who.token, c.t0, id)
    ensures answer.Refused? && Admitted(pl, pol, who, paused, c.t1) ==>
      queued == [] && BudgetOut(pl, pol, who, c.t1) && NothingToLease(Ready(pl, c), pol, g, who, tenant, c.t1)
    ensures answer.NoWork? || answer.NewLease? ==> Admitted(pl, pol, who, paused, c.t1)
    ensures answer.NoWork? ==>
      NothingToLease(next, pol, g, who, tenant, c.t1) && (queued != [] || !BudgetOut(pl, pol, who, c.t1))
  {
    var replay := FindReplay(pl, who.token, mine, c.t0);
    if replay.Some? {
      return pl, SameLease(replay.value);
    }
    if paused || !KeyUsable(pl, pol, who.repo) {
      return pl, Refused;
    }
    if LanesOf(pl, pol, who, c.t1) == {} {
      return pl, Refused;
    }
    next := ExpireDueTx(pl, c.asked, due, c.times);
    var granted;
    next, granted := LeaseNextTx(next, pol, g, who, tenant, queued, c.t1, c.t2, c.t3);
    if granted.Some? {
      return next, NewLease(granted.value);
    }
    if queued == [] && BudgetOut(pl, pol, who, c.t1) {
      return pl, Refused;
    }
    return next, NoWork;
  }
}
