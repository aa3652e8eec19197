/**
  Claiming: which queued turn a claim leases, how many leases a project and a session tree may hold,
  and the daily review budget. A plane is the time of the last lease, every session with its turn, the
  daily counts, the charge each review lease made on them, and the claim tokens: the one stored with a
  turn, and as history the one each lease was granted to.
  */
module Claims {
  import opened Basics
  import opened Stamps
  import opened Turns

  const DAY: nat := 86400 * SECOND

  function Day(at: nat): nat {
    at / DAY
  }

  /** `sessions.repo`: a bound repository, or the reserved key of a project without one. */
  datatype RepoKey = Bound(name: string) | ProjectKey(slug: string)

  /** `max_concurrent_leases` is never below 1. */
  datatype Project = Project(slug: string, repos: set<string>, cap: nat, kinds: set<Lane>)

  datatype RepoPolicy = RepoPolicy(project: string, review: bool, maxPerDay: nat)

  datatype Policy = Policy(projects: map<string, Project>, repos: map<string, RepoPolicy>)

  /** A session; `parent` is the session it is a child of. Its turn has the same number. */
  datatype Session = Session(project: string, repo: RepoKey, parent: Option<int>, env: int, archived: bool, tenant: string)

  /** What a review lease put on the daily count, and whether a busy requeue took it back. */
  datatype Charge = Charge(repo: string, day: nat, refunded: bool)

  datatype Plane = Plane(
    clock: nat,
    sessions: map<int, Session>,
    turns: map<int, Turn>,
    counts: map<(string, nat), nat>,
    ledger: map<(int, nat), Charge>,
    tokens: map<int, string>,
    grants: map<(int, nat), string>)

  // ----- the review gate -----

  datatype Reason = Allowed | Paused | InvalidRepo | UnboundRepo | MissingProject | Disabled | DailyBudget

  function ReviewAccess(pol: Policy, repo: string, paused: bool): Reason {
    if paused then Paused
    else if repo == "" then InvalidRepo
    else if repo !in pol.repos then UnboundRepo
    else if pol.repos[repo].project !in pol.projects then MissingProject
    else if !pol.repos[repo].review then Disabled
    else Allowed
  }

  function ReviewBudget(reviewsToday: nat, limit: nat): Reason {
    if reviewsToday >= limit then DailyBudget else Allowed
  }

  function DecideReview(pol: Policy, repo: string, paused: bool, reviewsToday: nat): Reason {
    var access := ReviewAccess(pol, repo, paused);
    if access != Allowed then access
    else ReviewBudget(reviewsToday, if repo in pol.repos then pol.repos[repo].maxPerDay else 0)
  }

  // ----- counting -----

  function LeasedTurns(pl: Plane): set<int> {
    set id | id in pl.turns && pl.turns[id].job.state == Leased
  }

  predicate Counted(p: Project, s: Session) {
    s.project == p.slug || (s.repo.Bound? && s.repo.name in p.repos)
  }

  function ProjectLeases(pl: Plane, p: Project): set<int> {
    set id | id in LeasedTurns(pl) && id in pl.sessions && Counted(p, pl.sessions[id])
  }

  function RootOf(pl: Plane, id: int): int
    requires id in pl.sessions
  {
    if pl.sessions[id].parent.Some? then pl.sessions[id].parent.value else id
  }

  function TreeLeases(pl: Plane, root: int): set<int> {
    set id | id in LeasedTurns(pl) && id in pl.sessions && (id == root || pl.sessions[id].parent == Some(root))
  }

  function RootProject(pl: Plane, id: int): string
    requires id in pl.sessions
  {
    var r := RootOf(pl, id);
    if r in pl.sessions then pl.sessions[r].project else pl.sessions[id].project
  }

  function CountOn(pl: Plane, repo: string, day: nat): nat {
    if (repo, day) in pl.counts then pl.counts[(repo, day)] else 0
  }

  /** The review leases still charged to a repository and day. */
  function Charged(pl: Plane, repo: string, day: nat): set<(int, nat)> {
    set k | k in pl.ledger && pl.ledger[k] == Charge(repo, day, false)
  }

  // ----- selection -----

  /** What Claim asks of the outside world about a candidate. */
  datatype Gates = Gates(busyEnvs: set<int>, halted: set<int>, refused: set<int>)

  predicate TreeHasRoom(pl: Plane, pol: Policy, id: int)
    requires id in pl.sessions
  {
    var p := RootProject(pl, id);
    p == "" || (p in pol.projects && |TreeLeases(pl, RootOf(pl, id))| < pol.projects[p].cap)
  }

  predicate Eligible(pl: Plane, pol: Policy, g: Gates, id: int) {
    && id in pl.sessions
    && pl.sessions[id].env !in g.busyEnvs && id !in g.halted && id !in g.refused
    && TreeHasRoom(pl, pol, id)
  }

  predicate Candidate(pl: Plane, keys: set<RepoKey>, lanes: set<Lane>, tenant: string, id: int) {
    && id in pl.turns && id in pl.sessions
    && pl.turns[id].job.state == Queued && pl.turns[id].job.lane in lanes
    && pl.sessions[id].repo in keys && !pl.sessions[id].archived && pl.sessions[id].tenant == tenant
  }

  /** Runs first, then the order of the turn numbers. */
  predicate Before(pl: Plane, a: int, b: int)
    requires a in pl.turns && b in pl.turns
  {
    var ra := pl.turns[a].job.lane == RunLane;
    var rb := pl.turns[b].job.lane == RunLane;
    (ra && !rb) || (ra == rb && a < b)
  }

  /** The rows of the candidate query, in its order. */
  ghost predicate IsQueryResult(pl: Plane, keys: set<RepoKey>, lanes: set<Lane>, tenant: string, queued: seq<int>) {
    && (forall i :: 0 <= i < |queued| ==> Candidate(pl, keys, lanes, tenant, queued[i]))
    && (forall id :: Candidate(pl, keys, lanes, tenant, id) ==> id in queued)
    && (forall i, k :: 0 <= i < k < |queued| ==> Before(pl, queued[i], queued[k]))
  }

  /** The turn a claim leases: the first candidate, runs before the rest, that nothing keeps back. */
  ghost predicate FirstEligible(pl: Plane, pol: Policy, g: Gates, keys: set<RepoKey>, lanes: set<Lane>, tenant: string, id: int) {
    && Candidate(pl, keys, lanes, tenant, id) && Eligible(pl, pol, g, id)
    && forall o :: Candidate(pl, keys, lanes, tenant, o) && Before(pl, o, id) ==> !Eligible(pl, pol, g, o)
  }

  method SelectTurn(pl: Plane, pol: Policy, g: Gates, queued: seq<int>,
                    ghost keys: set<RepoKey>, ghost lanes: set<Lane>, ghost tenant: string) returns (r: Option<int>)
    requires IsQueryResult(pl, keys, lanes, tenant, queued)
    ensures r.Some? ==> FirstEligible(pl, pol, g, keys, lanes, tenant, r.value)
    ensures r.None? ==> forall id :: Candidate(pl, keys, lanes, tenant, id) ==> !Eligible(pl, pol, g, id)
  {
    for i := 0 to |queued|
      invariant forall k :: 0 <= k < i ==> !Eligible(pl, pol, g, queued[k])
    {
      var id := queued[i];
      if pl.sessions[id].env in g.busyEnvs {
        continue;
      }
      if id in g.halted {
        continue;
      }
      if id in g.refused {
        continue;
      }
      var rootProject := RootProject(pl, id);
      if rootProject != "" {
        if rootProject !in pol.projects || |TreeLeases(pl, RootOf(pl, id))| >= pol.projects[rootProject].cap {
          continue;
        }
      }
      forall o | Candidate(pl, keys, lanes, tenant, o) && Before(pl, o, id) ensures !Eligible(pl, pol, g, o) {
        var k :| 0 <= k < |queued| && queued[k] == o;
      }
      return Some(id);
    }
    return None;
  }

  // ----- the claim -----

  /** The project a claim key stands for. */
  function ScopeOf(pol: Policy, repo: RepoKey): (slug: Option<string>)
    ensures slug.Some? ==> slug.value in pol.projects
  {
    match repo
    case ProjectKey(slug) => if slug in pol.projects then Some(slug) else None
    case Bound(name) =>
      if name in pol.repos && pol.repos[name].project in pol.projects then Some(pol.repos[name].project) else None
  }

  function SelectRepos(repo: RepoKey, slug: string): set<RepoKey> {
    if repo.ProjectKey? then {repo} else {repo, ProjectKey(slug)}
  }

  /** Who claims: the claim key, the claim token, the execution limit, and the policy that was active when the call began. */
  datatype Claimer = Claimer(repo: RepoKey, token: string, exec: nat, snap: Policy)

  /** The review gate of a claim: the policy of the claim's scope has reviews on, and what the call's own policy decides. */
  function ReviewGate(pl: Plane, pol: Policy, who: Claimer, t1: nat): Reason {
    if !(who.repo.Bound? && who.repo.name in pol.repos && pol.repos[who.repo.name].review) then Disabled
    else DecideReview(who.snap, who.repo.name, false, CountOn(pl, who.repo.name, Day(t1)))
  }

  /** The lanes a claim may take from, with the count read at `t1`. */
  function ClaimLanes(pl: Plane, pol: Policy, who: Claimer, p: Project, t1: nat): set<Lane> {
    (if ReviewGate(pl, pol, who, t1) == Allowed then {ReviewLane} else {}) + (p.kinds * {RunLane, ScheduledLane})
  }

  /** Leasing turn `id` at `t2`, with the day of a charge read again at `t3`. */
  function Lease(pl: Plane, id: int, who: Claimer, t2: nat, t3: nat): Plane
    requires id in pl.turns
  {
    var j := pl.turns[id].job;
    var leased := pl.(clock := t3, turns := pl.turns[id := pl.turns[id].(job := Grant(j, t2, who.exec))],
                      tokens := pl.tokens[id := who.token], grants := pl.grants[(id, j.gen + 1) := who.token]);
    if j.lane == ReviewLane && who.repo.Bound? then
      leased.(counts := pl.counts[(who.repo.name, Day(t3)) := CountOn(pl, who.repo.name, Day(t3)) + 1],
              ledger := pl.ledger[(id, j.gen + 1) := Charge(who.repo.name, Day(t3), false)])
    else leased
  }

  /** Everything a granted claim has checked. The policy is read twice: `who.snap` when the call begins, `pol` inside the transaction. */
  ghost predicate MayLease(pl: Plane, pol: Policy, g: Gates, who: Claimer, slug: string, tenant: string, id: int, t1: nat, t2: nat, t3: nat) {
    && ScopeOf(pol, who.repo) == Some(slug) && slug in pol.projects && pl.clock <= t1 <= t2 <= t3
    && FirstEligible(pl, who.snap, g, SelectRepos(who.repo, slug), ClaimLanes(pl, pol, who, pol.projects[slug], t1), tenant, id)
    && |ProjectLeases(pl, pol.projects[slug])| < pol.projects[slug].cap
  }

  /** The rows the claim's query returned, for a claim key that stands for a project. */
  ghost predicate Queried(pl: Plane, pol: Policy, who: Claimer, tenant: string, queued: seq<int>, t1: nat) {
    ScopeOf(pol, who.repo).Some? ==>
      var slug := ScopeOf(pol, who.repo).value;
      IsQueryResult(pl, SelectRepos(who.repo, slug), ClaimLanes(pl, pol, who, pol.projects[slug], t1), tenant, queued)
  }

  /** The project is full, or something keeps back every candidate. */
  ghost predicate NothingToLease(pl: Plane, pol: Policy, g: Gates, who: Claimer, tenant: string, t1: nat) {
    ScopeOf(pol, who.repo).Some? &&
      var slug := ScopeOf(pol, who.repo).value;
      || |ProjectLeases(pl, pol.projects[slug])| >= pol.projects[slug].cap
      || forall id :: Candidate(pl, SelectRepos(who.repo, slug), ClaimLanes(pl, pol, who, pol.projects[slug], t1), tenant, id)
                      ==> !Eligible(pl, who.snap, g, id)
  }

  /** The writes of a granted claim. */
  method LeaseTx(pl: Plane, id: int, who: Claimer, t2: nat, t3: nat) returns (next: Plane)
    requires id in pl.turns
    ensures next == Lease(pl, id, who, t2, t3)
  {
    var j := pl.turns[id].job;
    j := j.(gen := j.gen + 1);
    j := j.(claimed := j.pending);
    j := j.(state := Leased);
    j := j.(expires := Some(t2 + LIVENESS), deadline := Some(t2 + if j.lane == RunLane then RUN_EXEC_DEADLINE else who.exec));
    next := pl.(clock := t3, turns := pl.turns[id := pl.turns[id].(job := j)]);
    next := next.(tokens := pl.tokens[id := who.token], grants := pl.grants[(id, j.gen) := who.token]);
    if j.lane == ReviewLane && who.repo.Bound? {
      var day := Day(t3);
      next := next.(counts := pl.counts[(who.repo.name, day) := CountOn(pl, who.repo.name, day) + 1],
                    ledger := pl.ledger[(id, j.gen) := Charge(who.repo.name, day, false)]);
    }
  }

  /**
    The part of a claim after due leases have been expired: choose the lanes, choose the turn, check
    the project cap, lease. The clock is read for the budget (`t1`), for the lease (`t2`) and again for
    the charge (`t3`).
    */
  method LeaseNextTx(pl: Plane, pol: Policy, g: Gates, who: Claimer, tenant: string, queued: seq<int>, t1: nat, t2: nat, t3: nat)
    returns (next: Plane, granted: Option<int>)
    requires pl.clock <= t1 <= t2 <= t3
    requires Queried(pl, pol, who, tenant, queued, t1)
    ensures granted.None? ==> next == pl && (ScopeOf(pol, who.repo).None? || NothingToLease(pl, pol, g, who, tenant, t1))
    ensures granted.Some? ==>
      && ScopeOf(pol, who.repo).Some?
      && MayLease(pl, pol, g, who, ScopeOf(pol, who.repo).value, tenant, granted.value, t1, t2, t3)
      && next == Lease(pl, granted.value, who, t2, t3)
  {
    var scope := ScopeOf(pol, who.repo);
    if scope == None {
      return pl, None;
    }
    var slug := scope.value;
    var p := pol.projects[slug];
    granted := SelectTurn(pl, who.snap, g, queued, SelectRepos(who.repo, slug), ClaimLanes(pl, pol, who, p, t1), tenant);
    if granted == None {
      return pl, None;
    }
    if |ProjectLeases(pl, p)| >= p.cap {
      return pl, None;
    }
    next := LeaseTx(pl, granted.value, who, t2, t3);
  }

  // ----- replay -----

  function LeasedBy(pl: Plane, token: string): set<int> {
    set id | id in LeasedTurns(pl) && id in pl.tokens && pl.tokens[id] == token
  }

  /** The live lease a claim token is answered with again: of its leased turns the latest, unless that has expired. */
  ghost predicate ReplaysAs(pl: Plane, token: string, now: nat, id: int) {
    && token != "" && id in LeasedBy(pl, token) && (forall o :: o in LeasedBy(pl, token) ==> o <= id)
    && LiveAt(pl.turns[id].job, now)
  }
}
