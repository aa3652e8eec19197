/**
  The in-process marker of environment operations, as a state machine over every interleaving of
  claims, cancels, halts, sleeps and wakes. Store transactions exclude each other; the marker is
  taken and released outside of them.
  */
module EnvOperations {
  import opened Basics

  /** One operation of the plane, numbered when it starts. */
  datatype Op =
    | Holding(todo: set<int>, held: set<int>)           // cancel or halt: environments still to try, and those held
    | Fencing(held: set<int>)                           // its transaction is open
    | Stopping(held: set<int>, left: set<int>)          // committed; guests still to be stopped
    | Restarting(held: set<int>, left: set<int>, env: int) // the guest of env is killed, its services are not back
    | Releasing(held: set<int>)                         // done with guests
    | Selecting(seen: set<int>)                         // a claim in its transaction; environments it found free
    | Moving(env: int)                                  // a sleep or a wake
    | Over

  datatype Mark =
    | Committed(op: nat, held: set<int>)
    | Killed(op: nat, env: int)
    | Restarted(op: nat, env: int)
    | Released(op: nat, env: int)
    | Granted(env: int)

  datatype Host = Host(ops: map<nat, Op>, markers: set<int>, tx: Option<nat>, log: seq<Mark>)

  datatype Move =
    | BeginStop(op: nat, envs: set<int>)
    | Take(op: nat, env: int)
    | GiveUp(op: nat, env: int)
    | OpenTx(op: nat)
    | CommitStop(op: nat, guests: set<int>)
    | AbortStop(op: nat)
    | Kill(op: nat, env: int)
    | SkipKill(op: nat, env: int)
    | Restart(op: nat)
    | EndStop(op: nat)
    | Release(op: nat, env: int)
    | BeginClaim(op: nat)
    | Check(op: nat, env: int)
    | Grant(op: nat, env: int)
    | EndClaim(op: nat)
    | BeginMove(op: nat, env: int)
    | EndMove(op: nat)

  predicate Enabled(h: Host, m: Move) {
    match m
    case BeginStop(op, envs) => op !in h.ops
    case Take(op, env) => op in h.ops && h.ops[op].Holding? && env in h.ops[op].todo && env !in h.markers
    case GiveUp(op, env) => op in h.ops && h.ops[op].Holding? && env in h.ops[op].todo
    case OpenTx(op) => op in h.ops && h.ops[op].Holding? && h.ops[op].todo == {} && h.tx == None
    case CommitStop(op, guests) => op in h.ops && h.ops[op].Fencing? && guests <= h.ops[op].held
    case AbortStop(op) => op in h.ops && h.ops[op].Fencing?
    case Kill(op, env) => op in h.ops && h.ops[op].Stopping? && env in h.ops[op].left
    case SkipKill(op, env) => op in h.ops && h.ops[op].Stopping? && env in h.ops[op].left
    case Restart(op) => op in h.ops && h.ops[op].Restarting?
    case EndStop(op) => op in h.ops && h.ops[op].Stopping? && h.ops[op].left == {}
    case Release(op, env) => op in h.ops && h.ops[op].Releasing? && env in h.ops[op].held
    case BeginClaim(op) => op !in h.ops && h.tx == None
    case Check(op, env) => op in h.ops && h.ops[op].Selecting? && env !in h.markers
    case Grant(op, env) => op in h.ops && h.ops[op].Selecting? && env in h.ops[op].seen
    case EndClaim(op) => op in h.ops && h.ops[op].Selecting?
    case BeginMove(op, env) => op !in h.ops && env !in h.markers
    case EndMove(op) => op in h.ops && h.ops[op].Moving?
  }

  function Next(h: Host, m: Move): Host
    requires Enabled(h, m)
  {
    match m
    case BeginStop(op, envs) => h.(ops := h.ops[op := Holding(envs, {})])
    case Take(op, env) =>
      h.(ops := h.ops[op := Holding(h.ops[op].todo - {env}, h.ops[op].held + {env})], markers := h.markers + {env})
    case GiveUp(op, env) => h.(ops := h.ops[op := Holding(h.ops[op].todo - {env}, h.ops[op].held)])
    case OpenTx(op) => h.(ops := h.ops[op := Fencing(h.ops[op].held)], tx := Some(op))
    case CommitStop(op, guests) =>
      h.(ops := h.ops[op := Stopping(h.ops[op].held, guests)], tx := None, log := h.log + [Committed(op, h.ops[op].held)])
    case AbortStop(op) => h.(ops := h.ops[op := Releasing(h.ops[op].held)], tx := None)
    case Kill(op, env) =>
      h.(ops := h.ops[op := Restarting(h.ops[op].held, h.ops[op].left, env)], log := h.log + [Killed(op, env)])
    case SkipKill(op, env) => h.(ops := h.ops[op := Stopping(h.ops[op].held, h.ops[op].left - {env})])
    case Restart(op) =>
      var o := h.ops[op];
      h.(ops := h.ops[op := Stopping(o.held, o.left - {o.env})], log := h.log + [Restarted(op, o.env)])
    case EndStop(op) => h.(ops := h.ops[op := Releasing(h.ops[op].held)])
    case Release(op, env) =>
      h.(ops := h.ops[op := Releasing(h.ops[op].held - {env})], markers := h.markers - {env}, log := h.log + [Released(op, env)])
    case BeginClaim(op) => h.(ops := h.ops[op := Selecting({})], tx := Some(op))
    case Check(op, env) => h.(ops := h.ops[op := Selecting(h.ops[op].seen + {env})])
    case Grant(op, env) => h.(ops := h.ops[op := Over], tx := None, log := h.log + [Granted(env)])
    case EndClaim(op) => h.(ops := h.ops[op := Over], tx := None)
    case BeginMove(op, env) => h.(ops := h.ops[op := Moving(env)], markers := h.markers + {env})
    case EndMove(op) => h.(ops := h.ops[op := Over], markers := h.markers - {h.ops[op].env})
  }

  // ----- what every interleaving keeps -----

  predicate HoldsEnv(o: Op, env: int) {
    match o
    case Holding(_, held) => env in held
    case Fencing(held) => env in held
    case Stopping(held, _) => env in held
    case Restarting(held, _, _) => env in held
    case Releasing(held) => env in held
    case Moving(e) => e == env
    case _ => false
  }

  predicate PastTx(o: Op) {
    o.Stopping? || o.Restarting? || o.Releasing?
  }

  /** A marker has one holder. */
  ghost predicate MarkersInv(h: Host) {
    && (forall o, env :: o in h.ops && HoldsEnv(h.ops[o], env) ==> env in h.markers)
    && (forall o, p, env :: o in h.ops && p in h.ops && HoldsEnv(h.ops[o], env) && HoldsEnv(h.ops[p], env) ==> o == p)
  }

  ghost predicate TxInv(h: Host) {
    forall o :: o in h.ops && (h.ops[o].Fencing? || h.ops[o].Selecting?) ==> h.tx == Some(o)
  }

  /** What a claim in its transaction found free is not held by a stop that has committed. */
  ghost predicate SeenInv(h: Host) {
    forall c, o, env :: c in h.ops && o in h.ops && h.ops[c].Selecting? && env in h.ops[c].seen && PastTx(h.ops[o]) ==>
      !HoldsEnv(h.ops[o], env)
  }

  ghost predicate ReleasedIn(log: seq<Mark>, op: nat, env: int, from: nat, to: nat) {
    exists r :: from <= r < to <= |log| && log[r] == Released(op, env)
  }

  /** An operation's log agrees with where it is. */
  ghost predicate LogInv(h: Host) {
    && (forall i :: 0 <= i < |h.log| && !h.log[i].Granted? ==> h.log[i].op in h.ops && PastTx(h.ops[h.log[i].op]))
    && (forall i :: 0 <= i < |h.log| && h.log[i].Released? ==>
          h.ops[h.log[i].op].Releasing? && !HoldsEnv(h.ops[h.log[i].op], h.log[i].env))
    && (forall i, env :: 0 <= i < |h.log| && h.log[i].Committed? && env in h.log[i].held && !HoldsEnv(h.ops[h.log[i].op], env) ==>
          ReleasedIn(h.log, h.log[i].op, env, i + 1, |h.log|))
  }

  /** A stop that works on guests has committed, and works only on environments it holds. */
  ghost predicate StopInv(h: Host) {
    forall o :: o in h.ops && (h.ops[o].Stopping? || h.ops[o].Restarting?) ==>
      && Committed(o, h.ops[o].held) in h.log
      && h.ops[o].left <= h.ops[o].held
      && (h.ops[o].Restarting? ==> h.ops[o].env in h.ops[o].left)
  }

  // ----- the property -----

  /** A lease granted after a stop that held its environment committed is granted after the stop let go of it. */
  ghost predicate Isolated(log: seq<Mark>) {
    forall i, j :: 0 <= i < j < |log| && log[i].Committed? && log[j].Granted? && log[j].env in log[i].held ==>
      ReleasedIn(log, log[i].op, log[j].env, i + 1, j)
  }

  predicate OnGuest(m: Mark) {
    m.Killed? || m.Restarted?
  }

  /** A stop touches a guest only after its commit and before it lets go of the environment. */
  ghost predicate KillsInside(log: seq<Mark>) {
    forall k :: 0 <= k < |log| && OnGuest(log[k]) ==>
      && (exists i :: 0 <= i < k && log[i].Committed? && log[i].op == log[k].op && log[k].env in log[i].held)
      && !ReleasedIn(log, log[k].op, log[k].env, 0, k)
  }

  ghost predicate RestartedIn(log: seq<Mark>, op: nat, env: int, from: nat, to: nat) {
    exists r :: from <= r < to <= |log| && log[r] == Restarted(op, env)
  }

  /** Services are back before the environment is let go. */
  ghost predicate RestartsInside(log: seq<Mark>) {
    forall k, r :: 0 <= k < r < |log| && log[k].Killed? && log[r] == Released(log[k].op, log[k].env) ==>
      RestartedIn(log, log[k].op, log[k].env, k + 1, r)
  }

  /** A killed guest whose services are not back belongs to a stop in the middle of that restart. */
  ghost predicate RestartInv(h: Host) {
    forall k :: 0 <= k < |h.log| && h.log[k].Killed? ==>
      || RestartedIn(h.log, h.log[k].op, h.log[k].env, k + 1, |h.log|)
      || (h.log[k].op in h.ops && h.ops[h.log[k].op].Restarting? && h.ops[h.log[k].op].env == h.log[k].env)
  }

  ghost predicate HostInv(h: Host) {
    MarkersInv(h) && TxInv(h) && SeenInv(h) && LogInv(h) && StopInv(h)
  }

  ghost predicate Safe(log: seq<Mark>) {
    Isolated(log) && KillsInside(log) && RestartsInside(log)
  }

  lemma MarkersStep(h: Host, m: Move)
    requires MarkersInv(h) && Enabled(h, m)
    ensures MarkersInv(Next(h, m))
  {
  }

  lemma TxStep(h: Host, m: Move)
    requires TxInv(h) && Enabled(h, m)
    ensures TxInv(Next(h, m))
  {
  }

  lemma SeenStep(h: Host, m: Move)
    requires MarkersInv(h) && TxInv(h) && SeenInv(h) && Enabled(h, m)
    ensures SeenInv(Next(h, m))
  {
  }

  /** At most one mark is appended by a step. */
  lemma LogGrows(h: Host, m: Move)
    requires Enabled(h, m)
    ensures h.log <= Next(h, m).log && |Next(h, m).log| <= |h.log| + 1
  {
  }

  lemma ReleasedStays(log: seq<Mark>, longer: seq<Mark>, op: nat, env: int, from: nat, to: nat)
    requires log <= longer && to <= |log|
    ensures ReleasedIn(log, op, env, from, to) <==> ReleasedIn(longer, op, env, from, to)
  {
  }

  lemma MarksStep(h: Host, m: Move)
    requires TxInv(h) && LogInv(h) && Enabled(h, m)
    ensures var n := Next(h, m);
      && (forall i :: 0 <= i < |n.log| && !n.log[i].Granted? ==> n.log[i].op in n.ops && PastTx(n.ops[n.log[i].op]))
      && (forall i :: 0 <= i < |n.log| && n.log[i].Released? ==>
            n.ops[n.log[i].op].Releasing? && !HoldsEnv(n.ops[n.log[i].op], n.log[i].env))
  {
  }

  lemma LogStep(h: Host, m: Move)
    requires TxInv(h) && LogInv(h) && Enabled(h, m)
    ensures LogInv(Next(h, m))
  {
    var n := Next(h, m);
    MarksStep(h, m);
    LogGrows(h, m);
    forall i, env | 0 <= i < |n.log| && n.log[i].Committed? && env in n.log[i].held && !HoldsEnv(n.ops[n.log[i].op], env)
      ensures ReleasedIn(n.log, n.log[i].op, env, i + 1, |n.log|)
    {
      var op := n.log[i].op;
      assert i < |h.log| && h.log[i] == n.log[i];
      if HoldsEnv(h.ops[op], env) {
        assert n.log[|h.log|] == Released(op, env);
      } else {
        var r :| i + 1 <= r < |h.log| && h.log[r] == Released(op, env);
        assert n.log[r] == Released(op, env);
      }
    }
  }

  lemma StopStep(h: Host, m: Move)
    requires StopInv(h) && Enabled(h, m)
    ensures StopInv(Next(h, m))
  {
  }

  lemma IsolatedStep(h: Host, m: Move)
    requires HostInv(h) && Isolated(h.log) && Enabled(h, m)
    ensures Isolated(Next(h, m).log)
  {
    var log := Next(h, m).log;
    LogGrows(h, m);
    forall i, j | 0 <= i < j < |log| && log[i].Committed? && log[j].Granted? && log[j].env in log[i].held
      ensures ReleasedIn(log, log[i].op, log[j].env, i + 1, j)
    {
      assert log[i] == h.log[i];
      if j < |h.log| {
        assert log[j] == h.log[j];
      }
      ReleasedStays(h.log, log, log[i].op, log[j].env, i + 1, j);
    }
  }

  lemma KillsStep(h: Host, m: Move)
    requires HostInv(h) && KillsInside(h.log) && Enabled(h, m)
    ensures KillsInside(Next(h, m).log)
  {
    var log := Next(h, m).log;
    LogGrows(h, m);
    forall k | 0 <= k < |log| && OnGuest(log[k])
      ensures exists i :: 0 <= i < k && log[i].Committed? && log[i].op == log[k].op && log[k].env in log[i].held
      ensures !ReleasedIn(log, log[k].op, log[k].env, 0, k)
    {
      var op, env := log[k].op, log[k].env;
      if k < |h.log| {
        assert log[k] == h.log[k];
        var i :| 0 <= i < k && h.log[i].Committed? && h.log[i].op == op && env in h.log[i].held;
        assert log[i] == h.log[i];
      } else {
        var i :| 0 <= i < |h.log| && h.log[i] == Committed(op, h.ops[op].held);
        assert log[i] == h.log[i];
      }
      ReleasedStays(h.log, log, op, env, 0, k);
    }
  }

  lemma RestartStep(h: Host, m: Move)
    requires StopInv(h) && RestartInv(h) && Enabled(h, m)
    ensures RestartInv(Next(h, m))
  {
    var n := Next(h, m);
    LogGrows(h, m);
    forall k | 0 <= k < |n.log| && n.log[k].Killed?
      ensures
        || RestartedIn(n.log, n.log[k].op, n.log[k].env, k + 1, |n.log|)
        || (n.log[k].op in n.ops && n.ops[n.log[k].op].Restarting? && n.ops[n.log[k].op].env == n.log[k].env)
    {
      if k < |h.log| {
        var op, env := h.log[k].op, h.log[k].env;
        if RestartedIn(h.log, op, env, k + 1, |h.log|) {
          var r :| k + 1 <= r < |h.log| && h.log[r] == Restarted(op, env);
          assert n.log[r] == Restarted(op, env);
        } else if m.Restart? && m.op == op {
          assert n.log[|h.log|] == Restarted(op, env);
        }
      }
    }
  }

  lemma RestartsStep(h: Host, m: Move)
    requires RestartInv(h) && RestartsInside(h.log) && Enabled(h, m)
    ensures RestartsInside(Next(h, m).log)
  {
    var n := Next(h, m);
    LogGrows(h, m);
    forall k, r | 0 <= k < r < |n.log| && n.log[k].Killed? && n.log[r] == Released(n.log[k].op, n.log[k].env)
      ensures RestartedIn(n.log, n.log[k].op, n.log[k].env, k + 1, r)
    {
      var op, env := n.log[k].op, n.log[k].env;
      assert h.log[k] == n.log[k];
      if r < |h.log| { assert h.log[r] == n.log[r]; }
      assert RestartedIn(h.log, op, env, k + 1, r);
      var q :| k + 1 <= q < r && h.log[q] == Restarted(op, env);
      assert n.log[q] == Restarted(op, env);
    }
  }

  // ----- runs -----

  /** The states of a host under a sequence of moves by any number of operations. */
  ghost predicate IsRun(hs: seq<Host>, moves: seq<Move>) {
    && |hs| == |moves| + 1 && hs[0] == Host(map[], {}, None, [])
    && forall n :: 0 <= n < |moves| ==> Enabled(hs[n], moves[n]) && hs[n + 1] == Next(hs[n], moves[n])
  }

  lemma {:induction false} Interleavings(hs: seq<Host>, moves: seq<Move>, n: nat)
    requires IsRun(hs, moves) && n < |hs|
    ensures HostInv(hs[n]) && RestartInv(hs[n]) && Safe(hs[n].log)
  {
    if n > 0 {
      var g, m := hs[n - 1], moves[n - 1];
      Interleavings(hs, moves, n - 1);
      assert hs[n - 1 + 1] == Next(g, m);
      MarkersStep(g, m);
      TxStep(g, m);
      SeenStep(g, m);
      LogStep(g, m);
      StopStep(g, m);
      IsolatedStep(g, m);
      KillsStep(g, m);
      RestartStep(g, m);
      RestartsStep(g, m);
    }
  }

  /**
    Under every interleaving, a lease on an environment granted after the commit of a cancel or halt
    that holds it is granted after that stop has let go of it; every guest kill the stop makes there
    comes before, with its service restart, and none comes after.
    */
  lemma KillIsolation(hs: seq<Host>, moves: seq<Move>, h: Host, i: nat, j: nat)
    requires IsRun(hs, moves) && h == hs[|moves|] && i < j < |h.log|
    requires h.log[i].Committed? && h.log[j].Granted? && h.log[j].env in h.log[i].held
    ensures exists r :: i < r < j && h.log[r] == Released(h.log[i].op, h.log[j].env)
    ensures forall k :: 0 <= k < |h.log| && h.log[k] == Killed(h.log[i].op, h.log[j].env) ==>
      k < j && RestartedIn(h.log, h.log[i].op, h.log[j].env, k + 1, j)
    ensures forall k :: 0 <= k < |h.log| && h.log[k] == Restarted(h.log[i].op, h.log[j].env) ==> k < j
  {
    Interleavings(hs, moves, |moves|);
    var op, env := h.log[i].op, h.log[j].env;
    assert ReleasedIn(h.log, op, env, i + 1, j);
    var r :| i + 1 <= r < j && h.log[r] == Released(op, env);
    forall k | 0 <= k < |h.log| && OnGuest(h.log[k]) && h.log[k].op == op && h.log[k].env == env ensures k < r {
      assert !ReleasedIn(h.log, op, env, 0, k);
    }
    forall k | 0 <= k < |h.log| && h.log[k] == Killed(op, env) ensures RestartedIn(h.log, op, env, k + 1, j) {
      assert RestartedIn(h.log, op, env, k + 1, r);
      var q :| k + 1 <= q < r && h.log[q] == Restarted(op, env);
    }
  }

  /** So the kill of a stop only ever hits leases granted before the stop ended them. */
  lemma KillsHitOldLeases(hs: seq<Host>, moves: seq<Move>, h: Host, i: nat, j: nat, k: nat)
    requires IsRun(hs, moves) && h == hs[|moves|] && i < |h.log| && j < k < |h.log|
    requires h.log[i].Committed? && h.log[j].Granted? && h.log[j].env in h.log[i].held
    requires h.log[k] == Killed(h.log[i].op, h.log[j].env)
    ensures j < i
  {
    if i < j { KillIsolation(hs, moves, h, i, j); }
  }
}
