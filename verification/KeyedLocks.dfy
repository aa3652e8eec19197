/**
  A table of reference-counted locks by key, as a state machine over any number of processes. A lock object
  is named by its place in `locks`, so an entry that was dropped and made again is another object.
  */
module KeyedLocks {
  import opened Basics

  datatype Lock = Lock(key: int, refs: int, owner: Option<nat>)

  datatype Stage =
    | Waiting(lock: nat)     // counted in the table, blocked on the mutex
    | Holding(lock: nat)
    | Leaving(lock: nat)     // mutex given up, still counted
    | Out

  datatype Table = Table(entries: map<int, nat>, locks: seq<Lock>, procs: map<nat, Stage>)

  datatype Step = Enter(p: nat, key: int) | Acquire(p: nat) | Unlock(p: nat) | Leave(p: nat)

  predicate On(st: Stage, l: nat) {
    !st.Out? && st.lock == l
  }

  predicate Enabled(t: Table, st: Step) {
    match st
    case Enter(p, key) => (p in t.procs ==> t.procs[p].Out?) && (key in t.entries ==> t.entries[key] < |t.locks|)
    case Acquire(p) => p in t.procs && t.procs[p].Waiting? && t.procs[p].lock < |t.locks| && t.locks[t.procs[p].lock].owner.None?
    case Unlock(p) => p in t.procs && t.procs[p].Holding? && t.procs[p].lock < |t.locks|
    case Leave(p) => p in t.procs && t.procs[p].Leaving? && t.procs[p].lock < |t.locks|
  }

  function Entered(t: Table, p: nat, key: int): Table
    requires key in t.entries ==> t.entries[key] < |t.locks|
  {
    var l := if key in t.entries then t.entries[key] else |t.locks|;
    var locks := if key in t.entries then t.locks else t.locks + [Lock(key, 0, None)];
    Table(t.entries[key := l], locks[l := locks[l].(refs := locks[l].refs + 1)], t.procs[p := Waiting(l)])
  }

  function Left(t: Table, p: nat, l: nat): Table
    requires l < |t.locks|
  {
    var refs := t.locks[l].refs - 1;
    Table(if refs == 0 then t.entries - {t.locks[l].key} else t.entries,
          t.locks[l := t.locks[l].(refs := refs)], t.procs[p := Out])
  }

  function Next(t: Table, st: Step): Table
    requires Enabled(t, st)
  {
    match st
    case Enter(p, key) => Entered(t, p, key)
    case Acquire(p) =>
      var l := t.procs[p].lock;
      t.(locks := t.locks[l := t.locks[l].(owner := Some(p))], procs := t.procs[p := Holding(l)])
    case Unlock(p) =>
      var l := t.procs[p].lock;
      t.(locks := t.locks[l := t.locks[l].(owner := None)], procs := t.procs[p := Leaving(l)])
    case Leave(p) => Left(t, p, t.procs[p].lock)
  }

  // ----- what every step keeps -----

  /** The processes counted on a lock. */
  function Users(procs: map<nat, Stage>, l: nat): set<nat> {
    set p | p in procs && On(procs[p], l)
  }

  ghost predicate Placed(t: Table) {
    forall p :: p in t.procs && !t.procs[p].Out? ==> t.procs[p].lock < |t.locks|
  }

  ghost predicate CountsInv(t: Table) {
    forall l :: 0 <= l < |t.locks| ==> t.locks[l].refs == |Users(t.procs, l)|
  }

  /** A lock is in the table exactly while it is counted. */
  ghost predicate EntriesInv(t: Table) {
    && (forall k :: k in t.entries ==> t.entries[k] < |t.locks| && t.locks[t.entries[k]].key == k && t.locks[t.entries[k]].refs > 0)
    && (forall l :: 0 <= l < |t.locks| && t.locks[l].refs > 0 ==> t.locks[l].key in t.entries && t.entries[t.locks[l].key] == l)
  }

  ghost predicate OwnersInv(t: Table) {
    && (forall p :: p in t.procs && t.procs[p].Holding? && t.procs[p].lock < |t.locks| ==> t.locks[t.procs[p].lock].owner == Some(p))
    && (forall l :: 0 <= l < |t.locks| && t.locks[l].owner.Some? ==>
          t.locks[l].owner.value in t.procs && t.procs[t.locks[l].owner.value] == Holding(l))
  }

  ghost predicate TableInv(t: Table) {
    Placed(t) && CountsInv(t) && EntriesInv(t) && OwnersInv(t)
  }

  lemma OthersStay(procs: map<nat, Stage>, p: nat, st: Stage, l: nat)
    ensures Users(procs[p := st], l) - {p} == Users(procs, l) - {p}
    ensures p in Users(procs[p := st], l) <==> On(st, l)
  {
  }

  lemma SizeBut(s: set<nat>, p: nat)
    ensures |s| == |s - {p}| + (if p in s then 1 else 0)
  {
  }

  lemma UsersChange(procs: map<nat, Stage>, p: nat, st: Stage, l: nat)
    ensures |Users(procs[p := st], l)| ==
            |Users(procs, l)| - (if p in Users(procs, l) then 1 else 0) + (if On(st, l) then 1 else 0)
  {
    OthersStay(procs, p, st, l);
    SizeBut(Users(procs, l), p);
    SizeBut(Users(procs[p := st], l), p);
  }

  lemma NoUsersYet(t: Table)
    requires Placed(t)
    ensures Users(t.procs, |t.locks|) == {}
  {
  }

  lemma CountsStep(t: Table, st: Step)
    requires Placed(t) && CountsInv(t) && Enabled(t, st)
    ensures CountsInv(Next(t, st)) && Placed(Next(t, st))
  {
    var u := Next(t, st);
    NoUsersYet(t);
    forall l | 0 <= l < |u.locks| ensures u.locks[l].refs == |Users(u.procs, l)| {
      UsersChange(t.procs, st.p, u.procs[st.p], l);
    }
  }

  lemma EnteredEntries(t: Table, p: nat, key: int)
    requires EntriesInv(t) && (forall l :: 0 <= l < |t.locks| ==> t.locks[l].refs >= 0)
    ensures EntriesInv(Entered(t, p, key))
  {
  }

  lemma LeftEntries(t: Table, p: nat, l: nat)
    requires EntriesInv(t) && l < |t.locks| && t.locks[l].refs > 0
    ensures EntriesInv(Left(t, p, l))
  {
  }

  lemma EntriesStep(t: Table, st: Step)
    requires Placed(t) && CountsInv(t) && EntriesInv(t) && Enabled(t, st)
    ensures EntriesInv(Next(t, st))
  {
    match st {
      case Enter(p, key) => EnteredEntries(t, p, key);
      case Acquire(_) =>
      case Unlock(_) =>
      case Leave(p) =>
        assert p in Users(t.procs, t.procs[p].lock);
        LeftEntries(t, p, t.procs[p].lock);
    }
  }

  lemma OwnersStep(t: Table, st: Step)
    requires Placed(t) && OwnersInv(t) && Enabled(t, st)
    ensures OwnersInv(Next(t, st))
  {
  }

  // ----- runs -----

  ghost predicate IsRun(ts: seq<Table>, steps: seq<Step>) {
    && |ts| == |steps| + 1 && ts[0] == Table(map[], [], map[])
    && forall n {:trigger steps[n]} :: 0 <= n < |steps| ==> Enabled(ts[n], steps[n]) && ts[n + 1] == Next(ts[n], steps[n])
  }

  lemma {:induction false} LockRuns(ts: seq<Table>, steps: seq<Step>, n: nat)
    requires IsRun(ts, steps) && n < |ts|
    ensures TableInv(ts[n])
  {
    if n > 0 {
      LockRuns(ts, steps, n - 1);
      assert ts[n - 1 + 1] == Next(ts[n - 1], steps[n - 1]);
      CountsStep(ts[n - 1], steps[n - 1]);
      EntriesStep(ts[n - 1], steps[n - 1]);
      OwnersStep(ts[n - 1], steps[n - 1]);
    }
  }

  function KeyAt(t: Table, p: nat): int
    requires p in t.procs && !t.procs[p].Out? && t.procs[p].lock < |t.locks|
  {
    t.locks[t.procs[p].lock].key
  }

  predicate Inside(t: Table, p: nat) {
    p in t.procs && !t.procs[p].Out? && t.procs[p].lock < |t.locks|
  }

  /** In every run, processes holding or waiting for one key are on one and the same mutex, and only one of them holds it. */
  lemma OneLockPerKey(ts: seq<Table>, steps: seq<Step>, n: nat, p: nat, q: nat)
    requires IsRun(ts, steps) && n < |ts| && Inside(ts[n], p) && Inside(ts[n], q) && KeyAt(ts[n], p) == KeyAt(ts[n], q)
    ensures ts[n].procs[p].lock == ts[n].procs[q].lock
    ensures ts[n].procs[p].Holding? && ts[n].procs[q].Holding? ==> p == q
  {
    LockRuns(ts, steps, n);
    var t := ts[n];
    assert p in Users(t.procs, t.procs[p].lock) && q in Users(t.procs, t.procs[q].lock);
  }

  /** An entry is in the table exactly while some process is on its key. */
  lemma EntryWhileUsed(ts: seq<Table>, steps: seq<Step>, n: nat, key: int)
    requires IsRun(ts, steps) && n < |ts|
    ensures key in ts[n].entries <==> exists p :: Inside(ts[n], p) && KeyAt(ts[n], p) == key
  {
    LockRuns(ts, steps, n);
    var t := ts[n];
    if key in t.entries {
      var us := Users(t.procs, t.entries[key]);
      assert |us| > 0;
      var p :| p in us;
      assert Inside(t, p) && KeyAt(t, p) == key;
    }
    if exists p :: Inside(t, p) && KeyAt(t, p) == key {
      var p :| Inside(t, p) && KeyAt(t, p) == key;
      assert p in Users(t.procs, t.procs[p].lock);
    }
  }
}
