/**
  Model-call summaries: what the model proxy counts per turn, carries from one lease to the next, and
  merges into the stored aggregate. `seen` names the responses behind a count; nothing else depends on it.
  */
module ModelCalls {
  import opened Basics

  const MAX_TURNS: nat := 256
  const MAX_CALLS: nat := 64
  const STATUSES: nat := 1000

  datatype Call = Call(origin: string, path: string, status: nat, count: nat, truncated: bool)

  datatype Summary = Summary(
    no: nat, gen: nat, count: nat, status: map<nat, nat>, calls: seq<Call>, other: nat,
    finished: bool, expires: nat, seen: set<nat>)

  /** Live summaries and stored aggregates by turn; the next reservation and the next response. */
  datatype Book = Book(live: map<int, Summary>, stored: map<int, Summary>, nextNo: nat, responses: nat)

  // ----- calls -----

  predicate SameCall(a: Call, b: Call) {
    a.origin == b.origin && a.path == b.path && a.status == b.status && a.truncated == b.truncated
  }

  function IndexOf(calls: seq<Call>, next: Call): (i: nat)
    ensures i <= |calls|
    ensures i < |calls| ==> SameCall(calls[i], next)
    ensures forall k :: 0 <= k < i ==> !SameCall(calls[k], next)
  {
    if calls == [] || SameCall(calls[0], next) then 0 else 1 + IndexOf(calls[1..], next)
  }

  function Added(calls: seq<Call>, other: nat, next: Call): (seq<Call>, nat) {
    var i := IndexOf(calls, next);
    if i < |calls| then (calls[i := calls[i].(count := calls[i].count + next.count)], other)
    else if |calls| < MAX_CALLS then (calls + [next], other)
    else (calls, other + next.count)
  }

  method AddCall(calls: seq<Call>, other: nat, next: Call) returns (calls': seq<Call>, other': nat)
    ensures (calls', other') == Added(calls, other, next)
  {
    for i := 0 to |calls|
      invariant forall k :: 0 <= k < i ==> !SameCall(calls[k], next)
    {
      if calls[i].origin == next.origin && calls[i].path == next.path
         && calls[i].status == next.status && calls[i].truncated == next.truncated {
        assert IndexOf(calls, next) == i;
        return calls[i := calls[i].(count := calls[i].count + next.count)], other;
      }
    }
    if |calls| < MAX_CALLS {
      return calls + [next], other;
    }
    return calls, other + next.count;
  }

  function AddedAll(calls: seq<Call>, other: nat, more: seq<Call>): (seq<Call>, nat) {
    if more == [] then (calls, other)
    else
      var (c, o) := AddedAll(calls, other, more[..|more| - 1]);
      Added(c, o, more[|more| - 1])
  }

  // ----- summaries -----

  function At(m: map<nat, nat>, k: nat): nat {
    if k in m then m[k] else 0
  }

  /** One response: the total, its status and its call all go up by one. */
  function Counted(s: Summary, status: nat, call: Call, id: nat): Summary {
    var (calls, other) := Added(s.calls, s.other, call.(status := status, count := 1));
    s.(count := s.count + 1, status := s.status[status := At(s.status, status) + 1],
       calls := calls, other := other, seen := s.seen + {id})
  }

  function MergedStatus(a: map<nat, nat>, b: map<nat, nat>): map<nat, nat> {
    map k | k in a.Keys + b.Keys :: At(a, k) + At(b, k)
  }

  /** An aggregate with a newer snapshot merged into it. */
  function Merged(a: Summary, s: Summary): Summary {
    var (calls, other) := AddedAll(a.calls, a.other + s.other, s.calls);
    a.(gen := s.gen, count := a.count + s.count, status := MergedStatus(a.status, s.status),
       calls := calls, other := other, seen := a.seen + s.seen)
  }

  /** Merged but for the statuses in `left`. */
  ghost predicate MergedBut(a: map<nat, nat>, b: map<nat, nat>, left: set<nat>, m: map<nat, nat>) {
    && left <= b.Keys
    && (forall k :: k in m <==> k in a || (k in b && k !in left))
    && (forall k :: k in m ==> m[k] == At(a, k) + (if k in left then 0 else At(b, k)))
  }

  lemma MergeOne(a: map<nat, nat>, b: map<nat, nat>, left: set<nat>, m: map<nat, nat>, k: nat)
    requires MergedBut(a, b, left, m) && k in left
    ensures MergedBut(a, b, left - {k}, m[k := At(m, k) + b[k]])
  {
  }

  lemma MergedAll(a: map<nat, nat>, b: map<nat, nat>, m: map<nat, nat>)
    requires MergedBut(a, b, {}, m)
    ensures m == MergedStatus(a, b)
  {
  }

  method MergeStatus(a: map<nat, nat>, b: map<nat, nat>) returns (m: map<nat, nat>)
    ensures m == MergedStatus(a, b)
  {
    m := a;
    var left := b.Keys;
    while left != {}
      invariant MergedBut(a, b, left, m)
      decreases |left|
    {
      var k :| k in left;
      MergeOne(a, b, left, m, k);
      m := m[k := At(m, k) + b[k]];
      left := left - {k};
    }
    MergedAll(a, b, m);
  }

  /** Merging loops: statuses in any order, calls in theirs. */
  method Merge(a: Summary, s: Summary) returns (m: Summary)
    ensures m == Merged(a, s)
  {
    var status := MergeStatus(a.status, s.status);
    var calls, other := a.calls, a.other + s.other;
    for i := 0 to |s.calls|
      invariant (calls, other) == AddedAll(a.calls, a.other + s.other, s.calls[..i])
    {
      assert s.calls[..i + 1][..i] == s.calls[..i];
      calls, other := AddCall(calls, other, s.calls[i]);
    }
    assert s.calls[..|s.calls|] == s.calls;
    m := a.(gen := s.gen, count := a.count + s.count, status := status, calls := calls, other := other, seen := a.seen + s.seen);
  }

  // ----- the book -----

  predicate Evictable(s: Summary, now: nat) {
    s.finished || s.expires <= now
  }

  /** A summary that makes room: any finished or expired one, if there is one. */
  predicate Victim(live: map<int, Summary>, now: nat, v: Option<int>) {
    match v
    case Some(id) => id in live && Evictable(live[id], now)
    case None => forall id :: id in live ==> !Evictable(live[id], now)
  }

  function Extended(s: Summary, expires: nat): Summary {
    if s.expires < expires then s.(expires := expires) else s
  }

  function Opened(gen: nat, no: nat, expires: nat, carry: Option<Summary>): Summary {
    match carry
    case None => Summary(no, gen, 0, map[], [], 0, false, expires, {})
    case Some(c) => Summary(no, gen, c.count, c.status, c.calls, c.other, false, expires, c.seen)
  }

  predicate Superseded(b: Book, turn: int, gen: nat) {
    turn in b.live && b.live[turn].gen < gen
  }

  function Room(live: map<int, Summary>, v: Option<int>): map<int, Summary> {
    if |live| == MAX_TURNS && v.Some? then live - {v.value} else live
  }

  /** What a newer lease takes over: an unfinished attempt has not been stored yet. */
  function Carried(b: Book, turn: int): Option<Summary> {
    if turn in b.live && !b.live[turn].finished then Some(b.live[turn]) else None
  }

  function Reopened(b: Book, turn: int, gen: nat, expires: nat, v: Option<int>): (Book, Option<nat>) {
    var room := Room(b.live - {turn}, v);
    if |room| == MAX_TURNS then (b.(live := room), None)
    else (b.(live := room[turn := Opened(gen, b.nextNo, expires, Carried(b, turn))], nextNo := b.nextNo + 1), Some(b.nextNo))
  }

  /** A reservation for a lease; the answer is its number, or nothing when the lease is old or there is no room. */
  function Reserved(b: Book, turn: int, gen: nat, expires: nat, v: Option<int>): (Book, Option<nat>) {
    if turn in b.live && gen < b.live[turn].gen then (b, None)
    else if turn in b.live && gen == b.live[turn].gen then
      (b.(live := b.live[turn := Extended(b.live[turn], expires)]), Some(b.live[turn].no))
    else Reopened(b, turn, gen, expires, v)
  }

  /** The callback of reservation `no`: it counts only while that reservation is live and not finished. */
  function Responded(b: Book, turn: int, no: nat, status: nat, call: Call): Book {
    if status < 100 || status > 999 then b
    else if turn !in b.live || b.live[turn].no != no || b.live[turn].finished then b
    else b.(live := b.live[turn := Counted(b.live[turn], status, call, b.responses)], responses := b.responses + 1)
  }

  /** The end of a turn: its summary is finished and merged into the stored aggregate if the transaction commits. */
  function Recorded(b: Book, turn: int, commits: bool): Book {
    if turn !in b.live then b
    else
      var s := b.live[turn];
      var done := b.(live := b.live[turn := s.(finished := true)]);
      if s.count == 0 || !commits then done
      else if turn !in b.stored then done.(stored := b.stored[turn := s])
      else if b.stored[turn].gen >= s.gen then done
      else done.(stored := b.stored[turn := Merged(b.stored[turn], s)])
  }

  method FindVictim(live: map<int, Summary>, order: seq<int>, now: nat) returns (v: Option<int>)
    requires forall i :: 0 <= i < |order| ==> order[i] in live
    requires forall id :: id in live ==> id in order
    ensures Victim(live, now, v)
  {
    for i := 0 to |order|
      invariant forall k :: 0 <= k < i ==> !Evictable(live[order[k]], now)
    {
      var prior := live[order[i]];
      if prior.finished || prior.expires <= now {
        return Some(order[i]);
      }
    }
    return None;
  }

  /** Takes one summary out of a full book, if one may go. */
  method MakeRoom(live: map<int, Summary>, order: seq<int>, now: nat) returns (room: map<int, Summary>, ghost victim: Option<int>)
    requires forall i :: 0 <= i < |order| ==> order[i] in live
    requires forall id :: id in live ==> id in order
    ensures Victim(live, now, victim) && room == Room(live, victim)
  {
    var v := FindVictim(live, order, now);
    victim := v;
    room := live;
    if |room| == MAX_TURNS && v.Some? {
      room := room - {v.value};
    }
  }

  class Receipts {
    var live: map<int, Summary>
    var stored: map<int, Summary>
    var nextNo: nat
    var responses: nat

    ghost function View(): Book
      reads this
    {
      Book(live, stored, nextNo, responses)
    }

    constructor ()
      ensures View() == Book(map[], map[], 0, 0)
    {
      live, stored, nextNo, responses := map[], map[], 0, 0;
    }

    /** The summary of the turn is of this lease or of a later one. */
    method Reuse(turn: int, gen: nat, expires: nat, ghost victim: Option<int>) returns (no: Option<nat>)
      requires turn in live && gen <= live[turn].gen
      modifies this
      ensures (View(), no) == Reserved(old(View()), turn, gen, expires, victim)
    {
      var summary := live[turn];
      if gen < summary.gen {
        return None;
      }
      if summary.expires < expires {
        summary := summary.(expires := expires);
      }
      live := live[turn := summary];
      return Some(summary.no);
    }

    /** The turn has no summary, or one of an earlier lease. */
    method Reopen(turn: int, gen: nat, expires: nat, room: map<int, Summary>, carry: Option<Summary>, ghost victim: Option<int>)
      returns (no: Option<nat>)
      requires turn in live ==> live[turn].gen < gen
      requires room == Room(live - {turn}, victim) && carry == Carried(View(), turn)
      modifies this
      ensures (View(), no) == Reserved(old(View()), turn, gen, expires, victim)
    {
      live := room;
      if |live| == MAX_TURNS {
        return None;
      }
      live := live[turn := Opened(gen, nextNo, expires, carry)];
      no := Some(nextNo);
      nextNo := nextNo + 1;
    }

    /** A reservation for a lease of a turn; `order` is the order in which the summaries of the other turns are looked at. */
    method Reserve(turn: int, gen: nat, expires: nat, now: nat, order: seq<int>) returns (no: Option<nat>, ghost victim: Option<int>)
      requires forall i :: 0 <= i < |order| ==> order[i] in live && order[i] != turn
      requires forall id :: id in live && id != turn ==> id in order
      modifies this
      ensures Victim(old(live) - {turn}, now, victim)
      ensures (View(), no) == Reserved(old(View()), turn, gen, expires, victim)
    {
      var carry := None;
      if turn in live {
        var summary := live[turn];
        if gen <= summary.gen {
          victim := FindVictim(live - {turn}, order, now);
          no := Reuse(turn, gen, expires, victim);
          return;
        }
        if !summary.finished {
          carry := Some(summary);
        }
      }
      var room;
      room, victim := MakeRoom(live - {turn}, order, now);
      no := Reopen(turn, gen, expires, room, carry, victim);
    }

    method Respond(turn: int, no: nat, status: nat, call: Call)
      modifies this
      ensures View() == Responded(old(View()), turn, no, status, call)
    {
      if status < 100 || status > 999 {
        return;
      }
      if turn !in live || live[turn].no != no || live[turn].finished {
        return;
      }
      var s := live[turn];
      var calls, other := AddCall(s.calls, s.other, call.(status := status, count := 1));
      s := s.(count := s.count + 1, status := s.status[status := At(s.status, status) + 1],
              calls := calls, other := other, seen := s.seen + {responses});
      live := live[turn := s];
      responses := responses + 1;
    }

    /** The end of a turn, in a transaction that commits or not. */
    method Record(turn: int, commits: bool)
      modifies this
      ensures View() == Recorded(old(View()), turn, commits)
      ensures stored != old(stored) ==>
        && turn in old(live) && turn in stored && stored[turn].gen == old(live)[turn].gen
        && (turn in old(stored) ==> old(stored)[turn].gen < stored[turn].gen)
        && stored[turn].count == old(live)[turn].count + (if turn in old(stored) then old(stored)[turn].count else 0)
    {
      if turn !in live {
        return;
      }
      var snapshot := live[turn];
      live := live[turn := snapshot.(finished := true)];
      if snapshot.count == 0 || !commits {
        return;
      }
      if turn !in stored {
        stored := stored[turn := snapshot];
        return;
      }
      if stored[turn].gen >= snapshot.gen {
        return;
      }
      var aggregate := Merge(stored[turn], snapshot);
      stored := stored[turn := aggregate];
    }
  }
}
