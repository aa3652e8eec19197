/** Safety of a guest link over every run of its table operations while the host's id counter has not wrapped. */
module LinkRuns {
  import opened Frames
  import opened Link

  predicate Unwrapped(t: Table, op: Op) {
    op.Forward? ==> t.next + 2 < TWO32
  }

  ghost predicate LinkInv(t: Table) {
    TableInv(t) && BoundsInv(t) && IdsInv(t) && BytesInv(t)
  }

  lemma FreshIds(t: Table, id: nat)
    requires TableInv(t) && IdsInv(t)
    requires if id % 2 == 0 then id > t.next else id > t.lastGuest
    ensures id !in t.streams && forall c :: 0 <= c < |t.chans| ==> t.chans[c].id != id
  {
  }

  lemma OpenedTable(t: Table, id: nat, known: bool)
    requires TableInv(t) && IdsInv(t) && !t.closed
    ensures TableInv(Opened(t, id, known))
  {
    SameTable(t, t.(lastGuest := id));
    if id > t.lastGuest && id % 2 == 1 {
      FreshIds(t, id);
      AddedInv(t.(lastGuest := id), id);
    }
  }

  lemma ServedTable(t: Table, c: nat, n: nat)
    requires TableInv(t) && c < |t.chans| && t.chans[c].queue != []
    ensures TableInv(Served(t, c, n))
  {
  }

  lemma TableStep(t: Table, op: Op)
    requires TableInv(t) && IdsInv(t) && Enabled(t, op) && Unwrapped(t, op)
    ensures TableInv(Next(t, op))
  {
    match op {
      case Forward =>
        if !t.closed && |t.streams| < MAX_STREAMS {
          FreshIds(t, HostId(t));
          ForwardKeepsExactly(t);
        }
      case Open(id, known) => OpenedTable(t, id, known);
      case Deliver(f) => DeliveredInv(t, f);
      case End => AllClosedInv(t);
      case Drop(c) => DroppedInv(t, t.chans[c].id);
      case Serve(c, n) => ServedTable(t, c, n);
    }
  }

  // ----- ids and bounds -----

  /** What `u` may change in the channels of `t`: they stay in place, keep their ids, and closed ones stay closed. */
  ghost predicate Keeps(t: Table, u: Table) {
    && |t.chans| <= |u.chans|
    && forall c :: 0 <= c < |t.chans| ==>
         && u.chans[c].id == t.chans[c].id
         && (!t.chans[c].open ==> !u.chans[c].open && u.chans[c].accepted == t.chans[c].accepted)
  }

  lemma DroppedFrame(t: Table, id: nat)
    requires Placed(t)
    ensures var u := Dropped(t, id);
      && Keeps(t, u) && |u.chans| == |t.chans| && u.next == t.next && u.lastGuest == t.lastGuest && u.streams == t.streams - {id}
      && forall c :: 0 <= c < |t.chans| ==> u.chans[c] == t.chans[c] || u.chans[c] == t.chans[c].(open := false)
  {
  }

  lemma ServedFrame(t: Table, c: nat, n: nat)
    requires Placed(t) && c < |t.chans| && t.chans[c].queue != []
    ensures var u := Served(t, c, n);
      && Keeps(t, u) && |u.chans| == |t.chans| && u.next == t.next && u.lastGuest == t.lastGuest
      && (u.streams == t.streams || u.streams == t.streams - {t.chans[c].id})
      && (u.chans[c] == Took(t.chans[c], n) || u.chans[c] == Took(t.chans[c], n).(open := false))
      && forall d :: 0 <= d < |t.chans| && d != c ==> u.chans[d] == t.chans[d] || u.chans[d] == t.chans[d].(open := false)
  {
  }

  lemma DeliveredFrame(t: Table, f: Frame)
    requires Placed(t)
    ensures var u := Delivered(t, f);
      Keeps(t, u) && |u.chans| == |t.chans| && u.next == t.next && u.lastGuest == t.lastGuest
  {
  }

  lemma StepKeeps(t: Table, op: Op)
    requires Enabled(t, op)
    ensures Keeps(t, Next(t, op))
  {
  }

  lemma IdsKept(t: Table, u: Table)
    requires IdsInv(t) && Keeps(t, u) && |u.chans| == |t.chans| && u.next == t.next && u.lastGuest == t.lastGuest
    ensures IdsInv(u)
  {
  }

  lemma IdsForwarded(t: Table)
    requires TableInv(t) && IdsInv(t) && t.next + 2 < TWO32
    ensures IdsInv(Forwarded(t)) && t.next <= Forwarded(t).next && t.lastGuest == Forwarded(t).lastGuest
  {
  }

  lemma IdsOpened(t: Table, id: nat, known: bool)
    requires TableInv(t) && IdsInv(t)
    ensures IdsInv(Opened(t, id, known)) && t.next == Opened(t, id, known).next && t.lastGuest <= Opened(t, id, known).lastGuest
  {
  }

  lemma IdsStep(t: Table, op: Op)
    requires TableInv(t) && IdsInv(t) && Enabled(t, op) && Unwrapped(t, op)
    ensures IdsInv(Next(t, op))
    ensures t.next <= Next(t, op).next && t.lastGuest <= Next(t, op).lastGuest
  {
    match op {
      case Forward => IdsForwarded(t);
      case Open(id, known) => IdsOpened(t, id, known);
      case Deliver(f) => DeliveredFrame(t, f); IdsKept(t, Delivered(t, f));
      case End => IdsKept(t, AllClosed(t));
      case Drop(c) => DroppedFrame(t, t.chans[c].id); IdsKept(t, Dropped(t, t.chans[c].id));
      case Serve(c, n) => ServedFrame(t, c, n); IdsKept(t, Served(t, c, n));
    }
  }

  lemma SizeOfRemoval(m: map<nat, nat>, k: nat)
    ensures |m - {k}| <= |m|
  {
  }

  lemma AddedBounds(t: Table, id: nat)
    requires BoundsInv(t) && |t.streams| < MAX_STREAMS
    ensures BoundsInv(Added(t, id))
  {
  }

  lemma DeliveredBounds(t: Table, f: Frame)
    requires BoundsInv(t) && Placed(t)
    ensures BoundsInv(Delivered(t, f))
  {
  }

  lemma BoundsStep(t: Table, op: Op)
    requires BoundsInv(t) && Enabled(t, op)
    ensures BoundsInv(Next(t, op))
  {
    match op {
      case Forward => if |t.streams| < MAX_STREAMS { AddedBounds(t, HostId(t)); }
      case Open(id, _) => if |t.streams| < MAX_STREAMS { AddedBounds(t.(lastGuest := id), id); }
      case Deliver(f) => DeliveredBounds(t, f);
      case End =>
      case Drop(c) =>
        DroppedFrame(t, t.chans[c].id);
        SizeOfRemoval(t.streams, t.chans[c].id);
      case Serve(c, n) =>
        ServedFrame(t, c, n);
        SizeOfRemoval(t.streams, t.chans[c].id);
    }
  }

  // ----- bytes -----

  lemma TookBytes(ch: Chan, n: nat)
    requires ChanBytes(ch) && ch.serving && ch.queue != []
    ensures ChanBytes(Took(ch, n))
  {
  }

  lemma SentBytes(ch: Chan, f: Frame)
    requires ChanBytes(ch)
    ensures ChanBytes(ch.(queue := ch.queue + [f], accepted := ch.accepted + [f]))
  {
  }

  lemma BytesStep(t: Table, op: Op)
    requires BytesInv(t) && Enabled(t, op)
    ensures BytesInv(Next(t, op))
  {
    match op {
      case Forward =>
      case Open(_, _) =>
      case Deliver(f) =>
        DroppedFrame(t, f.id);
        if f.id in t.streams { SentBytes(t.chans[t.streams[f.id]], f); }
      case End =>
      case Drop(c) => DroppedFrame(t, t.chans[c].id);
      case Serve(c, n) =>
        ServedFrame(t, c, n);
        TookBytes(t.chans[c], n);
    }
  }

  // ----- runs -----

  /** Operations in any order. */
  ghost predicate AnyRun(ts: seq<Table>, ops: seq<Op>) {
    && |ts| == |ops| + 1 && ts[0] == EMPTY
    && forall n {:trigger ops[n]} :: 0 <= n < |ops| ==> Enabled(ts[n], ops[n]) && ts[n + 1] == Next(ts[n], ops[n])
  }

  /** Operations in any order while the host's counter has not wrapped. */
  ghost predicate IsRun(ts: seq<Table>, ops: seq<Op>) {
    AnyRun(ts, ops) && forall n {:trigger ops[n]} :: 0 <= n < |ops| ==> Unwrapped(ts[n], ops[n])
  }

  /** In every run: open means in the table, no closed channel is sent on or closed again, ids are never reused, bounds hold. */
  lemma {:induction false} LinkIsSafe(ts: seq<Table>, ops: seq<Op>, n: nat)
    requires IsRun(ts, ops) && n < |ts|
    ensures LinkInv(ts[n])
  {
    if n > 0 {
      LinkIsSafe(ts, ops, n - 1);
      assert ts[n - 1 + 1] == Next(ts[n - 1], ops[n - 1]);
      TableStep(ts[n - 1], ops[n - 1]);
      IdsStep(ts[n - 1], ops[n - 1]);
      BoundsStep(ts[n - 1], ops[n - 1]);
      BytesStep(ts[n - 1], ops[n - 1]);
    }
  }

  lemma {:induction false} DataOfPrefix(fs: seq<Frame>, gs: seq<Frame>)
    ensures DataOf(fs) <= DataOf(fs + gs)
  {
    if gs == [] {
      assert fs + gs == fs;
    } else {
      DataOfPrefix(fs, gs[..|gs| - 1]);
      assert (fs + gs)[..|fs + gs| - 1] == fs + gs[..|gs| - 1];
    }
  }

  /** A connection only ever gets a prefix of the data frames accepted for its stream, in order. */
  lemma ConnectionsGetAPrefix(ts: seq<Table>, ops: seq<Op>, n: nat, c: nat)
    requires IsRun(ts, ops) && n < |ts| && c < |ts[n].chans|
    ensures ts[n].chans[c].written <= DataOf(ts[n].chans[c].accepted)
  {
    LinkIsSafe(ts, ops, n);
    DataOfPrefix(ts[n].chans[c].taken, ts[n].chans[c].queue);
  }

  lemma {:induction false} RunStepKeeps(ts: seq<Table>, ops: seq<Op>, n: nat)
    requires IsRun(ts, ops) && n < |ops|
    ensures Keeps(ts[n], ts[n + 1])
  {
    StepKeeps(ts[n], ops[n]);
  }

  /** A closed channel stays closed and accepts nothing more. */
  lemma {:induction false} ClosedForGood(ts: seq<Table>, ops: seq<Op>, from: nat, n: nat, c: nat)
    requires IsRun(ts, ops) && from <= n < |ts| && c < |ts[from].chans| && !ts[from].chans[c].open
    ensures c < |ts[n].chans| && !ts[n].chans[c].open && ts[n].chans[c].accepted == ts[from].chans[c].accepted
    decreases n
  {
    if from < n {
      ClosedForGood(ts, ops, from, n - 1, c);
      RunStepKeeps(ts, ops, n - 1);
    }
  }

  /** A goroutine that drops its stream, however late, never touches another one. */
  lemma DropHitsOnlyItself(ts: seq<Table>, ops: seq<Op>, n: nat, c: nat, d: nat)
    requires IsRun(ts, ops) && n < |ts| && c < |ts[n].chans| && d < |ts[n].chans| && c != d
    ensures Placed(ts[n])
    ensures Dropped(ts[n], ts[n].chans[c].id).chans[d] == ts[n].chans[d]
    ensures InTable(ts[n], d) <==> InTable(Dropped(ts[n], ts[n].chans[c].id), d)
  {
    LinkIsSafe(ts, ops, n);
  }

  // ----- a counter that wraps -----

  /** One live stream with the very first id, and the counter at `next`. */
  predicate OneLive(t: Table, next: nat) {
    && t.streams == map[2 := 0] && t.next == next && !t.closed && |t.chans| >= 1
    && t.chans[0].id == 2 && t.chans[0].open
  }

  lemma DropNewest(t: Table, id: nat)
    requires id !in t.streams && Placed(t)
    ensures var u := Dropped(Added(t, id), id);
      u.streams == t.streams && u.next == t.next && u.closed == t.closed && u.chans[..|t.chans|] == t.chans
  {
    assert Added(t, id).streams - {id} == t.streams;
  }

  /** Forwarding once more and dropping that stream moves the counter and leaves the first stream alone. */
  lemma RoundMoves(t: Table, next: nat)
    requires OneLive(t, next) && HostId(t) != 2
    ensures Enabled(t, Forward) && Enabled(Next(t, Forward), Drop(|t.chans|))
    ensures OneLive(Next(Next(t, Forward), Drop(|t.chans|)), (next + 2) % TWO32)
  {
    var u := Next(t, Forward);
    assert |t.streams| == 1;
    assert u == Added(t, HostId(t)).(next := HostId(t));
    DropNewest(t.(next := HostId(t)), HostId(t));
    assert Next(u, Drop(|t.chans|)) == Dropped(u, HostId(t));
  }

  lemma AnyRunGrows(ts: seq<Table>, ops: seq<Op>, op: Op)
    requires AnyRun(ts, ops) && Enabled(ts[|ops|], op)
    ensures AnyRun(ts + [Next(ts[|ops|], op)], ops + [op])
  {
  }

  /** `k` rounds after the first forward. */
  lemma {:induction false} Rounds(k: nat) returns (ts: seq<Table>, ops: seq<Op>)
    requires 2 + 2 * k <= TWO32
    ensures AnyRun(ts, ops) && OneLive(ts[|ops|], (2 + 2 * k) % TWO32)
    decreases k
  {
    if k == 0 {
      var first := Next(EMPTY, Forward);
      assert |EMPTY.streams| == 0;
      ts, ops := [EMPTY, first], [Forward];
    } else {
      ts, ops := Rounds(k - 1);
      var t := ts[|ops|];
      RoundMoves(t, 2 * k);
      var u := Next(t, Forward);
      AnyRunGrows(ts, ops, Forward);
      AnyRunGrows(ts + [u], ops + [Forward], Drop(|t.chans|));
      ts, ops := ts + [u] + [Next(u, Drop(|t.chans|))], ops + [Forward] + [Drop(|t.chans|)];
    }
  }

  /** A run that keeps its first stream open while the counter goes round: the next forward leaves that channel open outside of the table. */
  lemma WrappedCounterOverwrites() returns (ts: seq<Table>, ops: seq<Op>)
    ensures AnyRun(ts, ops) && |ops| >= 1 && ops[|ops| - 1] == Forward
    ensures InTable(ts[|ops| - 1], 0) && ts[|ops| - 1].chans[0].open
    ensures |ts[|ops|].chans| >= 1 && ts[|ops|].chans[0].open && !InTable(ts[|ops|], 0)
  {
    ts, ops := Rounds(TWO32 / 2 - 1);
    var t := ts[|ops|];
    assert |t.streams| == 1;
    AnyRunGrows(ts, ops, Forward);
    ts, ops := ts + [Next(t, Forward)], ops + [Forward];
  }
}
