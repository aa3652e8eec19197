/**
  The host side of a guest link: a table of streams, each with a bounded channel that the reader sends on
  and a server drains into a connection. Every table operation runs under one mutex, so the link is a state
  machine over those operations in any order.
  */
module Link {
  import opened Basics
  import opened Frames

  const MAX_STREAMS: nat := 64
  const QUEUE: nat := 16
  const RESET: byte := 4

  /**
    A channel with the frames waiting in it, everything the reader ever sent on it, and the server's side:
    frames received, bytes handed to the connection, whether it still serves.
    */
  datatype Chan = Chan(id: nat, open: bool, queue: seq<Frame>, accepted: seq<Frame>,
                       taken: seq<Frame>, written: seq<byte>, serving: bool)

  /** `streams` names a channel by its place in `chans`; `panicked` records a send or close on a closed channel. */
  datatype Table = Table(streams: map<nat, nat>, chans: seq<Chan>, next: nat, lastGuest: nat, closed: bool, panicked: bool)

  const EMPTY := Table(map[], [], 0, 0, false, false)

  // ----- operations -----

  function NewChan(id: nat): Chan {
    Chan(id, true, [], [], [], [], true)
  }

  function Added(t: Table, id: nat): Table {
    t.(streams := t.streams[id := |t.chans|], chans := t.chans + [NewChan(id)])
  }

  function CloseChan(t: Table, c: nat): Table
    requires c < |t.chans|
  {
    if t.chans[c].open then t.(chans := t.chans[c := t.chans[c].(open := false)]) else t.(panicked := true)
  }

  predicate Placed(t: Table) {
    forall id :: id in t.streams ==> t.streams[id] < |t.chans|
  }

  function Dropped(t: Table, id: nat): Table
    requires Placed(t)
  {
    if id !in t.streams then t else CloseChan(t.(streams := t.streams - {id}), t.streams[id])
  }

  function HostId(t: Table): nat {
    (t.next + 2) % TWO32
  }

  function Forwarded(t: Table): Table {
    if t.closed || |t.streams| >= MAX_STREAMS then t else Added(t, HostId(t)).(next := HostId(t))
  }

  /** An open frame from the guest; `known` says that it names a target. */
  function Opened(t: Table, id: nat, known: bool): Table {
    if !known || id % 2 == 0 || id <= t.lastGuest then t
    else
      var u := t.(lastGuest := id);
      if |t.streams| >= MAX_STREAMS then u else Added(u, id)
  }

  function SentOn(t: Table, c: nat, f: Frame): Table
    requires c < |t.chans|
  {
    var ch := t.chans[c];
    if ch.open then t.(chans := t.chans[c := ch.(queue := ch.queue + [f], accepted := ch.accepted + [f])])
    else t.(panicked := true)
  }

  /** A frame for a stream: queued, or the stream is reset when it cannot keep up. */
  function Delivered(t: Table, f: Frame): Table
    requires Placed(t)
  {
    if f.id !in t.streams then t
    else if |t.chans[t.streams[f.id]].queue| < QUEUE then SentOn(t, t.streams[f.id], f)
    else Dropped(t, f.id)
  }

  predicate InTable(t: Table, c: nat) {
    c < |t.chans| && t.chans[c].id in t.streams && t.streams[t.chans[c].id] == c
  }

  /** The reader ends: every stream of the table is closed. */
  function AllClosed(t: Table): Table
    requires Placed(t)
  {
    Table(map[],
          seq(|t.chans|, c requires 0 <= c < |t.chans| => if InTable(t, c) then t.chans[c].(open := false) else t.chans[c]),
          t.next, t.lastGuest, true,
          t.panicked || exists id :: id in t.streams && !t.chans[t.streams[id]].open)
  }

  predicate Whole(f: Frame, n: nat) {
    f.typ != DATA || n >= |f.data|
  }

  /** The server takes the next frame; of a data frame the connection gets `n` bytes, or all. */
  function Took(ch: Chan, n: nat): Chan
    requires ch.queue != []
  {
    var f := ch.queue[0];
    ch.(queue := ch.queue[1..], taken := ch.taken + [f],
        written := ch.written + (if f.typ != DATA then [] else if Whole(f, n) then f.data else f.data[..n]),
        serving := Whole(f, n) && f.typ != RESET)
  }

  /** A failed write or a reset ends the server and drops its stream. */
  function Served(t: Table, c: nat, n: nat): Table
    requires Placed(t) && c < |t.chans| && t.chans[c].queue != []
  {
    var u := t.(chans := t.chans[c := Took(t.chans[c], n)]);
    if u.chans[c].serving then u else Dropped(u, t.chans[c].id)
  }

  datatype Op =
    | Forward
    | Open(id: nat, known: bool)
    | Deliver(f: Frame)
    | End
    | Drop(c: nat)            // a goroutine of channel c drops its stream: dial, send or connection read failed
    | Serve(c: nat, n: nat)

  predicate Enabled(t: Table, op: Op) {
    && Placed(t)
    && match op
       case Forward => true
       case Open(id, _) => !t.closed && id < TWO32
       case Deliver(f) => !t.closed && Sendable(f)
       case End => !t.closed
       case Drop(c) => c < |t.chans|
       case Serve(c, _) => c < |t.chans| && t.chans[c].serving && t.chans[c].queue != []
  }

  function Next(t: Table, op: Op): Table
    requires Enabled(t, op)
  {
    match op
    case Forward => Forwarded(t)
    case Open(id, known) => Opened(t, id, known)
    case Deliver(f) => Delivered(t, f)
    case End => AllClosed(t)
    case Drop(c) => Dropped(t, t.chans[c].id)
    case Serve(c, n) => Served(t, c, n)
  }

  // ----- invariants -----

  /** A channel is open exactly while it is in the table, and nothing ever touched a closed one. */
  ghost predicate TableInv(t: Table) {
    && (forall id :: id in t.streams ==> t.streams[id] < |t.chans| && t.chans[t.streams[id]].id == id)
    && (forall c :: 0 <= c < |t.chans| ==> (t.chans[c].open <==> InTable(t, c)))
    && (t.closed ==> t.streams == map[])
    && !t.panicked
  }

  ghost predicate BoundsInv(t: Table) {
    && |t.streams| <= MAX_STREAMS
    && forall c :: 0 <= c < |t.chans| ==> |t.chans[c].queue| <= QUEUE
  }

  /** Host ids are even, guest ids odd, and no id was ever used twice. */
  ghost predicate IdsInv(t: Table) {
    && t.next % 2 == 0 && t.next < TWO32
    && (forall c :: 0 <= c < |t.chans| ==>
          if t.chans[c].id % 2 == 0 then 2 <= t.chans[c].id <= t.next else t.chans[c].id <= t.lastGuest)
    && (forall c, d :: 0 <= c < d < |t.chans| ==> t.chans[c].id != t.chans[d].id)
  }

  function DataOf(fs: seq<Frame>): seq<byte> {
    if fs == [] then []
    else DataOf(fs[..|fs| - 1]) + (if fs[|fs| - 1].typ == DATA then fs[|fs| - 1].data else [])
  }

  /** The connection got the data frames the server took, the last one perhaps in part. */
  ghost predicate ChanBytes(ch: Chan) {
    && ch.accepted == ch.taken + ch.queue
    && ch.written <= DataOf(ch.taken)
    && (ch.serving ==> ch.written == DataOf(ch.taken))
  }

  ghost predicate BytesInv(t: Table) {
    forall c :: 0 <= c < |t.chans| ==> ChanBytes(t.chans[c])
  }

  // ----- the table -----

  lemma AddedInv(t: Table, id: nat)
    requires TableInv(t) && !t.closed && id !in t.streams
    ensures TableInv(Added(t, id))
  {
  }

  lemma DroppedInv(t: Table, id: nat)
    requires TableInv(t)
    ensures TableInv(Dropped(t, id))
  {
  }

  lemma AllClosedInv(t: Table)
    requires TableInv(t)
    ensures TableInv(AllClosed(t))
  {
  }

  lemma DeliveredInv(t: Table, f: Frame)
    requires TableInv(t)
    ensures TableInv(Delivered(t, f))
  {
  }

  /** Given the table's invariant, a forward breaks it exactly when its wrapped id is still in use. */
  lemma ForwardKeepsExactly(t: Table)
    requires TableInv(t) && !t.closed && |t.streams| < MAX_STREAMS
    ensures TableInv(Forwarded(t)) <==> HostId(t) !in t.streams
  {
    var u := Forwarded(t);
    if HostId(t) in t.streams {
      var c := t.streams[HostId(t)];
      assert InTable(t, c) && u.chans[c] == t.chans[c] && u.chans[c].open && !InTable(u, c);
    } else {
      AddedInv(t, HostId(t));
      SameTable(Added(t, HostId(t)), u);
    }
  }

  lemma SameTable(t: Table, u: Table)
    requires TableInv(t) && u == t.(next := u.next, lastGuest := u.lastGuest)
    ensures TableInv(u)
  {
  }

  // ----- the host's object -----

  class HostLink {
    var streams: map<nat, nat>
    var chans: seq<Chan>
    var next: nat
    var lastGuest: nat
    var closed: bool

    ghost function View(): Table
      reads this
    {
      Table(streams, chans, next, lastGuest, closed, false)
    }

    ghost predicate Valid()
      reads this
    {
      TableInv(View())
    }

    constructor ()
      ensures Valid() && View() == EMPTY
    {
      streams, chans, next, lastGuest, closed := map[], [], 0, 0, false;
    }

    /** Sending on a channel; a closed one would panic. */
    method Send(c: nat, f: Frame)
      requires c < |chans| && chans[c].open && |chans[c].queue| < QUEUE
      modifies this`chans
      ensures View() == SentOn(old(View()), c, f)
    {
      chans := chans[c := chans[c].(queue := chans[c].queue + [f], accepted := chans[c].accepted + [f])];
    }

    /** Closing a channel; a second close would panic. */
    method Close(c: nat)
      requires c < |chans| && chans[c].open
      modifies this`chans
      ensures View() == CloseChan(old(View()), c)
    {
      chans := chans[c := chans[c].(open := false)];
    }

    method Forward() returns (id: Option<nat>)
      requires Valid()
      modifies this
      ensures View() == Forwarded(old(View()))
      ensures HostId(old(View())) !in old(streams) ==> Valid()
      ensures id == if old(closed) || |old(streams)| >= MAX_STREAMS then None else Some(next)
    {
      if closed {
        return None;
      }
      if |streams| >= MAX_STREAMS {
        return None;
      }
      ForwardKeepsExactly(View());
      next := (next + 2) % TWO32;
      chans := chans + [NewChan(next)];
      streams := streams[next := |chans| - 1];
      return Some(next);
    }

    /** An open frame; the answer says whether the guest is sent a reset instead. */
    method OpenFromGuest(id: nat, known: bool) returns (reset: bool)
      requires Valid() && !closed
      modifies this
      ensures View() == Opened(old(View()), id, known)
      ensures id !in old(streams) ==> Valid()
      ensures reset <==> streams == old(streams) && chans == old(chans)
    {
      if !known || id % 2 == 0 || id <= lastGuest {
        return true;
      }
      lastGuest := id;
      SameTable(old(View()), View());
      if |streams| >= MAX_STREAMS {
        return true;
      }
      if id !in streams {
        AddedInv(View(), id);
      }
      streams := streams[id := |chans|];
      chans := chans + [NewChan(id)];
      return false;
    }

    method Deliver(f: Frame) returns (reset: bool)
      requires Valid()
      modifies this
      ensures Valid() && View() == Delivered(old(View()), f)
      ensures reset <==> f.id in old(streams) && f.id !in streams
    {
      DeliveredInv(View(), f);
      if f.id !in streams {
        return false;
      }
      var c := streams[f.id];
      assert InTable(View(), c);
      if |chans[c].queue| < QUEUE {
        Send(c, f);
        return false;
      }
      streams := streams - {f.id};
      Close(c);
      return true;
    }

    method Drop(id: nat)
      requires Valid()
      modifies this
      ensures Valid() && View() == Dropped(old(View()), id)
    {
      DroppedInv(View(), id);
      if id in streams {
        var c := streams[id];
        assert InTable(View(), c);
        streams := streams - {id};
        Close(c);
      }
    }

    /** The end of the reader. */
    method EndRead()
      requires Valid() && !closed
      modifies this
      ensures Valid() && View() == AllClosed(old(View()))
    {
      AllClosedInv(View());
      closed := true;
      chans := CloseStreams(streams, chans, old(View()));
      streams := map[];
    }
  }

  /** Closes, once each, every stream left in the table. */
  method CloseStreams(table: map<nat, nat>, channels: seq<Chan>, ghost t: Table) returns (chans: seq<Chan>)
    requires TableInv(t) && table == t.streams && channels == t.chans
    ensures AllClosed(t) == Table(map[], chans, t.next, t.lastGuest, true, false)
  {
    chans := channels;
    var streams := table;
    while streams != map[]
      invariant ClosedBut(t, chans, streams)
      decreases |streams|
    {
      var id :| id in streams;
      CloseOne(t, chans, streams, id);
      RemovalShrinks(streams, id);
      chans := chans[streams[id] := chans[streams[id]].(open := false)];
      streams := streams - {id};
    }
    ClosedAll(t, chans);
  }

  /** The channels of `was` with those closed that have left the table. */
  ghost predicate ClosedBut(was: Table, chans: seq<Chan>, streams: map<nat, nat>) {
    && (forall id :: id in streams ==> id in was.streams && streams[id] == was.streams[id])
    && |chans| == |was.chans|
    && forall c :: 0 <= c < |chans| ==>
         chans[c] == if InTable(was, c) && was.chans[c].id !in streams then was.chans[c].(open := false) else was.chans[c]
  }

  lemma CloseOne(was: Table, chans: seq<Chan>, streams: map<nat, nat>, id: nat)
    requires TableInv(was) && ClosedBut(was, chans, streams) && id in streams
    ensures streams[id] < |chans| && chans[streams[id]].open
    ensures var c := streams[id]; ClosedBut(was, chans[c := chans[c].(open := false)], streams - {id})
  {
  }

  lemma ClosedAll(was: Table, chans: seq<Chan>)
    requires TableInv(was) && ClosedBut(was, chans, map[])
    ensures AllClosed(was) == Table(map[], chans, was.next, was.lastGuest, true, false)
  {
  }

  lemma RemovalShrinks(m: map<nat, nat>, k: nat)
    requires k in m
    ensures |m - {k}| < |m|
  {
  }
}
