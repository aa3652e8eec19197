/**
  The frames of a guest link: one byte of type, a stream id and a length in 32 bits big-endian, then the
  payload. The host reads whole frames and refuses a long one; the guest parses whatever chunks arrive.
  */
module Frames {
  newtype byte = x: int | 0 <= x < 256

  const CHUNK: nat := 32768
  const HEADER: nat := 9
  const TWO32: nat := 0x1_0000_0000

  const DATA: byte := 2

  datatype Frame = Frame(typ: byte, id: nat, data: seq<byte>)

  predicate Sendable(f: Frame) {
    f.id < TWO32 && |f.data| < TWO32
  }

  function BE32(n: nat): (b: seq<byte>)
    requires n < TWO32
    ensures |b| == 4
  {
    [(n / 0x100_0000) as byte, (n / 0x1_0000 % 256) as byte, (n / 0x100 % 256) as byte, (n % 256) as byte]
  }

  function FromBE32(b: seq<byte>): (n: nat)
    requires |b| == 4
    ensures n < TWO32
  {
    b[0] as int * 0x100_0000 + b[1] as int * 0x1_0000 + b[2] as int * 0x100 + b[3] as int
  }

  lemma BE32RoundTrip(n: nat)
    requires n < TWO32
    ensures FromBE32(BE32(n)) == n
  {
    var a, b, c := n / 0x100, n / 0x1_0000, n / 0x100_0000;
    assert a == n / 256 && b == a / 256 && c == b / 256;
  }

  lemma BE32Unique(b: seq<byte>)
    requires |b| == 4
    ensures BE32(FromBE32(b)) == b
  {
    var n := FromBE32(b);
    assert n / 0x100 == b[0] as int * 0x1_0000 + b[1] as int * 0x100 + b[2] as int;
    assert n / 0x1_0000 == b[0] as int * 0x100 + b[1] as int;
    assert n / 0x100_0000 == b[0] as int;
  }

  // ----- sending -----

  function Encode(f: Frame): (b: seq<byte>)
    requires Sendable(f)
    ensures |b| == HEADER + |f.data|
  {
    [f.typ] + BE32(f.id) + BE32(|f.data|) + f.data
  }

  ghost predicate AllSendable(fs: seq<Frame>) {
    forall i :: 0 <= i < |fs| ==> Sendable(fs[i])
  }

  function Wire(fs: seq<Frame>): seq<byte>
    requires AllSendable(fs)
  {
    if fs == [] then [] else Encode(fs[0]) + Wire(fs[1..])
  }

  function Payload(fs: seq<Frame>): seq<byte> {
    if fs == [] then [] else fs[0].data + Payload(fs[1..])
  }

  lemma {:induction false} PayloadAppends(fs: seq<Frame>, f: Frame)
    ensures Payload(fs + [f]) == Payload(fs) + f.data
  {
    if fs == [] {
      assert [f][1..] == [];
    } else {
      assert (fs + [f])[1..] == fs[1..] + [f];
      PayloadAppends(fs[1..], f);
    }
  }

  /** What a side sends for bytes it read: data frames no longer than a chunk that carry exactly those bytes. */
  method DataFrames(id: nat, d: seq<byte>) returns (fs: seq<Frame>)
    requires id < TWO32
    ensures Payload(fs) == d
    ensures forall i :: 0 <= i < |fs| ==> fs[i].typ == DATA && fs[i].id == id && 0 < |fs[i].data| <= CHUNK
  {
    fs := [];
    var i := 0;
    while i < |d|
      invariant Payload(fs) == d[..if i < |d| then i else |d|]
      invariant forall k :: 0 <= k < |fs| ==> fs[k].typ == DATA && fs[k].id == id && 0 < |fs[k].data| <= CHUNK
    {
      var to := if i + CHUNK < |d| then i + CHUNK else |d|;
      PayloadAppends(fs, Frame(DATA, id, d[i..to]));
      assert d[..i] + d[i..to] == d[..to];
      fs := fs + [Frame(DATA, id, d[i..to])];
      i := i + CHUNK;
    }
    assert d[..|d|] == d;
  }

  // ----- the guest's parser -----

  function Length(b: seq<byte>): nat
    requires |b| >= HEADER
  {
    FromBE32(b[5..9])
  }

  predicate Complete(b: seq<byte>) {
    |b| >= HEADER && |b| >= HEADER + Length(b)
  }

  function Head(b: seq<byte>): Frame
    requires Complete(b)
  {
    Frame(b[0], FromBE32(b[1..5]), b[HEADER..HEADER + Length(b)])
  }

  /** The complete frames at the front of a buffer, and what is left of it. */
  function Parse(b: seq<byte>): (r: (seq<Frame>, seq<byte>))
    ensures !Complete(r.1)
    decreases |b|
  {
    if !Complete(b) then ([], b)
    else
      var (fs, rest) := Parse(b[HEADER + Length(b)..]);
      ([Head(b)] + fs, rest)
  }

  /** One chunk from standard input: the buffer grows and every complete frame is taken off. */
  method Feed(buf: seq<byte>, d: seq<byte>) returns (fs: seq<Frame>, rest: seq<byte>)
    ensures (fs, rest) == Parse(buf + d)
  {
    fs, rest := [], buf + d;
    assert [] + Parse(rest).0 == Parse(rest).0;
    while |rest| >= HEADER
      invariant Parse(buf + d) == (fs + Parse(rest).0, Parse(rest).1)
      decreases |rest|
    {
      var n := FromBE32(rest[5..9]);
      if |rest| < HEADER + n {
        break;
      }
      var f := Frame(rest[0], FromBE32(rest[1..5]), rest[HEADER..HEADER + n]);
      assert fs + ([f] + Parse(rest[HEADER + n..]).0) == fs + [f] + Parse(rest[HEADER + n..]).0;
      fs := fs + [f];
      rest := rest[HEADER + n..];
    }
    assert Parse(rest) == ([], rest) && fs + [] == fs;
  }

  lemma HeadOfWire(f: Frame, more: seq<byte>)
    requires Sendable(f)
    ensures Complete(Encode(f) + more) && Head(Encode(f) + more) == f
    ensures (Encode(f) + more)[HEADER + |f.data|..] == more && Length(Encode(f) + more) == |f.data|
  {
    var b := Encode(f) + more;
    BE32RoundTrip(f.id);
    BE32RoundTrip(|f.data|);
    assert b[1..5] == BE32(f.id);
    assert b[5..9] == BE32(|f.data|);
    assert b[HEADER..HEADER + |f.data|] == f.data;
  }

  lemma ParseOne(f: Frame, more: seq<byte>)
    requires Sendable(f)
    ensures Parse(Encode(f) + more) == ([f] + Parse(more).0, Parse(more).1)
  {
    HeadOfWire(f, more);
  }

  lemma WireFirst(fs: seq<Frame>, more: seq<byte>)
    requires AllSendable(fs) && fs != []
    ensures Wire(fs) + more == Encode(fs[0]) + (Wire(fs[1..]) + more)
  {
  }

  lemma JoinResults(f: Frame, fs: seq<Frame>, gs: seq<Frame>)
    requires fs != [] && fs[0] == f
    ensures [f] + (fs[1..] + gs) == fs + gs
  {
  }

  /** Parsing what was sent gives back the frames, whatever follows them. */
  lemma {:induction false} ParseWire(fs: seq<Frame>, more: seq<byte>)
    requires AllSendable(fs)
    ensures Parse(Wire(fs) + more) == (fs + Parse(more).0, Parse(more).1)
  {
    var later := Parse(more);
    if fs == [] {
      assert Wire(fs) + more == more;
      assert fs + later.0 == later.0;
    } else {
      var tail := Wire(fs[1..]) + more;
      calc {
        Parse(Wire(fs) + more);
        { WireFirst(fs, more); }
        Parse(Encode(fs[0]) + tail);
        { ParseOne(fs[0], tail); }
        ([fs[0]] + Parse(tail).0, Parse(tail).1);
        { ParseWire(fs[1..], more); }
        ([fs[0]] + (fs[1..] + later.0), later.1);
        { JoinResults(fs[0], fs, later.0); }
        (fs + later.0, later.1);
      }
    }
  }

  lemma EncodeHead(b: seq<byte>)
    requires Complete(b)
    ensures Sendable(Head(b)) && Encode(Head(b)) + b[HEADER + Length(b)..] == b
  {
    BE32Unique(b[1..5]);
    BE32Unique(b[5..9]);
    assert Encode(Head(b)) == [b[0]] + b[1..5] + b[5..9] + b[HEADER..HEADER + Length(b)];
  }

  /** No byte is invented or lost: the frames sent again, with the rest, are the buffer. */
  lemma {:induction false} WireOfParse(b: seq<byte>)
    ensures AllSendable(Parse(b).0) && Wire(Parse(b).0) + Parse(b).1 == b
    decreases |b|
  {
    if Complete(b) {
      var tail := b[HEADER + Length(b)..];
      WireOfParse(tail);
      EncodeHead(b);
      var fs := Parse(b).0;
      assert fs[0] == Head(b) && fs[1..] == Parse(tail).0;
      assert Wire(fs) + Parse(b).1 == Encode(Head(b)) + (Wire(fs[1..]) + Parse(tail).1);
    }
  }

  /** Parsing a first part and then the rest of it with a second part is parsing both at once. */
  lemma ParseInParts(a: seq<byte>, b: seq<byte>)
    ensures Parse(a + b) == (Parse(a).0 + Parse(Parse(a).1 + b).0, Parse(Parse(a).1 + b).1)
  {
    WireOfParse(a);
    var (fs, rest) := Parse(a);
    assert a + b == Wire(fs) + (rest + b);
    ParseWire(fs, rest + b);
  }

  function Flatten(chunks: seq<seq<byte>>): seq<byte> {
    if chunks == [] then [] else Flatten(chunks[..|chunks| - 1]) + chunks[|chunks| - 1]
  }

  /** The parser fed chunk by chunk from an empty buffer. */
  function FeedAll(chunks: seq<seq<byte>>): (seq<Frame>, seq<byte>) {
    if chunks == [] then ([], [])
    else
      var (fs, buf) := FeedAll(chunks[..|chunks| - 1]);
      var (gs, rest) := Parse(buf + chunks[|chunks| - 1]);
      (fs + gs, rest)
  }

  lemma {:induction false} ChunksDoNotMatter(chunks: seq<seq<byte>>)
    ensures FeedAll(chunks) == Parse(Flatten(chunks))
  {
    if chunks != [] {
      var before := chunks[..|chunks| - 1];
      ChunksDoNotMatter(before);
      ParseInParts(Flatten(before), chunks[|chunks| - 1]);
    }
  }

  /** However a pipe cuts what was sent, the guest sees exactly the frames sent and keeps nothing back. */
  lemma GuestRoundTrip(fs: seq<Frame>, chunks: seq<seq<byte>>)
    requires AllSendable(fs) && Flatten(chunks) == Wire(fs)
    ensures FeedAll(chunks) == (fs, [])
  {
    ChunksDoNotMatter(chunks);
    ParseWire(fs, []);
    assert Wire(fs) + [] == Wire(fs) && fs + [] == fs;
  }

  // ----- the host's reader -----

  datatype Stop = Ended | Cut | TooLong(n: nat)

  /** The frames a host reads from a byte stream, and why it stops. */
  function Decode(b: seq<byte>): (seq<Frame>, Stop)
    decreases |b|
  {
    if b == [] then ([], Ended)
    else if |b| < HEADER then ([], Cut)
    else if Length(b) > CHUNK then ([], TooLong(Length(b)))
    else if |b| < HEADER + Length(b) then ([], Cut)
    else
      var (fs, stop) := Decode(b[HEADER + Length(b)..]);
      ([Head(b)] + fs, stop)
  }

  method ReadFrames(b: seq<byte>) returns (fs: seq<Frame>, stop: Stop)
    ensures (fs, stop) == Decode(b)
  {
    fs := [];
    var rest := b;
    assert [] + Decode(b).0 == Decode(b).0;
    while true
      invariant Decode(b) == (fs + Decode(rest).0, Decode(rest).1)
      decreases |rest|
    {
      if |rest| < HEADER {
        stop := if rest == [] then Ended else Cut;
        assert fs + [] == fs;
        return;
      }
      var id, n := FromBE32(rest[1..5]), FromBE32(rest[5..9]);
      if n > CHUNK {
        assert fs + [] == fs;
        return fs, TooLong(n);
      }
      if |rest| - HEADER < n {
        assert fs + [] == fs;
        return fs, Cut;
      }
      var f := Frame(rest[0], id, rest[HEADER..HEADER + n]);
      assert fs + ([f] + Decode(rest[HEADER + n..]).0) == fs + [f] + Decode(rest[HEADER + n..]).0;
      fs := fs + [f];
      rest := rest[HEADER + n..];
    }
  }

  /** The frames before the first one longer than a chunk. */
  function Short(fs: seq<Frame>): seq<Frame> {
    if fs == [] || |fs[0].data| > CHUNK then [] else [fs[0]] + Short(fs[1..])
  }

  /** Both ends agree on every byte stream up to the first long frame. */
  lemma {:induction false} HostAgreesWithGuest(b: seq<byte>)
    ensures Decode(b).0 == Short(Parse(b).0)
    ensures Decode(b).1 == Ended <==> Parse(b).1 == [] && Short(Parse(b).0) == Parse(b).0
    decreases |b|
  {
    if Complete(b) {
      var tail := b[HEADER + Length(b)..];
      HostAgreesWithGuest(tail);
      assert Parse(b).0 == [Head(b)] + Parse(tail).0;
      assert Parse(b).0[1..] == Parse(tail).0;
    }
  }

  lemma {:induction false} ShortExactly(fs: seq<Frame>)
    ensures Short(fs) == fs <==> forall i :: 0 <= i < |fs| ==> |fs[i].data| <= CHUNK
  {
    if fs != [] && |fs[0].data| <= CHUNK {
      ShortExactly(fs[1..]);
      assert fs == [fs[0]] + fs[1..];
      assert forall i :: 0 < i < |fs| ==> fs[i] == fs[1..][i - 1];
      assert Short(fs)[1..] == Short(fs[1..]);
    }
  }

  /** The host reads back exactly the frames before the first long one, and ends cleanly just when there is none. */
  lemma HostRoundTrip(fs: seq<Frame>)
    requires AllSendable(fs)
    ensures Decode(Wire(fs)).0 == Short(fs)
    ensures Decode(Wire(fs)).1 == Ended <==> forall i :: 0 <= i < |fs| ==> |fs[i].data| <= CHUNK
  {
    GuestRoundTrip(fs, [Wire(fs)]);
    ChunksDoNotMatter([Wire(fs)]);
    HostAgreesWithGuest(Wire(fs));
    ShortExactly(fs);
  }
}
