/** A followed read prints the log once and without gaps, wherever its connections are cut. */
module FollowReadRuns {
  import opened Basics
  import opened FollowRead

  // ----- a cut stream is a prefix of the messages sent -----

  /** The lines of messages as the plane writes them. */
  function Sent(msgs: seq<Msg>): seq<Line> {
    if msgs == [] then [] else [EventLine(KindOf(msgs[0])), DataLine(msgs[0]), Blank] + Sent(msgs[1..])
  }

  lemma {:induction false} SentSize(msgs: seq<Msg>)
    ensures |Sent(msgs)| == 3 * |msgs|
  {
    if msgs != [] { SentSize(msgs[1..]); }
  }

  /** The messages that come through when `k` lines do: a full data line counts even when its blank line is missing, unless a line is cut. */
  function Through(k: nat, torn: bool): nat {
    k / 3 + (if k % 3 == 2 && !torn then 1 else 0)
  }

  /** Handling messages one by one until the end message. */
  function HandledAll(r: Reader, msgs: seq<Msg>): Reader
    decreases |msgs|
  {
    if msgs == [] then r
    else
      var f := Handled(r, msgs[0]);
      if f.end.Some? then f else HandledAll(f, msgs[1..])
  }

  lemma ReadFirst(r: Reader, m: Msg, more: seq<Line>, torn: bool)
    ensures var f := Handled(r, m);
      ReadLines(r, NOTHING, Stream([EventLine(KindOf(m)), DataLine(m), Blank] + more, torn)) ==
      if f.end.Some? then f else ReadLines(f, NOTHING, Stream(more, torn))
  {
    var lines := [EventLine(KindOf(m)), DataLine(m), Blank] + more;
    var one := Pending(Some(KindOf(m)), []);
    var both := Pending(Some(KindOf(m)), [DataLine(m)]);
    assert lines[1..] == [DataLine(m), Blank] + more;
    assert ([DataLine(m), Blank] + more)[1..] == [Blank] + more;
    assert ([Blank] + more)[1..] == more;
    assert ReadLines(r, NOTHING, Stream(lines, torn)) == ReadLines(r, one, Stream([DataLine(m), Blank] + more, torn));
    assert [] + [DataLine(m)] == [DataLine(m)];
    assert ReadLines(r, one, Stream([DataLine(m), Blank] + more, torn)) == ReadLines(r, both, Stream([Blank] + more, torn));
  }

  lemma ReadShort(r: Reader, m: Msg, k: nat, torn: bool)
    requires k < 3
    ensures ReadLines(r, NOTHING, Stream([EventLine(KindOf(m)), DataLine(m), Blank][..k], torn)) ==
      if k == 2 && !torn then Handled(r, m) else r
  {
    var lines := [EventLine(KindOf(m)), DataLine(m), Blank];
    if k == 0 {
      assert lines[..0] == [];
    } else if k == 1 {
      assert lines[..1] == [EventLine(KindOf(m))];
      assert [EventLine(KindOf(m))][1..] == [];
    } else {
      assert lines[..2] == [EventLine(KindOf(m)), DataLine(m)];
      assert [EventLine(KindOf(m)), DataLine(m)][1..] == [DataLine(m)];
      assert [DataLine(m)][1..] == [];
      assert [] + [DataLine(m)] == [DataLine(m)];
      var one := Pending(Some(KindOf(m)), []);
      var both := Pending(Some(KindOf(m)), [DataLine(m)]);
      assert ReadLines(r, NOTHING, Stream(lines[..2], torn)) == ReadLines(r, one, Stream([DataLine(m)], torn));
      assert ReadLines(r, one, Stream([DataLine(m)], torn)) == ReadLines(r, both, Stream([], torn));
    }
  }

  lemma {:induction false} CutInFirst(r: Reader, msgs: seq<Msg>, k: nat, torn: bool)
    requires msgs != [] && k < 3 && k <= |Sent(msgs)|
    ensures Through(k, torn) <= |msgs|
    ensures ReadLines(r, NOTHING, Stream(Sent(msgs)[..k], torn)) == HandledAll(r, msgs[..Through(k, torn)])
  {
    assert Sent(msgs)[..k] == [EventLine(KindOf(msgs[0])), DataLine(msgs[0]), Blank][..k];
    ReadShort(r, msgs[0], k, torn);
    if Through(k, torn) == 1 { assert msgs[..1] == [msgs[0]] && [msgs[0]][1..] == []; }
  }

  lemma {:induction false} CutLater(r: Reader, msgs: seq<Msg>, k: nat, torn: bool)
    requires msgs != [] && 3 <= k <= |Sent(msgs)| && k - 3 <= |Sent(msgs[1..])| && Through(k - 3, torn) <= |msgs| - 1
    requires var f := Handled(r, msgs[0]);
      f.end.None? ==>
        ReadLines(f, NOTHING, Stream(Sent(msgs[1..])[..k - 3], torn)) == HandledAll(f, msgs[1..][..Through(k - 3, torn)])
    ensures Through(k, torn) <= |msgs|
    ensures ReadLines(r, NOTHING, Stream(Sent(msgs)[..k], torn)) == HandledAll(r, msgs[..Through(k, torn)])
  {
    var j := Through(k, torn);
    assert Sent(msgs)[..k] == [EventLine(KindOf(msgs[0])), DataLine(msgs[0]), Blank] + Sent(msgs[1..])[..k - 3];
    ReadFirst(r, msgs[0], Sent(msgs[1..])[..k - 3], torn);
    assert j == 1 + Through(k - 3, torn);
    assert msgs[..j][0] == msgs[0] && msgs[..j][1..] == msgs[1..][..j - 1];
  }

  /** Wherever a connection is cut, exactly a prefix of the messages sent is handled. */
  lemma {:induction false} CutReadsAPrefix(r: Reader, msgs: seq<Msg>, k: nat, torn: bool)
    requires r.end.None? && k <= |Sent(msgs)|
    ensures Through(k, torn) <= |msgs|
    ensures ReadLines(r, NOTHING, Stream(Sent(msgs)[..k], torn)) == HandledAll(r, msgs[..Through(k, torn)])
    decreases |msgs|
  {
    SentSize(msgs);
    if msgs == [] {
      assert Sent(msgs)[..k] == [];
    } else if k < 3 {
      CutInFirst(r, msgs, k, torn);
    } else {
      var f := Handled(r, msgs[0]);
      if f.end.None? { CutReadsAPrefix(f, msgs[1..], k - 3, torn); }
      CutLater(r, msgs, k, torn);
    }
  }

  // ----- gap-free -----

  function EntriesOf(msgs: seq<Msg>): seq<Entry> {
    if msgs == [] then []
    else (if msgs[0].EntryMsg? then [msgs[0].entry] else []) + EntriesOf(msgs[1..])
  }

  function Printed(out: seq<Out>): seq<Entry> {
    if out == [] then []
    else Printed(out[..|out| - 1]) + (if out[|out| - 1].PrintEntry? then [out[|out| - 1].entry] else [])
  }

  /** Entry numbers rise, starting above zero. */
  ghost predicate IsLog(log: seq<Entry>) {
    && (forall i :: 0 <= i < |log| ==> log[i].no >= 1)
    && (forall i, j :: 0 <= i < j < |log| ==> log[i].no < log[j].no)
  }

  /** What has been printed is the beginning of the log, and the cursor is its last entry. */
  ghost predicate Gapless(r: Reader, log: seq<Entry>) {
    var n := |Printed(r.out)|;
    n <= |log| && Printed(r.out) == log[..n] && r.cursor == if n == 0 then 0 else log[n - 1].no
  }

  lemma {:induction false} PrintedMore(out: seq<Out>, o: Out)
    ensures Printed(out + [o]) == Printed(out) + (if o.PrintEntry? then [o.entry] else [])
  {
    assert (out + [o])[..|out|] == out;
  }

  lemma {:induction false} HandledOther(r: Reader, m: Msg)
    requires !m.EntryMsg?
    ensures Printed(Handled(r, m).out) == Printed(r.out) && Handled(r, m).cursor == r.cursor
  {
    match m
    case SessionMsg(_) => PrintedMore(r.out, PrintHeader);
    case StateMsg(s) => PrintedMore(r.out, PrintState(s));
    case EndMsg(s) => PrintedMore(r.out, PrintState(s));
    case TurnMsg(t) => PrintedMore(r.out, PrintTurn(t));
  }

  lemma {:induction false} HandledEntry(r: Reader, log: seq<Entry>, i: nat)
    requires IsLog(log) && Gapless(r, log) && i < |log| && i <= |Printed(r.out)|
    ensures Gapless(Handled(r, EntryMsg(log[i])), log)
    ensures |Printed(Handled(r, EntryMsg(log[i])).out)| == if i == |Printed(r.out)| then i + 1 else |Printed(r.out)|
  {
    PrintedMore(r.out, PrintEntry(log[i]));
    var n := |Printed(r.out)|;
    if i == n { assert log[..n + 1] == log[..n] + [log[n]]; }
  }

  /** `es` are entries of the log in order, from place `a` on. */
  predicate Continues(log: seq<Entry>, a: int, es: seq<Entry>) {
    0 <= a && a + |es| <= |log| && es == log[a..a + |es|]
  }

  lemma {:induction false} ContinuesAfter(log: seq<Entry>, a: int, msgs: seq<Msg>)
    requires msgs != [] && Continues(log, a, EntriesOf(msgs))
    ensures if msgs[0].EntryMsg? then a < |log| && msgs[0].entry == log[a] && Continues(log, a + 1, EntriesOf(msgs[1..]))
            else Continues(log, a, EntriesOf(msgs[1..]))
  {
    var rest := EntriesOf(msgs[1..]);
    if msgs[0].EntryMsg? {
      assert EntriesOf(msgs) == [msgs[0].entry] + rest;
      assert EntriesOf(msgs)[0] == log[a] && EntriesOf(msgs)[1..] == rest;
      assert rest == log[a + 1..a + 1 + |rest|];
    } else {
      assert EntriesOf(msgs) == rest;
    }
  }

  lemma {:induction false} HandlingKeepsGapless(r: Reader, log: seq<Entry>, msgs: seq<Msg>, a: int)
    requires IsLog(log) && Gapless(r, log) && a <= |Printed(r.out)| && Continues(log, a, EntriesOf(msgs))
    ensures Gapless(HandledAll(r, msgs), log)
    decreases |msgs|
  {
    if msgs != [] {
      var f := Handled(r, msgs[0]);
      ContinuesAfter(log, a, msgs);
      if msgs[0].EntryMsg? {
        HandledEntry(r, log, a);
        if f.end.None? { HandlingKeepsGapless(f, log, msgs[1..], a + 1); }
      } else {
        HandledOther(r, msgs[0]);
        if f.end.None? { HandlingKeepsGapless(f, log, msgs[1..], a); }
      }
    }
  }

  lemma {:induction false} EntriesOfPrefix(msgs: seq<Msg>, j: nat)
    requires j <= |msgs|
    ensures EntriesOf(msgs[..j]) <= EntriesOf(msgs)
    decreases |msgs|
  {
    if j > 0 {
      EntriesOfPrefix(msgs[1..], j - 1);
      assert msgs[..j][0] == msgs[0] && msgs[..j][1..] == msgs[1..][..j - 1];
    } else {
      assert msgs[..j] == [];
    }
  }

  // ----- whole reads -----

  /** A connection as the plane serves it: messages sent, cut after `k` lines. */
  datatype Served = Away | Denied | Up(msgs: seq<Msg>, k: nat, torn: bool)

  function ConnOf(s: Served): Conn {
    match s
    case Away => NoAnswer
    case Denied => Refused
    case Up(msgs, k, torn) => Answered(Stream(Sent(msgs)[..if k <= |Sent(msgs)| then k else |Sent(msgs)|], torn))
  }

  function ConnsOf(ss: seq<Served>): seq<Conn> {
    if ss == [] then [] else [ConnOf(ss[0])] + ConnsOf(ss[1..])
  }

  /** The plane sends, in order, entries of the log from the first one after the reader's cursor or earlier. */
  ghost predicate Resumes(r: Reader, log: seq<Entry>, s: Served) {
    s.Up? ==> exists a :: Continues(log, a, EntriesOf(s.msgs)) && a <= |Printed(r.out)|
  }

  ghost predicate AllResume(r: Reader, log: seq<Entry>, ss: seq<Served>)
    decreases |ss|
  {
    ss != [] ==>
      var f := Connected(r.(receive := false), ConnOf(ss[0]));
      Resumes(r, log, ss[0]) && (f.end.None? ==> AllResume(f, log, ss[1..]))
  }

  lemma PrefixKeepsGapless(r: Reader, log: seq<Entry>, msgs: seq<Msg>, j: nat, a: int)
    requires IsLog(log) && Gapless(r, log) && j <= |msgs|
    requires Continues(log, a, EntriesOf(msgs)) && a <= |Printed(r.out)|
    ensures Gapless(HandledAll(r, msgs[..j]), log)
  {
    EntriesOfPrefix(msgs, j);
    HandlingKeepsGapless(r, log, msgs[..j], a);
  }

  lemma StreamKeepsGapless(r: Reader, log: seq<Entry>, msgs: seq<Msg>, k: nat, torn: bool, a: int)
    requires IsLog(log) && Gapless(r, log) && r.end.None? && k <= |Sent(msgs)|
    requires Continues(log, a, EntriesOf(msgs)) && a <= |Printed(r.out)|
    ensures Gapless(ReadLines(r, NOTHING, Stream(Sent(msgs)[..k], torn)), log)
  {
    CutReadsAPrefix(r, msgs, k, torn);
    PrefixKeepsGapless(r, log, msgs, Through(k, torn), a);
  }

  lemma ConnectionKeepsGapless(r: Reader, log: seq<Entry>, s: Served)
    requires IsLog(log) && Gapless(r, log) && r.end.None? && Resumes(r, log, s)
    ensures Gapless(Connected(r.(receive := false), ConnOf(s)), log)
  {
    if s.Up? {
      var a :| Continues(log, a, EntriesOf(s.msgs)) && a <= |Printed(r.out)|;
      var k := if s.k <= |Sent(s.msgs)| then s.k else |Sent(s.msgs)|;
      StreamKeepsGapless(r.(receive := false), log, s.msgs, k, s.torn, a);
    }
  }

  /** Over any sequence of cut and resumed connections the entries printed are a gap-free prefix of the log, none twice. */
  lemma {:induction false} PrintsAPrefix(r: Reader, log: seq<Entry>, ss: seq<Served>, connected: bool)
    requires IsLog(log) && Gapless(r, log) && r.end.None? && AllResume(r, log, ss)
    ensures Gapless(Followed(r, ConnsOf(ss), connected).0, log)
    decreases |ss|
  {
    if ss != [] {
      ConnectionKeepsGapless(r, log, ss[0]);
      var f := Connected(r.(receive := false), ConnOf(ss[0]));
      assert ConnsOf(ss)[0] == ConnOf(ss[0]) && ConnsOf(ss)[1..] == ConnsOf(ss[1..]);
      if f.end.None? { PrintsAPrefix(f, log, ss[1..], true); }
    }
  }

  // ----- the other lines -----

  function Headers(out: seq<Out>): nat {
    if out == [] then 0 else Headers(out[..|out| - 1]) + (if out[|out| - 1].PrintHeader? then 1 else 0)
  }

  function LastState(out: seq<Out>): string {
    if out == [] then "" else if out[|out| - 1].PrintState? then out[|out| - 1].state else LastState(out[..|out| - 1])
  }

  /** A state is printed only when it differs from the one printed before it. */
  predicate NoEcho(out: seq<Out>) {
    out == [] || (NoEcho(out[..|out| - 1]) && (out[|out| - 1].PrintState? ==> out[|out| - 1].state != LastState(out[..|out| - 1])))
  }

  ghost predicate Quietly(out: seq<Out>, header: bool, state: string) {
    Headers(out) == (if header then 1 else 0) && LastState(out) == state && NoEcho(out)
  }

  ghost predicate Quiet(r: Reader) {
    Quietly(r.out, r.header, r.state)
  }

  lemma {:induction false} OneMore(out: seq<Out>, header: bool, state: string, o: Out)
    requires Quietly(out, header, state) && (o.PrintHeader? ==> !header) && (o.PrintState? ==> o.state != state)
    ensures Quietly(out + [o], header || o.PrintHeader?, if o.PrintState? then o.state else state)
  {
    assert (out + [o])[..|out|] == out;
  }

  lemma {:induction false} ShowStateQuiet(r: Reader, s: string)
    requires Quiet(r)
    ensures Quiet(ShowState(r, s))
  {
    if s != r.state { OneMore(r.out, r.header, r.state, PrintState(s)); }
  }

  lemma {:induction false} HandledQuiet(r: Reader, m: Msg)
    requires Quiet(r)
    ensures Quiet(Handled(r, m))
  {
    match m
    case SessionMsg(_) => if !r.header { OneMore(r.out, r.header, r.state, PrintHeader); }
    case EntryMsg(e) => OneMore(r.out, r.header, r.state, PrintEntry(e));
    case StateMsg(s) => ShowStateQuiet(r.(receive := true), s);
    case EndMsg(s) => ShowStateQuiet(r.(receive := true), s);
    case TurnMsg(t) => OneMore(r.out, r.header, r.state, PrintTurn(t));
  }

  lemma {:induction false} ReadQuiet(r: Reader, p: Pending, s: Stream)
    requires Quiet(r)
    ensures Quiet(ReadLines(r, p, s))
    decreases |s.lines|
  {
    if Decodes(p) { HandledQuiet(r, p.data[0].msg); }
    if s.lines != [] {
      if s.lines[0] != Blank {
        ReadQuiet(r, Collected(p, s.lines[0]), s.(lines := s.lines[1..]));
      } else {
        ReadQuiet(Dispatched(r, p).0, NOTHING, s.(lines := s.lines[1..]));
      }
    }
  }

  /** Over any connections at all, well-formed or not, the header comes once and no state line repeats the one before. */
  lemma {:induction false} ReconnectsDoNotEcho(r: Reader, conns: seq<Conn>, connected: bool)
    requires Quiet(r)
    ensures Quiet(Followed(r, conns, connected).0)
    decreases |conns|
  {
    if conns != [] {
      var q := r.(receive := false);
      if conns[0].Answered? { ReadQuiet(q, NOTHING, conns[0].stream); }
      ReconnectsDoNotEcho(Connected(q, conns[0]), conns[1..], true);
    }
  }
}
