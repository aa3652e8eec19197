/**
  A followed read of a session over server-sent events: lines of a connection that may be cut anywhere,
  reconnects that resume after the last printed entry.
  */
module FollowRead {
  import opened Basics

  datatype Entry = Entry(no: nat, text: string)

  datatype Msg =
    | SessionMsg(text: string)
    | EntryMsg(entry: Entry)
    | StateMsg(state: string)
    | EndMsg(state: string)
    | TurnMsg(turn: string)

  datatype Kind = SessionKind | EntryKind | StateKind | EndKind | TurnKind | OtherKind

  /** A data line carries a message; `Garbled` stands for text that does not decode. */
  datatype Line = EventLine(kind: Kind) | DataLine(msg: Msg) | Garbled | Blank | Comment

  /** What a connection delivers: complete lines, and whether it was cut inside of the next one. */
  datatype Stream = Stream(lines: seq<Line>, torn: bool)

  datatype Conn = Refused | NoAnswer | Answered(stream: Stream)

  datatype Out = PrintHeader | PrintEntry(entry: Entry) | PrintState(state: string) | PrintTurn(turn: string)

  datatype Reader = Reader(cursor: nat, header: bool, state: string, turn: string, end: Option<string>, receive: bool, out: seq<Out>)

  const NEW := Reader(0, false, "", "", None, false, [])

  function KindOf(m: Msg): Kind {
    match m
    case SessionMsg(_) => SessionKind
    case EntryMsg(_) => EntryKind
    case StateMsg(_) => StateKind
    case EndMsg(_) => EndKind
    case TurnMsg(_) => TurnKind
  }

  // ----- one message -----

  function ShowState(r: Reader, s: string): Reader {
    if s != r.state then r.(state := s, out := r.out + [PrintState(s)]) else r
  }

  function Handled(r: Reader, m: Msg): Reader {
    var f := r.(receive := true);
    match m
    case SessionMsg(_) => if r.header then f else f.(header := true, out := f.out + [PrintHeader])
    case EntryMsg(e) => if e.no <= r.cursor then f else f.(cursor := e.no, out := f.out + [PrintEntry(e)])
    case StateMsg(s) => ShowState(f, s)
    case EndMsg(s) => ShowState(f, s).(end := Some(s))
    case TurnMsg(t) => if t != r.turn then f.(turn := t, out := f.out + [PrintTurn(t)]) else f
  }

  // ----- one connection -----

  /** An event being read: the kind line and the data lines so far. */
  datatype Pending = Pending(kind: Option<Kind>, data: seq<Line>)

  const NOTHING := Pending(None, [])

  /** The message a blank line dispatches: its kind must be known and its data must decode. */
  predicate Ready(p: Pending) {
    p.kind.Some? && p.data != []
  }

  predicate Decodes(p: Pending) {
    Ready(p) && |p.data| == 1 && p.data[0].DataLine? && KindOf(p.data[0].msg) == p.kind.value
  }

  /** Handles what a blank line finishes; an event of another kind is ignored, one that does not decode ends the connection. */
  function Dispatched(r: Reader, p: Pending): (Reader, bool) {
    if !Ready(p) || p.kind == Some(OtherKind) then (r, true)
    else if Decodes(p) then (Handled(r, p.data[0].msg), true)
    else (r, false)
  }

  function Collected(p: Pending, l: Line): Pending {
    match l
    case EventLine(k) => p.(kind := Some(k))
    case DataLine(_) => p.(data := p.data + [l])
    case Garbled => p.(data := p.data + [l])
    case _ => p
  }

  /** Reading lines until the end message, a message that does not decode, or the end of the stream. */
  function ReadLines(r: Reader, p: Pending, s: Stream): Reader
    decreases |s.lines|
  {
    if s.lines == [] then if s.torn then r else Dispatched(r, p).0
    else if s.lines[0] != Blank then ReadLines(r, Collected(p, s.lines[0]), s.(lines := s.lines[1..]))
    else
      var (f, ok) := Dispatched(r, p);
      if !ok || f.end.Some? then f else ReadLines(f, NOTHING, s.(lines := s.lines[1..]))
  }

  function Connected(r: Reader, c: Conn): Reader {
    if c.Answered? then ReadLines(r, NOTHING, c.stream) else r
  }

  /** One followed read over a list of connections; the exit code, if it ends within them. */
  function Followed(r: Reader, conns: seq<Conn>, connected: bool): (Reader, Option<int>)
    decreases |conns|
  {
    if conns == [] then (r, None)
    else
      var f := Connected(r.(receive := false), conns[0]);
      if f.end.Some? then (f, Some(if f.end.value == "completed" then 0 else 1))
      else if conns[0].Refused? || (!connected && !f.receive) then (f, Some(1))
      else Followed(f, conns[1..], true)
  }

  class FollowReader {
    var cursor: nat
    var header: bool
    var state: string
    var turn: string
    var end: Option<string>
    var receive: bool
    var out: seq<Out>

    ghost function View(): Reader
      reads this
    {
      Reader(cursor, header, state, turn, end, receive, out)
    }

    constructor ()
      ensures View() == NEW
    {
      cursor, header, state, turn, end, receive, out := 0, false, "", "", None, false, [];
    }

    method Handle(m: Msg)
      modifies this
      ensures View() == Handled(old(View()), m)
      ensures old(cursor) <= cursor && old(out) <= out && |out| <= |old(out)| + 1
      ensures |out| > |old(out)| && out[|old(out)|].PrintEntry? ==>
        m == EntryMsg(out[|old(out)|].entry) && old(cursor) < out[|old(out)|].entry.no == cursor
      ensures m.EntryMsg? && old(cursor) < m.entry.no ==> out == old(out) + [PrintEntry(m.entry)]
    {
      receive := true;
      match m {
        case SessionMsg(_) =>
          if !header {
            header := true;
            out := out + [PrintHeader];
          }
        case EntryMsg(e) =>
          if e.no <= cursor {
            return;
          }
          cursor := e.no;
          out := out + [PrintEntry(e)];
        case StateMsg(s) =>
          if s != state {
            state := s;
            out := out + [PrintState(s)];
          }
        case EndMsg(s) =>
          if s != state {
            state := s;
            out := out + [PrintState(s)];
          }
          end := Some(s);
        case TurnMsg(t) =>
          if t != turn {
            turn := t;
            out := out + [PrintTurn(t)];
          }
      }
    }

    method Dispatch(p: Pending) returns (ok: bool)
      modifies this
      ensures (View(), ok) == Dispatched(old(View()), p)
    {
      if p.kind == None || p.data == [] || p.kind == Some(OtherKind) {
        return true;
      }
      if !Decodes(p) {
        return false;
      }
      Handle(p.data[0].msg);
      return true;
    }

    /** One connection, line by line; at the end of the stream the last read is empty unless a line was cut. */
    method Once(s: Stream)
      modifies this
      ensures View() == ReadLines(old(View()), NOTHING, s)
    {
      var p := NOTHING;
      var i := 0;
      ghost var was := View();
      assert s.(lines := s.lines[0..]) == s;
      while i < |s.lines|
        invariant 0 <= i <= |s.lines|
        invariant ReadLines(was, NOTHING, s) == ReadLines(View(), p, s.(lines := s.lines[i..]))
      {
        assert s.lines[i..][1..] == s.lines[i + 1..];
        if s.lines[i] == Blank {
          var ok := Dispatch(p);
          if !ok || end.Some? {
            return;
          }
          p := NOTHING;
        } else {
          p := Collected(p, s.lines[i]);
        }
        i := i + 1;
      }
      if !s.torn {
        var ok := Dispatch(p);
      }
    }

    method Follow(conns: seq<Conn>) returns (exit: Option<int>)
      modifies this
      ensures (View(), exit) == Followed(old(View()), conns, false)
    {
      var connected := false;
      var i := 0;
      ghost var was := View();
      assert conns[0..] == conns;
      while i < |conns|
        invariant 0 <= i <= |conns|
        invariant Followed(was, conns, false) == Followed(View(), conns[i..], connected)
      {
        assert conns[i..][1..] == conns[i + 1..];
        receive := false;
        if conns[i].Answered? {
          Once(conns[i].stream);
        }
        if end.Some? {
          return Some(if end.value == "completed" then 0 else 1);
        }
        if conns[i].Refused? || (!connected && !receive) {
          return Some(1);
        }
        connected := true;
        i := i + 1;
      }
      return None;
    }
  }
}
