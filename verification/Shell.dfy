/**
  The shell lexer of the permission gates: a line becomes commands of unquoted words. Lines are
  already lower-cased.
  */
module Shell {

  type Word = string
  type Command = seq<Word>

  /** Commands finished, words of the current command, the current word. */
  datatype State = State(cmds: seq<Command>, words: seq<Word>, cur: Word, inWord: bool)

  datatype Mode = Plain | Single | Double

  const START := State([], [], "", false)

  function Put(st: State, c: char): State {
    st.(cur := st.cur + [c])
  }

  function FlushWord(st: State): State {
    if st.inWord then State(st.cmds, st.words + [st.cur], "", false) else st
  }

  function FlushCmd(st: State): State {
    var f := FlushWord(st);
    if f.words != [] then f.(cmds := f.cmds + [f.words], words := []) else f
  }

  predicate IsBlank(c: char) {
    c == ' ' || c == '\t'
  }

  predicate IsSeparator(c: char) {
    c == ';' || c == '&' || c == '|' || c == '\n' || c == '`' || c == '(' || c == ')' || c == '{' || c == '}'
  }

  predicate OpensSubstitution(s: string) {
    |s| > 1 && s[0] == '$' && s[1] == '('
  }

  // ----- parentheses and backquotes -----

  /** The index of the parenthesis that brings `depth` to zero, from `i` on, or the end. */
  function MatchFrom(s: string, i: nat, depth: int): (e: nat)
    requires i <= |s|
    ensures i <= e <= |s|
    ensures e < |s| ==> s[e] == ')'
    decreases |s| - i
  {
    if i == |s| then i
    else if s[i] == '(' then MatchFrom(s, i + 1, depth + 1)
    else if s[i] == ')' then if depth == 1 then i else MatchFrom(s, i + 1, depth - 1)
    else MatchFrom(s, i + 1, depth)
  }

  function FindTick(s: string, i: nat): (e: nat)
    requires i <= |s|
    ensures i <= e <= |s|
    ensures e < |s| ==> s[e] == '`'
    ensures forall k :: i <= k < e ==> s[k] != '`'
    decreases |s| - i
  {
    if i == |s| || s[i] == '`' then i else FindTick(s, i + 1)
  }

  function Past(s: string, e: nat): (n: nat)
    requires e <= |s|
    ensures e <= n <= |s|
  {
    if e < |s| then e + 1 else e
  }

  // ----- the lexer -----

  /** One step: how many characters it takes, the mode and the state after it. */
  function Step(s: string, m: Mode, st: State): (r: (nat, Mode, State))
    requires s != []
    ensures 1 <= r.0 <= |s|
    decreases |s|, 0
  {
    match m
    case Single => if s[0] == '\'' then (1, Plain, st) else (1, Single, Put(st, s[0]))
    case Double =>
      if s[0] == '"' then (1, Plain, st)
      else if s[0] == '\\' && |s| > 1 then (2, Double, Put(st, s[1]))
      else if OpensSubstitution(s) then
        var e := MatchFrom(s, 2, 1);
        (Past(s, e), Double, st.(cmds := st.cmds + Lex(s[2..e])))
      else if s[0] == '`' then
        var e := FindTick(s, 1);
        (Past(s, e), Double, st.(cmds := st.cmds + Lex(s[1..e])))
      else (1, Double, Put(st, s[0]))
    case Plain =>
      if s[0] == '\\' && |s| > 1 then (2, Plain, if s[1] != '\n' then Put(st, s[1]).(inWord := true) else st)
      else if s[0] == '\'' then (1, Single, st.(inWord := true))
      else if s[0] == '"' then (1, Double, st.(inWord := true))
      else if IsBlank(s[0]) then (1, Plain, FlushWord(st))
      else if IsSeparator(s[0]) then (1, Plain, FlushCmd(st))
      else if OpensSubstitution(s) then (2, Plain, FlushCmd(st))
      else (1, Plain, Put(st, s[0]).(inWord := true))
  }

  function Scan(s: string, m: Mode, st: State): State
    decreases |s|, 1
  {
    if s == [] then st
    else
      var (n, m', st') := Step(s, m, st);
      Scan(s[n..], m', st')
  }

  function Lex(line: string): seq<Command>
    decreases |line|, 2
  {
    FlushCmd(Scan(line, Plain, START)).cmds
  }

  // ----- the loops -----

  method MatchParen(s: string, open: nat) returns (e: nat)
    requires open < |s| && s[open] == '('
    ensures e == MatchFrom(s, open + 1, 1)
  {
    var depth := 0;
    e := open;
    while e < |s|
      invariant open <= e <= |s|
      invariant e == open ==> depth == 0
      invariant e > open ==> depth >= 1 && MatchFrom(s, e, depth) == MatchFrom(s, open + 1, 1)
    {
      if s[e] == '(' {
        depth := depth + 1;
      } else if s[e] == ')' {
        depth := depth - 1;
        if depth == 0 {
          return;
        }
      }
      e := e + 1;
    }
  }

  /** One step of the scan, by index. */
  lemma Advance(r: string, i: nat, m: Mode, st: State)
    requires i < |r|
    ensures var (n, m', st') := Step(r[i..], m, st);
      i + n <= |r| && Scan(r[i..], m, st) == Scan(r[i + n..], m', st')
  {
  }

  /** The end of a quoted part: its closing quote, or the end of the line. */
  lemma LeaveQuote(r: string, i: nat, m: Mode, st: State)
    requires i <= |r| && m != Plain
    requires i < |r| ==> r[i] == if m == Single then '\'' else '"'
    ensures Scan(r[i..], m, st) == Scan(r[Past(r, i)..], Plain, st)
  {
  }

  method LexSingle(r: string, from: nat, quoted: State) returns (i: nat, st: State)
    requires from <= |r|
    ensures from <= i <= |r|
    ensures Scan(r[from..], Single, quoted) == Scan(r[i..], Plain, st)
  {
    i, st := from, quoted;
    while i < |r| && r[i] != '\''
      invariant from <= i <= |r|
      invariant Scan(r[from..], Single, quoted) == Scan(r[i..], Single, st)
    {
      Advance(r, i, Single, st);
      st := st.(cur := st.cur + [r[i]]);
      i := i + 1;
    }
    LeaveQuote(r, i, Single, st);
    i := Past(r, i);
  }

  method Backquote(s: string) returns (e: nat)
    requires s != [] && s[0] == '`'
    ensures e == FindTick(s, 1)
  {
    e := 1;
    while e < |s| && s[e] != '`'
      invariant 1 <= e <= |s| && FindTick(s, e) == FindTick(s, 1)
    {
      e := e + 1;
    }
  }

  /** One round of the loop over a double-quoted part, whose substitutions still run. */
  method StepDouble(s: string, quoted: State) returns (n: nat, st: State)
    requires s != [] && s[0] != '"'
    ensures (n, Double, st) == Step(s, Double, quoted)
    decreases |s|, 0
  {
    n, st := 1, quoted;
    if s[0] == '\\' && |s| > 1 {
      n, st := 2, st.(cur := st.cur + [s[1]]);
    } else if |s| > 1 && s[0] == '$' && s[1] == '(' {
      var e := MatchParen(s, 1);
      var inner := LexCommands(s[2..e]);
      n, st := Past(s, e), st.(cmds := st.cmds + inner);
    } else if s[0] == '`' {
      var e := Backquote(s);
      var inner := LexCommands(s[1..e]);
      n, st := Past(s, e), st.(cmds := st.cmds + inner);
    } else {
      st := st.(cur := st.cur + [s[0]]);
    }
  }

  method LexDouble(r: string, from: nat, quoted: State) returns (i: nat, st: State)
    requires from <= |r|
    ensures from <= i <= |r|
    ensures Scan(r[from..], Double, quoted) == Scan(r[i..], Plain, st)
    decreases |r|, 1
  {
    i, st := from, quoted;
    while i < |r| && r[i] != '"'
      invariant from <= i <= |r|
      invariant Scan(r[from..], Double, quoted) == Scan(r[i..], Double, st)
    {
      Advance(r, i, Double, st);
      var n, next := StepDouble(r[i..], st);
      i, st := i + n, next;
    }
    LeaveQuote(r, i, Double, st);
    i := Past(r, i);
  }

  method LexCommands(r: string) returns (cmds: seq<Command>)
    ensures cmds == Lex(r)
    decreases |r|, 2
  {
    var st := START;
    var i := 0;
    assert r[0..] == r;
    while i < |r|
      invariant 0 <= i <= |r|
      invariant Scan(r, Plain, START) == Scan(r[i..], Plain, st)
    {
      var c := r[i];
      Advance(r, i, Plain, st);
      if c == '\\' && i + 1 < |r| {
        if r[i + 1] != '\n' {
          st := st.(cur := st.cur + [r[i + 1]], inWord := true);
        }
        i := i + 2;
      } else if c == '\'' {
        i, st := LexSingle(r, i + 1, st.(inWord := true));
      } else if c == '"' {
        i, st := LexDouble(r, i + 1, st.(inWord := true));
      } else if c == ' ' || c == '\t' {
        st := FlushWord(st);
        i := i + 1;
      } else if IsSeparator(c) {
        st := FlushCmd(st);
        i := i + 1;
      } else if c == '$' && i + 1 < |r| && r[i + 1] == '(' {
        st := FlushCmd(st);
        i := i + 2;
      } else {
        st := st.(cur := st.cur + [c], inWord := true);
        i := i + 1;
      }
    }
    st := FlushCmd(st);
    return st.cmds;
  }
}
