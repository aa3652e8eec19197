/** Lexing a sequence of lines: exactly when `a;b` is `a` followed by `b`. */
module ShellSequences {
  import opened Shell

  /** A step that would read past the end of the line: an escape, a substitution or a backquote left open. */
  predicate Dangling(s: string, m: Mode)
    requires s != []
  {
    match m
    case Single => false
    case Plain => s == "\\"
    case Double =>
      || s == "\\"
      || (OpensSubstitution(s) && MatchFrom(s, 2, 1) == |s|)
      || (s[0] == '`' && FindTick(s, 1) == |s|)
  }

  /** No quote, escape or substitution is open at the end. */
  predicate Whole(s: string, m: Mode)
    decreases |s|
  {
    if s == [] then m == Plain
    else !Dangling(s, m) && Whole(s[Step(s, m, START).0..], Step(s, m, START).1)
  }

  /** What follows a semicolon. */
  predicate Follows(t: string) {
    t != [] && t[0] == ';'
  }

  // ----- a step does not look at what follows -----

  lemma WidthIsFixed(s: string, m: Mode, st: State)
    requires s != []
    ensures Step(s, m, st).0 == Step(s, m, START).0 && Step(s, m, st).1 == Step(s, m, START).1
  {
  }

  lemma {:induction false} MatchIsLocal(s: string, t: string, i: nat, depth: int)
    requires i <= |s| && MatchFrom(s, i, depth) < |s|
    ensures MatchFrom(s + t, i, depth) == MatchFrom(s, i, depth)
    decreases |s| - i
  {
    if s[i] == '(' {
      MatchIsLocal(s, t, i + 1, depth + 1);
    } else if s[i] == ')' {
      if depth != 1 { MatchIsLocal(s, t, i + 1, depth - 1); }
    } else {
      MatchIsLocal(s, t, i + 1, depth);
    }
  }

  lemma {:induction false} TickIsLocal(s: string, t: string, i: nat)
    requires i <= |s| && FindTick(s, i) < |s|
    ensures FindTick(s + t, i) == FindTick(s, i)
    decreases |s| - i
  {
    if s[i] != '`' { TickIsLocal(s, t, i + 1); }
  }

  lemma SubstitutionIsLocal(s: string, t: string)
    requires s != [] && Follows(t)
    ensures OpensSubstitution(s + t) <==> OpensSubstitution(s)
  {
  }

  lemma StepIsLocal(s: string, t: string, m: Mode, st: State)
    requires s != [] && Follows(t) && !Dangling(s, m)
    ensures Step(s + t, m, st) == Step(s, m, st)
  {
    SubstitutionIsLocal(s, t);
    if m == Double && s[0] != '"' && s[0] != '\\' {
      if OpensSubstitution(s) {
        MatchIsLocal(s, t, 2, 1);
        assert (s + t)[2..MatchFrom(s, 2, 1)] == s[2..MatchFrom(s, 2, 1)];
      } else if s[0] == '`' {
        TickIsLocal(s, t, 1);
        assert (s + t)[1..FindTick(s, 1)] == s[1..FindTick(s, 1)];
      }
    }
  }

  lemma {:induction false} ScanInParts(s: string, t: string, m: Mode, st: State)
    requires Whole(s, m) && Follows(t)
    ensures Scan(s + t, m, st) == Scan(t, Plain, Scan(s, m, st))
    decreases |s|
  {
    if s == [] {
      assert s + t == t;
    } else {
      StepIsLocal(s, t, m, st);
      WidthIsFixed(s, m, st);
      var (n, m', st') := Step(s, m, st);
      assert (s + t)[n..] == s[n..] + t;
      ScanInParts(s[n..], t, m', st');
    }
  }

  // ----- commands already read only stand in front -----

  function Behind(done: seq<Command>, st: State): State {
    st.(cmds := done + st.cmds)
  }

  lemma StepBehind(s: string, m: Mode, st: State, done: seq<Command>)
    requires s != []
    ensures var (n, m', st') := Step(s, m, st); Step(s, m, Behind(done, st)) == (n, m', Behind(done, st'))
  {
    var st' := Step(s, m, st).2;
    if m == Double {
      assert forall x: seq<Command> :: done + st.cmds + x == done + (st.cmds + x);
    } else if m == Plain && FlushWord(st).words != [] {
      assert done + (st.cmds + [FlushWord(st).words]) == done + st.cmds + [FlushWord(st).words];
    }
  }

  lemma {:induction false} ScanBehind(s: string, m: Mode, st: State, done: seq<Command>)
    ensures Scan(s, m, Behind(done, st)) == Behind(done, Scan(s, m, st))
    decreases |s|
  {
    if s != [] {
      StepBehind(s, m, st, done);
      var (n, m', st') := Step(s, m, st);
      ScanBehind(s[n..], m', st', done);
    }
  }

  /** Outside of a word nothing is collected, and quotes are only open inside of a word. */
  predicate Tidy(st: State, m: Mode) {
    if st.inWord then true else st.cur == "" && m == Plain
  }

  lemma StepTidy(s: string, m: Mode, st: State)
    requires s != [] && Tidy(st, m)
    ensures Tidy(Step(s, m, st).2, Step(s, m, st).1)
    ensures |Step(s, m, st).2.cur| <= |st.cur| + Step(s, m, st).0
  {
  }

  lemma {:induction false} ScanTidy(s: string, m: Mode, st: State)
    requires Tidy(st, m)
    ensures Tidy(Scan(s, m, st), Plain)
    decreases |s|
  {
    if s != [] {
      StepTidy(s, m, st);
      var (n, m', st') := Step(s, m, st);
      ScanTidy(s[n..], m', st');
    }
  }

  lemma ScanSemicolon(b: string, st: State)
    ensures Scan([';'] + b, Plain, st) == Scan(b, Plain, FlushCmd(st))
  {
  }

  lemma FlushBehind(done: seq<Command>, st: State)
    ensures FlushCmd(Behind(done, st)).cmds == done + FlushCmd(st).cmds
  {
  }

  /** With nothing open at the end of `a`, lexing `a;b` is lexing `a` and then `b`. */
  lemma SequenceOfLines(a: string, b: string)
    requires Whole(a, Plain)
    ensures Lex(a + ";" + b) == Lex(a) + Lex(b)
  {
    var st := Scan(a, Plain, START);
    assert a + ";" + b == a + ([';'] + b);
    ScanInParts(a, [';'] + b, Plain, START);
    ScanSemicolon(b, st);
    ScanTidy(a, Plain, START);
    assert Lex(a) + [] == Lex(a);
    assert FlushCmd(st) == Behind(Lex(a), START);
    ScanBehind(b, Plain, START, Lex(a));
    FlushBehind(Lex(a), Scan(b, Plain, START));
  }

  // ----- and otherwise some continuation is read differently -----

  predicate IsFiller(b: string) {
    forall i :: 0 <= i < |b| ==> b[i] == 'b'
  }

  /** Inside quotes, and in plain words, a filler is read as it stands. */
  lemma {:induction false} ReadFiller(b: string, m: Mode, st: State)
    requires IsFiller(b)
    ensures Scan(b, m, st) == State(st.cmds, st.words, st.cur + b, st.inWord || (m == Plain && b != []))
    decreases |b|
  {
    if b == [] {
      assert st.cur + b == st.cur;
    } else {
      assert Step(b, m, st) == (1, m, State(st.cmds, st.words, st.cur + ['b'], st.inWord || m == Plain));
      ReadFiller(b[1..], m, State(st.cmds, st.words, st.cur + ['b'], st.inWord || m == Plain));
      assert st.cur + ['b'] + b[1..] == st.cur + b;
    }
  }

  lemma {:induction false} NoMatchAfter(s: string, b: string, i: nat, depth: int)
    requires i <= |s| && MatchFrom(s, i, depth) == |s| && IsFiller(b)
    ensures MatchFrom(s + (";" + b), i, depth) == |s + (";" + b)|
    decreases |s| - i
  {
    if i == |s| {
      NoMatchIn(s + (";" + b), i, depth);
    } else if s[i] == '(' {
      NoMatchAfter(s, b, i + 1, depth + 1);
    } else if s[i] == ')' {
      NoMatchAfter(s, b, i + 1, depth - 1);
    } else {
      NoMatchAfter(s, b, i + 1, depth);
    }
  }

  lemma {:induction false} NoMatchIn(t: string, i: nat, depth: int)
    requires i <= |t| && forall k :: i <= k < |t| ==> t[k] != '(' && t[k] != ')'
    ensures MatchFrom(t, i, depth) == |t|
    decreases |t| - i
  {
  }

  lemma NoTickAfter(s: string, b: string)
    requires |s| >= 1 && FindTick(s, 1) == |s| && IsFiller(b)
    ensures FindTick(s + (";" + b), 1) == |s + (";" + b)|
  {
  }

  /** What an open end makes of `;b`: it goes into the open word, or into a substitution and leaves the word as it was. */
  lemma ReadDangling(s: string, m: Mode, st: State, b: string)
    requires s != [] && Dangling(s, m) && Tidy(st, m) && IsFiller(b) && |b| > |st.cur|
    ensures var r := Scan(s + (";" + b), m, st); r.inWord && r.cur != b
  {
    var t := s + (";" + b);
    if s == "\\" {
      var next := if m == Plain then Put(st, ';').(inWord := true) else Put(st, ';');
      assert Step(t, m, st) == (2, m, next);
      assert t[2..] == b;
      ReadFiller(b, m, next);
    } else if OpensSubstitution(s) {
      NoMatchAfter(s, b, 2, 1);
      assert Step(t, m, st).0 == |t| && t[|t|..] == [];
    } else {
      NoTickAfter(s, b);
      assert Step(t, m, st).0 == |t| && t[|t|..] == [];
    }
  }

  lemma ReadInQuote(m: Mode, st: State, b: string)
    requires m != Plain && Tidy(st, m) && IsFiller(b)
    ensures var r := Scan(";" + b, m, st); r.inWord && r.cur != b
  {
    assert Step(";" + b, m, st) == (1, m, Put(st, ';'));
    assert (";" + b)[1..] == b;
    ReadFiller(b, m, Put(st, ';'));
  }

  lemma {:induction false} ReadOpenEnd(s: string, m: Mode, st: State, b: string)
    requires !Whole(s, m) && Tidy(st, m) && IsFiller(b) && |b| > |st.cur| + |s|
    ensures var r := Scan(s + (";" + b), m, st); r.inWord && r.cur != b
    decreases |s|
  {
    var t := ";" + b;
    if s == [] {
      assert s + t == t;
      ReadInQuote(m, st, b);
    } else if Dangling(s, m) {
      ReadDangling(s, m, st, b);
    } else {
      StepIsLocal(s, t, m, st);
      WidthIsFixed(s, m, st);
      StepTidy(s, m, st);
      var (n, m', st') := Step(s, m, st);
      assert (s + t)[n..] == s[n..] + t;
      ReadOpenEnd(s[n..], m', st', b);
    }
  }

  function Filler(n: nat): (b: string)
    ensures |b| == n && IsFiller(b)
  {
    seq(n, _ => 'b')
  }

  lemma LexFiller(b: string)
    requires IsFiller(b) && b != []
    ensures Lex(b) == [[b]]
  {
    ReadFiller(b, Plain, START);
    assert "" + b == b;
    assert FlushWord(State([], [], b, true)) == State([], [b], "", false);
  }

  lemma LastWord(st: State)
    requires st.inWord
    ensures FlushCmd(st).cmds == st.cmds + [st.words + [st.cur]]
  {
  }

  lemma LastDiffers(both: seq<Command>, first: seq<Command>, words: seq<Word>, cur: Word, b: Word, cmds: seq<Command>)
    requires both == cmds + [words + [cur]] && cur != b
    ensures both != first + [[b]]
  {
    assert (words + [cur])[|words|] == cur;
    assert words + [cur] != [b];
    assert both[|both| - 1] == words + [cur];
    assert (first + [[b]])[|first|] == [b];
  }

  lemma OpenEndDiffers(a: string)
    requires !Whole(a, Plain)
    ensures var b := Filler(|a| + 1); Lex(a + ";" + b) != Lex(a) + Lex(b)
  {
    var b := Filler(|a| + 1);
    assert a + ";" + b == a + (";" + b);
    ReadOpenEnd(a, Plain, START, b);
    LexFiller(b);
    var r := Scan(a + (";" + b), Plain, START);
    LastWord(r);
    LastDiffers(Lex(a + ";" + b), Lex(a), r.words, r.cur, b, r.cmds);
  }

  /** Lexing distributes over `a;` whatever follows, exactly when nothing is open at the end of `a`. */
  lemma SequencesExactly(a: string)
    ensures Whole(a, Plain) <==> forall b: string :: Lex(a + ";" + b) == Lex(a) + Lex(b)
  {
    if Whole(a, Plain) {
      forall b: string ensures Lex(a + ";" + b) == Lex(a) + Lex(b) { SequenceOfLines(a, b); }
    } else {
      OpenEndDiffers(a);
    }
  }
}
