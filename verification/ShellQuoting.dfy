/** Quoting words for the shell lexer and reading them back. */
module ShellQuoting {
  import opened Shell

  /** Takes the first character off a line. */
  lemma Eat(c: char, rest: string, m: Mode, st: State, m': Mode, st': State)
    requires Step([c] + rest, m, st) == (1, m', st')
    ensures Scan([c] + rest, m, st) == Scan(rest, m', st')
  {
  }

  // ----- parentheses -----

  function Turn(c: char): int {
    if c == '(' then 1 else if c == ')' then -1 else 0
  }

  /** Opening less closing parentheses. */
  function Balance(s: string): int {
    if s == [] then 0
    else Balance(s[..|s| - 1]) + Turn(s[|s| - 1])
  }

  lemma BalanceNext(s: string, i: nat, k: nat)
    requires i <= k < |s|
    ensures Balance(s[i..k + 1]) == Balance(s[i..k]) + Turn(s[k])
  {
    assert s[i..k + 1][..k - i] == s[i..k];
  }

  lemma {:induction false} BalanceFirst(s: string, i: nat, k: nat)
    requires i < k <= |s|
    ensures Balance(s[i..k]) == Turn(s[i]) + Balance(s[i + 1..k])
    decreases k
  {
    if k == i + 1 {
      BalanceNext(s, i, i);
      assert s[i..i] == [] && s[i + 1..i + 1] == [];
    } else {
      BalanceFirst(s, i, k - 1);
      BalanceNext(s, i, k - 1);
      BalanceNext(s, i + 1, k - 1);
    }
  }

  /** Until the match the depth stays positive ... */
  lemma {:induction false} OpenBefore(s: string, i: nat, depth: nat, k: nat)
    requires depth >= 1 && i <= k <= |s| && k <= MatchFrom(s, i, depth)
    ensures depth + Balance(s[i..k]) >= 1
    decreases k - i
  {
    if i == k {
      assert s[i..k] == [];
    } else {
      BalanceFirst(s, i, k);
      OpenBefore(s, i + 1, depth + Turn(s[i]), k);
    }
  }

  /** ... and at the match it is zero. */
  lemma {:induction false} ZeroAtMatch(s: string, i: nat, depth: nat)
    requires depth >= 1 && i <= |s| && MatchFrom(s, i, depth) < |s|
    ensures depth + Balance(s[i..MatchFrom(s, i, depth) + 1]) == 0
    decreases |s| - i
  {
    var e := MatchFrom(s, i, depth);
    BalanceFirst(s, i, e + 1);
    if i == e {
      assert s[i + 1..e + 1] == [];
    } else {
      ZeroAtMatch(s, i + 1, depth + Turn(s[i]));
    }
  }

  lemma {:induction false} BalanceToMatch(s: string, open: nat, j: nat)
    requires open < |s| && s[open] == '(' && open < j <= |s|
    ensures j <= MatchFrom(s, open + 1, 1) ==> Balance(s[open..j]) >= 1
    ensures j == MatchFrom(s, open + 1, 1) + 1 ==> Balance(s[open..j]) == 0
  {
    BalanceFirst(s, open, j);
    if j <= MatchFrom(s, open + 1, 1) {
      OpenBefore(s, open + 1, 1, j);
    } else if j == MatchFrom(s, open + 1, 1) + 1 {
      ZeroAtMatch(s, open + 1, 1);
    }
  }

  /** The parentheses from `open` balance at `k` and not before. */
  ghost predicate FirstBalance(s: string, open: nat, k: nat)
    requires open < k <= |s|
  {
    Balance(s[open..k]) == 0 && forall j :: open < j < k ==> Balance(s[open..j]) != 0
  }

  /** A substitution ends exactly at the first place where its parentheses balance, or else at the end of the line. */
  lemma {:induction false} EndsWhereBalanced(s: string, open: nat, k: nat)
    requires open < |s| && s[open] == '(' && open < k <= |s|
    ensures FirstBalance(s, open, k) <==> MatchFrom(s, open + 1, 1) == k - 1
  {
    var e := MatchFrom(s, open + 1, 1);
    BalanceToMatch(s, open, k);
    if e == k - 1 {
      forall j | open < j < k ensures Balance(s[open..j]) != 0 { BalanceToMatch(s, open, j); }
    } else if e < k - 1 {
      BalanceToMatch(s, open, e + 1);
    }
  }

  // ----- quoting -----

  /** A quote inside single quotes is written by closing, escaping and opening again. */
  function Escape(w: Word): string {
    if w == [] then []
    else (if w[0] == '\'' then ['\'', '\\', '\'', '\''] else [w[0]]) + Escape(w[1..])
  }

  function Quote(w: Word): string {
    ['\''] + Escape(w) + ['\'']
  }

  lemma EatQuote(rest: string, st: State)
    requires st.inWord
    ensures Scan(['\'', '\\', '\'', '\''] + rest, Single, st) == Scan(rest, Single, Put(st, '\''))
  {
    var next := Put(st, '\'');
    assert ['\'', '\\', '\'', '\''] + rest == ['\''] + (['\\', '\'', '\''] + rest);
    Eat('\'', ['\\', '\'', '\''] + rest, Single, st, Plain, st);
    assert next == next.(inWord := true);
    assert (['\\', '\'', '\''] + rest)[2..] == ['\''] + rest;
    assert Step(['\\', '\'', '\''] + rest, Plain, st) == (2, Plain, next);
    Eat('\'', rest, Plain, next, Single, next);
  }

  lemma {:induction false} ReadEscaped(w: Word, rest: string, st: State)
    requires st.inWord
    ensures Scan(Escape(w) + (['\''] + rest), Single, st) == Scan(rest, Plain, st.(cur := st.cur + w))
  {
    var close := ['\''] + rest;
    if w == [] {
      assert Escape(w) + close == close;
      assert st.cur + w == st.cur;
      Eat('\'', rest, Single, st, Plain, st);
    } else {
      var next := Put(st, w[0]);
      assert next.cur + w[1..] == st.cur + w;
      ReadEscaped(w[1..], rest, next);
      if w[0] == '\'' {
        assert Escape(w) + close == ['\'', '\\', '\'', '\''] + (Escape(w[1..]) + close);
        EatQuote(Escape(w[1..]) + close, st);
      } else {
        assert Escape(w) + close == [w[0]] + (Escape(w[1..]) + close);
        Eat(w[0], Escape(w[1..]) + close, Single, st, Single, next);
      }
    }
  }

  lemma QuoteShape(w: Word, rest: string)
    ensures Quote(w) + rest == ['\''] + (Escape(w) + (['\''] + rest))
  {
  }

  lemma EatOpening(body: string, st: State)
    ensures Scan(['\''] + body, Plain, st) == Scan(body, Single, st.(inWord := true))
  {
  }

  lemma EatSpace(body: string, st: State)
    ensures Scan([' '] + body, Plain, st) == Scan(body, Plain, FlushWord(st))
  {
  }

  /** Reading a quoted word adds exactly that word, whatever is in it. */
  lemma ReadQuoted(w: Word, rest: string, st: State)
    ensures Scan(Quote(w) + rest, Plain, st) == Scan(rest, Plain, State(st.cmds, st.words, st.cur + w, true))
  {
    var open := st.(inWord := true);
    calc {
      Scan(Quote(w) + rest, Plain, st);
      { QuoteShape(w, rest); }
      Scan(['\''] + (Escape(w) + (['\''] + rest)), Plain, st);
      { EatOpening(Escape(w) + (['\''] + rest), st); }
      Scan(Escape(w) + (['\''] + rest), Single, open);
      { ReadEscaped(w, rest, open); }
      Scan(rest, Plain, open.(cur := open.cur + w));
    }
  }

  function Words(cmd: Command): string {
    if cmd == [] then []
    else if |cmd| == 1 then Quote(cmd[0])
    else Quote(cmd[0]) + [' '] + Words(cmd[1..])
  }

  function Line(cmds: seq<Command>): string {
    if cmds == [] then [] else Words(cmds[0]) + (if |cmds| == 1 then [] else [';'] + Line(cmds[1..]))
  }

  function NonEmpty(cmds: seq<Command>): seq<Command> {
    if cmds == [] then [] else (if cmds[0] == [] then [] else [cmds[0]]) + NonEmpty(cmds[1..])
  }

  /** The state after reading a command up to its last word. */
  function InLast(cmds: seq<Command>, words: seq<Word>, cmd: Command): State
    requires cmd != []
  {
    State(cmds, words + cmd[..|cmd| - 1], cmd[|cmd| - 1], true)
  }

  lemma {:induction false} WordsShape(cmd: Command, rest: string)
    requires |cmd| > 1
    ensures Words(cmd) + rest == Quote(cmd[0]) + ([' '] + (Words(cmd[1..]) + rest))
  {
    var first, others := Quote(cmd[0]), Words(cmd[1..]);
    assert Words(cmd) == first + [' '] + others;
    assert first + [' '] + others + rest == first + ([' '] + (others + rest));
  }

  lemma InLastShape(cmds: seq<Command>, words: seq<Word>, cmd: Command)
    requires cmd != []
    ensures |cmd| == 1 ==> InLast(cmds, words, cmd) == State(cmds, words, cmd[0], true)
    ensures |cmd| > 1 ==> InLast(cmds, words + [cmd[0]], cmd[1..]) == InLast(cmds, words, cmd)
  {
  }

  lemma {:induction false} ReadWords(cmd: Command, rest: string, cmds: seq<Command>, words: seq<Word>)
    requires cmd != []
    ensures Scan(Words(cmd) + rest, Plain, State(cmds, words, "", false)) == Scan(rest, Plain, InLast(cmds, words, cmd))
    decreases |cmd|
  {
    var st := State(cmds, words, "", false);
    assert "" + cmd[0] == cmd[0];
    InLastShape(cmds, words, cmd);
    if |cmd| == 1 {
      ReadQuoted(cmd[0], rest, st);
    } else {
      var more := Words(cmd[1..]) + rest;
      calc {
        Scan(Words(cmd) + rest, Plain, st);
        { WordsShape(cmd, rest); }
        Scan(Quote(cmd[0]) + ([' '] + more), Plain, st);
        { ReadQuoted(cmd[0], [' '] + more, st); }
        Scan([' '] + more, Plain, State(cmds, words, cmd[0], true));
        { EatSpace(more, State(cmds, words, cmd[0], true)); }
        Scan(more, Plain, State(cmds, words + [cmd[0]], "", false));
        { ReadWords(cmd[1..], rest, cmds, words + [cmd[0]]); }
        Scan(rest, Plain, InLast(cmds, words, cmd));
      }
    }
  }

  lemma ReadCommand(cmd: Command, rest: string, done: seq<Command>)
    ensures Scan(Words(cmd) + ([';'] + rest), Plain, State(done, [], "", false)) ==
            Scan(rest, Plain, State(done + NonEmpty([cmd]), [], "", false))
    ensures FlushCmd(Scan(Words(cmd), Plain, State(done, [], "", false))).cmds == done + NonEmpty([cmd])
  {
    var st := State(done, [], "", false);
    var next := State(done + NonEmpty([cmd]), [], "", false);
    assert NonEmpty([cmd]) == if cmd == [] then [] else [cmd];
    if cmd == [] {
      assert Words(cmd) + ([';'] + rest) == [';'] + rest;
      assert done + [] == done;
      Eat(';', rest, Plain, st, Plain, st);
    } else {
      var last := InLast(done, [], cmd);
      assert [] + cmd[..|cmd| - 1] + [cmd[|cmd| - 1]] == cmd;
      assert FlushCmd(last) == next;
      ReadWords(cmd, [';'] + rest, done, []);
      Eat(';', rest, Plain, last, Plain, next);
      ReadWords(cmd, [], done, []);
      assert Words(cmd) + [] == Words(cmd);
    }
  }

  lemma {:induction false} NonEmptyFirst(cmds: seq<Command>, done: seq<Command>)
    requires cmds != []
    ensures done + NonEmpty([cmds[0]]) + NonEmpty(cmds[1..]) == done + NonEmpty(cmds)
    ensures |cmds| == 1 ==> done + NonEmpty([cmds[0]]) == done + NonEmpty(cmds)
  {
  }

  lemma {:induction false} ReadLine(cmds: seq<Command>, done: seq<Command>)
    ensures FlushCmd(Scan(Line(cmds), Plain, State(done, [], "", false))).cmds == done + NonEmpty(cmds)
    decreases |cmds|
  {
    if cmds == [] {
      assert done + [] == done;
    } else {
      NonEmptyFirst(cmds, done);
      if |cmds| == 1 {
        assert Line(cmds) == Words(cmds[0]);
        ReadCommand(cmds[0], [], done);
      } else {
        ReadCommand(cmds[0], Line(cmds[1..]), done);
        ReadLine(cmds[1..], done + NonEmpty([cmds[0]]));
      }
    }
  }

  /** Quoting every word, joining words by spaces and commands by semicolons, then lexing gives the commands back. */
  lemma QuotingRoundTrip(cmds: seq<Command>)
    ensures Lex(Line(cmds)) == NonEmpty(cmds)
  {
    ReadLine(cmds, []);
    assert [] + NonEmpty(cmds) == NonEmpty(cmds);
  }
}
