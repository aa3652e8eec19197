/** What the gates decide about sequences of lines and about lines wrapped in other lines. */
module GateLaws {
  import opened Shell
  import opened ShellQuoting
  import opened ShellSequences
  import opened Gates

  // ----- lower case -----

  lemma LowerConcat(a: string, b: string)
    ensures Lower(a + b) == Lower(a) + Lower(b)
  {
  }

  lemma LowerTwice(s: string)
    ensures Lower(Lower(s)) == Lower(s)
  {
  }

  lemma LowerSequence(a: string, b: string)
    ensures Lower(a + ";" + b) == Lower(a) + ";" + Lower(b)
  {
  }

  /** With nothing open at the end of `a`, its commands are read the same before `;b`. */
  lemma LoweredSequence(a: string, b: string)
    requires Whole(Lower(a), Plain)
    ensures Lex(Lower(a + ";" + b)) == Lex(Lower(a)) + Lex(Lower(b))
  {
    LowerSequence(a, b);
    SequenceOfLines(Lower(a), Lower(b));
  }

  // ----- sequences -----

  lemma FencedParts(xs: seq<Command>, ys: seq<Command>, depth: nat)
    requires depth <= 4
    ensures FencedCommands(xs + ys, depth) <==> FencedCommands(xs, depth) || FencedCommands(ys, depth)
  {
    if FencedCommands(xs + ys, depth) {
      var k :| 0 <= k < |xs + ys| && FencedSegment((xs + ys)[k], depth);
      if k < |xs| { assert FencedSegment(xs[k], depth); } else { assert FencedSegment(ys[k - |xs|], depth); }
    }
    if FencedCommands(xs, depth) {
      var k :| 0 <= k < |xs| && FencedSegment(xs[k], depth);
      assert FencedSegment((xs + ys)[k], depth);
    }
    if FencedCommands(ys, depth) {
      var k :| 0 <= k < |ys| && FencedSegment(ys[k], depth);
      assert FencedSegment((xs + ys)[|xs| + k], depth);
    }
  }

  /** The fence holds for `a;b` exactly when it holds for `a` or for `b`. */
  lemma FenceOfSequence(a: string, b: string, depth: nat)
    requires Whole(Lower(a), Plain)
    ensures FencedLine(a + ";" + b, depth) <==> FencedLine(a, depth) || FencedLine(b, depth)
  {
    if depth <= 4 {
      LoweredSequence(a, b);
      FencedParts(Lex(Lower(a)), Lex(Lower(b)), depth);
    }
  }

  lemma AllowParts(prefixes: seq<seq<string>>, xs: seq<Command>, ys: seq<Command>)
    ensures AllowCommand(prefixes, xs + ys) <==>
      && (xs != [] || ys != [])
      && (xs == [] || AllowCommand(prefixes, xs)) && (ys == [] || AllowCommand(prefixes, ys))
  {
    if AllowCommand(prefixes, xs + ys) {
      forall k | 0 <= k < |xs| ensures AllowedSegment(prefixes, xs[k]) { assert (xs + ys)[k] == xs[k]; }
      forall k | 0 <= k < |ys| ensures AllowedSegment(prefixes, ys[k]) { assert (xs + ys)[|xs| + k] == ys[k]; }
    }
  }

  /** Prefix rules allow two lines with commands in them exactly when they allow both; an empty line is neutral. */
  lemma AllowanceOfSequence(prefixes: seq<seq<string>>, a: string, b: string)
    requires Whole(Lower(a), Plain)
    ensures var xs, ys := Lex(Lower(a)), Lex(Lower(b));
      AllowCommand(prefixes, Lex(Lower(a + ";" + b))) <==>
      && (xs != [] || ys != [])
      && (xs == [] || AllowCommand(prefixes, xs)) && (ys == [] || AllowCommand(prefixes, ys))
  {
    LoweredSequence(a, b);
    AllowParts(prefixes, Lex(Lower(a)), Lex(Lower(b)));
  }

  lemma RejectParts(words: seq<string>, xs: seq<Command>, ys: seq<Command>)
    ensures RejectCommand(words, xs + ys) <==> RejectCommand(words, xs) || RejectCommand(words, ys)
  {
    if words != [] {
      if RejectCommand(words, xs + ys) {
        var k :| 0 <= k < |xs + ys| && RejectedSegment(words, (xs + ys)[k]);
        if k < |xs| { assert RejectedSegment(words, xs[k]); } else { assert RejectedSegment(words, ys[k - |xs|]); }
      }
      if RejectCommand(words, xs) {
        var k :| 0 <= k < |xs| && RejectedSegment(words, xs[k]);
        assert RejectedSegment(words, (xs + ys)[k]);
      }
      if RejectCommand(words, ys) {
        var k :| 0 <= k < |ys| && RejectedSegment(words, ys[k]);
        assert RejectedSegment(words, (xs + ys)[|xs| + k]);
      }
    }
  }

  lemma RejectRuleOfSequence(r: Rule, title: string, kind: string, a: string, b: string)
    requires Whole(Lower(a), Plain)
    ensures RejectMatches(r, title, kind, a + ";" + b) <==> RejectMatches(r, title, kind, a) || RejectMatches(r, title, kind, b)
  {
    LoweredSequence(a, b);
    RejectParts(CommandWords(r), Lex(Lower(a)), Lex(Lower(b)));
  }

  /** A sequence is rejected when either line is, and otherwise allowed only when neither line has a command that is not. */
  lemma DecisionOfSequence(rules: seq<Rule>, title: string, kind: string, a: string, b: string)
    requires Whole(Lower(a), Plain) && Lex(Lower(a)) != [] && Lex(Lower(b)) != []
    ensures Decide(rules, title, kind, a + ";" + b) == Rejected <==>
      Decide(rules, title, kind, a) == Rejected || Decide(rules, title, kind, b) == Rejected
    ensures Decide(rules, title, kind, a + ";" + b) == Allowed <==>
      Decide(rules, title, kind, a) == Allowed && Decide(rules, title, kind, b) == Allowed
  {
    forall i | 0 <= i < |rules|
      ensures RejectMatches(rules[i], title, kind, a + ";" + b) <==>
              RejectMatches(rules[i], title, kind, a) || RejectMatches(rules[i], title, kind, b)
    {
      RejectRuleOfSequence(rules[i], title, kind, a, b);
    }
    AllowanceOfSequence(Prefixes(rules, title, kind), a, b);
  }

  // ----- wrappers -----

  /** Deeper nesting never lifts the fence. */
  lemma {:induction false} FenceDeepens(line: string, depth: nat)
    requires FencedLine(line, depth)
    ensures FencedLine(line, depth + 1)
    decreases Left(depth), 2
  {
    if depth < 4 {
      var cmds := Lex(Lower(line));
      var k :| 0 <= k < |cmds| && FencedSegment(cmds[k], depth);
      SegmentDeepens(cmds[k], depth);
    }
  }

  lemma {:induction false} SegmentDeepens(f: Command, depth: nat)
    requires depth < 4 && FencedSegment(f, depth)
    ensures FencedSegment(f, depth + 1)
    decreases Left(depth), 1
  {
    var i :| 0 <= i < |f| && FencedAt(f, i, depth);
    FenceDeepensAt(f, i, depth);
  }

  lemma {:induction false} FenceDeepensAt(f: Command, i: nat, depth: nat)
    requires i < |f| && depth < 4 && FencedAt(f, i, depth)
    ensures FencedAt(f, i, depth + 1)
    decreases Left(depth), 0
  {
    if Base(f[i]) in SHELLS {
      FenceDeepens(f[FlagFrom(f, i + 1) + 1], depth + 1);
    } else if Base(f[i]) == "eval" {
      FenceDeepens(Join(f[i + 1..]), depth + 1);
    }
  }

  lemma {:induction false} EscapeLower(w: string)
    ensures Lower(Escape(w)) == Escape(Lower(w))
  {
    if w != [] {
      var q := if w[0] == '\'' then ['\'', '\\', '\'', '\''] else [w[0]];
      EscapeLower(w[1..]);
      LowerConcat(q, Escape(w[1..]));
      assert Lower(w) == [LowerChar(w[0])] + Lower(w[1..]);
      assert Lower(q) == if w[0] == '\'' then ['\'', '\\', '\'', '\''] else [LowerChar(w[0])];
    }
  }

  lemma QuoteLower(w: string)
    ensures Lower(Quote(w)) == Quote(Lower(w))
  {
    EscapeLower(w);
    LowerConcat(['\''] + Escape(w), ['\'']);
    LowerConcat(['\''], Escape(w));
  }

  /** A shell given a line to run: `'sh' '-c' '...'`. */
  function Wrapped(line: string): string {
    Words(["sh", "-c", line])
  }

  lemma LexWrapped(line: string)
    ensures Lex(Lower(Wrapped(line))) == [["sh", "-c", Lower(line)]]
  {
    var cmd := ["sh", "-c", Lower(line)];
    assert Lower(Wrapped(line)) == Words(cmd) by { LowerWords(line); }
    assert Line([cmd]) == Words(cmd);
    QuotingRoundTrip([cmd]);
    assert NonEmpty([cmd]) == [cmd];
  }

  lemma LowerWords(line: string)
    ensures Lower(Words(["sh", "-c", line])) == Words(["sh", "-c", Lower(line)])
  {
    var front := Quote("sh") + [' '] + (Quote("-c") + [' ']);
    WordsOfThree(line);
    WordsOfThree(Lower(line));
    LowerConcat(front, Quote(line));
    QuoteLower(line);
    LowerFront();
  }

  lemma WordsOfThree(line: string)
    ensures Words(["sh", "-c", line]) == Quote("sh") + [' '] + (Quote("-c") + [' ']) + Quote(line)
  {
    assert ["sh", "-c", line][1..] == ["-c", line];
    assert ["-c", line][1..] == [line];
    assert Words([line]) == Quote(line);
    assert Words(["-c", line]) == Quote("-c") + [' '] + Quote(line);
  }

  lemma LowerFront()
    ensures Lower(Quote("sh") + [' '] + (Quote("-c") + [' '])) == Quote("sh") + [' '] + (Quote("-c") + [' '])
  {
  }

  lemma BaseOfPlain(w: string)
    requires w != "" && '/' !in w
    ensures Base(w) == w
  {
    assert TrimSlashes(w) == w;
    AfterNone(w);
  }

  lemma {:induction false} AfterNone(w: string)
    requires '/' !in w
    ensures AfterLast(w, '/') == w
  {
    if w != [] {
      AfterNone(w[..|w| - 1]);
    }
  }

  lemma EmptyLineIsOpen(depth: nat)
    requires depth <= 4
    ensures !FencedLine("", depth)
  {
  }

  lemma NoArguments()
    ensures !FencedGH([]) && !FencedGit([]) && Join([]) == ""
  {
  }

  /** The line itself as the last word of the wrapper adds nothing to its check as a command. */
  lemma LastWordAddsNothing(line: string, depth: nat)
    requires depth <= 4 && FencedAt(["sh", "-c", line], 2, depth)
    ensures FencedLine(line, depth + 1)
  {
    var f := ["sh", "-c", line];
    assert f[3..] == [];
    assert FlagFrom(f, 3) == 3;
    NoArguments();
    if depth + 1 <= 4 {
      EmptyLineIsOpen(depth + 1);
    }
  }

  lemma FirstWordChecksTheLine(line: string, depth: nat)
    requires depth <= 4
    ensures FencedAt(["sh", "-c", line], 0, depth) <==> FencedLine(line, depth + 1)
  {
    var f := ["sh", "-c", line];
    BaseOfPlain("sh");
    assert f[1] == ['-', 'c'] && "--"[1] != 'c';
    assert IsCommandFlag(f[1]);
    assert FlagFrom(f, 1) == 1;
  }

  lemma FlagIsNoCommand(line: string, depth: nat)
    requires depth <= 4
    ensures !FencedAt(["sh", "-c", line], 1, depth)
  {
    BaseOfPlain("-c");
  }

  lemma WrappedSegment(line: string, depth: nat)
    requires depth <= 4
    ensures FencedSegment(["sh", "-c", line], depth) <==> FencedLine(line, depth + 1)
  {
    var f := ["sh", "-c", line];
    FirstWordChecksTheLine(line, depth);
    FlagIsNoCommand(line, depth);
    if FencedSegment(f, depth) && !FencedAt(f, 0, depth) {
      assert FencedAt(f, 2, depth);
      LastWordAddsNothing(line, depth);
    }
  }

  lemma FenceIgnoresCase(line: string, depth: nat)
    ensures FencedLine(Lower(line), depth) <==> FencedLine(line, depth)
  {
    LowerTwice(line);
  }

  /** A line in a shell wrapper is fenced exactly when it is fenced one level deeper. */
  lemma WrapperIsTransparent(line: string, depth: nat)
    ensures FencedLine(Wrapped(line), depth) <==> FencedLine(line, depth + 1)
  {
    if depth <= 4 {
      var f := ["sh", "-c", Lower(line)];
      LexWrapped(line);
      WrappedSegment(Lower(line), depth);
      FenceIgnoresCase(line, depth + 1);
      assert [f][0] == f;
      assert FencedCommands([f], depth) <==> FencedSegment(f, depth);
    }
  }

  function WrappedTimes(line: string, n: nat): string
    decreases n
  {
    if n == 0 then line else WrappedTimes(Wrapped(line), n - 1)
  }

  /** Any number of wrappers: fenced exactly when the line is fenced at that depth, so beyond four always. */
  lemma {:induction false} WrappersAreTransparent(line: string, n: nat, depth: nat)
    ensures FencedLine(WrappedTimes(line, n), depth) <==> FencedLine(line, depth + n)
    decreases n
  {
    if n > 0 {
      WrappersAreTransparent(Wrapped(line), n - 1, depth);
      WrapperIsTransparent(line, depth + n - 1);
    }
  }

  /** So no nesting of wrappers gets a fenced line through. */
  lemma {:induction false} WrappingNeverHelps(line: string, n: nat)
    requires FencedLine(line, 0)
    ensures FencedLine(WrappedTimes(line, n), 0)
  {
    FencedFrom(line, n);
    WrappersAreTransparent(line, n, 0);
  }

  lemma {:induction false} FencedFrom(line: string, n: nat)
    requires FencedLine(line, 0)
    ensures FencedLine(line, n)
  {
    if n > 0 {
      FencedFrom(line, n - 1);
      FenceDeepens(line, n - 1);
    }
  }

  // ----- words and options around a command -----

  lemma {:induction false} FlagBehind(pre: Command, f: Command, j: nat)
    requires j <= |f|
    ensures FlagFrom(pre + f, |pre| + j) == |pre| + FlagFrom(f, j)
    decreases |f| - j
  {
    if j < |f| {
      assert (pre + f)[|pre| + j] == f[j];
      if !(IsCommandFlag(f[j]) && j + 1 < |f|) { FlagBehind(pre, f, j + 1); }
    }
  }

  lemma {:induction false} AtBehind(pre: Command, f: Command, i: nat, depth: nat)
    requires i < |f| && depth <= 4
    ensures FencedAt(pre + f, |pre| + i, depth) <==> FencedAt(f, i, depth)
  {
    var k := |pre| + i;
    assert (pre + f)[k] == f[i] && (pre + f)[k + 1..] == f[i + 1..];
    FlagBehind(pre, f, i + 1);
    var j := FlagFrom(f, i + 1);
    if j < |f| { assert (pre + f)[|pre| + j + 1] == f[j + 1]; }
  }

  /** No words in front of a fenced command hide it: `env`, assignments, `time`, anything. */
  lemma {:induction false} LeadingWordsDoNotHide(pre: Command, f: Command, depth: nat)
    requires depth <= 4 && FencedSegment(f, depth)
    ensures FencedSegment(pre + f, depth)
  {
    var i :| 0 <= i < |f| && FencedAt(f, i, depth);
    AtBehind(pre, f, i, depth);
  }

  /** Global options of git that take a value: one in front neither hides a fenced use nor is needed for it, unless it makes an alias. */
  lemma {:induction false} GlobalsDoNotHide(option: string, value: string, args: seq<string>)
    requires option in GIT_VALUE_GLOBALS
    ensures FencedGit([option, value] + args) <==> "alias." <= value || FencedGit(args)
  {
    var all := [option, value] + args;
    assert all[2..] == args;
    assert "-" <= option;
  }

  lemma {:induction false} AfterColon(src: string, dst: string)
    requires ':' !in dst
    ensures AfterLast(src + ":" + dst, ':') == dst
    decreases |dst|
  {
    var a := src + ":" + dst;
    if dst == [] {
      assert a[|a| - 1] == ':';
    } else {
      var shorter := dst[..|dst| - 1];
      assert a[..|a| - 1] == src + ":" + shorter && a[|a| - 1] == dst[|dst| - 1];
      AfterColon(src, shorter);
      assert shorter + [dst[|dst| - 1]] == dst;
    }
  }

  lemma {:induction false} UnprefixedIs(dst: string, branch: string)
    requires branch == "main" || branch == "master"
    ensures Unprefixed(dst, "refs/heads/") == branch <==> dst == branch || dst == "refs/heads/" + branch
  {
    var prefix := "refs/heads/";
    if prefix <= dst {
      assert dst == prefix + dst[|prefix|..];
    }
    assert (prefix + branch)[|prefix|..] == branch;
    assert |branch| < |prefix|;
  }

  lemma OptionsHaveDashes(a: string)
    requires a in PUSH_OPTIONS
    ensures "-" <= a && ':' !in a
  {
  }

  /** An argument without a dash is no option. */
  lemma PlainArgument(a: string)
    requires !("-" <= a)
    ensures FencedPushArg(a) <==> "+" <= a || FencedRef(a)
  {
    if a in PUSH_OPTIONS { OptionsHaveDashes(a); }
    assert "--force" <= a ==> "-" <= a;
  }

  lemma {:induction false} RefIsFencedExactly(src: string, dst: string)
    requires ':' !in dst
    ensures FencedRef(src + ":" + dst) <==> src == "" || dst in {"main", "master", "refs/heads/main", "refs/heads/master"}
  {
    var a := src + ":" + dst;
    AfterColon(src, dst);
    UnprefixedIs(dst, "main");
    UnprefixedIs(dst, "master");
    assert "refs/heads/" + "main" == "refs/heads/main" && "refs/heads/" + "master" == "refs/heads/master";
    assert a[|src|] == ':' && ':' in a;
    if src == "" {
      assert a[0] == ':' && a[1..] == dst;
    } else {
      assert a[1..][|src| - 1] == ':';
    }
  }

  /** A push of `src` to `dst` is fenced exactly when it deletes or `dst` is a protected branch, short or in full. */
  lemma {:induction false} PushIsFencedExactly(src: string, dst: string)
    requires ':' !in dst && !("-" <= src) && !("+" <= src)
    ensures FencedPushArg(src + ":" + dst) <==>
      src == "" || dst in {"main", "master", "refs/heads/main", "refs/heads/master"}
  {
    var a := src + ":" + dst;
    assert a[0] == if src == "" then ':' else src[0];
    RefIsFencedExactly(src, dst);
    PlainArgument(a);
  }

  /** A source with a plus is a forced push; one with a dash is taken for an option, and only the force options count. */
  lemma {:induction false} PushWithSign(src: string, dst: string)
    ensures "+" <= src ==> FencedPushArg(src + ":" + dst)
    ensures "-" <= src ==> (FencedPushArg(src + ":" + dst) <==> "--force" <= src + ":" + dst)
  {
    var a := src + ":" + dst;
    if src != "" { assert a[0] == src[0]; }
    assert a[|src|] == ':';
    if a in PUSH_OPTIONS { OptionsHaveDashes(a); }
  }

  lemma {:induction false} PushInArguments(before: seq<string>, a: string, after: seq<string>)
    ensures FencedPush(before + [a] + after) <==> FencedPush(before) || FencedPushArg(a) || FencedPush(after)
  {
    var all := before + [a] + after;
    assert all[|before|] == a;
    if FencedPush(before) {
      var i :| 0 <= i < |before| && FencedPushArg(before[i]);
      assert all[i] == before[i];
    }
    if FencedPush(after) {
      var i :| 0 <= i < |after| && FencedPushArg(after[i]);
      assert all[|before| + 1 + i] == after[i];
    }
    if FencedPush(all) {
      var i :| 0 <= i < |all| && FencedPushArg(all[i]);
      assert i < |before| ==> all[i] == before[i];
      assert i > |before| ==> all[i] == after[i - |before| - 1];
    }
  }

  // ----- in order -----

  /** Places of the wanted words in the line, left to right. */
  ghost predicate Embeds(want: seq<string>, got: seq<string>, at: seq<int>) {
    && |at| == |want|
    && (forall i :: 0 <= i < |at| ==> 0 <= at[i] < |got| && got[at[i]] == want[i])
    && (forall i, j :: 0 <= i < j < |at| ==> at[i] < at[j])
  }

  /** Any places in the rest of a line are places in the line, one further on. */
  function Shifted(at: seq<int>, d: int): (r: seq<int>)
    ensures |r| == |at| && forall i :: 0 <= i < |at| ==> r[i] == at[i] + d
  {
    seq(|at|, i requires 0 <= i < |at| => at[i] + d)
  }

  /** Places in the rest of a line, moved on by the word in front. */
  lemma {:induction false} EmbedsLater(want: seq<string>, got: seq<string>, rest: seq<int>)
    requires got != [] && Embeds(want, got[1..], rest)
    ensures Embeds(want, got, Shifted(rest, 1))
  {
    var at := Shifted(rest, 1);
    forall i | 0 <= i < |at| ensures 0 <= at[i] < |got| && got[at[i]] == want[i] {
      assert got[1..][rest[i]] == got[rest[i] + 1];
    }
  }

  lemma {:induction false} EmbedsFirst(want: seq<string>, got: seq<string>, rest: seq<int>)
    requires want != [] && got != [] && got[0] == want[0] && Embeds(want[1..], got, rest)
    requires forall i :: 0 <= i < |rest| ==> rest[i] > 0
    ensures Embeds(want, got, [0] + rest)
  {
    var at := [0] + rest;
    forall i | 0 <= i < |at| ensures 0 <= at[i] < |got| && got[at[i]] == want[i] {
      if i > 0 { assert at[i] == rest[i - 1] && want[1..][i - 1] == want[i]; }
    }
    forall i, j | 0 <= i < j < |at| ensures at[i] < at[j] {
      assert at[j] == rest[j - 1];
      if i > 0 { assert at[i] == rest[i - 1]; }
    }
  }

  lemma {:induction false} GreedyFinds(want: seq<string>, got: seq<string>) returns (at: seq<int>)
    requires InOrder(want, got)
    ensures Embeds(want, got, at)
    decreases |got|
  {
    if want == [] {
      at := [];
    } else if got[0] == want[0] {
      var rest := GreedyFinds(want[1..], got[1..]);
      EmbedsLater(want[1..], got, rest);
      EmbedsFirst(want, got, Shifted(rest, 1));
      at := [0] + Shifted(rest, 1);
    } else {
      var rest := GreedyFinds(want, got[1..]);
      EmbedsLater(want, got, rest);
      at := Shifted(rest, 1);
    }
  }

  lemma {:induction false} GreedyMissesNothing(want: seq<string>, got: seq<string>, at: seq<int>)
    requires Embeds(want, got, at)
    ensures InOrder(want, got)
    decreases |got|
  {
    if want != [] {
      assert 0 <= at[0] < |got|;
      if got[0] == want[0] {
        forall i | 0 < i < |at| ensures at[0] < at[i] { }
        GreedyMissesNothing(want[1..], got[1..], Shifted(at[1..], -1));
      } else {
        assert at[0] > 0;
        forall i | 0 < i < |at| ensures at[0] < at[i] { }
        GreedyMissesNothing(want, got[1..], Shifted(at, -1));
      }
    }
  }

  /** Taking the first match of each word finds the words in order whenever they are there in order. */
  lemma InOrderIsSubsequence(want: seq<string>, got: seq<string>)
    ensures InOrder(want, got) <==> exists at :: Embeds(want, got, at)
  {
    if InOrder(want, got) { var at := GreedyFinds(want, got); }
    if exists at :: Embeds(want, got, at) {
      var at :| Embeds(want, got, at);
      GreedyMissesNothing(want, got, at);
    }
  }
}
