/** The permission gates over shell lines: the fence of implement sessions and the policy rules. */
module Gates {
  import opened Shell

  // ----- strings -----

  function LowerChar(c: char): char {
    if 'A' <= c <= 'Z' then c - 'A' + 'a' else c
  }

  function Lower(s: string): (r: string)
    ensures |r| == |s|
    ensures forall i :: 0 <= i < |s| ==> r[i] == LowerChar(s[i])
  {
    if s == [] then [] else [LowerChar(s[0])] + Lower(s[1..])
  }

  predicate Contains(s: string, part: string) {
    part <= s || (s != [] && Contains(s[1..], part))
  }

  function TrimSlashes(s: string): string {
    if s != [] && s[|s| - 1] == '/' then TrimSlashes(s[..|s| - 1]) else s
  }

  /** The part after the last `c`, or all of it. */
  function AfterLast(s: string, c: char): string {
    if s == [] || s[|s| - 1] == c then [] else AfterLast(s[..|s| - 1], c) + [s[|s| - 1]]
  }

  function Base(p: string): string {
    if p == "" then "."
    else if TrimSlashes(p) == "" then "/"
    else AfterLast(TrimSlashes(p), '/')
  }

  function Join(ws: seq<string>): string {
    if ws == [] then "" else if |ws| == 1 then ws[0] else ws[0] + " " + Join(ws[1..])
  }

  // ----- the fence -----

  const SHELLS: set<string> := {"sh", "bash", "zsh", "dash", "ksh"}

  const FENCED_GH: set<seq<string>> := {
    ["pr", "merge"], ["pr", "close"], ["pr", "review"],
    ["release"], ["repo"], ["workflow"], ["secret"], ["variable"], ["ruleset"],
    ["alias", "set"], ["alias", "import"], ["extension"]}

  const GIT_VALUE_GLOBALS: set<string> := {"-c", "--git-dir", "--work-tree", "--namespace", "--exec-path", "--config-env"}

  predicate WritesApi(a: string) {
    || a in {"-x", "--method", "-f", "--field", "--raw-field", "--input"}
    || "-x" <= a || "--method=" <= a || "--field=" <= a || "--raw-field=" <= a || "--input=" <= a
  }

  predicate FencedGH(args: seq<string>) {
    || (|args| >= 2 && args[0] == "pr" && (args[1] == "create" || args[1] == "edit"))
    || (exists p :: p in FENCED_GH && p <= args)
    || (|args| >= 3 && args[0] == "pr" && args[1] == "ready" && "--undo" in args[2..])
    || (|args| >= 1 && args[0] == "api" && exists i :: 1 <= i < |args| && WritesApi(args[i]))
  }

  /** The destination of a refspec; a leading colon deletes. */
  predicate FencedRef(a: string) {
    || (':' in a && a[0] == ':' && ':' !in a[1..])
    || Unprefixed(if ':' in a then AfterLast(a, ':') else a, "refs/heads/") in {"main", "master"}
  }

  function Unprefixed(s: string, p: string): string {
    if p <= s then s[|p|..] else s
  }

  const PUSH_OPTIONS: set<string> := {"-f", "--delete", "-d", "--mirror", "--all", "--prune"}

  predicate FencedPushArg(a: string) {
    || a in PUSH_OPTIONS || "--force" <= a
    || "+" <= a
    || (!("-" <= a) && FencedRef(a))
  }

  predicate FencedPush(args: seq<string>) {
    exists i :: 0 <= i < |args| && FencedPushArg(args[i])
  }

  /** The arguments after git's global options. */
  function GitRest(args: seq<string>): seq<string> {
    if args == [] || !("-" <= args[0]) then args
    else if args[0] in GIT_VALUE_GLOBALS then if |args| < 2 then [] else GitRest(args[2..])
    else GitRest(args[1..])
  }

  method SkipGitGlobals(all: seq<string>) returns (args: seq<string>)
    ensures args == GitRest(all)
  {
    args := all;
    while args != [] && "-" <= args[0]
      invariant GitRest(args) == GitRest(all)
      decreases |args|
    {
      if args[0] in GIT_VALUE_GLOBALS {
        if |args| < 2 {
          return [];
        }
        args := args[2..];
      } else {
        args := args[1..];
      }
    }
  }

  /** A global option that defines an alias. */
  predicate GitAliasGlobal(args: seq<string>) {
    if args == [] || !("-" <= args[0]) then false
    else if args[0] in GIT_VALUE_GLOBALS then |args| >= 2 && ("alias." <= args[1] || GitAliasGlobal(args[2..]))
    else "--config-env=alias." <= args[0] || GitAliasGlobal(args[1..])
  }

  predicate FencedGit(args: seq<string>) {
    var rest := GitRest(args);
    || GitAliasGlobal(args)
    || (|rest| > 0 && rest[0] == "push" && FencedPush(rest[1..]))
    || (|rest| > 1 && rest[0] == "config" && exists i :: 1 <= i < |rest| && "alias." <= rest[i])
  }

  predicate IsCommandFlag(w: string) {
    "-" <= w && !("--" <= w) && 'c' in w
  }

  /** The first flag from `j` on that takes a command, or the end. */
  function FlagFrom(f: Command, j: nat): (k: nat)
    ensures k <= |f| || k == j
    ensures k < |f| ==> k + 1 < |f|
    decreases |f| - j
  {
    if j >= |f| then j
    else if IsCommandFlag(f[j]) && j + 1 < |f| then j
    else FlagFrom(f, j + 1)
  }

  function Left(depth: nat): nat {
    if depth > 4 then 0 else 5 - depth
  }

  predicate FencedAt(f: Command, i: nat, depth: nat)
    requires i < |f| && depth <= 4
    decreases Left(depth), 0
  {
    var base := Base(f[i]);
    if base in SHELLS then FlagFrom(f, i + 1) < |f| && FencedLine(f[FlagFrom(f, i + 1) + 1], depth + 1)
    else if base == "eval" then FencedLine(Join(f[i + 1..]), depth + 1)
    else if base == "gh" then FencedGH(f[i + 1..])
    else if base == "git" then FencedGit(f[i + 1..])
    else false
  }

  predicate FencedSegment(f: Command, depth: nat)
    requires depth <= 4
    decreases Left(depth), 1
  {
    exists i :: 0 <= i < |f| && FencedAt(f, i, depth)
  }

  predicate FencedCommands(cmds: seq<Command>, depth: nat)
    requires depth <= 4
    decreases Left(depth), 2
  {
    exists k :: 0 <= k < |cmds| && FencedSegment(cmds[k], depth)
  }

  /** Some command of the line is fenced; wrappers nested too deeply are refused. */
  predicate FencedLine(line: string, depth: nat)
    decreases Left(depth), 3
  {
    depth > 4 || FencedCommands(Lex(Lower(line)), depth)
  }

  // ----- the rules -----

  datatype Rule = Rule(tool: string, kind: string, command: string, reject: bool)

  datatype Decision = Unmatched | Rejected | Allowed

  predicate IsSpace(c: char) {
    c == ' ' || c == '\t' || c == '\n' || c == '\r'
  }

  /** The words between white space; `cur` is the word being read. */
  function FieldsFrom(s: string, cur: string): seq<string> {
    var done := if cur == "" then [] else [cur];
    if s == [] then done
    else if IsSpace(s[0]) then done + FieldsFrom(s[1..], "")
    else FieldsFrom(s[1..], cur + [s[0]])
  }

  function CommandWords(r: Rule): seq<string> {
    FieldsFrom(Lower(r.command), "")
  }

  predicate FieldMatch(want: string, got: string) {
    want != "" && got != "" && (Lower(want) == Lower(got) || Contains(Lower(got), Lower(want)))
  }

  predicate FieldsMatch(r: Rule, title: string, kind: string) {
    && (r.tool == "" || FieldMatch(r.tool, title) || FieldMatch(r.tool, kind))
    && (r.kind == "" || FieldMatch(r.kind, kind) || FieldMatch(r.kind, title))
  }

  predicate Redirects(seg: Command) {
    exists i :: 0 <= i < |seg| && '>' in seg[i]
  }

  predicate AllowedSegment(prefixes: seq<seq<string>>, seg: Command) {
    !Redirects(seg) && exists i :: 0 <= i < |prefixes| && prefixes[i] <= seg
  }

  predicate AllowCommand(prefixes: seq<seq<string>>, segs: seq<Command>) {
    segs != [] && forall k :: 0 <= k < |segs| ==> AllowedSegment(prefixes, segs[k])
  }

  /** The wanted words occur in order, taken greedily. */
  predicate InOrder(want: seq<string>, got: seq<string>) {
    if want == [] then true
    else if got == [] then false
    else InOrder(if got[0] == want[0] then want[1..] else want, got[1..])
  }

  method FindInOrder(all: seq<string>, got: seq<string>) returns (ok: bool)
    ensures ok == InOrder(all, got)
  {
    var want := all;
    var i := 0;
    while i < |got|
      invariant 0 <= i <= |got|
      invariant InOrder(want, got[i..]) == InOrder(all, got)
    {
      if want == [] {
        break;
      }
      if got[i] == want[0] {
        want := want[1..];
      }
      i := i + 1;
    }
    return want == [];
  }

  predicate RejectedSegment(words: seq<string>, seg: Command)
    requires words != []
  {
    exists i :: 0 <= i < |seg| && Base(seg[i]) == words[0] && InOrder(words[1..], seg[i + 1..])
  }

  predicate RejectCommand(words: seq<string>, segs: seq<Command>) {
    words != [] && exists k :: 0 <= k < |segs| && RejectedSegment(words, segs[k])
  }

  predicate RejectMatches(r: Rule, title: string, kind: string, cmd: string) {
    if r.tool == "" && r.kind == "" && r.command == "" then !r.reject
    else
      && FieldsMatch(r, title, kind)
      && (r.command == "" || RejectCommand(CommandWords(r), Lex(Lower(cmd)))
          || (title != cmd && RejectCommand(CommandWords(r), Lex(Lower(title)))))
  }

  predicate AllowsAnything(r: Rule, title: string, kind: string) {
    !r.reject && FieldsMatch(r, title, kind) && r.command == ""
  }

  function Prefixes(rules: seq<Rule>, title: string, kind: string): seq<seq<string>> {
    if rules == [] then []
    else
      var r, before := rules[|rules| - 1], Prefixes(rules[..|rules| - 1], title, kind);
      if r.reject || !FieldsMatch(r, title, kind) || CommandWords(r) == [] then before else before + [CommandWords(r)]
  }

  lemma {:induction false} PrefixesStep(rules: seq<Rule>, i: nat, title: string, kind: string)
    requires i < |rules|
    ensures var before, r := Prefixes(rules[..i], title, kind), rules[i];
      Prefixes(rules[..i + 1], title, kind) ==
        if r.reject || !FieldsMatch(r, title, kind) || CommandWords(r) == [] then before else before + [CommandWords(r)]
  {
    assert rules[..i + 1][..i] == rules[..i];
  }

  /** The loop over the rules: it stops at one without a command, and otherwise collects the prefixes. */
  method CollectPrefixes(rules: seq<Rule>, title: string, kind: string) returns (any: bool, prefixes: seq<seq<string>>)
    ensures any <==> exists i :: 0 <= i < |rules| && AllowsAnything(rules[i], title, kind)
    ensures !any ==> prefixes == Prefixes(rules, title, kind)
  {
    prefixes := [];
    for i := 0 to |rules|
      invariant forall k :: 0 <= k < i ==> !AllowsAnything(rules[k], title, kind)
      invariant prefixes == Prefixes(rules[..i], title, kind)
    {
      var r := rules[i];
      PrefixesStep(rules, i, title, kind);
      if r.reject || !FieldsMatch(r, title, kind) {
        continue;
      }
      if r.command == "" {
        return true, prefixes;
      }
      var words := CommandWords(r);
      if |words| > 0 {
        prefixes := prefixes + [words];
      }
    }
    assert rules[..|rules|] == rules;
    any := false;
  }

  /** Whether the rules allow a request: by a rule without a command, or by a prefix for every command of the line. */
  method Allows(rules: seq<Rule>, title: string, kind: string, cmd: string) returns (ok: bool)
    ensures ok == ((exists i :: 0 <= i < |rules| && AllowsAnything(rules[i], title, kind))
                   || AllowCommand(Prefixes(rules, title, kind), Lex(Lower(cmd))))
  {
    var any, prefixes := CollectPrefixes(rules, title, kind);
    if any {
      return true;
    }
    var segs := LexCommands(Lower(cmd));
    return AllowCommand(prefixes, segs);
  }

  function Decide(rules: seq<Rule>, title: string, kind: string, cmd: string): Decision {
    if exists i :: 0 <= i < |rules| && rules[i].reject && RejectMatches(rules[i], title, kind, cmd) then Rejected
    else if (exists i :: 0 <= i < |rules| && AllowsAnything(rules[i], title, kind))
         || AllowCommand(Prefixes(rules, title, kind), Lex(Lower(cmd))) then Allowed
    else Unmatched
  }
}
