/**
  Applying a session's definition draft: several planes may try the same proposal, stop anywhere and try
  again, while the branch moves under them. The core remembers edits by their idempotency key.
  */
module Drafts {
  type Digest = string
  type BranchKey = (string, string)

  const PARENT: Digest := "sha256:parent"

  /** What a proposal asks for: the branch to edit and the revision to branch from. */
  datatype Ask = Ask(branch: BranchKey, parent: Digest)

  datatype EditRequest = EditRequest(key: string, branch: BranchKey, expected: Digest)

  datatype Replay = Replay(expected: Digest, head: Digest, previous: Digest)

  datatype Result<T> = Ok(value: T) | NotFound | AlreadyExists

  /** The core: branch heads, and what it answered to each idempotency key; `edits` lists the committed ones. */
  datatype Core = Core(branches: map<BranchKey, Digest>, createKeys: map<string, Digest>,
                       editKeys: map<string, Replay>, edits: seq<EditRequest>)

  function Created(c: Core, key: string, branch: BranchKey, parent: Digest): (Core, Result<Digest>) {
    if key in c.createKeys then (c, Ok(c.createKeys[key]))
    else if branch in c.branches then (c, AlreadyExists)
    else
      var head := if parent == "" then PARENT else parent;
      (c.(branches := c.branches[branch := head], createKeys := c.createKeys[key := head]), Ok(head))
  }

  /** An edit: a known key is answered again, or refused with another expected head; a new key commits `head`. */
  function Edited(c: Core, req: EditRequest, head: Digest): (Core, Result<Replay>) {
    if req.key in c.editKeys then
      (c, if c.editKeys[req.key].expected == req.expected then Ok(c.editKeys[req.key]) else AlreadyExists)
    else
      var previous := if req.branch in c.branches && c.branches[req.branch] != "" then c.branches[req.branch] else req.expected;
      var r := Replay(req.expected, head, previous);
      (c.(branches := c.branches[req.branch := head], editKeys := c.editKeys[req.key := r], edits := c.edits + [req]), Ok(r))
  }

  class CoreClient {
    var branches: map<BranchKey, Digest>
    var createKeys: map<string, Digest>
    var editKeys: map<string, Replay>
    var edits: seq<EditRequest>

    ghost function View(): Core
      reads this
    {
      Core(branches, createKeys, editKeys, edits)
    }

    constructor ()
      ensures View() == Core(map[], map[], map[], [])
    {
      branches, createKeys, editKeys, edits := map[], map[], map[], [];
    }

    method CreateBranch(key: string, branch: BranchKey, parent: Digest) returns (r: Result<Digest>)
      modifies this
      ensures (View(), r) == Created(old(View()), key, branch, parent)
      ensures forall b :: b in old(branches) ==> b in branches && branches[b] == old(branches)[b]
      ensures r.Ok? ==> key in createKeys && createKeys[key] == r.value
      ensures key in old(createKeys) ==> r == Ok(old(createKeys)[key])
    {
      if key in createKeys {
        return Ok(createKeys[key]);
      }
      if branch in branches {
        return AlreadyExists;
      }
      var head := parent;
      if head == "" {
        head := PARENT;
      }
      branches := branches[branch := head];
      createKeys := createKeys[key := head];
      return Ok(head);
    }

    method ApplyEdit(req: EditRequest, head: Digest) returns (r: Result<Replay>)
      modifies this
      ensures (View(), r) == Edited(old(View()), req, head)
      ensures req.key in old(editKeys) ==> View() == old(View())
      ensures edits == old(edits) || (edits == old(edits) + [req] && req.key !in old(editKeys))
      ensures r.Ok? <==> req.key in editKeys && editKeys[req.key].expected == req.expected
      ensures r.Ok? ==> r.value == editKeys[req.key]
    {
      if req.key in editKeys {
        if editKeys[req.key].expected != req.expected {
          return AlreadyExists;
        }
        return Ok(editKeys[req.key]);
      }
      var previous := req.expected;
      if req.branch in branches && branches[req.branch] != "" {
        previous := branches[req.branch];
      }
      var replay := Replay(req.expected, head, previous);
      edits := edits + [req];
      branches := branches[req.branch := head];
      editKeys := editKeys[req.key := replay];
      return Ok(replay);
    }
  }

  // ----- attempts -----

  /** One try at a proposal, by some plane. */
  datatype Attempt =
    | Begun
    | Missing                      // the branch was not there
    | Raced                        // somebody else created it first
    | Resolved(head: Digest)
    | Inserting(head: Digest)      // no pin was seen
    | Beaten                       // the insert of the pin failed
    | Pinned(expected: Digest)
    | Applied(expected: Digest, head: Digest)
    | Linted(expected: Digest, head: Digest)
    | Over

  datatype World = World(
    core: Core,
    pins: map<string, Digest>,
    tries: map<nat, (string, Attempt)>,
    sent: seq<EditRequest>,
    proposed: seq<(string, Digest)>)

  datatype Step =
    | Begin(n: nat, p: string)
    | Resolve(n: nat)
    | Create(n: nat)
    | Look(n: nat)
    | Insert(n: nat)
    | Reread(n: nat)
    | Edit(n: nat, head: Digest)
    | Lint(n: nat)
    | Propose(n: nat)
    | Stop(n: nat)                                      // a crash, an error, a denied permission
    | Elsewhere(req: EditRequest, head: Digest)         // someone else edits through the core

  function KeyOf(p: string): string {
    "rusui-draft-edit-" + p
  }

  predicate At(w: World, asks: map<string, Ask>, n: nat) {
    n in w.tries && w.tries[n].0 in asks
  }

  predicate Enabled(w: World, asks: map<string, Ask>, st: Step) {
    match st
    case Begin(n, p) => n !in w.tries && p in asks
    case Resolve(n) => At(w, asks, n) && (w.tries[n].1.Begun? || w.tries[n].1.Raced?)
    case Create(n) => At(w, asks, n) && w.tries[n].1.Missing?
    case Look(n) => At(w, asks, n) && w.tries[n].1.Resolved?
    case Insert(n) => At(w, asks, n) && w.tries[n].1.Inserting?
    case Reread(n) => At(w, asks, n) && w.tries[n].1.Beaten?
    case Edit(n, _) => At(w, asks, n) && w.tries[n].1.Pinned?
    case Lint(n) => At(w, asks, n) && w.tries[n].1.Applied?
    case Propose(n) => At(w, asks, n) && w.tries[n].1.Linted?
    case Stop(n) => At(w, asks, n)
    case Elsewhere(req, _) => forall p :: p in asks ==> req.key != KeyOf(p)
  }

  function Moved(w: World, n: nat, a: Attempt): World
    requires n in w.tries
  {
    w.(tries := w.tries[n := (w.tries[n].0, a)])
  }

  predicate HasPin(w: World, p: string) {
    p in w.pins && w.pins[p] != ""
  }

  /** A pin that is there and names a head is used. */
  function Looking(w: World, n: nat, p: string, head: Digest): World
    requires n in w.tries
  {
    Moved(w, n, if HasPin(w, p) then Pinned(w.pins[p]) else Inserting(head))
  }

  /** The pin's id is unique: the insert succeeds for one plane only. */
  function InsertingPin(w: World, n: nat, p: string, head: Digest): World
    requires n in w.tries
  {
    if p !in w.pins then Moved(w.(pins := w.pins[p := head]), n, Pinned(head)) else Moved(w, n, Beaten)
  }

  /** The loser reads the pin of the winner; a pin without a head lets nobody through. */
  function Rereading(w: World, n: nat, p: string): World
    requires n in w.tries
  {
    Moved(w, n, if HasPin(w, p) then Pinned(w.pins[p]) else Over)
  }

  function Sending(w: World, n: nat, req: EditRequest, head: Digest): World
    requires n in w.tries
  {
    var (core, r) := Edited(w.core, req, head);
    var u := w.(core := core, sent := w.sent + [req]);
    // A conflict is answered by sending the same request again.
    if r.Ok? then Moved(u, n, Applied(req.expected, r.value.head)) else u
  }

  function Resolving(w: World, n: nat, branch: BranchKey, again: bool): World
    requires n in w.tries
  {
    Moved(w, n, if branch in w.core.branches then Resolved(w.core.branches[branch]) else if again then Over else Missing)
  }

  function Creating(w: World, n: nat, p: string, ask: Ask): World
    requires n in w.tries
  {
    var (core, r) := Created(w.core, "rusui-draft-create-" + p, ask.branch, ask.parent);
    Moved(w.(core := core), n, if r.Ok? then Resolved(r.value) else Raced)
  }

  /** The lint report is about the branch as it is now: it must be about the head of this edit. */
  function Linting(w: World, n: nat, branch: BranchKey, expected: Digest, head: Digest): World
    requires n in w.tries
  {
    Moved(w, n, if branch in w.core.branches && w.core.branches[branch] == head then Linted(expected, head) else Over)
  }

  function Next(w: World, asks: map<string, Ask>, st: Step): World
    requires Enabled(w, asks, st)
  {
    match st
    case Begin(n, p) => w.(tries := w.tries[n := (p, Begun)])
    case Resolve(n) => Resolving(w, n, asks[w.tries[n].0].branch, w.tries[n].1.Raced?)
    case Create(n) => Creating(w, n, w.tries[n].0, asks[w.tries[n].0])
    case Look(n) => Looking(w, n, w.tries[n].0, w.tries[n].1.head)
    case Insert(n) => InsertingPin(w, n, w.tries[n].0, w.tries[n].1.head)
    case Reread(n) => Rereading(w, n, w.tries[n].0)
    case Edit(n, head) =>
      Sending(w, n, EditRequest(KeyOf(w.tries[n].0), asks[w.tries[n].0].branch, w.tries[n].1.expected), head)
    case Lint(n) => Linting(w, n, asks[w.tries[n].0].branch, w.tries[n].1.expected, w.tries[n].1.head)
    case Propose(n) => Moved(w, n, Over).(proposed := w.proposed + [(w.tries[n].0, w.tries[n].1.head)])
    case Stop(n) => Moved(w, n, Over)
    case Elsewhere(req, head) => w.(core := Edited(w.core, req, head).0)
  }

  // ----- what every step keeps -----

  lemma KeysDiffer(p: string, q: string)
    requires KeyOf(p) == KeyOf(q)
    ensures p == q
  {
    var prefix := "rusui-draft-edit-";
    assert p == (prefix + p)[|prefix|..] && q == (prefix + q)[|prefix|..];
  }

  /** Every try beyond the pin works with the pinned head, and beyond the edit with the edit's head. */
  ghost predicate TryInv(w: World, p: string, a: Attempt) {
    && (a.Pinned? || a.Applied? || a.Linted? ==> p in w.pins && a.expected == w.pins[p])
    && (a.Applied? || a.Linted? ==> KeyOf(p) in w.core.editKeys && w.core.editKeys[KeyOf(p)].head == a.head)
  }

  ghost predicate TriesInv(w: World) {
    forall n :: n in w.tries ==> TryInv(w, w.tries[n].0, w.tries[n].1)
  }

  predicate IsFor(p: string, asks: map<string, Ask>, pins: map<string, Digest>, req: EditRequest) {
    p in asks && p in pins && req == EditRequest(KeyOf(p), asks[p].branch, pins[p])
  }

  ghost predicate AsPinned(asks: map<string, Ask>, pins: map<string, Digest>, req: EditRequest) {
    exists p :: IsFor(p, asks, pins, req)
  }

  /** Every request sent is for a proposal and carries its pinned head. */
  ghost predicate SentInv(w: World, asks: map<string, Ask>) {
    forall i :: 0 <= i < |w.sent| ==> AsPinned(asks, w.pins, w.sent[i])
  }

  /** The core commits each key once. */
  ghost predicate EditsInv(c: Core) {
    && (forall i :: 0 <= i < |c.edits| ==> c.edits[i].key in c.editKeys && c.editKeys[c.edits[i].key].expected == c.edits[i].expected)
    && (forall i, j :: 0 <= i < j < |c.edits| ==> c.edits[i].key != c.edits[j].key)
  }

  /** A proposal was made only for the head of its edit. */
  ghost predicate ProposedInv(w: World) {
    forall i :: 0 <= i < |w.proposed| ==>
      && KeyOf(w.proposed[i].0) in w.core.editKeys
      && w.proposed[i].1 == w.core.editKeys[KeyOf(w.proposed[i].0)].head
  }

  /** Pins and answered edits never change. */
  ghost predicate Grows(w: World, u: World) {
    && (forall p :: p in w.pins ==> p in u.pins && u.pins[p] == w.pins[p])
    && (forall k :: k in w.core.editKeys ==> k in u.core.editKeys && u.core.editKeys[k] == w.core.editKeys[k])
  }

  lemma StepGrows(w: World, asks: map<string, Ask>, st: Step)
    requires Enabled(w, asks, st)
    ensures Grows(w, Next(w, asks, st))
  {
  }

  lemma EditsStep(w: World, asks: map<string, Ask>, st: Step)
    requires EditsInv(w.core) && Enabled(w, asks, st)
    ensures EditsInv(Next(w, asks, st).core)
  {
  }

  lemma TriesStep(w: World, asks: map<string, Ask>, st: Step)
    requires TriesInv(w) && Enabled(w, asks, st)
    ensures TriesInv(Next(w, asks, st))
  {
  }

  lemma SentStep(w: World, asks: map<string, Ask>, st: Step)
    requires TriesInv(w) && SentInv(w, asks) && Enabled(w, asks, st)
    ensures SentInv(Next(w, asks, st), asks)
  {
    var u := Next(w, asks, st);
    StepGrows(w, asks, st);
    forall i | 0 <= i < |u.sent| ensures AsPinned(asks, u.pins, u.sent[i]) {
      if i < |w.sent| {
        assert AsPinned(asks, w.pins, w.sent[i]);
        var p :| IsFor(p, asks, w.pins, w.sent[i]);
        assert IsFor(p, asks, u.pins, u.sent[i]);
      } else {
        assert IsFor(w.tries[st.n].0, asks, u.pins, u.sent[i]);
      }
    }
  }

  lemma ProposedStep(w: World, asks: map<string, Ask>, st: Step)
    requires TriesInv(w) && ProposedInv(w) && Enabled(w, asks, st)
    ensures ProposedInv(Next(w, asks, st))
  {
  }

  // ----- runs -----

  ghost predicate IsRun(ws: seq<World>, asks: map<string, Ask>, steps: seq<Step>) {
    && |ws| == |steps| + 1 && ws[0] == World(Core(map[], map[], map[], []), map[], map[], [], [])
    && forall n {:trigger steps[n]} :: 0 <= n < |steps| ==> Enabled(ws[n], asks, steps[n]) && ws[n + 1] == Next(ws[n], asks, steps[n])
  }

  lemma {:induction false} DraftRuns(ws: seq<World>, asks: map<string, Ask>, steps: seq<Step>, n: nat)
    requires IsRun(ws, asks, steps) && n < |ws|
    ensures TriesInv(ws[n]) && SentInv(ws[n], asks) && EditsInv(ws[n].core) && ProposedInv(ws[n])
  {
    if n > 0 {
      DraftRuns(ws, asks, steps, n - 1);
      assert ws[n - 1 + 1] == Next(ws[n - 1], asks, steps[n - 1]);
      TriesStep(ws[n - 1], asks, steps[n - 1]);
      SentStep(ws[n - 1], asks, steps[n - 1]);
      EditsStep(ws[n - 1], asks, steps[n - 1]);
      ProposedStep(ws[n - 1], asks, steps[n - 1]);
    }
  }

  /** Every edit request ever sent for a proposal is the same one, and the core commits at most one edit for it. */
  lemma EditedAtMostOnce(ws: seq<World>, asks: map<string, Ask>, steps: seq<Step>, n: nat, i: nat, j: nat)
    requires IsRun(ws, asks, steps) && n < |ws|
    ensures i < j < |ws[n].sent| && ws[n].sent[i].key == ws[n].sent[j].key ==> ws[n].sent[i] == ws[n].sent[j]
    ensures i < j < |ws[n].core.edits| ==> ws[n].core.edits[i].key != ws[n].core.edits[j].key
  {
    DraftRuns(ws, asks, steps, n);
    if i < j < |ws[n].sent| && ws[n].sent[i].key == ws[n].sent[j].key {
      var w := ws[n];
      assert AsPinned(asks, w.pins, w.sent[i]) && AsPinned(asks, w.pins, w.sent[j]);
      var p :| IsFor(p, asks, w.pins, w.sent[i]);
      var q :| IsFor(q, asks, w.pins, w.sent[j]);
      KeysDiffer(p, q);
    }
  }

  lemma {:induction false} OneStepGrows(ws: seq<World>, asks: map<string, Ask>, steps: seq<Step>, k: nat)
    requires IsRun(ws, asks, steps) && k < |steps|
    ensures Grows(ws[k], ws[k + 1])
  {
    StepGrows(ws[k], asks, steps[k]);
  }

  lemma GrowsOn(a: World, b: World, c: World)
    requires Grows(a, b) && Grows(b, c)
    ensures Grows(a, c)
  {
  }

  lemma {:induction false} RunGrows(ws: seq<World>, asks: map<string, Ask>, steps: seq<Step>, m: nat, n: nat)
    requires IsRun(ws, asks, steps) && m <= n < |ws|
    ensures Grows(ws[m], ws[n])
    decreases n
  {
    if m < n {
      RunGrows(ws, asks, steps, m, n - 1);
      OneStepGrows(ws, asks, steps, n - 1);
      GrowsOn(ws[m], ws[n - 1], ws[n]);
    }
  }

  /** The first head pinned for a proposal is the one every later request carries. */
  lemma FirstPinWins(ws: seq<World>, asks: map<string, Ask>, steps: seq<Step>, m: nat, n: nat, p: string, i: nat)
    requires IsRun(ws, asks, steps) && m <= n < |ws| && p in ws[m].pins
    requires i < |ws[n].sent| && ws[n].sent[i].key == KeyOf(p)
    ensures ws[n].sent[i].expected == ws[m].pins[p]
  {
    DraftRuns(ws, asks, steps, n);
    RunGrows(ws, asks, steps, m, n);
    assert AsPinned(asks, ws[n].pins, ws[n].sent[i]);
    var q :| IsFor(q, asks, ws[n].pins, ws[n].sent[i]);
    KeysDiffer(p, q);
  }

  /** At step `m` lint reported on `head` of the branch of proposal `p`. */
  ghost predicate LintedAt(ws: seq<World>, asks: map<string, Ask>, steps: seq<Step>, m: int, p: string, head: Digest) {
    && 0 <= m < |steps| && m < |ws| && steps[m].Lint? && p in asks
    && asks[p].branch in ws[m].core.branches && ws[m].core.branches[asks[p].branch] == head
  }

  lemma {:induction false} LintedWasReported(ws: seq<World>, asks: map<string, Ask>, steps: seq<Step>, n: nat, k: nat)
    requires IsRun(ws, asks, steps) && n < |ws| && k in ws[n].tries && ws[n].tries[k].1.Linted?
    ensures exists m :: m < n && LintedAt(ws, asks, steps, m, ws[n].tries[k].0, ws[n].tries[k].1.head)
  {
    var (p, a) := ws[n].tries[k];
    assert ws[n - 1 + 1] == Next(ws[n - 1], asks, steps[n - 1]);
    if steps[n - 1].Lint? && steps[n - 1].n == k {
      assert LintedAt(ws, asks, steps, n - 1, p, a.head);
    } else {
      assert ws[n - 1].tries[k] == ws[n].tries[k];
      LintedWasReported(ws, asks, steps, n - 1, k);
    }
  }

  /** A proposal is made only for the head its own edit committed, after lint reported on that very head. */
  lemma ProposedAsLinted(ws: seq<World>, asks: map<string, Ask>, steps: seq<Step>, n: nat)
    requires IsRun(ws, asks, steps) && n < |steps| && steps[n].Propose?
    ensures var (p, a) := ws[n].tries[steps[n].n];
      && ws[n + 1].proposed == ws[n].proposed + [(p, a.head)]
      && KeyOf(p) in ws[n].core.editKeys && a.head == ws[n].core.editKeys[KeyOf(p)].head
      && exists m :: m < n && LintedAt(ws, asks, steps, m, p, a.head)
  {
    DraftRuns(ws, asks, steps, n);
    LintedWasReported(ws, asks, steps, n, steps[n].n);
  }
}
