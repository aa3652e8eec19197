/**
  An item from the outside: it is edited on its platform, events report that, fetches read it and the admission
  decides about what was read. This puts the runs of the refresh row and of the review turn together, so that
  resting says something about the item's content.
  */
module ItemRuns {
  import opened Basics
  import opened Refresh
  import R = RefreshRuns
  import A = Admission

  /** The last admission that ran: the content it was given, whether the gates let it look, and its answer. */
  datatype Look = Look(content: int, considered: bool, verdict: A.Admitted)

  /**
    The refresh row and the review turn with their histories, the item's content, whether it was edited after the
    last event, and what each fetch got, by generation.
    */
  datatype World = World(item: R.Item, hist: A.History, content: int, unreported: bool, got: map<nat, int>, last: Option<Look>)

  datatype Step =
    | Edit(content: int)
    | Event(force: bool)
    | Start(now: nat, ttl: nat)
    | Read(gen: nat)
    | Return(gen: nat, failed: bool, gate: A.Gate)
    | Expire(now: nat)
    | Restart
    | Turn(ev: A.Happening)

  /** How the closing transaction sees the admission's answer. */
  function FetchOf(v: A.Admitted): Fetch {
    match v
    case IneligibleItem => Ineligible
    case OverBudget => BudgetDenied
    case _ => AdmissionRan
  }

  predicate Owner(w: World, gen: nat) {
    w.item.row.Some? && Owns(w.item.row.value, gen)
  }

  /** The fetch still owns the row and brought something back: its admission runs. */
  predicate Admits(w: World, st: Step) {
    st.Return? && !st.failed && Owner(w, st.gen) && st.gen in w.got && st.gen in w.item.tokens
  }

  function ForceOf(w: World, gen: nat): bool
    requires w.item.row.Some? && gen in w.item.tokens
  {
    w.item.tokens[gen].asked || w.item.row.value.force
  }

  function LookOf(w: World, st: Step): Look
    requires Admits(w, st)
  {
    var h := w.got[st.gen];
    Look(h, A.Considered(w.hist.rec, st.gate), A.Verdict(w.hist.rec, h, ForceOf(w, st.gen), st.gate))
  }

  /** The step of the refresh row that goes with a step of the world. */
  function RowStep(w: World, st: Step): Option<R.Step> {
    match st
    case Event(force) => Some(R.Ingest(force))
    case Start(now, ttl) => Some(R.Start(now, ttl))
    case Return(gen, failed, _) => Some(R.Finish(gen, if Admits(w, st) then FetchOf(LookOf(w, st).verdict) else FetchFailed))
    case Expire(now) => Some(R.Expire(now))
    case Restart => Some(R.Restart)
    case _ => None
  }

  predicate Enabled(w: World, st: Step) {
    && (RowStep(w, st).Some? ==> R.Enabled(w.item, RowStep(w, st).value))
    && match st
       case Read(gen) => gen in w.item.tokens && gen !in w.got
       case Return(gen, failed, _) => failed || gen in w.got
       case Turn(ev) => !ev.Fetch?
       case _ => true
  }

  function Next(w: World, st: Step): World
    requires Enabled(w, st)
  {
    var v := if RowStep(w, st).Some? then w.(item := R.Next(w.item, RowStep(w, st).value)) else w;
    match st
    case Edit(content) => v.(content := content, unreported := true)
    case Event(_) => v.(unreported := false)
    case Read(gen) => v.(got := w.got[gen := w.content])
    case Return(gen, _, gate) =>
      if Admits(w, st) then v.(hist := A.After(w.hist, A.Fetch(w.got[gen], ForceOf(w, gen), gate)), last := Some(LookOf(w, st)))
      else v
    case Turn(ev) => v.(hist := A.After(w.hist, ev))
    case _ => v
  }

  // ----- what every step keeps -----

  ghost predicate ItemInv(it: R.Item) {
    R.RowInv(it) && (it.row.None? ==> it.fetched == 0 && it.examined == 0)
  }

  /** A fetch that nothing has happened to since it began has read the item as it is, unless an edit is unreported. */
  ghost predicate GotInv(w: World) {
    && w.got.Keys <= w.item.tokens.Keys
    && (w.item.row.Some? && w.item.row.value.owner && !w.item.row.value.needs && w.item.row.value.gen in w.got ==>
          w.got[w.item.row.value.gen] == w.content || w.unreported)
  }

  /** Some revision has the content, and no later one came from a fetch. */
  ghost predicate Shows(hist: A.History, content: int) {
    exists r :: r in hist.rec.snapshots && hist.rec.snapshots[r] == content && forall q :: q in hist.fetched ==> q <= r
  }

  /** What the last admission looked at and kept is still shown. */
  ghost predicate LookInv(w: World) {
    w.last.Some? && w.last.value.considered && w.last.value.verdict != A.OverBudget ==> Shows(w.hist, w.last.value.content)
  }

  ghost predicate WorldInv(w: World) {
    ItemInv(w.item) && A.HistInv(w.hist) && GotInv(w) && LookInv(w)
  }

  lemma ItemStep(w: World, st: Step)
    requires ItemInv(w.item) && Enabled(w, st)
    ensures ItemInv(Next(w, st).item)
  {
    if RowStep(w, st).Some? { R.RowStep(w.item, RowStep(w, st).value); }
  }

  lemma HistStep(w: World, st: Step)
    requires A.HistInv(w.hist) && Enabled(w, st)
    ensures A.HistInv(Next(w, st).hist)
  {
    if Admits(w, st) {
      HappeningKeeps(w.hist, A.Fetch(w.got[st.gen], ForceOf(w, st.gen), st.gate));
    } else if st.Turn? {
      HappeningKeeps(w.hist, st.ev);
    }
  }

  lemma HappeningKeeps(hist: A.History, ev: A.Happening)
    requires A.HistInv(hist)
    ensures A.HistInv(A.After(hist, ev))
  {
    A.SoundStep(hist, ev);
    A.ForcedStep(hist, ev);
    A.RepeatStep(hist, ev);
  }

  lemma GotStep(w: World, st: Step)
    requires ItemInv(w.item) && GotInv(w) && Enabled(w, st)
    ensures GotInv(Next(w, st))
  {
  }

  /** Content an admission considered and did not refuse for the budget is shown afterwards. */
  lemma AdmittedIsShown(hist: A.History, h: int, asked: bool, g: A.Gate)
    requires A.HistInv(hist) && A.Considered(hist.rec, g) && A.Verdict(hist.rec, h, asked, g) != A.OverBudget
    ensures Shows(A.After(hist, A.Fetch(h, asked, g)), h)
  {
    var ev := A.Fetch(h, asked, g);
    var after := A.After(hist, ev);
    var r := if A.Makes(hist.rec, ev) then A.Revision(hist.rec) else A.Revision(hist.rec) - 1;
    assert r in after.rec.snapshots && after.rec.snapshots[r] == h;
  }

  lemma StillShown(hist: A.History, ev: A.Happening, content: int)
    requires A.HistInv(hist) && Shows(hist, content) && !ev.Fetch?
    ensures Shows(A.After(hist, ev), content)
  {
    var r :| r in hist.rec.snapshots && hist.rec.snapshots[r] == content && forall q :: q in hist.fetched ==> q <= r;
    var after := A.After(hist, ev);
    assert r in after.rec.snapshots && after.rec.snapshots[r] == content;
  }

  lemma LookStep(w: World, st: Step)
    requires A.HistInv(w.hist) && LookInv(w) && Enabled(w, st)
    ensures LookInv(Next(w, st))
  {
    if Admits(w, st) {
      var look := LookOf(w, st);
      if look.considered && look.verdict != A.OverBudget {
        AdmittedIsShown(w.hist, look.content, ForceOf(w, st.gen), st.gate);
      }
    } else if st.Turn? && w.last.Some? && w.last.value.considered && w.last.value.verdict != A.OverBudget {
      StillShown(w.hist, st.ev, w.last.value.content);
    }
  }

  // ----- resting -----

  predicate Idles(w: World) {
    w.item.row.Some? && w.item.row.value.phase == Idle
  }

  /** At rest, and with every edit reported, the last admission was given the item as it is. */
  ghost predicate Rested(w: World) {
    Idles(w) && !w.unreported ==> w.last.Some? && w.last.value.content == w.content
  }

  /** A requested review closes the row as ineligible with content that a reported edit has replaced. */
  predicate Overtakes(w: World, st: Step) {
    && Admits(w, st) && LookOf(w, st).verdict == A.IneligibleItem
    && !w.unreported && w.got[st.gen] != w.content
  }

  /** A step lets the row rest on old content exactly when it is such a close. */
  lemma RestExactly(w: World, st: Step)
    requires ItemInv(w.item) && GotInv(w) && Rested(w) && Enabled(w, st)
    ensures Rested(Next(w, st)) <==> !Overtakes(w, st)
  {
  }

  // ----- runs -----

  function New(content: int): World {
    World(R.NEW, A.NEW, content, false, map[], None)
  }

  ghost predicate Taken(ws: seq<World>, steps: seq<Step>, n: nat) {
    n < |steps| && n + 1 < |ws| && Enabled(ws[n], steps[n]) && ws[n + 1] == Next(ws[n], steps[n])
  }

  ghost predicate IsRun(ws: seq<World>, steps: seq<Step>) {
    && |ws| == |steps| + 1 && ws[0] == New(ws[0].content)
    && forall n :: 0 <= n < |steps| ==> Taken(ws, steps, n)
  }

  lemma StepInv(w: World, st: Step)
    requires WorldInv(w) && Enabled(w, st)
    ensures WorldInv(Next(w, st))
  {
    ItemStep(w, st);
    HistStep(w, st);
    GotStep(w, st);
    LookStep(w, st);
  }

  lemma {:induction false} RunInv(ws: seq<World>, steps: seq<Step>, n: nat)
    requires IsRun(ws, steps) && n < |ws|
    ensures WorldInv(ws[n])
  {
    if n > 0 {
      RunInv(ws, steps, n - 1);
      assert Taken(ws, steps, n - 1);
      StepInv(ws[n - 1], steps[n - 1]);
    }
  }

  /**
    In every run without such a close: when the row rests and every edit has been reported, the last admission
    was given the item as it is; and if the gates let it look and the budget did not stop it, that content is a
    revision of the turn, followed at most by prompts.
    */
  lemma {:induction false} RestShowsTheItem(ws: seq<World>, steps: seq<Step>, n: nat)
    requires IsRun(ws, steps) && n < |ws|
    requires forall m :: 0 <= m < n ==> !Overtakes(ws[m], steps[m])
    ensures WorldInv(ws[n]) && Rested(ws[n])
    ensures Idles(ws[n]) && !ws[n].unreported ==>
      var look := ws[n].last.value;
      look.considered && look.verdict != A.OverBudget ==> Shows(ws[n].hist, ws[n].content)
  {
    RunInv(ws, steps, n);
    if n > 0 {
      RestShowsTheItem(ws, steps, n - 1);
      assert Taken(ws, steps, n - 1);
      RestExactly(ws[n - 1], steps[n - 1]);
    }
  }

  lemma Longer(ws: seq<World>, steps: seq<Step>, st: Step)
    requires IsRun(ws, steps) && Enabled(ws[|steps|], st)
    ensures IsRun(ws + [Next(ws[|steps|], st)], steps + [st])
  {
    forall n | 0 <= n < |steps + [st]| ensures Taken(ws + [Next(ws[|steps|], st)], steps + [st], n) {
      assert n < |steps| ==> Taken(ws, steps, n);
    }
  }

  /** A first fetch has read the item. */
  ghost predicate HasRead(w: World, content: int) {
    && w.item.row.Some? && Owns(w.item.row.value, 1) && 1 in w.item.tokens && 1 in w.got && w.got[1] == content
    && w.hist == A.NEW
  }

  lemma RunToRead(content: int) returns (ws: seq<World>, steps: seq<Step>)
    ensures IsRun(ws, steps) && |steps| == 3 && HasRead(ws[3], content)
  {
    var a := Next(New(content), Event(false));
    var b := Next(a, Start(0, 1));
    var c := Next(b, Read(1));
    ws, steps := [New(content), a, b, c], [Event(false), Start(0, 1), Read(1)];
  }

  lemma RunToEdited(before: int, after: int) returns (ws: seq<World>, steps: seq<Step>)
    ensures IsRun(ws, steps) && |steps| == 5
    ensures HasRead(ws[5], before) && ws[5].content == after && !ws[5].unreported
  {
    ws, steps := RunToRead(before);
    Longer(ws, steps, Edit(after));
    var d := Next(ws[3], Edit(after));
    ws, steps := ws + [d], steps + [Edit(after)];
    Longer(ws, steps, Event(false));
    ws, steps := ws + [Next(d, Event(false))], steps + [Event(false)];
  }

  /** It happens: the item is edited and reported while a requested review looks at it, which is found ineligible and closes the row. */
  lemma OldContentCanRest(before: int, after: int, g: A.Gate) returns (ws: seq<World>, steps: seq<Step>)
    requires before != after && g.access && !g.eligible && g.enforce
    ensures IsRun(ws, steps) && |steps| == 6 && !Rested(ws[6])
  {
    ws, steps := RunToEdited(before, after);
    var e, st := ws[5], Return(1, false, g);
    RunInv(ws, steps, 5);
    assert Overtakes(e, st);
    assert Rested(e);
    RestExactly(e, st);
    Longer(ws, steps, st);
    ws, steps := ws + [Next(e, st)], steps + [st];
  }

  /** The background path enforces neither budget nor eligibility, so there it holds in every run and for every admission the gates let look. */
  lemma {:induction false} BackgroundShowsTheItem(ws: seq<World>, steps: seq<Step>, n: nat)
    requires IsRun(ws, steps) && n < |ws|
    requires forall m :: 0 <= m < |steps| && steps[m].Return? ==> !steps[m].gate.enforce
    ensures Rested(ws[n]) && (ws[n].last.Some? ==> ws[n].last.value.verdict == A.Kept || ws[n].last.value.verdict == A.Made)
    ensures Idles(ws[n]) && !ws[n].unreported && ws[n].last.value.considered ==> Shows(ws[n].hist, ws[n].content)
  {
    RunInv(ws, steps, n);
    if n > 0 {
      BackgroundShowsTheItem(ws, steps, n - 1);
      RunInv(ws, steps, n - 1);
      assert Taken(ws, steps, n - 1);
      RestExactly(ws[n - 1], steps[n - 1]);
    }
  }
}
