/**
  Runs of one item's refresh row with everything that happens to it: events arriving, fetches starting
  and coming back at any later time, owners expiring, the plane restarting.
  */
module RefreshRuns {
  import opened Basics
  import opened Refresh

  /** A fetch that was started: how many events had been ingested then, and the force flag it read. */
  datatype Token = Token(seen: nat, asked: bool)

  /**
    The row and its history: events ingested, fetches started by generation, the events covered by a fetch
    that closed the row (`fetched`) and by one whose admission ran (`examined`), failures, closing generations,
    and whether a forced request has not reached an admission yet (`owing`).
    */
  datatype Item = Item(row: Option<Row>, events: nat, tokens: map<nat, Token>,
                       fetched: nat, examined: nat, failures: nat, closes: seq<nat>, owing: bool)

  datatype Step =
    | Ingest(force: bool)
    | Start(now: nat, ttl: nat)
    | Finish(gen: nat, f: Fetch)
    | Expire(now: nat)
    | Restart

  predicate Enabled(it: Item, st: Step) {
    match st
    case Ingest(_) => true
    case Start(now, _) => it.row.Some? && Due(it.row.value, now)
    case Finish(gen, _) => it.row.Some? && gen in it.tokens
    case Expire(_) => it.row.Some?
    case Restart => it.row.Some?
  }

  function Max(a: nat, b: nat): nat {
    if a < b then b else a
  }

  predicate Closes(it: Item, gen: nat, f: Fetch)
    requires it.row.Some?
  {
    Owns(it.row.value, gen) && f != FetchFailed
  }

  function Next(it: Item, st: Step): Item
    requires Enabled(it, st)
  {
    match st
    case Ingest(force) => it.(row := Some(Asked(it.row, force)), events := it.events + 1, owing := it.owing || force)
    case Start(now, ttl) =>
      var r := it.row.value;
      it.(row := Some(Taken(r, now, ttl)), tokens := it.tokens[r.gen + 1 := Token(it.events, r.force)])
    case Finish(gen, f) =>
      var r, t := it.row.value, it.tokens[gen];
      it.(row := Some(Closed(r, gen, t.asked, f)),
          fetched := if Closes(it, gen, f) then Max(it.fetched, t.seen) else it.fetched,
          examined := if Closes(it, gen, f) && f == AdmissionRan then Max(it.examined, t.seen) else it.examined,
          failures := if Owns(r, gen) && f == FetchFailed then it.failures + 1 else it.failures,
          closes := if Closes(it, gen, f) then it.closes + [gen] else it.closes,
          owing := it.owing && !(Closes(it, gen, f) && f == AdmissionRan && (t.asked || r.force)))
    case Expire(now) =>
      var r := it.row.value;
      it.(row := Some(Expired(r, now)), failures := if Dead(r, now) then it.failures + 1 else it.failures)
    case Restart => it.(row := Some(Restarted(it.row.value)))
  }

  // ----- what every step keeps -----

  ghost predicate RowInv(it: Item) {
    match it.row
    case None => it.events == 0 && it.tokens == map[] && it.failures == 0 && it.closes == []
    case Some(r) =>
      && (forall g :: g in it.tokens ==> g <= r.gen && it.tokens[g].seen <= it.events)
      && (r.owner ==> r.gen in it.tokens && it.fetched <= it.tokens[r.gen].seen)
      && (r.owner && !r.needs ==> it.tokens[r.gen].seen == it.events)
      && (r.phase == Idle ==> !r.owner)
      && (r.phase == Running ==> r.owner)
      && r.retry == it.failures
      && it.fetched <= it.events && it.examined <= it.fetched
  }

  /** Each generation closes at most once, in order. */
  ghost predicate ClosesInv(it: Item) {
    && (forall i, j :: 0 <= i < j < |it.closes| ==> it.closes[i] < it.closes[j])
    && (forall i :: 0 <= i < |it.closes| ==>
          it.row.Some? && it.closes[i] <= it.row.value.gen && (it.row.value.owner ==> it.closes[i] < it.row.value.gen))
  }

  lemma RowStep(it: Item, st: Step)
    requires RowInv(it) && Enabled(it, st) && (it.row.None? ==> it.fetched == 0 && it.examined == 0)
    ensures RowInv(Next(it, st)) && Next(it, st).row.Some?
  {
  }

  lemma ClosesStep(it: Item, st: Step)
    requires RowInv(it) && ClosesInv(it) && Enabled(it, st)
    ensures ClosesInv(Next(it, st))
  {
  }

  /** At rest, some fetch that began after the last event has closed the row. */
  predicate Rested(it: Item) {
    it.row.Some? && it.row.value.phase == Idle ==> it.fetched == it.events
  }

  /** A requested review found ineligible closes the row although an event came in after its fetch began. */
  predicate Overtakes(it: Item, st: Step)
    requires Enabled(it, st)
  {
    st.Finish? && st.f == Ineligible && Owns(it.row.value, st.gen) && it.tokens[st.gen].seen < it.events
  }

  /** A step loses a wakeup exactly when it is such a close. */
  lemma RestExactly(it: Item, st: Step)
    requires RowInv(it) && Rested(it) && Enabled(it, st)
    ensures Rested(Next(it, st)) <==> !Overtakes(it, st)
  {
  }

  /** The guard of the row that shuts those closes out: no other event is flagged. */
  lemma FlagShutsOut(it: Item, st: Step)
    requires RowInv(it) && Enabled(it, st) && it.row.Some? && !it.row.value.needs
    ensures !Overtakes(it, st)
  {
  }

  /** A forced request that has not reached an admission is still written on the row, and the row is not at rest. */
  predicate ForceKept(it: Item) {
    it.owing ==> it.row.Some? && it.row.value.force && it.row.value.phase != Idle
  }

  /** A step forgets a forced request exactly when it closes the row as ineligible. */
  lemma ForceExactly(it: Item, st: Step)
    requires RowInv(it) && ForceKept(it) && Enabled(it, st)
    ensures ForceKept(Next(it, st)) <==> !(it.owing && st.Finish? && st.f == Ineligible && Owns(it.row.value, st.gen))
  {
  }

  // ----- runs -----

  const NEW: Item := Item(None, 0, map[], 0, 0, 0, [], false)

  ghost predicate IsRun(its: seq<Item>, steps: seq<Step>) {
    && |its| == |steps| + 1 && its[0] == NEW
    && forall n {:trigger steps[n]} :: 0 <= n < |steps| ==> Enabled(its[n], steps[n]) && its[n + 1] == Next(its[n], steps[n])
  }

  /** The background path: the admission runs or the fetch fails; only a requested review enforces budget and eligibility. */
  predicate Background(st: Step) {
    st.Finish? ==> st.f == AdmissionRan || st.f == FetchFailed
  }

  lemma {:induction false} RunInv(its: seq<Item>, steps: seq<Step>, n: nat)
    requires IsRun(its, steps) && n <= |steps|
    ensures RowInv(its[n]) && ClosesInv(its[n]) && (n == 0 ==> its[n].fetched == 0 && its[n].examined == 0)
    ensures n > 0 ==> its[n].row.Some?
  {
    if n > 0 {
      RunInv(its, steps, n - 1);
      assert its[n - 1 + 1] == Next(its[n - 1], steps[n - 1]);
      RowStep(its[n - 1], steps[n - 1]);
      ClosesStep(its[n - 1], steps[n - 1]);
    }
  }

  /** Without an overtaking close no wakeup is lost, requested reviews included. */
  lemma {:induction false} NoLostWakeup(its: seq<Item>, steps: seq<Step>, n: nat)
    requires IsRun(its, steps) && n <= |steps|
    requires forall m :: 0 <= m < |steps| ==> !Overtakes(its[m], steps[m])
    ensures Rested(its[n])
  {
    if n > 0 {
      NoLostWakeup(its, steps, n - 1);
      RunInv(its, steps, n - 1);
      assert its[n - 1 + 1] == Next(its[n - 1], steps[n - 1]);
      RestExactly(its[n - 1], steps[n - 1]);
    }
  }

  /** On the background path the admission of an item at rest has run on a fetch begun after its last event. */
  lemma {:induction false} BackgroundCoversEveryEvent(its: seq<Item>, steps: seq<Step>, n: nat)
    requires IsRun(its, steps) && n <= |steps|
    requires forall m :: 0 <= m < |steps| ==> Background(steps[m])
    ensures its[n].row.Some? && its[n].row.value.phase == Idle ==> its[n].examined == its[n].events
  {
    if n > 0 {
      BackgroundCoversEveryEvent(its, steps, n - 1);
      RunInv(its, steps, n - 1);
      assert its[n - 1 + 1] == Next(its[n - 1], steps[n - 1]);
    }
  }

  /** An event ingested during a requested review that turns out ineligible: the row rests and the event is never fetched. */
  lemma WakeupCanBeLost()
    ensures exists its, steps :: IsRun(its, steps) && !Rested(its[|steps|])
  {
    var steps := [Ingest(false), Start(0, 1), Ingest(false), Finish(1, Ineligible)];
    var a := Next(NEW, steps[0]);
    var b := Next(a, steps[1]);
    var c := Next(b, steps[2]);
    var d := Next(c, steps[3]);
    var its := [NEW, a, b, c, d];
    assert IsRun(its, steps) && !Rested(its[|steps|]);
  }

  /** A fetch that no longer owns the row. */
  predicate Lost(it: Item, gen: nat) {
    it.row.Some? && gen in it.tokens && gen <= it.row.value.gen && !Owns(it.row.value, gen)
  }

  /** A fetch whose ownership is gone never gets it back and commits nothing, however late it returns. */
  lemma {:induction false} LateFetchCommitsNothing(its: seq<Item>, steps: seq<Step>, gen: nat, from: nat, n: nat)
    requires IsRun(its, steps) && from <= n <= |steps| && Lost(its[from], gen)
    ensures Lost(its[n], gen)
    ensures forall f :: Next(its[n], Finish(gen, f)) == its[n]
    decreases n
  {
    if from < n {
      LateFetchCommitsNothing(its, steps, gen, from, n - 1);
      assert its[n - 1 + 1] == Next(its[n - 1], steps[n - 1]);
    }
  }

  /** Each fetch closes the row at most once: its generation is never among the earlier ones. */
  lemma ClosesOnce(its: seq<Item>, steps: seq<Step>, n: nat)
    requires IsRun(its, steps) && n < |steps| && steps[n].Finish?
    ensures its[n + 1].closes != its[n].closes ==> steps[n].gen !in its[n].closes
  {
    RunInv(its, steps, n);
  }

  /** The retry count is never reset: it counts every failure and every expired owner of the row's whole life. */
  lemma RetriesAreForLife(its: seq<Item>, steps: seq<Step>, n: nat)
    requires IsRun(its, steps) && n < |steps|
    requires its[n].row.Some? && its[n + 1].failures > its[n].failures
    ensures var row := its[n + 1].row;
      row.Some? && row.value.phase == (if its[n + 1].failures >= RETRY_LIMIT then Failed else Queued)
  {
    RunInv(its, steps, n);
    assert its[n + 1] == Next(its[n], steps[n]);
  }

  /** On the background path every forced request reaches an admission that is told to force before the row rests. */
  lemma {:induction false} ForceReachesAdmission(its: seq<Item>, steps: seq<Step>, n: nat)
    requires IsRun(its, steps) && n <= |steps|
    requires forall m :: 0 <= m < |steps| ==> Background(steps[m])
    ensures ForceKept(its[n])
  {
    if n > 0 {
      ForceReachesAdmission(its, steps, n - 1);
      RunInv(its, steps, n - 1);
      assert its[n - 1 + 1] == Next(its[n - 1], steps[n - 1]);
      ForceExactly(its[n - 1], steps[n - 1]);
    }
  }
}
