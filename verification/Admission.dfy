/**
  Admitting fetched content: when it becomes a new revision of an item's review turn. Hashes are numbers;
  equal hashes mean equal content.
  */
module Admission {
  import opened Basics
  import opened Turns

  datatype ReviewJob = ReviewJob(pending: nat, state: State, retry: nat)

  /** An item's review turn, its snapshots by revision, and its evidence invalidations not yet consumed. */
  datatype Record = Record(job: Option<ReviewJob>, snapshots: map<nat, int>, unconsumed: nat)

  /** What the policy and the item's labels say: review access, tenant mismatch, advisory eligibility, the budget. */
  datatype Gate = Gate(access: bool, mismatch: bool, eligible: bool, enforce: bool, withinBudget: bool)

  datatype Admitted = Kept | Made | IneligibleItem | OverBudget | Aborted

  predicate HasPending(rec: Record) {
    rec.job.Some? && rec.job.value.pending > 0
  }

  function Revision(rec: Record): nat {
    if rec.job.Some? then rec.job.value.pending + 1 else 1
  }

  function LatestHash(rec: Record): Option<int> {
    if rec.snapshots == map[] then None else Some(rec.snapshots[Last(rec.snapshots.Keys)])
  }

  function Last(s: set<nat>): (m: nat)
    requires s != {}
    ensures m in s && forall x :: x in s ==> x <= m
  {
    assert exists m :: m in s && forall x :: x in s ==> x <= m by { var k := Greatest(s); }
    var m :| m in s && forall x :: x in s ==> x <= m;
    m
  }

  /** Content that is already the pending revision, or already settled, and that no invalidation asks to look at again. */
  predicate Known(rec: Record, h: int, force: bool) {
    && !(force && rec.unconsumed > 0)
    && if HasPending(rec) then rec.job.value.pending in rec.snapshots && rec.snapshots[rec.job.value.pending] == h
       else LatestHash(rec) == Some(h) && (rec.job.Some? ==> rec.job.value.state == Completed)
  }

  predicate Considered(rec: Record, g: Gate) {
    g.access && !(rec.job.Some? && g.mismatch) && (g.eligible || HasPending(rec))
  }

  /** The snapshots agree with the turn: its revisions are stored, and no later one is. */
  ghost predicate Sound(rec: Record) {
    forall r :: r in rec.snapshots <==> 1 <= r < Revision(rec)
  }

  /** The record after content `h` became a revision. */
  function Extended(rec: Record, h: int, force: bool): Record {
    var rev := Revision(rec);
    Record(Some(ReviewJob(rev, if rec.job.Some? && rec.job.value.state == Leased then Leased else Queued, 0)),
           rec.snapshots[rev := h],
           if force then 0 else rec.unconsumed)
  }

  /** What an admission answers, for a record whose snapshots agree with its turn. */
  function Verdict(rec: Record, h: int, asked: bool, g: Gate): Admitted {
    if !g.access || (rec.job.Some? && g.mismatch) then Kept
    else if !g.eligible && !HasPending(rec) then (if g.enforce then IneligibleItem else Kept)
    else if Known(rec, h, asked) then Kept
    else if g.enforce && !g.withinBudget then OverBudget
    else Made
  }

  method AdmitTx(rec: Record, h: int, asked: bool, g: Gate) returns (v: Admitted, next: Record)
    ensures v == Made ==> next == Extended(rec, h, asked && rec.unconsumed > 0)
    ensures v != Made ==> next == rec
    ensures Sound(rec) ==>
      && v == Verdict(rec, h, asked, g)
      && (v == Made <==> Considered(rec, g) && !Known(rec, h, asked) && (g.enforce ==> g.withinBudget))
    ensures v == IneligibleItem <==> g.enforce && g.access && !(rec.job.Some? && g.mismatch) && !g.eligible && !HasPending(rec)
    ensures v == OverBudget ==> g.enforce && !g.withinBudget
  {
    next := rec;
    if !g.access {
      return Kept, rec;
    }
    var force, consume := asked, false;
    if force {
      if rec.unconsumed == 0 {
        force := false;
      } else {
        consume := true;
      }
    }
    if rec.job.Some? && g.mismatch {
      return Kept, rec;
    }
    var unseen := rec.job.None? || rec.job.value.pending == 0;
    if !g.eligible && unseen {
      if g.enforce {
        return IneligibleItem, rec;
      }
      return Kept, rec;
    }
    if !unseen {
      if rec.job.value.pending !in rec.snapshots {
        return Aborted, rec;
      }
      if !force && rec.snapshots[rec.job.value.pending] == h {
        return Kept, rec;
      }
    } else if !force {
      if LatestHash(rec) == Some(h) && (rec.job.None? || rec.job.value.state == Completed) {
        return Kept, rec;
      }
    }
    if g.enforce && !g.withinBudget {
      return OverBudget, rec;
    }
    if consume {
      next := next.(unconsumed := 0);
    }
    var rev := 1;
    if rec.job.Some? {
      rev := rec.job.value.pending + 1;
    }
    if rev in rec.snapshots {
      return Aborted, rec;
    }
    next := next.(snapshots := next.snapshots[rev := h]);
    if rec.job.None? {
      next := next.(job := Some(ReviewJob(rev, Queued, 0)));
    } else {
      var j := rec.job.value.(pending := rev, retry := 0);
      if j.state != Leased {
        j := j.(state := Queued);
      }
      next := next.(job := Some(j));
    }
    return Made, next;
  }

  // ----- runs -----

  /** What happens to an item's review turn: fetches, prompts of the operator, invalidations, other changes of its state. */
  datatype Happening =
    | Fetch(h: int, asked: bool, gate: Gate)
    | Prompted(content: int)
    | Invalidate
    | Moved(state: State)

  /** A record with the revisions made by fetches, those of them made on an invalidation, and the invalidations raised. */
  datatype History = History(rec: Record, fetched: set<nat>, forced: set<nat>, raised: nat)

  predicate Makes(rec: Record, ev: Happening) {
    ev.Fetch? && Considered(rec, ev.gate) && !Known(rec, ev.h, ev.asked) && (ev.gate.enforce ==> ev.gate.withinBudget)
  }

  function After(hist: History, ev: Happening): History {
    match ev
    case Fetch(h, asked, _) =>
      if !Makes(hist.rec, ev) then hist
      else
        var rev, forced := Revision(hist.rec), asked && hist.rec.unconsumed > 0;
        hist.(rec := Extended(hist.rec, h, forced), fetched := hist.fetched + {rev},
              forced := if forced then hist.forced + {rev} else hist.forced)
    case Prompted(content) => if hist.rec.job.None? then hist else hist.(rec := Extended(hist.rec, content, false))
    case Invalidate => hist.(rec := hist.rec.(unconsumed := hist.rec.unconsumed + 1), raised := hist.raised + 1)
    case Moved(s) => if hist.rec.job.None? then hist else hist.(rec := hist.rec.(job := Some(hist.rec.job.value.(state := s))))
  }

  const NEW := History(Record(None, map[], 0), {}, {}, 0)

  function Replay(hist: History, evs: seq<Happening>): History {
    if evs == [] then hist else After(Replay(hist, evs[..|evs| - 1]), evs[|evs| - 1])
  }

  predicate Repeats(rec: Record, r: nat) {
    r in rec.snapshots && r - 1 in rec.snapshots && rec.snapshots[r - 1] == rec.snapshots[r]
  }

  /** A fetch repeats the content of the revision before only where an invalidation asked for it. */
  ghost predicate NoRepeats(hist: History) {
    forall r :: r in hist.fetched && Repeats(hist.rec, r) ==> r in hist.forced
  }

  /** Every forced revision is a fetch's and has used up an invalidation. */
  ghost predicate ForcedInv(hist: History) {
    && hist.forced <= hist.fetched
    && (forall r :: r in hist.fetched ==> 1 <= r < Revision(hist.rec))
    && |hist.forced| + (if hist.rec.unconsumed > 0 then 1 else 0) <= hist.raised
  }

  ghost predicate HistInv(hist: History) {
    Sound(hist.rec) && NoRepeats(hist) && ForcedInv(hist)
  }

  lemma SoundStep(hist: History, ev: Happening)
    requires Sound(hist.rec)
    ensures Sound(After(hist, ev).rec)
  {
  }

  lemma ForcedStep(hist: History, ev: Happening)
    requires ForcedInv(hist)
    ensures ForcedInv(After(hist, ev))
  {
    assert Revision(hist.rec) !in hist.forced;
  }

  lemma RepeatStep(hist: History, ev: Happening)
    requires Sound(hist.rec) && ForcedInv(hist) && NoRepeats(hist)
    ensures NoRepeats(After(hist, ev))
  {
  }

  /**
    Over any run, prompts included: revisions are stored without gaps, a fetch that repeats the revision
    before it was forced, and each forced one was paid for by an invalidation.
    */
  lemma {:induction false} RevisionsAreEarned(evs: seq<Happening>)
    ensures HistInv(Replay(NEW, evs))
  {
    if evs != [] {
      var before, ev := Replay(NEW, evs[..|evs| - 1]), evs[|evs| - 1];
      RevisionsAreEarned(evs[..|evs| - 1]);
      SoundStep(before, ev);
      ForcedStep(before, ev);
      RepeatStep(before, ev);
    }
  }

  /** The gates are open to a fetch of the item. */
  predicate Passes(rec: Record, g: Gate) {
    Considered(rec, g) && (g.enforce ==> g.withinBudget)
  }

  /**
    An item that has not changed since its last fetched revision `r`, fetched again unasked, becomes a
    revision exactly when the gates are open and the pending revision is a prompt's with other content.
    */
  lemma UnchangedItemExactly(evs: seq<Happening>, r: nat, g: Gate)
    requires var hist := Replay(NEW, evs); r in hist.fetched && forall q :: q in hist.fetched ==> q <= r
    ensures var hist := Replay(NEW, evs);
      && HasPending(hist.rec) && r in hist.rec.snapshots && hist.rec.job.value.pending in hist.rec.snapshots
      && var pending := hist.rec.job.value.pending;
         Makes(hist.rec, Fetch(hist.rec.snapshots[r], false, g)) <==>
         Passes(hist.rec, g) && pending !in hist.fetched && hist.rec.snapshots[pending] != hist.rec.snapshots[r]
  {
    RevisionsAreEarned(evs);
    var hist := Replay(NEW, evs);
    assert hist.rec.job.Some? && hist.rec.job.value.pending in hist.rec.snapshots;
    assert hist.rec.job.value.pending in hist.fetched ==> hist.rec.job.value.pending == r;
  }

  /** It happens: one prompt of other content, and the unchanged item becomes a revision with nobody asking. */
  lemma PromptRenewsUnchangedItem(h: int, p: int, g: Gate)
    requires h != p && g.access && g.eligible && !g.mismatch && !g.enforce
    ensures Makes(Replay(NEW, [Fetch(h, false, g), Prompted(p)]).rec, Fetch(h, false, g))
    ensures Replay(NEW, [Fetch(h, false, g), Prompted(p)]).raised == 0
  {
    var evs := [Fetch(h, false, g), Prompted(p)];
    assert evs[..1] == [Fetch(h, false, g)] && evs[..1][..0] == [];
    assert Makes(NEW.rec, evs[0]);
    var one := Replay(NEW, evs[..1]);
    assert Replay(NEW, evs[..1][..0]) == NEW;
    assert one == After(NEW, evs[0]);
    assert one.rec.job.value.pending == 1 && one.rec.snapshots[1] == h;
  }

  /** A happening that brings no other content. */
  predicate SameContent(ev: Happening, h: int) {
    !ev.Prompted? && (ev.Fetch? ==> ev.h == h)
  }

  lemma {:induction false} PendingStays(hist: History, between: seq<Happening>, h: int)
    requires Sound(hist.rec) && HasPending(hist.rec) && hist.rec.snapshots[hist.rec.job.value.pending] == h
    requires forall i :: 0 <= i < |between| ==> SameContent(between[i], h)
    ensures var rec := Replay(hist, between).rec;
      Sound(rec) && HasPending(rec) && rec.job.value.pending in rec.snapshots && rec.snapshots[rec.job.value.pending] == h
  {
    if between != [] {
      var init, last := between[..|between| - 1], between[|between| - 1];
      PendingStays(hist, init, h);
      SoundStep(Replay(hist, init), last);
      assert SameContent(last, h);
    }
  }

  /**
    After a fetch of `h` became a revision, and whatever else happens that brings no other content, fetching
    `h` again makes a revision exactly when it is asked for, an invalidation is open and the gates are open.
    */
  lemma RefetchIsQuiet(evs: seq<Happening>, h: int, asked: bool, gate: Gate, between: seq<Happening>, again: bool, later: Gate)
    requires Makes(Replay(NEW, evs).rec, Fetch(h, asked, gate))
    requires forall i :: 0 <= i < |between| ==> SameContent(between[i], h)
    ensures var rec := Replay(After(Replay(NEW, evs), Fetch(h, asked, gate)), between).rec;
      Makes(rec, Fetch(h, again, later)) <==> again && rec.unconsumed > 0 && Passes(rec, later)
  {
    var made := After(Replay(NEW, evs), Fetch(h, asked, gate));
    RevisionsAreEarned(evs);
    SoundStep(Replay(NEW, evs), Fetch(h, asked, gate));
    PendingStays(made, between, h);
  }
}
