/**
  Leases that were kept. A claim whose environment turns out to be busy gives its lease back at once, so a
  revision runs only if one of its leases is never given back.
  */
module TurnKept {
  import opened Turns
  import opened TurnInvariants
  import opened TurnRuns
  import opened TurnWork

  function KeptAfter(s: set<nat>, o: Outcome, r: nat): set<nat> {
    if o.Granted? && o.rev == r then s + {o.gen} else if o.Requeued? then s - {o.gen} else s
  }

  /** The generations leased for revision `r` and not given back. */
  function Kept(outs: seq<Outcome>, r: nat): set<nat> {
    if outs == [] then {} else KeptAfter(Kept(outs[..|outs| - 1], r), outs[|outs| - 1], r)
  }

  /**
    With this call revision `r` loses its last chance of a lease. Either it is pending without a kept lease
    and the next revision takes its place, or the next one already has and its only lease is given back.
    */
  predicate Forgoes(t: Turn, kept: set<nat>, ev: Event, now: nat, r: nat) {
    || (r == t.job.pending && kept == {} && TakesItsPlace(t, ev, now))
    || (r == t.job.claimed < t.job.pending && kept == {t.job.gen} && t.job.state == Leased
        && ev == RequeueBusy(t.job.gen, t.job.claimed))
  }

  /** An item is admitted or the head of the queue starts. */
  predicate TakesItsPlace(t: Turn, ev: Event, now: nat) {
    (ev == Admit && t.job.lane == ReviewLane) || StartsHead(t, ev, now)
  }

  ghost predicate ForgoneAt(lane: Lane, calls: seq<Call>, i: int, r: nat) {
    && 0 <= i < |calls|
    && Forgoes(Run(Fresh(lane), calls[..i]), Kept(Outcomes(Fresh(lane), calls[..i]), r), calls[i].ev, calls[i].at, r)
  }

  ghost predicate Forgone(lane: Lane, calls: seq<Call>, r: nat) {
    exists i :: ForgoneAt(lane, calls, i, r)
  }

  // ----- one step -----

  /** How a call moves the pending revision and what it says when it gives a lease back. */
  ghost predicate PlaceShape(t: Turn, u: Turn, o: Outcome, ev: Event, now: nat) {
    && (TakesItsPlace(t, ev, now) ==> u.job.pending == t.job.pending + 1 && o == Other)
    && (!TakesItsPlace(t, ev, now) && (t.job.state != Leased || Owed(t.job)) ==> u.job.pending == t.job.pending)
    && t.job.pending <= u.job.pending <= t.job.pending + 1
    && (o.Requeued? <==> t.job.state == Leased && ev == RequeueBusy(t.job.gen, t.job.claimed))
    && (o.Requeued? ==> u.job.pending == t.job.pending)
  }

  lemma QueuePlace(t: Turn, ev: Event, now: nat)
    requires QueueEvent(ev)
    ensures PlaceShape(t, Step(t, ev, now).0, Step(t, ev, now).1, ev, now)
  {
  }

  lemma EndPlace(t: Turn, ev: Event, now: nat)
    requires ev.Complete? || ev.Fail? || ev.Expire? || ev.Halt? || ev.Cancel? || ev.FailArchived?
    ensures PlaceShape(t, Step(t, ev, now).0, Step(t, ev, now).1, ev, now)
  {
    LeaseEventAdvance(t, ev, now);
  }

  lemma OtherPlace(t: Turn, ev: Event, now: nat)
    requires ev.Claim? || ev.RequeueBusy? || ev.Heartbeat? || ev.OperatorRetry?
    ensures PlaceShape(t, Step(t, ev, now).0, Step(t, ev, now).1, ev, now)
  {
  }

  lemma StepPlace(t: Turn, ev: Event, now: nat)
    ensures PlaceShape(t, Step(t, ev, now).0, Step(t, ev, now).1, ev, now)
  {
    if QueueEvent(ev) {
      QueuePlace(t, ev, now);
    } else if ev.Claim? || ev.RequeueBusy? || ev.Heartbeat? || ev.OperatorRetry? {
      OtherPlace(t, ev, now);
    } else {
      EndPlace(t, ev, now);
    }
  }

  /** What the job row says about the kept leases of revision `r`. */
  ghost predicate KeptInv(j: Job, s: set<nat>, lost: bool, r: nat) {
    && (forall g :: g in s ==> g <= j.gen)
    && (r > j.claimed ==> s == {})
    && (j.state == Leased ==> (j.gen in s <==> j.claimed == r))
    && (1 <= r < j.pending && s == {} ==> lost)
    && (lost ==> s == {} && 1 <= r < j.pending && !(j.state == Leased && j.claimed == r))
  }

  lemma KeptStep(t: Turn, u: Turn, o: Outcome, ev: Event, now: nat, s: set<nat>, lost: bool, r: nat)
    requires KeptInv(t.job, s, lost, r) && 1 <= r && t.job.claimed <= t.job.pending
    requires LeaseShape(t.job, u.job, o) && PlaceShape(t, u, o, ev, now)
    ensures KeptInv(u.job, KeptAfter(s, o, r), lost || Forgoes(t, s, ev, now, r), r)
  {
    if o.Requeued? && o.gen in s && s - {o.gen} == {} { assert s == {o.gen}; }
  }

  // ----- whole runs -----

  lemma {:induction false} KeptMore(outs: seq<Outcome>, o: Outcome, r: nat)
    ensures Kept(outs + [o], r) == KeptAfter(Kept(outs, r), o, r)
  {
    assert (outs + [o])[..|outs|] == outs;
  }

  lemma ForgoneStep(lane: Lane, init: seq<Call>, last: Call, r: nat)
    ensures Forgone(lane, init + [last], r) <==>
      || Forgone(lane, init, r)
      || Forgoes(Run(Fresh(lane), init), Kept(Outcomes(Fresh(lane), init), r), last.ev, last.at, r)
  {
    var calls := init + [last];
    assert calls[..|init|] == init;
    forall i | 0 <= i < |init| ensures ForgoneAt(lane, calls, i, r) <==> ForgoneAt(lane, init, i, r) {
      assert calls[..i] == init[..i];
    }
    assert ForgoneAt(lane, calls, |init|, r) <==>
      Forgoes(Run(Fresh(lane), init), Kept(Outcomes(Fresh(lane), init), r), last.ev, last.at, r);
    if Forgone(lane, calls, r) {
      var i :| ForgoneAt(lane, calls, i, r);
      assert i == |init| || ForgoneAt(lane, init, i, r);
    }
    if Forgone(lane, init, r) {
      var i :| ForgoneAt(lane, init, i, r);
      assert ForgoneAt(lane, calls, i, r);
    }
  }

  lemma {:induction false} RunKept(lane: Lane, calls: seq<Call>, r: nat)
    requires 1 <= r
    ensures KeptInv(Run(Fresh(lane), calls).job, Kept(Outcomes(Fresh(lane), calls), r), Forgone(lane, calls, r), r)
  {
    if calls != [] {
      var init := calls[..|calls| - 1];
      var last := calls[|calls| - 1];
      assert calls == init + [last];
      RunKept(lane, init, r);
      RunInv(lane, init);
      var t := Run(Fresh(lane), init);
      var (u, o) := Step(t, last.ev, last.at);
      StepShape(t, last.ev, last.at);
      StepPlace(t, last.ev, last.at);
      KeptMore(Outcomes(Fresh(lane), init), o, r);
      ForgoneStep(lane, init, last, r);
      KeptStep(t, u, o, last.ev, last.at, Kept(Outcomes(Fresh(lane), init), r), Forgone(lane, init, r), r);
    }
  }

  /** A revision that is behind the pending one has a lease that was kept exactly when no call forwent it. */
  lemma RevisionsKeepALease(lane: Lane, calls: seq<Call>, r: nat)
    requires 1 <= r < Run(Fresh(lane), calls).job.pending
    ensures Kept(Outcomes(Fresh(lane), calls), r) != {} <==> !Forgone(lane, calls, r)
  {
    RunKept(lane, calls, r);
  }

  lemma {:induction false} RunMore(t: Turn, init: seq<Call>, c: Call)
    ensures Run(t, init + [c]) == Step(Run(t, init), c.ev, c.at).0
    ensures Outcomes(t, init + [c]) == Outcomes(t, init) + [Step(Run(t, init), c.ev, c.at).1]
  {
    assert (init + [c])[..|init|] == init;
  }

  /** A claim that gives its lease back at once leaves the turn queued with nothing unclaimed and no kept lease. */
  lemma GivenBack(lane: Lane, exec: nat, at: nat)
    ensures var calls := [Call(at, Claim(exec)), Call(at, RequeueBusy(1, 1))];
      var t := Run(Fresh(lane), calls);
      && t.rows == Fresh(lane).rows && t.job.state == Queued && t.job.pending == t.job.claimed == 1
      && Kept(Outcomes(Fresh(lane), calls), 1) == {}
  {
    var claim, back := Call(at, Claim(exec)), Call(at, RequeueBusy(1, 1));
    RunMore(Fresh(lane), [], claim);
    assert [] + [claim] == [claim];
    RunMore(Fresh(lane), [claim], back);
    assert [claim] + [back] == [claim, back];
    var outs := Outcomes(Fresh(lane), [claim]);
    KeptMore([], outs[0], 1);
    KeptMore(outs, Outcomes(Fresh(lane), [claim, back])[1], 1);
  }

  /** With nothing unclaimed a follow-up to an empty queue starts at once. */
  lemma FollowUpStarts(t: Turn, text: string, at: nat)
    requires t.rows.queue == map[] && t.rows.steers == map[] && t.job.state == Queued && t.job.pending == t.job.claimed
    ensures var (u, o) := Step(t, Prompt(text, false), at);
      u.job.pending == t.job.pending + 1 && u.job.state == Queued && o == Other
  {
    var w := AddRow(t.rows, FollowUp(text, false, false, false));
    assert Waiting(w) == {NextSeq(t.rows)} && Open(w) == {};
    assert HeadMayStart(t.job, w);
  }

  /** It happens: a claim finds its environment busy, a follow-up arrives, and the revision that was given back never runs. */
  lemma BusyCanBePassedOver(lane: Lane, text: string, exec: nat, at: nat)
    ensures var calls := [Call(at, Claim(exec)), Call(at, RequeueBusy(1, 1))] + [Call(at, Prompt(text, false))] + [Call(at, Claim(exec))];
      var t := Run(Fresh(lane), calls);
      t.job.state == Leased && t.job.claimed == 2 && Kept(Outcomes(Fresh(lane), calls), 1) == {}
  {
    var given := [Call(at, Claim(exec)), Call(at, RequeueBusy(1, 1))];
    var prompt, claim := Call(at, Prompt(text, false)), Call(at, Claim(exec));
    GivenBack(lane, exec, at);
    var t := Run(Fresh(lane), given);
    FollowUpStarts(t, text, at);
    RunMore(Fresh(lane), given, prompt);
    RunMore(Fresh(lane), given + [prompt], claim);
    KeptMore(Outcomes(Fresh(lane), given), Other, 1);
    KeptMore(Outcomes(Fresh(lane), given + [prompt]), Outcomes(Fresh(lane), given + [prompt] + [claim])[3], 1);
  }
}
