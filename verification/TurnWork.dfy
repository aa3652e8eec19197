/**
  Which work a turn runs, and what is left when it stops.
  */
module TurnWork {
  import opened Basics
  import opened Turns
  import opened TurnInvariants
  import opened TurnRuns
  import opened TurnPrompts

  // ----- nothing is stranded by finishing -----

  lemma EndQuiet(t: Turn, e: Ending)
    requires Inv(t) && t.job.state == Leased && e != Cancelling
    requires EndLease(t, e).job.state == Completed || EndLease(t, e).job.state == Failed
    ensures Quiet(EndLease(t, e).job, EndLease(t, e).rows)
  {
  }

  lemma CompleteQuiet(t: Turn, gen: nat, claimed: nat, valid: bool, acks: seq<nat>, now: nat)
    requires Inv(t) && CompleteStep(t, gen, claimed, valid, acks, now).1.Ended?
    requires CompleteStep(t, gen, claimed, valid, acks, now).0.job.state != Queued
    ensures var u := CompleteStep(t, gen, claimed, valid, acks, now).0; Quiet(u.job, u.rows)
  {
  }

  /**
    No stranded work: a turn that stops because it completed, used up its tries or ran past its
    deadline has claimed its last revision, and no prompt and no steer is left.
    */
  lemma FinishedIsQuiet(t: Turn, ev: Event, now: nat)
    requires Inv(t)
    requires Step(t, ev, now).1.Ended? && Step(t, ev, now).1.how != Cancelling && Step(t, ev, now).1.how != Halting
    requires Step(t, ev, now).0.job.state != Queued
    ensures Quiet(Step(t, ev, now).0.job, Step(t, ev, now).0.rows)
  {
    match ev {
      case Complete(gen, claimed, valid, acks) => CompleteQuiet(t, gen, claimed, valid, acks, now);
      case Fail(gen, claimed) =>
        var e := Step(t, ev, now).1.how;
        EndLeaseInv(t, e);
        EndQuiet(t, e);
      case Expire =>
        var e := Step(t, ev, now).1.how;
        EndLeaseInv(t, e);
        EndQuiet(t, e);
      case _ =>
    }
  }

  ghost predicate FollowUpWaits(w: Rows) {
    exists s :: s in Waiting(w) && !w.queue[s].held
  }

  lemma CancelTurnStops(t: Turn)
    requires Inv(t) && t.job.state == Leased
    ensures var u := CancelTurn(t);
      && (u.job.state == Failed <==> !Owed(t.job) && Open(t.rows) == {})
      && (u.job.state == Failed ==> Waiting(u.rows) == Waiting(t.rows))
  {
  }

  /** A cancelled turn ends failed: always when it was queued, when nothing newer is owed and no steer is open when it was leased. */
  predicate CancelFails(t: Turn) {
    match t.job.state
    case Leased => !Owed(t.job) && Open(t.rows) == {}
    case Completed => false
    case _ => true
  }

  /** Prompts of a turn that nothing has run: rows that wait and steers that are open. */
  function Unrun(w: Rows): set<nat> {
    Waiting(w) + Open(w)
  }

  lemma DropLeavesFollowUps(w: Rows)
    ensures Waiting(DropRows(w)) != {} <==> FollowUpWaits(w)
  {
    if FollowUpWaits(w) {
      var s :| s in Waiting(w) && !w.queue[s].held;
      assert s in Waiting(DropRows(w));
    }
    if Waiting(DropRows(w)) != {} {
      var s :| s in Waiting(DropRows(w));
      assert s in Waiting(w) && !w.queue[s].held;
    }
  }

  /** In every state: a cancel leaves a follow-up behind a failed turn exactly when it fails the turn and one was waiting. */
  lemma CancelStrandsExactly(t: Turn, now: nat)
    requires Inv(t)
    ensures var u := CancelStep(t, now).0;
      && (u.job.state == Failed <==> CancelFails(t))
      && (u.job.state == Failed && Waiting(u.rows) != {} <==> CancelFails(t) && FollowUpWaits(t.rows))
      && (u.job.state == Failed && Unrun(u.rows) != {} <==> CancelFails(t) && (FollowUpWaits(t.rows) || Open(t.rows) != {}))
  {
    DroppedInv(t);
    DropRowsInv(t.rows, t.job.pending);
    DropLeavesFollowUps(t.rows);
    if t.job.state == Leased { CancelTurnStops(t.(rows := DropRows(t.rows))); }
  }

  lemma PromotedWaits(w: Rows, gen: nat)
    requires QueueInv(w) && SteersUpTo(w, gen)
    ensures Waiting(Promote(w, gen)) == Unrun(w)
  {
  }

  lemma AppliedWaits(w: Rows, rev: nat)
    requires Waiting(w) != {}
    ensures Waiting(ApplyHead(w, rev)) == Waiting(w) - {Min(Waiting(w))}
  {
  }

  /** What still waits when a lease was cancelled: everything unrun, but the prompt that became the next revision. */
  lemma CancelledWaits(t: Turn)
    requires Inv(t) && t.job.state == Leased
    ensures Waiting(EndLease(t, Cancelling).rows) ==
      if !Owed(t.job) && Open(t.rows) != {} then Unrun(t.rows) - {Min(Unrun(t.rows))} else Unrun(t.rows)
  {
    VerdictFacts(t, Cancelling);
    PromotedWaits(t.rows, t.job.gen);
    if !Owed(t.job) && Open(t.rows) != {} {
      AppliedWaits(Promote(t.rows, t.job.gen), t.job.pending + 1);
    }
  }

  /** An archived turn that was not completed is failed, and leaves every unrun prompt behind but the one that became its last revision. */
  lemma ArchiveStrandsExactly(t: Turn, now: nat)
    requires Inv(t)
    ensures var u := ArchiveStep(t, now).0;
      && (u.job.state == Failed <==> t.job.state != Completed)
      && Open(u.rows) == (if t.job.state == Leased then {} else Open(t.rows))
      && Waiting(u.rows) ==
         if t.job.state != Leased then Waiting(t.rows)
         else if !Owed(t.job) && Open(t.rows) != {} then Unrun(t.rows) - {Min(Unrun(t.rows))}
         else Unrun(t.rows)
  {
    if t.job.state == Leased { CancelledWaits(t); }
  }

  lemma HeldThenFollowUp(t: Turn, a: string, b: string)
    requires Inv(t) && t.job.state == Leased && Quiet(t.job, t.rows)
    ensures var u := Enqueue(Enqueue(t, a, true), b, false);
      u.job == t.job && Open(u.rows) == {} && FollowUpWaits(u.rows)
  {
    var f := FollowUp(a, true, false, false);
    AddRowInv(t.rows, f, t.job.pending);
    var t1 := t.(rows := AddRow(t.rows, f));
    var n := NextSeq(t.rows);
    assert Waiting(t1.rows) == {n} && Min(Waiting(t1.rows)) == n;
    assert Enqueue(t, a, true) == t1;
    var g := FollowUp(b, false, false, false);
    AddRowInv(t1.rows, g, t.job.pending);
    var t2 := t1.(rows := AddRow(t1.rows, g));
    var m := NextSeq(t1.rows);
    assert n in t1.rows.queue.Keys + t1.rows.steers.Keys;
    assert Waiting(t2.rows) == {n, m} && Min(Waiting(t2.rows)) == n;
    assert Enqueue(t1, b, false) == t2;
    assert m in Waiting(t2.rows) && !t2.rows.queue[m].held;
  }

  /** It happens: on any leased turn with nothing waiting, a held prompt, a follow-up behind it, then cancel. */
  lemma CancelCanStrand(t: Turn, a: string, b: string, now: nat)
    requires Inv(t) && t.job.state == Leased && Quiet(t.job, t.rows)
    ensures var u := CancelStep(Enqueue(Enqueue(t, a, true), b, false), now).0;
      u.job.state == Failed && Waiting(u.rows) != {}
  {
    HeldThenFollowUp(t, a, b);
    EnqueueInv(t, a, true);
    EnqueueInv(Enqueue(t, a, true), b, false);
    CancelStrandsExactly(Enqueue(Enqueue(t, a, true), b, false), now);
  }

  // ----- a held prompt waits for the lease to end -----

  lemma StartHeadHeld(t: Turn)
    requires RowsInv(t.rows, t.job.pending) && t.job.state == Leased
    ensures var u := StartHead(t);
      u.job.pending == t.job.pending ||
      (u.job.pending == t.job.pending + 1 && IsPrompt(u.rows, u.job.pending)
       && var s := u.rows.revisions[u.job.pending].seqNo; s in u.rows.queue && !u.rows.queue[s].held)
  {
  }

  /** While a lease stays live, only a fetched item or a prompt that is not held becomes the pending revision. */
  lemma HeldPromptsWait(t: Turn, ev: Event, now: nat)
    requires Inv(t) && t.job.state == Leased && Step(t, ev, now).0.job.state == Leased
    ensures var u := Step(t, ev, now).0;
      || u.job.pending == t.job.pending
      || (u.job.pending == t.job.pending + 1 && u.job.pending in u.rows.revisions
          && match u.rows.revisions[u.job.pending]
             case Fetched => ev == Admit
             case Opening => false
             case FromPrompt(s, _) => s in u.rows.queue && !u.rows.queue[s].held)
  {
    StepShape(t, ev, now);
    match ev {
      case Prompt(text, held) =>
        AddRowInv(t.rows, FollowUp(text, held, false, false), t.job.pending);
        StartHeadHeld(t.(rows := AddRow(t.rows, FollowUp(text, held, false, false))));
      case PromptSteer(text) =>
        AddRowInv(t.rows, FollowUp(text, false, false, false), t.job.pending);
        StartHeadHeld(t.(rows := AddRow(t.rows, FollowUp(text, false, false, false))));
      case DropHeld =>
        DropRowsInv(t.rows, t.job.pending);
        StartHeadHeld(t.(rows := DropRows(t.rows)));
      case _ =>
    }
  }

  // ----- which revisions are claimed -----

  ghost predicate GrantedRev(outs: seq<Outcome>, r: nat) {
    exists i :: 0 <= i < |outs| && outs[i].Granted? && outs[i].rev == r
  }

  /** Made from a prompt of the operator: the opening one or a queue row. */
  predicate Operators(w: Rows, r: nat) {
    r in w.revisions && w.revisions[r] != Fetched
  }

  /** The call lets the head of the queue start, by the guard it is checked against. */
  predicate StartsHead(t: Turn, ev: Event, now: nat) {
    match ev
    case Prompt(text, held) => HeadMayStart(t.job, AddRow(t.rows, FollowUp(text, held, false, false)))
    case PromptSteer(text) =>
      !SteerIsLive(t.job, now) && HeadMayStart(t.job, AddRow(t.rows, FollowUp(text, false, false, false)))
    case DropHeld => DropRows(t.rows) != t.rows && HeadMayStart(t.job, DropRows(t.rows))
    case _ => false
  }

  /**
    The call passes over the pending revision, which nobody has claimed: a fetched item is admitted over
    it, or it is the very first revision and the head of the queue starts.
    */
  predicate PassesOver(t: Turn, ev: Event, now: nat) {
    && Owed(t.job)
    && ((ev == Admit && t.job.lane == ReviewLane) || (t.job.claimed == 0 && t.job.pending == 1 && StartsHead(t, ev, now)))
  }

  ghost predicate SupersededAt(lane: Lane, calls: seq<Call>, i: int, r: nat) {
    && 0 <= i < |calls|
    && Run(Fresh(lane), calls[..i]).job.pending == r
    && PassesOver(Run(Fresh(lane), calls[..i]), calls[i].ev, calls[i].at)
  }

  ghost predicate Superseded(lane: Lane, calls: seq<Call>, r: nat) {
    exists i :: SupersededAt(lane, calls, i, r)
  }

  /** The pending revision moves by one, past a revision that is claimed or by a call that passes it over. */
  ghost predicate AdvanceShape(t: Turn, k: Job, ev: Event, now: nat) {
    && k.lane == t.job.lane
    && (k.pending == t.job.pending || (k.pending == t.job.pending + 1 && (!Owed(t.job) || PassesOver(t, ev, now))))
    && (PassesOver(t, ev, now) ==> k.pending == t.job.pending + 1)
  }

  /** Prompts, steers, drops and admissions. */
  predicate QueueEvent(ev: Event) {
    ev.Prompt? || ev.PromptSteer? || ev.DropHeld? || ev.Admit?
  }

  /** A step that is no queue event moves on only past a claimed revision. */
  ghost predicate MovesOnClaimed(j: Job, k: Job) {
    k.lane == j.lane && (k.pending == j.pending || (k.pending == j.pending + 1 && !Owed(j)))
  }

  lemma EndAdvance(t: Turn, e: Ending)
    ensures MovesOnClaimed(t.job, EndLease(t, e).job)
  {
  }

  lemma StopAdvance(t: Turn, gen: nat, claimed: nat, now: nat)
    ensures MovesOnClaimed(t.job, FailStep(t, gen, claimed, now).0.job)
    ensures MovesOnClaimed(t.job, ExpireStep(t, now).0.job)
    ensures MovesOnClaimed(t.job, HaltStep(t, now).0.job)
  {
  }

  lemma CancelAdvance(t: Turn, now: nat)
    ensures MovesOnClaimed(t.job, CancelStep(t, now).0.job)
    ensures MovesOnClaimed(t.job, ArchiveStep(t, now).0.job)
  {
  }

  lemma LeaseEventAdvance(t: Turn, ev: Event, now: nat)
    requires !QueueEvent(ev)
    ensures MovesOnClaimed(t.job, Step(t, ev, now).0.job)
  {
    match ev {
      case Complete(gen, claimed, valid, acks) =>
        EndAdvance(t, Failing);
        EndAdvance(t.(rows := Acknowledged(t.rows, acks)), Completing);
      case Fail(gen, claimed) => StopAdvance(t, gen, claimed, now);
      case Expire => StopAdvance(t, 0, 0, now);
      case Halt => StopAdvance(t, 0, 0, now);
      case Cancel => CancelAdvance(t, now);
      case FailArchived => CancelAdvance(t, now);
      case _ =>
    }
  }

  lemma StartAdvance(t: Turn)
    requires t.job.claimed <= t.job.pending
    ensures var k := StartHead(t).job;
      && k.lane == t.job.lane
      && k.pending == (if HeadMayStart(t.job, t.rows) then t.job.pending + 1 else t.job.pending)
    ensures HeadMayStart(t.job, t.rows) ==> !Owed(t.job) || (t.job.claimed == 0 && t.job.pending == 1)
  {
  }

  lemma QueueEventAdvance(t: Turn, ev: Event, now: nat)
    requires QueueEvent(ev) && t.job.claimed <= t.job.pending
    ensures AdvanceShape(t, Step(t, ev, now).0.job, ev, now)
  {
    match ev {
      case Prompt(text, held) => StartAdvance(t.(rows := AddRow(t.rows, FollowUp(text, held, false, false))));
      case PromptSteer(text) => StartAdvance(t.(rows := AddRow(t.rows, FollowUp(text, false, false, false))));
      case DropHeld => StartAdvance(t.(rows := DropRows(t.rows)));
      case Admit =>
    }
  }

  lemma StepAdvance(t: Turn, ev: Event, now: nat)
    requires t.job.claimed <= t.job.pending
    ensures AdvanceShape(t, Step(t, ev, now).0.job, ev, now)
  {
    if QueueEvent(ev) {
      QueueEventAdvance(t, ev, now);
    } else {
      LeaseEventAdvance(t, ev, now);
    }
  }

  /** What is known of revision `r`, given whether it was leased and whether it was superseded. */
  ghost predicate Known(t: Turn, r: nat, granted: bool, superseded: bool) {
    && (granted ==> r <= t.job.claimed)
    && (1 <= r == t.job.claimed ==> granted)
    && (1 <= r < t.job.pending && !granted ==> superseded)
    && (superseded ==> !granted && r < t.job.pending)
  }

  lemma KnownStep(t: Turn, u: Job, o: Outcome, ev: Event, now: nat, r: nat, granted: bool, superseded: bool)
    requires Known(t, r, granted, superseded) && t.job.claimed <= t.job.pending
    requires LeaseShape(t.job, u, o) && AdvanceShape(t, u, ev, now)
    requires PassesOver(t, ev, now) ==> !o.Granted?
    ensures Known(Turn(u, t.rows, t.receipts), r, granted || (o.Granted? && o.rev == r),
                  superseded || (PassesOver(t, ev, now) && t.job.pending == r))
  {
  }

  lemma SupersededStep(lane: Lane, init: seq<Call>, last: Call, r: nat)
    ensures Superseded(lane, init + [last], r) <==>
      || Superseded(lane, init, r)
      || (PassesOver(Run(Fresh(lane), init), last.ev, last.at) && Run(Fresh(lane), init).job.pending == r)
  {
    var calls := init + [last];
    assert calls[..|init|] == init;
    forall i | 0 <= i < |init| ensures SupersededAt(lane, calls, i, r) <==> SupersededAt(lane, init, i, r) {
      assert calls[..i] == init[..i];
    }
    assert SupersededAt(lane, calls, |init|, r) <==>
      PassesOver(Run(Fresh(lane), init), last.ev, last.at) && Run(Fresh(lane), init).job.pending == r;
    if Superseded(lane, calls, r) {
      var i :| SupersededAt(lane, calls, i, r);
      assert i == |init| || SupersededAt(lane, init, i, r);
    }
    if Superseded(lane, init, r) {
      var i :| SupersededAt(lane, init, i, r);
      assert SupersededAt(lane, calls, i, r);
    }
  }

  lemma GrantedRevStep(outs: seq<Outcome>, o: Outcome, r: nat)
    ensures GrantedRev(outs + [o], r) <==> GrantedRev(outs, r) || (o.Granted? && o.rev == r)
  {
    var outs' := outs + [o];
    assert outs'[|outs|] == o;
    if GrantedRev(outs, r) {
      var i :| 0 <= i < |outs| && outs[i].Granted? && outs[i].rev == r;
      assert outs'[i] == outs[i];
    }
  }

  lemma {:induction false} RunKnown(lane: Lane, calls: seq<Call>, r: nat)
    ensures Run(Fresh(lane), calls).job.lane == lane
    ensures Known(Run(Fresh(lane), calls), r, GrantedRev(Outcomes(Fresh(lane), calls), r), Superseded(lane, calls, r))
  {
    if calls != [] {
      var init := calls[..|calls| - 1];
      var last := calls[|calls| - 1];
      assert calls == init + [last];
      RunKnown(lane, init, r);
      RunInv(lane, init);
      var t := Run(Fresh(lane), init);
      var (u, o) := Step(t, last.ev, last.at);
      StepShape(t, last.ev, last.at);
      StepAdvance(t, last.ev, last.at);
      GrantedRevStep(Outcomes(Fresh(lane), init), o, r);
      SupersededStep(lane, init, last, r);
      KnownStep(t, u.job, o, last.ev, last.at, r, GrantedRev(Outcomes(Fresh(lane), init), r), Superseded(lane, init, r));
    }
  }

  /**
    A revision is leased before a later one takes its place exactly when no call passed it over: an item
    admitted over it while nobody had claimed it, or, for the first revision, a prompt that starts before
    the first claim.
    */
  lemma RevisionsRun(lane: Lane, calls: seq<Call>, r: nat)
    requires 1 <= r < Run(Fresh(lane), calls).job.pending
    ensures GrantedRev(Outcomes(Fresh(lane), calls), r) <==> !Superseded(lane, calls, r)
  {
    RunKnown(lane, calls, r);
  }

  lemma {:induction false} OnlyReviewsAdmit(lane: Lane, calls: seq<Call>, i: int, r: nat)
    requires SupersededAt(lane, calls, i, r)
    ensures lane == ReviewLane || r == 1
  {
    RunKnown(lane, calls[..i], r);
  }

  /** So every prompt of a run or scheduled turn but the opening one is leased; on a review turn exactly those with no item admitted over them. */
  lemma PromptRevisionsRun(lane: Lane, calls: seq<Call>, r: nat)
    requires Operators(Run(Fresh(lane), calls).rows, r) && r < Run(Fresh(lane), calls).job.pending
    ensures GrantedRev(Outcomes(Fresh(lane), calls), r) <==> !Superseded(lane, calls, r)
    ensures lane != ReviewLane && r != 1 ==> GrantedRev(Outcomes(Fresh(lane), calls), r)
  {
    RunInv(lane, calls);
    RevisionsRun(lane, calls, r);
    if Superseded(lane, calls, r) {
      var i :| SupersededAt(lane, calls, i, r);
      OnlyReviewsAdmit(lane, calls, i, r);
    }
  }

  /** It happens: a follow-up sent before the first claim takes the place of the opening prompt, which is never leased. */
  lemma OpeningCanBePassedOver(lane: Lane, text: string, exec: nat, at: nat)
    requires lane != ReviewLane
    ensures var calls := [Call(at, Prompt(text, false)), Call(at, Claim(exec))];
      var t := Run(Fresh(lane), calls);
      && 1 in t.rows.revisions && t.rows.revisions[1] == Opening && t.job.pending == 2 && t.job.claimed == 2
      && !GrantedRev(Outcomes(Fresh(lane), calls), 1) && Superseded(lane, calls, 1)
  {
    var calls := [Call(at, Prompt(text, false)), Call(at, Claim(exec))];
    var t0 := Fresh(lane);
    var f := FollowUp(text, false, false, false);
    var w := AddRow(t0.rows, f);
    assert Waiting(w) == {NextSeq(t0.rows)} && Open(w) == {};
    assert HeadMayStart(t0.job, w);
    assert calls[..0] == [] && calls[..1] == [calls[0]] && calls[..1][..0] == [];
    assert SupersededAt(lane, calls, 0, 1);
    var t1 := Step(t0, calls[0].ev, at).0;
    assert Run(t0, calls[..1]) == t1;
    assert Run(t0, calls) == Step(t1, calls[1].ev, at).0;
    RevisionsRun(lane, calls, 1);
  }
}
