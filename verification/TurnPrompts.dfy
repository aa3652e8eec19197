/** Conservation and order of operator prompts and steers over whole runs of a turn. */
module TurnPrompts {
  import opened Turns
  import opened TurnInvariants
  import opened TurnRuns

  // ----- nothing is forgotten -----

  ghost predicate RowKept(f: FollowUp, g: FollowUp) {
    g.prompt == f.prompt && g.held == f.held && (f.consumed ==> g == f)
  }

  ghost predicate SteerKept(f: Steer, g: Steer) {
    && g.prompt == f.prompt && g.gen == f.gen
    && (f.acked ==> g.acked) && (f.promoted ==> g.promoted)
  }

  /** Rows, steers and revisions are only added or moved forward. */
  ghost predicate Grows(w: Rows, v: Rows) {
    && (forall s :: s in w.queue ==> s in v.queue && RowKept(w.queue[s], v.queue[s]))
    && (forall s :: s in w.steers ==> s in v.steers && SteerKept(w.steers[s], v.steers[s]))
    && (forall r :: r in w.revisions ==> r in v.revisions && v.revisions[r] == w.revisions[r])
  }

  lemma GrowsTrans(w: Rows, v: Rows, x: Rows)
    requires Grows(w, v) && Grows(v, x)
    ensures Grows(w, x)
  {
  }

  lemma PromoteGrows(w: Rows, gen: nat, pending: nat)
    requires RowsInv(w, pending) && SteersUpTo(w, gen)
    ensures Grows(w, Promote(w, gen))
  {
  }

  lemma ApplyGrows(w: Rows, pending: nat)
    requires RowsInv(w, pending) && Waiting(w) != {}
    ensures Grows(w, ApplyHead(w, pending + 1))
  {
  }

  lemma EndRowsGrow(w: Rows, gen: nat, pending: nat, v: Verdict)
    requires RowsInv(w, pending) && SteersUpTo(w, gen)
    ensures Grows(w, EndRows(w, gen, pending, v))
  {
    var p := Promote(w, gen);
    PromoteGrows(w, gen, pending);
    if v == Advance && Waiting(p) != {} {
      PromoteInv(w, gen, pending);
      ApplyGrows(p, pending);
      GrowsTrans(w, p, ApplyHead(p, pending + 1));
    }
  }

  lemma EndGrows(t: Turn, e: Ending)
    requires Inv(t)
    ensures Grows(t.rows, EndLease(t, e).rows)
  {
    EndRowsGrow(t.rows, t.job.gen, t.job.pending, VerdictOn(t, e));
  }

  lemma StartGrows(t: Turn)
    requires RowsInv(t.rows, t.job.pending)
    ensures Grows(t.rows, StartHead(t).rows)
  {
  }

  lemma EnqueueGrows(t: Turn, text: string, held: bool)
    requires Inv(t)
    ensures Grows(t.rows, Enqueue(t, text, held).rows)
  {
    var f := FollowUp(text, held, false, false);
    NextSeqBehind(t.rows, t.job.pending);
    AddRowInv(t.rows, f, t.job.pending);
    StartGrows(t.(rows := AddRow(t.rows, f)));
  }

  lemma DropGrows(t: Turn)
    requires Inv(t)
    ensures Grows(t.rows, DropRows(t.rows)) && Grows(t.rows, DropQueued(t).rows)
  {
    DropRowsInv(t.rows, t.job.pending);
    StartGrows(t.(rows := DropRows(t.rows)));
    GrowsTrans(t.rows, DropRows(t.rows), StartHead(t.(rows := DropRows(t.rows))).rows);
  }

  lemma CancelGrows(t: Turn)
    requires Inv(t)
    ensures Grows(t.rows, CancelTurn(t).rows)
  {
    EndGrows(t, Cancelling);
  }

  lemma AcknowledgedGrows(w: Rows, ids: seq<nat>)
    ensures Grows(w, Acknowledged(w, ids))
  {
  }

  lemma CompletingGrows(t: Turn, acks: seq<nat>)
    requires Inv(t) && Deliverable(t.rows, t.job.gen, acks)
    ensures Grows(t.rows, EndLease(t.(rows := Acknowledged(t.rows, acks)), Completing).rows)
  {
    AcknowledgedInv(t, acks);
    AcknowledgedGrows(t.rows, acks);
    var a := t.(rows := Acknowledged(t.rows, acks));
    EndGrows(a, Completing);
    GrowsTrans(t.rows, a.rows, EndLease(a, Completing).rows);
  }

  lemma CompleteGrows(t: Turn, gen: nat, claimed: nat, valid: bool, acks: seq<nat>, now: nat)
    requires Inv(t)
    ensures Grows(t.rows, CompleteStep(t, gen, claimed, valid, acks, now).0.rows)
  {
    if (gen, claimed) in t.receipts || !Holds(t.job, gen, claimed) || !LiveAt(t.job, now) {
      assert CompleteStep(t, gen, claimed, valid, acks, now).0 == t;
    } else if !valid {
      EndGrows(t, Failing);
    } else if Deliverable(t.rows, gen, acks) {
      CompletingGrows(t, acks);
    }
  }

  lemma FailGrows(t: Turn, gen: nat, claimed: nat, now: nat)
    requires Inv(t)
    ensures Grows(t.rows, FailStep(t, gen, claimed, now).0.rows)
  {
    if (gen, claimed) in t.receipts || !Holds(t.job, gen, claimed) {
      assert FailStep(t, gen, claimed, now).0 == t;
    } else if t.job.deadline.Some? && t.job.deadline.value <= now {
      EndGrows(t, PastDeadline(false));
    } else {
      EndGrows(t, Failing);
    }
  }

  lemma ExpireGrows(t: Turn, now: nat)
    requires Inv(t)
    ensures Grows(t.rows, ExpireStep(t, now).0.rows)
  {
    if t.job.deadline.Some? && t.job.deadline.value <= now {
      EndGrows(t, PastDeadline(true));
    } else {
      EndGrows(t, Lapsing);
    }
  }

  lemma HaltGrows(t: Turn, now: nat)
    requires Inv(t)
    ensures Grows(t.rows, HaltStep(t, now).0.rows)
  {
    EndGrows(t, Halting);
  }

  lemma HeartbeatGrows(t: Turn, gen: nat, claimed: nat, ids: seq<nat>, now: nat)
    ensures Grows(t.rows, HeartbeatStep(t, gen, claimed, ids, now).0.rows)
  {
  }

  lemma CancelStepGrows(t: Turn, now: nat)
    requires Inv(t)
    ensures Grows(t.rows, CancelStep(t, now).0.rows)
  {
    DroppedInv(t);
    DropGrows(t);
    var d := t.(rows := DropRows(t.rows));
    CancelGrows(d);
    GrowsTrans(t.rows, d.rows, CancelTurn(d).rows);
  }

  lemma SteerGrows(t: Turn, text: string, now: nat)
    requires Inv(t)
    ensures Grows(t.rows, SteerStep(t, text, now).0.rows)
  {
    NextSeqBehind(t.rows, t.job.pending);
    EnqueueGrows(t, text, false);
  }

  lemma AdmitGrows(t: Turn)
    requires Inv(t)
    ensures Grows(t.rows, AdmitStep(t).0.rows)
  {
  }

  lemma JobStepsKeepRows(t: Turn, ev: Event, now: nat)
    requires ev.Claim? || ev.RequeueBusy? || ev.OperatorRetry?
    ensures Step(t, ev, now).0.rows == t.rows
  {
  }

  lemma LeaseStepGrows(t: Turn, ev: Event, now: nat)
    requires Inv(t) && OfLease(ev)
    ensures Grows(t.rows, Step(t, ev, now).0.rows)
  {
    match ev {
      case Complete(gen, claimed, valid, acks) => CompleteGrows(t, gen, claimed, valid, acks, now);
      case Heartbeat(gen, claimed, ids) => HeartbeatGrows(t, gen, claimed, ids, now);
      case Fail(gen, claimed) => FailGrows(t, gen, claimed, now);
      case Expire => ExpireGrows(t, now);
      case Halt => HaltGrows(t, now);
      case _ => JobStepsKeepRows(t, ev, now);
    }
  }

  lemma StepGrows(t: Turn, ev: Event, now: nat)
    requires Inv(t)
    ensures Grows(t.rows, Step(t, ev, now).0.rows)
  {
    match ev {
      case Cancel => CancelStepGrows(t, now);
      case FailArchived => CancelGrows(t);
      case Prompt(text, held) => EnqueueGrows(t, text, held);
      case PromptSteer(text) => SteerGrows(t, text, now);
      case DropHeld => DropGrows(t);
      case Admit => AdmitGrows(t);
      case OperatorRetry => JobStepsKeepRows(t, ev, now);
      case _ => LeaseStepGrows(t, ev, now);
    }
  }

  lemma {:induction false} RunGrows(t: Turn, calls: seq<Call>)
    requires Inv(t)
    ensures Inv(Run(t, calls)) && Grows(t.rows, Run(t, calls).rows)
  {
    if calls != [] {
      var init := calls[..|calls| - 1];
      RunGrows(t, init);
      StepInv(Run(t, init), calls[|calls| - 1].ev, calls[|calls| - 1].at);
      StepGrows(Run(t, init), calls[|calls| - 1].ev, calls[|calls| - 1].at);
      GrowsTrans(t.rows, Run(t, init).rows, Run(t, calls).rows);
    }
  }

  // ----- every prompt has exactly one fate -----

  /** The row became exactly one revision. */
  ghost predicate RanOnce(w: Rows, s: nat) {
    exists r :: AppliedAs(w, s, r) && forall q :: AppliedAs(w, s, q) ==> q == r
  }

  ghost predicate NeverRan(w: Rows, s: nat) {
    forall r :: !AppliedAs(w, s, r)
  }

  /** Still waiting, or dropped (only if it was held), or exactly one revision; never two of these. */
  ghost predicate OneFate(w: Rows, s: nat) {
    && s in w.queue
    && (if !w.queue[s].consumed then NeverRan(w, s)
        else if w.queue[s].dropped then w.queue[s].held && NeverRan(w, s)
        else RanOnce(w, s))
  }

  lemma FateOf(w: Rows, pending: nat, s: nat)
    requires RowsInv(w, pending) && s in w.queue
    ensures OneFate(w, s)
  {
    forall r | AppliedAs(w, s, r) ensures Applied(w.queue[s]) { assert IsPrompt(w, r); }
    if Applied(w.queue[s]) {
      var r :| AppliedAs(w, s, r);
      forall q | AppliedAs(w, s, q) ensures q == r {
        assert IsPrompt(w, q) && IsPrompt(w, r);
      }
    }
  }

  lemma EnqueueStores(t: Turn, text: string, held: bool)
    requires Inv(t)
    ensures var u := Enqueue(t, text, held);
      var s := NextSeq(t.rows);
      s in u.rows.queue && u.rows.queue[s].prompt == text && u.rows.queue[s].held == held
  {
  }

  lemma LaterRow(u: Turn, later: seq<Call>, s: nat)
    requires Inv(u) && s in u.rows.queue
    ensures var v := Run(u, later);
      OneFate(v.rows, s) && RowKept(u.rows.queue[s], v.rows.queue[s]) && Ordered(v.rows)
  {
    RunGrows(u, later);
    var v := Run(u, later);
    FateOf(v.rows, v.job.pending, s);
  }

  /** A prompt `s` accepted earlier: its text and kind are unchanged, it has one fate, and order is kept. */
  ghost predicate PromptFate(w: Rows, s: nat, text: string, held: bool) {
    OneFate(w, s) && w.queue[s].prompt == text && w.queue[s].held == held && Ordered(w)
  }

  lemma AcceptedPrompt(t: Turn, text: string, held: bool, later: seq<Call>)
    requires Inv(t)
    ensures NextSeq(t.rows) !in t.rows.queue
    ensures PromptFate(Run(Enqueue(t, text, held), later).rows, NextSeq(t.rows), text, held)
  {
    NextSeqBehind(t.rows, t.job.pending);
    EnqueueStores(t, text, held);
    EnqueueInv(t, text, held);
    LaterRow(Enqueue(t, text, held), later, NextSeq(t.rows));
  }

  /**
    Prompt conservation. A prompt accepted into the queue keeps its text for ever; at every later
    moment it waits, or it is exactly one revision, or it was dropped, and that only if it was held.
    Prompt revisions are numbered in the order the prompts were accepted.
    */
  lemma PromptsAreConserved(lane: Lane, before: seq<Call>, at: nat, text: string, held: bool, later: seq<Call>)
    ensures var t := Run(Fresh(lane), before);
      && NextSeq(t.rows) !in t.rows.queue
      && PromptFate(Run(Step(t, Prompt(text, held), at).0, later).rows, NextSeq(t.rows), text, held)
  {
    RunInv(lane, before);
    AcceptedPrompt(Run(Fresh(lane), before), text, held, later);
  }

  /** The steer was acknowledged, or is open, or waits or ran once in the queue under its own number. */
  ghost predicate SteerFate(w: Rows, s: nat, text: string) {
    && s in w.steers && w.steers[s].prompt == text
    && (w.steers[s].promoted <==> s in w.queue)
    && !(w.steers[s].promoted && w.steers[s].acked)
    && (s in w.queue ==> OneFate(w, s) && w.queue[s].prompt == text && !w.queue[s].dropped)
  }

  lemma LaterSteer(u: Turn, later: seq<Call>, s: nat)
    requires Inv(u) && s in u.rows.steers
    ensures SteerFate(Run(u, later).rows, s, u.rows.steers[s].prompt)
  {
    RunGrows(u, later);
    var v := Run(u, later);
    if s in v.rows.queue { FateOf(v.rows, v.job.pending, s); }
  }

  /**
    Steer conservation. A steer accepted by a live lease is later acknowledged by the runner, or still
    open, or it joined the queue under its own number with its own text and has exactly one fate there;
    it is never dropped.
    */
  lemma SteersAreConserved(lane: Lane, before: seq<Call>, at: nat, text: string, later: seq<Call>)
    requires SteerIsLive(Run(Fresh(lane), before).job, at)
    ensures var t := Run(Fresh(lane), before);
      SteerFate(Run(Step(t, PromptSteer(text), at).0, later).rows, NextSeq(t.rows), text)
  {
    RunInv(lane, before);
    var t := Run(Fresh(lane), before);
    StepInv(t, PromptSteer(text), at);
    LaterSteer(Step(t, PromptSteer(text), at).0, later, NextSeq(t.rows));
  }
}
