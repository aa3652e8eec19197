/** What every transaction on a turn keeps. */
module TurnInvariants {
  import opened Basics
  import opened Turns

  /** A steer number is a queue number exactly once the steer is promoted; only held rows are dropped. */
  ghost predicate QueueInv(w: Rows) {
    && (forall s :: s in w.steers ==>
          && (w.steers[s].promoted <==> s in w.queue)
          && (w.steers[s].promoted ==>
                !w.steers[s].acked && !w.queue[s].held && w.queue[s].prompt == w.steers[s].prompt))
    && (forall s :: s in w.queue && w.queue[s].dropped ==> w.queue[s].consumed && w.queue[s].held)
  }

  ghost predicate SteersUpTo(w: Rows, gen: nat) {
    forall s :: s in w.steers ==> w.steers[s].gen <= gen
  }

  predicate IsPrompt(w: Rows, r: nat) {
    r in w.revisions && w.revisions[r].FromPrompt?
  }

  predicate Applied(f: FollowUp) {
    f.consumed && !f.dropped
  }

  predicate AppliedAs(w: Rows, s: nat, r: nat) {
    s in w.queue && r in w.revisions && w.revisions[r] == FromPrompt(s, w.queue[s].prompt)
  }

  /** Every prompt that became a revision came before number `n`. */
  ghost predicate Behind(w: Rows, n: nat) {
    forall r :: IsPrompt(w, r) ==> w.revisions[r].seqNo < n
  }

  /** The saved revisions are exactly 1..pending, and each prompt revision is one applied row. */
  ghost predicate Numbered(w: Rows, pending: nat) {
    && (forall r :: r in w.revisions <==> 1 <= r <= pending)
    && (forall r :: IsPrompt(w, r) ==>
          AppliedAs(w, w.revisions[r].seqNo, r) && Applied(w.queue[w.revisions[r].seqNo]))
  }

  /** Prompts become revisions in queue order, and nothing that still waits was overtaken. */
  ghost predicate Ordered(w: Rows) {
    && (forall q, r :: IsPrompt(w, q) && IsPrompt(w, r) && q < r ==> w.revisions[q].seqNo < w.revisions[r].seqNo)
    && (forall n :: n in Waiting(w) ==> Behind(w, n))
    && (forall n :: n in Open(w) ==> Behind(w, n))
  }

  /** Every applied row has its revision. */
  ghost predicate Homed(w: Rows) {
    forall s :: s in w.queue && Applied(w.queue[s]) ==> exists r :: AppliedAs(w, s, r)
  }

  ghost predicate RowsInv(w: Rows, pending: nat) {
    QueueInv(w) && Numbered(w, pending) && Ordered(w) && Homed(w)
  }

  /** At most one receipt per generation, none beyond the current one, none for a live lease. */
  ghost predicate ReceiptInv(receipts: map<(nat, nat), ReceiptKind>, j: Job) {
    && (forall k :: k in receipts ==> 1 <= k.0 <= j.gen)
    && (forall k, l :: k in receipts && l in receipts && k.0 == l.0 ==> k == l)
    && (j.state == Leased ==> forall k :: k in receipts ==> k.0 < j.gen)
  }

  /** Nothing is owed and nothing waits. */
  ghost predicate Quiet(j: Job, w: Rows) {
    j.claimed == j.pending && Waiting(w) == {} && Open(w) == {}
  }

  ghost predicate JobInv(j: Job, w: Rows) {
    && j.claimed <= j.pending
    && 1 <= j.pending
    && (Owed(j) ==> j.retry == 0)
    && j.retry <= RETRY_LIMIT
    && (j.state == Queued || j.state == Leased ==> j.retry < RETRY_LIMIT)
    && (j.retry == RETRY_LIMIT || j.state == Completed ==> Quiet(j, w))
    && (j.state == Leased ==> 1 <= j.gen && 1 <= j.claimed && j.expires.Some? && j.deadline.Some?)
  }

  ghost predicate Inv(t: Turn) {
    && RowsInv(t.rows, t.job.pending)
    && SteersUpTo(t.rows, t.job.gen)
    && ReceiptInv(t.receipts, t.job)
    && JobInv(t.job, t.rows)
  }

  lemma FreshInv(lane: Lane)
    ensures Inv(Fresh(lane))
  {
  }

  // ----- the tables -----

  /** Rows may be added, held rows dropped and steers moved, as long as no revision and no applied row changes. */
  ghost predicate Moved(w: Rows, v: Rows) {
    && v.revisions == w.revisions
    && (forall s :: s in w.queue ==>
          s in v.queue && v.queue[s].prompt == w.queue[s].prompt && (Applied(w.queue[s]) <==> Applied(v.queue[s])))
    && (forall s :: s in v.queue && s !in w.queue ==> !v.queue[s].consumed)
    && (forall n :: n in Waiting(v) || n in Open(v) ==> n in Waiting(w) || n in Open(w) || Behind(w, n))
  }

  lemma MovedInv(w: Rows, v: Rows, pending: nat)
    requires RowsInv(w, pending) && Moved(w, v) && QueueInv(v)
    ensures RowsInv(v, pending)
  {
    forall r | IsPrompt(v, r)
      ensures IsPrompt(w, r) && AppliedAs(v, v.revisions[r].seqNo, r) && Applied(v.queue[v.revisions[r].seqNo])
    {
      assert IsPrompt(w, r);
    }
    forall n | n in Waiting(v) || n in Open(v) ensures Behind(v, n) {
      assert Behind(w, n);
    }
    forall s | s in v.queue && Applied(v.queue[s]) ensures exists r :: AppliedAs(v, s, r) {
      var r :| AppliedAs(w, s, r);
      assert AppliedAs(v, s, r);
    }
  }

  lemma PromoteSets(w: Rows, gen: nat)
    requires QueueInv(w) && SteersUpTo(w, gen)
    ensures OpenThrough(w, gen) == Open(w)
    ensures var v := Promote(w, gen);
      && QueueInv(v) && SteersUpTo(v, gen)
      && Open(v) == {} && Waiting(v) == Waiting(w) + Open(w)
  {
    assert OpenThrough(w, gen) == Open(w);
    assert forall s :: s in w.queue ==> s !in Open(w);
    var v := Promote(w, gen);
    assert Waiting(v) == Waiting(w) + Open(w);
  }

  /** Ending a lease promotes every open steer: afterwards none is open and all of them wait. */
  lemma PromoteInv(w: Rows, gen: nat, pending: nat)
    requires RowsInv(w, pending) && SteersUpTo(w, gen)
    ensures OpenThrough(w, gen) == Open(w)
    ensures var v := Promote(w, gen);
      && RowsInv(v, pending) && SteersUpTo(v, gen)
      && Open(v) == {} && Waiting(v) == Waiting(w) + Open(w)
  {
    PromoteSets(w, gen);
    assert forall s :: s in w.queue ==> s !in Open(w);
    MovedInv(w, Promote(w, gen), pending);
  }

  lemma ApplyOrdered(w: Rows, pending: nat)
    requires RowsInv(w, pending)
    requires Waiting(w) != {}
    requires forall o :: o in Open(w) ==> Min(Waiting(w)) <= o
    ensures var v := ApplyHead(w, pending + 1);
      && Ordered(v) && QueueInv(v)
      && Waiting(v) == Waiting(w) - {Min(Waiting(w))}
      && Open(v) == Open(w)
  {
    var s0 := Min(Waiting(w));
    var rev := pending + 1;
    var v := ApplyHead(w, rev);
    assert Waiting(v) == Waiting(w) - {s0};
    assert s0 !in Open(w);
    assert Behind(w, s0);
    forall n | n in Waiting(v) || n in Open(v) ensures Behind(v, n) {
      assert Behind(w, n);
      forall r | IsPrompt(v, r) ensures v.revisions[r].seqNo < n {
        if r != rev { assert IsPrompt(w, r); }
      }
    }
    forall q, r | IsPrompt(v, q) && IsPrompt(v, r) && q < r ensures v.revisions[q].seqNo < v.revisions[r].seqNo {
      assert IsPrompt(w, q);
      if r != rev { assert IsPrompt(w, r); }
    }
  }

  lemma ApplyNumbered(w: Rows, pending: nat)
    requires RowsInv(w, pending)
    requires Waiting(w) != {}
    ensures Numbered(ApplyHead(w, pending + 1), pending + 1) && Homed(ApplyHead(w, pending + 1))
  {
    var s0 := Min(Waiting(w));
    var rev := pending + 1;
    var v := ApplyHead(w, rev);
    assert rev !in w.revisions;
    assert AppliedAs(v, s0, rev);
    forall r | IsPrompt(v, r) ensures AppliedAs(v, v.revisions[r].seqNo, r) && Applied(v.queue[v.revisions[r].seqNo]) {
      if r != rev { assert IsPrompt(w, r); }
    }
    forall s | s in v.queue && Applied(v.queue[s]) ensures exists r :: AppliedAs(v, s, r) {
      if s != s0 {
        var r :| AppliedAs(w, s, r);
        assert AppliedAs(v, s, r);
      }
    }
  }

  lemma ApplyInv(w: Rows, pending: nat)
    requires RowsInv(w, pending)
    requires Waiting(w) != {}
    requires forall o :: o in Open(w) ==> Min(Waiting(w)) <= o
    ensures var v := ApplyHead(w, pending + 1);
      && RowsInv(v, pending + 1)
      && Waiting(v) == Waiting(w) - {Min(Waiting(w))}
      && Open(v) == Open(w)
  {
    ApplyOrdered(w, pending);
    ApplyNumbered(w, pending);
  }

  /** A new number is behind everything. */
  lemma NextSeqBehind(w: Rows, pending: nat)
    requires RowsInv(w, pending)
    ensures Behind(w, NextSeq(w)) && NextSeq(w) !in w.queue && NextSeq(w) !in w.steers
  {
  }

  lemma AddRowInv(w: Rows, f: FollowUp, pending: nat)
    requires RowsInv(w, pending) && !f.consumed && !f.dropped
    ensures var v := AddRow(w, f);
      RowsInv(v, pending) && Open(v) == Open(w) && Waiting(v) == Waiting(w) + {NextSeq(w)}
  {
    NextSeqBehind(w, pending);
    var v := AddRow(w, f);
    assert Waiting(v) == Waiting(w) + {NextSeq(w)};
    MovedInv(w, v, pending);
  }

  lemma AddSteerInv(w: Rows, gen: nat, text: string, pending: nat)
    requires RowsInv(w, pending)
    ensures RowsInv(AddSteer(w, gen, text), pending)
  {
    NextSeqBehind(w, pending);
    var v := AddSteer(w, gen, text);
    assert Open(v) == Open(w) + {NextSeq(w)};
    MovedInv(w, v, pending);
  }

  lemma DropRowsInv(w: Rows, pending: nat)
    requires RowsInv(w, pending)
    ensures var v := DropRows(w);
      && RowsInv(v, pending) && Open(v) == Open(w)
      && Waiting(v) == (set s | s in Waiting(w) && !w.queue[s].held)
      && (Waiting(w) == {} ==> v == w)
  {
    var v := DropRows(w);
    MovedInv(w, v, pending);
    if Waiting(w) == {} {
      forall s | s in w.queue ensures v.queue[s] == w.queue[s] { assert s !in Waiting(w); }
      assert v.queue == w.queue;
    }
  }

  /** Marking steers acknowledged, received or offered never reopens one. */
  lemma AcknowledgedRowsInv(w: Rows, gen: nat, ids: seq<nat>, pending: nat)
    requires RowsInv(w, pending) && SteersUpTo(w, gen) && Deliverable(w, gen, ids)
    ensures RowsInv(Acknowledged(w, ids), pending) && SteersUpTo(Acknowledged(w, ids), gen)
    ensures Waiting(Acknowledged(w, ids)) == Waiting(w) && Open(Acknowledged(w, ids)) == (set s | s in Open(w) && s !in ids)
  {
    MovedInv(w, Acknowledged(w, ids), pending);
  }

  lemma ReceivedRowsInv(w: Rows, gen: nat, ids: seq<nat>, pending: nat)
    requires RowsInv(w, pending) && SteersUpTo(w, gen) && Deliverable(w, gen, ids)
    ensures RowsInv(Received(w, ids), pending) && SteersUpTo(Received(w, ids), gen)
    ensures Waiting(Received(w, ids)) == Waiting(w) && Open(Received(w, ids)) == Open(w)
  {
    MovedInv(w, Received(w, ids), pending);
  }

  lemma OfferInv(w: Rows, gen: nat, pending: nat)
    requires RowsInv(w, pending) && SteersUpTo(w, gen)
    ensures RowsInv(OfferNext(w, gen), pending) && SteersUpTo(OfferNext(w, gen), gen)
    ensures Waiting(OfferNext(w, gen)) == Waiting(w) && Open(OfferNext(w, gen)) == Open(w)
  {
    assert Open(OfferNext(w, gen)) == Open(w);
    MovedInv(w, OfferNext(w, gen), pending);
  }

  lemma AdmitRowsInv(w: Rows, pending: nat)
    requires RowsInv(w, pending)
    ensures var v := w.(revisions := w.revisions[pending + 1 := Fetched]);
      RowsInv(v, pending + 1) && Waiting(v) == Waiting(w) && Open(v) == Open(w)
  {
    var v := w.(revisions := w.revisions[pending + 1 := Fetched]);
    forall r | IsPrompt(v, r) ensures IsPrompt(w, r) { }
    forall n | n in Waiting(v) || n in Open(v) ensures Behind(v, n) { assert Behind(w, n); }
    forall s | s in v.queue && Applied(v.queue[s]) ensures exists r :: AppliedAs(v, s, r) {
      var r :| AppliedAs(w, s, r);
      assert AppliedAs(v, s, r);
    }
  }

  // ----- the turn -----

  lemma StartHeadInv(t: Turn)
    requires RowsInv(t.rows, t.job.pending)
    ensures var u := StartHead(t);
      && RowsInv(u.rows, u.job.pending) && u.rows.steers == t.rows.steers
      && Open(u.rows) == Open(t.rows)
      && (HeadMayStart(t.job, t.rows) ==> Waiting(u.rows) == Waiting(t.rows) - {Min(Waiting(t.rows))})
  {
    if HeadMayStart(t.job, t.rows) {
      ApplyInv(t.rows, t.job.pending);
    }
  }

  lemma EndRowsInv(w: Rows, gen: nat, pending: nat, v: Verdict)
    requires RowsInv(w, pending) && SteersUpTo(w, gen)
    requires v == Advance ==> Waiting(w) + Open(w) != {}
    ensures var u := EndRows(w, gen, pending, v);
      && RowsInv(u, if v == Advance then pending + 1 else pending) && SteersUpTo(u, gen)
      && Open(u) == {}
      && (v != Advance ==> Waiting(u) == Waiting(w) + Open(w))
  {
    PromoteInv(w, gen, pending);
    if v == Advance {
      ApplyInv(Promote(w, gen), pending);
    }
  }

  /** The verdict sees the queue as it is once the steers have joined it. */
  lemma VerdictFacts(t: Turn, e: Ending)
    requires RowsInv(t.rows, t.job.pending) && SteersUpTo(t.rows, t.job.gen)
    ensures VerdictOn(t, e) == Rule(e, Owed(t.job), Open(t.rows) != {}, Waiting(t.rows) + Open(t.rows) != {}, t.job.retry + 1 >= RETRY_LIMIT)
    ensures VerdictOn(t, e) == Advance ==> Waiting(t.rows) + Open(t.rows) != {}
    ensures VerdictOn(t, e).Finish? ==> (e == Cancelling || Waiting(t.rows) + Open(t.rows) == {}) && !Owed(t.job)
  {
  }

  lemma EndJobInv(j: Job, e: Ending, steered: bool, waiting: bool, w: Rows, u: Rows)
    requires JobInv(j, w) && j.state == Leased && Open(u) == {}
    requires var v := Rule(e, Owed(j), steered, waiting, j.retry + 1 >= RETRY_LIMIT);
      v.Finish? && e != Cancelling ==> Waiting(u) == {}
    ensures var k := EndJob(j, e, Rule(e, Owed(j), steered, waiting, j.retry + 1 >= RETRY_LIMIT));
      JobInv(k, u) && k.state != Leased
  {
  }

  /** The receipt of the ending lease is the first of its generation. */
  lemma ReceiptedInv(t: Turn, e: Ending, v: Verdict)
    requires ReceiptInv(t.receipts, t.job) && t.job.state == Leased && 1 <= t.job.gen
    requires EndJob(t.job, e, v).state != Leased
    ensures ReceiptInv(Receipted(t, e), EndJob(t.job, e, v))
    ensures (t.job.gen, t.job.claimed) !in t.receipts
  {
  }

  lemma EndedInv(t: Turn, e: Ending, steered: bool, waiting: bool, u: Rows)
    requires Inv(t) && t.job.state == Leased
    requires var v := Rule(e, Owed(t.job), steered, waiting, t.job.retry + 1 >= RETRY_LIMIT);
      && RowsInv(u, if v == Advance then t.job.pending + 1 else t.job.pending)
      && SteersUpTo(u, t.job.gen) && Open(u) == {}
      && (v.Finish? && e != Cancelling ==> Waiting(u) == {})
    ensures var v := Rule(e, Owed(t.job), steered, waiting, t.job.retry + 1 >= RETRY_LIMIT);
      Inv(Turn(EndJob(t.job, e, v), u, Receipted(t, e))) && EndJob(t.job, e, v).state != Leased
  {
    EndJobInv(t.job, e, steered, waiting, t.rows, u);
    ReceiptedInv(t, e, Rule(e, Owed(t.job), steered, waiting, t.job.retry + 1 >= RETRY_LIMIT));
  }

  lemma EndLeaseInv(t: Turn, e: Ending)
    requires Inv(t) && t.job.state == Leased
    ensures Inv(EndLease(t, e))
    ensures EndLease(t, e).job.state != Leased
  {
    var v := VerdictOn(t, e);
    VerdictFacts(t, e);
    EndRowsInv(t.rows, t.job.gen, t.job.pending, v);
    EndedInv(t, e, Open(t.rows) != {}, Waiting(t.rows) + Open(t.rows) != {}, EndRows(t.rows, t.job.gen, t.job.pending, v));
  }

  lemma EnqueueInv(t: Turn, text: string, held: bool)
    requires Inv(t)
    ensures Inv(Enqueue(t, text, held))
  {
    var f := FollowUp(text, held, false, false);
    AddRowInv(t.rows, f, t.job.pending);
    var t0 := t.(rows := AddRow(t.rows, f));
    StartHeadInv(t0);
    if t.job.retry == RETRY_LIMIT || t.job.state == Completed {
      assert Waiting(t0.rows) == {NextSeq(t.rows)};
      assert HeadMayStart(t0.job, t0.rows);
    }
  }

  lemma DropQueuedInv(t: Turn)
    requires Inv(t)
    ensures Inv(DropQueued(t))
  {
    DropRowsInv(t.rows, t.job.pending);
    var t1 := t.(rows := DropRows(t.rows));
    StartHeadInv(t1);
  }

  lemma CancelTurnInv(t: Turn)
    requires Inv(t)
    ensures Inv(CancelTurn(t)) && CancelTurn(t).job.state != Leased
  {
    if t.job.state == Leased {
      EndLeaseInv(t, Cancelling);
    }
  }

  lemma DroppedInv(t: Turn)
    requires Inv(t)
    ensures Inv(t.(rows := DropRows(t.rows)))
  {
    DropRowsInv(t.rows, t.job.pending);
  }

  lemma AcknowledgedInv(t: Turn, ids: seq<nat>)
    requires Inv(t) && Deliverable(t.rows, t.job.gen, ids)
    ensures Inv(t.(rows := Acknowledged(t.rows, ids)))
  {
    AcknowledgedRowsInv(t.rows, t.job.gen, ids, t.job.pending);
  }

  lemma CompleteInv(t: Turn, gen: nat, claimed: nat, valid: bool, acks: seq<nat>, now: nat)
    requires Inv(t)
    ensures Inv(CompleteStep(t, gen, claimed, valid, acks, now).0)
  {
    if Holds(t.job, gen, claimed) {
      EndLeaseInv(t, Failing);
      if Deliverable(t.rows, gen, acks) {
        AcknowledgedInv(t, acks);
        EndLeaseInv(t.(rows := Acknowledged(t.rows, acks)), Completing);
      }
    }
  }

  lemma HeartbeatInv(t: Turn, gen: nat, claimed: nat, ids: seq<nat>, now: nat)
    requires Inv(t)
    ensures Inv(HeartbeatStep(t, gen, claimed, ids, now).0)
  {
    if Holds(t.job, gen, claimed) && Deliverable(t.rows, gen, ids) {
      ReceivedRowsInv(t.rows, gen, ids, t.job.pending);
      OfferInv(Received(t.rows, ids), gen, t.job.pending);
    }
  }

  lemma FailInv(t: Turn, gen: nat, claimed: nat, now: nat)
    requires Inv(t)
    ensures Inv(FailStep(t, gen, claimed, now).0)
  {
    if t.job.state == Leased {
      EndLeaseInv(t, Failing);
      EndLeaseInv(t, PastDeadline(false));
    }
  }

  lemma ExpireInv(t: Turn, now: nat)
    requires Inv(t)
    ensures Inv(ExpireStep(t, now).0)
  {
    if t.job.state == Leased {
      EndLeaseInv(t, Lapsing);
      EndLeaseInv(t, PastDeadline(true));
    }
  }

  lemma HaltInv(t: Turn, now: nat)
    requires Inv(t)
    ensures Inv(HaltStep(t, now).0)
  {
    if t.job.state == Leased { EndLeaseInv(t, Halting); }
  }

  lemma CancelInv(t: Turn, now: nat)
    requires Inv(t)
    ensures Inv(CancelStep(t, now).0)
  {
    DroppedInv(t);
    CancelTurnInv(t.(rows := DropRows(t.rows)));
  }

  lemma ArchiveInv(t: Turn, now: nat)
    requires Inv(t)
    ensures Inv(ArchiveStep(t, now).0)
  {
    CancelTurnInv(t);
  }

  lemma SteerInv(t: Turn, text: string, now: nat)
    requires Inv(t)
    ensures Inv(SteerStep(t, text, now).0)
  {
    if SteerIsLive(t.job, now) {
      AddSteerInv(t.rows, t.job.gen, text, t.job.pending);
    } else {
      EnqueueInv(t, text, false);
    }
  }

  lemma AdmitInv(t: Turn)
    requires Inv(t)
    ensures Inv(AdmitStep(t).0)
  {
    AdmitRowsInv(t.rows, t.job.pending);
  }

  lemma ClaimInv(t: Turn, exec: nat, now: nat)
    requires Inv(t)
    ensures Inv(ClaimStep(t, exec, now).0)
  {
  }

  lemma RequeueInv(t: Turn, gen: nat, claimed: nat)
    requires Inv(t)
    ensures Inv(RequeueStep(t, gen, claimed).0)
  {
  }

  lemma RetryInv(t: Turn)
    requires Inv(t)
    ensures Inv(RetryStep(t).0)
  {
  }

  /** A call that names a lease or is about to make one. */
  predicate OfLease(ev: Event) {
    ev.Claim? || ev.RequeueBusy? || ev.Heartbeat? || ev.Complete? || ev.Fail? || ev.Expire? || ev.Halt?
  }

  lemma LeaseStepInv(t: Turn, ev: Event, now: nat)
    requires Inv(t) && OfLease(ev)
    ensures Inv(Step(t, ev, now).0)
  {
    match ev {
      case Claim(exec) => ClaimInv(t, exec, now);
      case RequeueBusy(gen, claimed) => RequeueInv(t, gen, claimed);
      case Heartbeat(gen, claimed, ids) => HeartbeatInv(t, gen, claimed, ids, now);
      case Complete(gen, claimed, valid, acks) => CompleteInv(t, gen, claimed, valid, acks, now);
      case Fail(gen, claimed) => FailInv(t, gen, claimed, now);
      case Expire => ExpireInv(t, now);
      case Halt => HaltInv(t, now);
    }
  }

  /** Every transaction keeps the invariant. */
  lemma StepInv(t: Turn, ev: Event, now: nat)
    requires Inv(t)
    ensures Inv(Step(t, ev, now).0)
  {
    match ev {
      case OperatorRetry => RetryInv(t);
      case Cancel => CancelInv(t, now);
      case FailArchived => ArchiveInv(t, now);
      case Prompt(text, held) => EnqueueInv(t, text, held);
      case PromptSteer(text) => SteerInv(t, text, now);
      case DropHeld => DropQueuedInv(t);
      case Admit => AdmitInv(t);
      case _ => LeaseStepInv(t, ev, now);
    }
  }
}
