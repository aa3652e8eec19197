/** The retry budget and the receipts over whole runs of a turn. */
module TurnHistory {
  import opened Turns
  import opened TurnInvariants
  import opened TurnRuns

  // ----- the retry budget -----

  /** Tries used up on revision `rev` since the last operator retry. */
  function Tries(outs: seq<Outcome>, rev: nat): nat {
    if outs == [] then 0
    else
      var o := outs[|outs| - 1];
      var n := Tries(outs[..|outs| - 1], rev);
      if o.Retried? then 0
      else if o.Ended? && o.struck && o.rev == rev then n + 1
      else n
  }

  ghost predicate RetryShape(j: Job, k: Job, o: Outcome) {
    var advanced := k.pending == j.pending + 1 && k.retry == 0;
    if o.Retried? then k.pending == j.pending && k.retry == 0
    else if o.Ended? && o.struck then
      o.rev == j.pending && j.retry < RETRY_LIMIT && (advanced || (k.pending == j.pending && k.retry == j.retry + 1))
    else advanced || (k.pending == j.pending && k.retry == j.retry)
  }

  lemma EndRetryShape(t: Turn, e: Ending, now: nat)
    requires Inv(t) && t.job.state == Leased
    ensures RetryShape(t.job, EndLease(t, e).job, EndOutcome(t.job, e, now))
  {
  }

  lemma CompleteRetryShape(t: Turn, gen: nat, claimed: nat, valid: bool, acks: seq<nat>, now: nat)
    requires Inv(t)
    ensures var (u, o) := CompleteStep(t, gen, claimed, valid, acks, now); RetryShape(t.job, u.job, o)
  {
    if Holds(t.job, gen, claimed) {
      EndRetryShape(t, Failing, now);
      if Deliverable(t.rows, gen, acks) {
        AcknowledgedInv(t, acks);
        EndRetryShape(t.(rows := Acknowledged(t.rows, acks)), Completing, now);
      }
    }
  }

  lemma CancelTurnRetryShape(t: Turn, now: nat)
    requires Inv(t)
    ensures RetryShape(t.job, CancelTurn(t).job, if t.job.state == Leased then EndOutcome(t.job, Cancelling, now) else Other)
  {
    if t.job.state == Leased { EndRetryShape(t, Cancelling, now); }
  }

  lemma CancelRetryShape(t: Turn, now: nat)
    requires Inv(t)
    ensures var (u, o) := CancelStep(t, now); RetryShape(t.job, u.job, o)
  {
    DroppedInv(t);
    CancelTurnRetryShape(t.(rows := DropRows(t.rows)), now);
  }

  lemma ArchiveRetryShape(t: Turn, now: nat)
    requires Inv(t)
    ensures var (u, o) := ArchiveStep(t, now); RetryShape(t.job, u.job, o)
  {
    CancelTurnRetryShape(t, now);
  }

  lemma ExpireRetryShape(t: Turn, now: nat)
    requires Inv(t)
    ensures var (u, o) := ExpireStep(t, now); RetryShape(t.job, u.job, o)
  {
  }

  lemma HaltRetryShape(t: Turn, now: nat)
    requires Inv(t)
    ensures var (u, o) := HaltStep(t, now); RetryShape(t.job, u.job, o)
  {
  }

  lemma FailRetryShape(t: Turn, gen: nat, claimed: nat, now: nat)
    requires Inv(t)
    ensures var (u, o) := FailStep(t, gen, claimed, now); RetryShape(t.job, u.job, o)
  {
    if t.job.state == Leased {
      EndRetryShape(t, PastDeadline(false), now);
      EndRetryShape(t, Failing, now);
    }
  }

  lemma LeaseStepRetryShape(t: Turn, ev: Event, now: nat)
    requires Inv(t) && OfLease(ev)
    ensures RetryShape(t.job, Step(t, ev, now).0.job, Step(t, ev, now).1)
  {
    match ev {
      case Complete(gen, claimed, valid, acks) => CompleteRetryShape(t, gen, claimed, valid, acks, now);
      case Fail(gen, claimed) => FailRetryShape(t, gen, claimed, now);
      case Expire => ExpireRetryShape(t, now);
      case Halt => HaltRetryShape(t, now);
      case _ =>
    }
  }

  lemma StepRetryShape(t: Turn, ev: Event, now: nat)
    requires Inv(t)
    ensures RetryShape(t.job, Step(t, ev, now).0.job, Step(t, ev, now).1)
  {
    if OfLease(ev) {
      LeaseStepRetryShape(t, ev, now);
    } else if ev.Cancel? {
      CancelRetryShape(t, now);
    } else if ev.FailArchived? {
      ArchiveRetryShape(t, now);
    }
  }

  /**
    The stored count is the number of failed or lost leases of the pending revision since the last
    operator retry, no revision is ever charged more than RETRY_LIMIT of them, and a turn that may still
    run has been charged fewer.
    */
  lemma {:induction false} RetryBudget(lane: Lane, calls: seq<Call>, rev: nat)
    ensures var j := Run(Fresh(lane), calls).job;
      var n := Tries(Outcomes(Fresh(lane), calls), rev);
      && n <= RETRY_LIMIT
      && (rev == j.pending ==> n == j.retry)
      && (rev > j.pending ==> n == 0)
      && (j.state == Queued || j.state == Leased ==> j.retry < RETRY_LIMIT)
  {
    RunInv(lane, calls);
    if calls != [] {
      var init := calls[..|calls| - 1];
      var last := calls[|calls| - 1];
      RetryBudget(lane, init, rev);
      RunInv(lane, init);
      var t := Run(Fresh(lane), init);
      StepRetryShape(t, last.ev, last.at);
      var before := Outcomes(Fresh(lane), init);
      assert (before + [Step(t, last.ev, last.at).1])[..|before|] == before;
    }
  }

  // ----- receipts -----

  ghost predicate ReceiptsKept(t: Turn, u: Turn) {
    forall k :: k in t.receipts ==> k in u.receipts && u.receipts[k] == t.receipts[k]
  }

  lemma EndKeepsReceipts(t: Turn)
    requires Inv(t) && t.job.state == Leased
    ensures forall e :: ReceiptsKept(t, EndLease(t, e))
  {
  }

  lemma CompleteKeepsReceipts(t: Turn, gen: nat, claimed: nat, valid: bool, acks: seq<nat>, now: nat)
    requires Inv(t)
    ensures ReceiptsKept(t, CompleteStep(t, gen, claimed, valid, acks, now).0)
  {
  }

  lemma CancelKeepsReceipts(t: Turn, now: nat)
    requires Inv(t)
    ensures ReceiptsKept(t, CancelStep(t, now).0)
  {
  }

  lemma FailKeepsReceipts(t: Turn, gen: nat, claimed: nat, now: nat)
    requires Inv(t)
    ensures ReceiptsKept(t, FailStep(t, gen, claimed, now).0)
  {
  }

  lemma StopKeepsReceipts(t: Turn, now: nat)
    requires Inv(t)
    ensures ReceiptsKept(t, ExpireStep(t, now).0) && ReceiptsKept(t, HaltStep(t, now).0) && ReceiptsKept(t, ArchiveStep(t, now).0)
  {
    if t.job.state == Leased { EndKeepsReceipts(t); }
  }

  predicate MayEnd(ev: Event) {
    ev.Complete? || ev.Fail? || ev.Cancel? || ev.Expire? || ev.Halt? || ev.FailArchived?
  }

  lemma OthersStoreNone(t: Turn, ev: Event, now: nat)
    requires !MayEnd(ev)
    ensures Step(t, ev, now).0.receipts == t.receipts
  {
  }

  /** A receipt, once stored, is never changed or removed. */
  lemma StepKeepsReceipts(t: Turn, ev: Event, now: nat)
    requires Inv(t)
    ensures ReceiptsKept(t, Step(t, ev, now).0)
  {
    match ev {
      case Complete(gen, claimed, valid, acks) => CompleteKeepsReceipts(t, gen, claimed, valid, acks, now);
      case Fail(gen, claimed) => FailKeepsReceipts(t, gen, claimed, now);
      case Cancel => CancelKeepsReceipts(t, now);
      case Expire => StopKeepsReceipts(t, now);
      case Halt => StopKeepsReceipts(t, now);
      case FailArchived => StopKeepsReceipts(t, now);
      case _ => OthersStoreNone(t, ev, now);
    }
  }

  lemma {:induction false} RunKeepsReceipts(t: Turn, calls: seq<Call>)
    requires Inv(t)
    ensures Inv(Run(t, calls)) && ReceiptsKept(t, Run(t, calls))
  {
    if calls != [] {
      var init := calls[..|calls| - 1];
      RunKeepsReceipts(t, init);
      StepInv(Run(t, init), calls[|calls| - 1].ev, calls[|calls| - 1].at);
      StepKeepsReceipts(Run(t, init), calls[|calls| - 1].ev, calls[|calls| - 1].at);
    }
  }

  /**
    Whatever happens after a lease was decided, repeating the report returns the stored receipt and
    changes nothing: a completed lease answers every later completion, a decided one every later failure.
    */
  lemma ReportsReplay(t: Turn, gen: nat, claimed: nat, acks: seq<nat>, now: nat, later: seq<Call>,
                      valid: bool, acks': seq<nat>, now': nat)
    requires Inv(t)
    requires CompleteStep(t, gen, claimed, true, acks, now).1.Ended?
    ensures var v := Run(CompleteStep(t, gen, claimed, true, acks, now).0, later);
      && CompleteStep(v, gen, claimed, valid, acks', now') == (v, Replayed(CompleteReceipt))
      && FailStep(v, gen, claimed, now') == (v, Replayed(CompleteReceipt))
  {
    var u := CompleteStep(t, gen, claimed, true, acks, now).0;
    CompleteInv(t, gen, claimed, true, acks, now);
    assert u.receipts[(gen, claimed)] == CompleteReceipt;
    RunKeepsReceipts(u, later);
  }

  /** A call that names another lease than the live one changes nothing. */
  lemma OtherLeasesAreInert(t: Turn, gen: nat, claimed: nat, now: nat, ids: seq<nat>, valid: bool)
    requires !Holds(t.job, gen, claimed)
    ensures HeartbeatStep(t, gen, claimed, ids, now) == (t, Rejected)
    ensures RequeueStep(t, gen, claimed) == (t, Rejected)
    ensures CompleteStep(t, gen, claimed, valid, ids, now).0 == t
    ensures FailStep(t, gen, claimed, now).0 == t
    ensures !Ends(CompleteStep(t, gen, claimed, valid, ids, now).1) && !Ends(FailStep(t, gen, claimed, now).1)
  {
  }
}
