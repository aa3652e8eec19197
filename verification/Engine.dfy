/**
  The transactions as the engine runs them: the job row is read into a local record, changed field by
  field, and written back when the transaction commits. Each one is proved to be the turn step it is
  named after, so the decision table and the invariants of the turn hold of this code.

  A store insert carries the table's UNIQUE constraint as its precondition; every caller discharges it,
  so no transaction is rolled back by a duplicate key.
  */
module Engine {
  import opened Basics
  import opened Turns
  import opened TurnInvariants

  // ----- the store -----

  function InsertReceipt(receipts: map<(nat, nat), ReceiptKind>, gen: nat, claimed: nat, kind: ReceiptKind)
    : map<(nat, nat), ReceiptKind>
    requires (gen, claimed) !in receipts
  {
    receipts[(gen, claimed) := kind]
  }

  function InsertFollowUpAt(w: Rows, s: nat, f: FollowUp): Rows
    requires s !in w.queue
  {
    w.(queue := w.queue[s := f])
  }

  function SaveSnapshot(w: Rows, rev: nat, from: Revision): Rows
    requires rev !in w.revisions
  {
    w.(revisions := w.revisions[rev := from])
  }

  lemma PromoteOneRow(w: Rows, q: set<nat>, s: nat)
    requires q <= w.steers.Keys && s in w.steers && s !in q && s !in w.queue
    ensures s !in PromoteSet(w, q).queue
    ensures PromoteSet(w, q + {s}).queue == PromoteSet(w, q).queue[s := FollowUp(w.steers[s].prompt, false, false, false)]
  {
  }

  lemma PromoteOneSteer(w: Rows, q: set<nat>, s: nat)
    requires q <= w.steers.Keys && s in w.steers && s !in q
    ensures s in PromoteSet(w, q).steers && PromoteSet(w, q).steers[s] == w.steers[s]
    ensures PromoteSet(w, q + {s}).steers == PromoteSet(w, q).steers[s := w.steers[s].(promoted := true)]
  {
  }

  lemma PromoteNone(w: Rows)
    ensures PromoteSet(w, {}) == w
  {
  }

  /** Moves the open steers of the turn into the queue one by one, lowest number first, and counts them. */
  method PromoteSteersTx(w: Rows, through: nat) returns (v: Rows, n: nat)
    requires QueueInv(w)
    ensures v == Promote(w, through)
    ensures n == |OpenThrough(w, through)|
  {
    var p := OpenThrough(w, through);
    var todo := p;
    v, n := w, 0;
    PromoteNone(w);
    assert p - todo == {};
    while todo != {}
      invariant todo <= p && n + |todo| == |p|
      invariant v == PromoteSet(w, p - todo)
    {
      var s := Min(todo);
      PromoteOneRow(w, p - todo, s);
      PromoteOneSteer(w, p - todo, s);
      assert p - todo + {s} == p - (todo - {s});
      v := InsertFollowUpAt(v, s, FollowUp(v.steers[s].prompt, false, false, false));
      v := v.(steers := v.steers[s := v.steers[s].(promoted := true)]);
      todo := todo - {s};
      n := n + 1;
    }
    assert p - todo == p;
  }

  // ----- the queue -----

  method ApplyFollowUpTx(j: Job, w: Rows, s: nat, prompt: string) returns (j': Job, w': Rows)
    requires s in w.queue && w.queue[s].prompt == prompt && j.pending + 1 !in w.revisions
    ensures j' == j.(pending := j.pending + 1, retry := 0)
    ensures w' == w.(queue := w.queue[s := w.queue[s].(consumed := true)],
                     revisions := w.revisions[j.pending + 1 := FromPrompt(s, prompt)])
  {
    var rev := j.pending + 1;
    w' := SaveSnapshot(w, rev, FromPrompt(s, prompt));
    w' := w'.(queue := w'.queue[s := w'.queue[s].(consumed := true)]);
    j' := j.(pending := rev);
    j' := j'.(retry := 0);
  }

  method ApplyNextFollowUpTx(j: Job, w: Rows) returns (j': Job, w': Rows)
    requires j.pending + 1 !in w.revisions
    ensures Waiting(w) == {} ==> j' == j && w' == w
    ensures Waiting(w) != {} ==> j' == j.(pending := j.pending + 1, retry := 0) && w' == ApplyHead(w, j.pending + 1)
  {
    if Waiting(w) == {} {
      return j, w;
    }
    var s := Min(Waiting(w));
    j', w' := ApplyFollowUpTx(j, w, s, w.queue[s].prompt);
  }

  method PromoteFollowUpTx(j: Job, w: Rows) returns (j': Job, w': Rows)
    requires j.pending + 1 !in w.revisions
    ensures HeadMayStart(j, w) ==> j' == j.(pending := j.pending + 1, retry := 0) && w' == ApplyHead(w, j.pending + 1)
    ensures !HeadMayStart(j, w) ==> j' == j && w' == w
  {
    j', w' := j, w;
    if Unclaimed(j) || Waiting(w) == {} {
      return;
    }
    var s := Min(Waiting(w));
    if w.queue[s].held && (j.state == Leased || j.state == Queued) {
      return;
    }
    if exists o :: o in Open(w) && o < s {
      return;
    }
    j', w' := ApplyFollowUpTx(j, w, s, w.queue[s].prompt);
  }

  method EnqueuePromptTx(t: Turn, prompt: string, held: bool) returns (u: Turn, s: nat)
    requires Inv(t)
    ensures u == Enqueue(t, prompt, held) && s == NextSeq(t.rows)
  {
    s := NextSeq(t.rows);
    NextSeqBehind(t.rows, t.job.pending);
    var j, w := t.job, InsertFollowUpAt(t.rows, s, FollowUp(prompt, held, false, false));
    j, w := PromoteFollowUpTx(j, w);
    if j.state != Leased {
      j := j.(state := Queued);
    }
    u := Turn(j, w, t.receipts);
  }

  // ----- the ends of a lease -----

  /** What a lease-ending transaction may rely on: a leased turn, numbers not in use, and what the steers will do to the queue. */
  ghost predicate EndFacts(t: Turn, e: Ending) {
    && t.job.state == Leased && QueueInv(t.rows)
    && VerdictOn(t, e) == Rule(e, Owed(t.job), Open(t.rows) != {}, Waiting(Promote(t.rows, t.job.gen)) != {}, t.job.retry + 1 >= RETRY_LIMIT)
    && ((|OpenThrough(t.rows, t.job.gen)| > 0) <==> Open(t.rows) != {})
    && (Open(t.rows) != {} ==> Waiting(Promote(t.rows, t.job.gen)) != {})
    && t.job.pending + 1 !in t.rows.revisions
    && (t.job.gen, t.job.claimed) !in t.receipts
    && (Owed(t.job) ==> t.job.retry == 0)
    && t.job.claimed <= t.job.pending
  }

  lemma InvGivesFacts(t: Turn, e: Ending)
    requires Inv(t) && t.job.state == Leased
    ensures EndFacts(t, e)
  {
    assert OpenThrough(t.rows, t.job.gen) == Open(t.rows);
  }

  method FinalizeFailureTx(t: Turn) returns (u: Turn)
    requires EndFacts(t, Failing)
    ensures u == EndLease(t, Failing)
  {
    var j := t.job;
    var receipts := InsertReceipt(t.receipts, j.gen, j.claimed, FailReceipt);
    var w, steers := PromoteSteersTx(t.rows, j.gen);
    if j.claimed < j.pending {
      j := j.(state := Queued);
      return Turn(j, w, receipts);
    }
    j := j.(retry := j.retry + 1);
    if steers > 0 || j.retry >= RETRY_LIMIT {
      var pending := j.pending;
      j, w := ApplyNextFollowUpTx(j, w);
      if j.pending > pending {
        j := j.(retry := 0);
        j := j.(state := Queued);
      } else {
        j := j.(state := Failed);
      }
    } else {
      j := j.(state := Queued);
    }
    u := Turn(j, w, receipts);
  }

  method FailClosedTx(t: Turn, bumpGeneration: bool) returns (u: Turn)
    requires EndFacts(t, PastDeadline(bumpGeneration))
    ensures u == EndLease(t, PastDeadline(bumpGeneration))
  {
    var j := t.job;
    var receipts := t.receipts;
    if (j.gen, j.claimed) in receipts {
      // A live lease has no receipt, of whatever kind.
      assert false;
    }
    receipts := InsertReceipt(receipts, j.gen, j.claimed, FailReceipt);
    var w, steers := PromoteSteersTx(t.rows, j.gen);
    if bumpGeneration {
      j := j.(gen := j.gen + 1);
    }
    if j.claimed < j.pending {
      j := j.(state := Queued);
      return Turn(j, w, receipts);
    }
    var pending := j.pending;
    j, w := ApplyNextFollowUpTx(j, w);
    if j.pending > pending {
      j := j.(retry := 0);
      j := j.(state := Queued);
      return Turn(j, w, receipts);
    }
    j := j.(state := Failed);
    u := Turn(j, w, receipts);
  }

  method CompleteLeaseTx(t: Turn) returns (u: Turn)
    requires EndFacts(t, Completing)
    ensures u == EndLease(t, Completing)
  {
    var j := t.job;
    var receipts := InsertReceipt(t.receipts, j.gen, j.claimed, CompleteReceipt);
    var w, steers := PromoteSteersTx(t.rows, j.gen);
    if j.claimed == j.pending {
      j, w := ApplyNextFollowUpTx(j, w);
      if j.claimed < j.pending {
        j := j.(state := Queued);
        return Turn(j, w, receipts);
      }
      j := j.(state := Completed);
      return Turn(j, w, receipts);
    }
    j := j.(state := Queued);
    u := Turn(j, w, receipts);
  }

  method ExpireLeaseTx(t: Turn, now: nat) returns (u: Turn)
    requires Inv(t)
    ensures u == ExpireStep(t, now).0
  {
    var j := t.job;
    if j.state != Leased {
      return t;
    }
    var expired := j.expires.Some? && j.expires.value <= now;
    var dead := j.deadline.Some? && j.deadline.value <= now;
    if !expired && !dead {
      return t;
    }
    if dead {
      InvGivesFacts(t, PastDeadline(true));
      u := FailClosedTx(t, true);
      return;
    }
    InvGivesFacts(t, Lapsing);
    u := LapseTx(t);
  }

  method LapseTx(t: Turn) returns (u: Turn)
    requires EndFacts(t, Lapsing)
    ensures u == EndLease(t, Lapsing)
  {
    var j := t.job;
    var previousGeneration := j.gen;
    var w, steers := PromoteSteersTx(t.rows, previousGeneration);
    if j.claimed == j.pending {
      j := j.(retry := j.retry + 1);
    }
    j := j.(gen := j.gen + 1);
    if steers > 0 {
      j := j.(retry := 0);
      j := j.(state := Queued);
      if j.claimed == j.pending {
        j, w := ApplyNextFollowUpTx(j, w);
      }
    } else if j.claimed == j.pending && j.retry >= RETRY_LIMIT {
      j, w := ApplyNextFollowUpTx(j, w);
      if j.claimed < j.pending {
        j := j.(retry := 0);
        j := j.(state := Queued);
      } else {
        j := j.(state := Failed);
      }
    } else {
      j := j.(state := Queued);
    }
    assert j == EndJob(t.job, Lapsing, VerdictOn(t, Lapsing));
    assert w == EndRows(t.rows, t.job.gen, t.job.pending, VerdictOn(t, Lapsing));
    u := Turn(j, w, t.receipts);
  }

  method CancelLeaseTx(t: Turn) returns (u: Turn)
    requires EndFacts(t, Cancelling)
    ensures u == EndLease(t, Cancelling)
  {
    var j := t.job;
    var receipts := InsertReceipt(t.receipts, j.gen, j.claimed, CancelledReceipt);
    var w, steers := PromoteSteersTx(t.rows, j.gen);
    ghost var v := VerdictOn(t, Cancelling);
    if j.claimed < j.pending {
      assert v == Requeue;
      j := j.(state := Queued);
    } else if steers > 0 {
      assert v == Advance;
      j := j.(state := Queued);
      j := j.(retry := 0);
      j, w := ApplyNextFollowUpTx(j, w);
    } else {
      assert v == Finish(Failed, false);
      j := j.(state := Failed);
    }
    assert w == EndRows(t.rows, t.job.gen, t.job.pending, v);
    u := Turn(j, w, receipts);
  }

  method CancelTurnTx(t: Turn) returns (u: Turn)
    requires Inv(t)
    ensures u == CancelTurn(t)
  {
    var j := t.job;
    if j.state == Queued {
      j := j.(state := Failed);
      return t.(job := j);
    }
    if j.state != Leased {
      return t;
    }
    InvGivesFacts(t, Cancelling);
    u := CancelLeaseTx(t);
  }

  method HaltLeaseTx(t: Turn) returns (u: Turn)
    requires EndFacts(t, Halting)
    ensures u == EndLease(t, Halting)
  {
    var j := t.job;
    var previousGeneration := j.gen;
    var receipts := InsertReceipt(t.receipts, previousGeneration, j.claimed, CancelledReceipt);
    var w, steers := PromoteSteersTx(t.rows, previousGeneration);
    j := j.(gen := j.gen + 1);
    j := j.(state := Queued);
    if steers > 0 {
      j := j.(retry := 0);
      if j.claimed == j.pending {
        j, w := ApplyNextFollowUpTx(j, w);
      }
    }
    assert j == EndJob(t.job, Halting, VerdictOn(t, Halting));
    assert w == EndRows(t.rows, t.job.gen, t.job.pending, VerdictOn(t, Halting));
    u := Turn(j, w, receipts);
  }

  method HaltTurnTx(t: Turn) returns (u: Turn)
    requires Inv(t) && t.job.state == Leased
    ensures u == HaltStep(t, 0).0
  {
    InvGivesFacts(t, Halting);
    u := HaltLeaseTx(t);
  }

  // ----- marking steers -----

  /** Marks each named steer, or reports that one of them was not offered to this lease. */
  method ReceiveSteersTx(w: Rows, gen: nat, ids: seq<nat>) returns (ok: bool, v: Rows)
    ensures ok == Deliverable(w, gen, ids)
    ensures ok ==> v == Received(w, ids)
  {
    v := w;
    for i := 0 to |ids|
      invariant v.queue == w.queue && v.revisions == w.revisions && v.steers.Keys == w.steers.Keys
      invariant Deliverable(w, gen, ids[..i])
      invariant forall s :: s in w.steers ==>
                  v.steers[s] == if s in ids[..i] then w.steers[s].(received := true) else w.steers[s]
    {
      var s := ids[i];
      if !(s in v.steers && v.steers[s].gen == gen && v.steers[s].offered && !v.steers[s].promoted) {
        return false, w;
      }
      v := v.(steers := v.steers[s := v.steers[s].(received := true)]);
      assert ids[..i + 1] == ids[..i] + [s];
    }
    assert ids[..|ids|] == ids;
    ok := true;
    assert v.steers == Received(w, ids).steers;
  }

  method AckSteersTx(w: Rows, gen: nat, ids: seq<nat>) returns (ok: bool, v: Rows)
    ensures ok == Deliverable(w, gen, ids)
    ensures ok ==> v == Acknowledged(w, ids)
  {
    v := w;
    for i := 0 to |ids|
      invariant v.queue == w.queue && v.revisions == w.revisions && v.steers.Keys == w.steers.Keys
      invariant Deliverable(w, gen, ids[..i])
      invariant forall s :: s in w.steers ==>
                  v.steers[s] == if s in ids[..i] then w.steers[s].(received := true, acked := true) else w.steers[s]
    {
      var s := ids[i];
      if !(s in v.steers && v.steers[s].gen == gen && v.steers[s].offered && !v.steers[s].promoted) {
        return false, w;
      }
      v := v.(steers := v.steers[s := v.steers[s].(received := true, acked := true)]);
      assert ids[..i + 1] == ids[..i] + [s];
    }
    assert ids[..|ids|] == ids;
    ok := true;
    assert v.steers == Acknowledged(w, ids).steers;
  }

  // ----- whole transactions on one turn -----

  method HeartbeatTx(t: Turn, gen: nat, claimed: nat, received: seq<nat>, now: nat) returns (u: Turn, out: Outcome)
    ensures (u, out) == HeartbeatStep(t, gen, claimed, received, now)
  {
    var j := t.job;
    if j.state != Leased || j.gen != gen || j.claimed != claimed {
      return t, Rejected;
    }
    if j.expires.Some? && j.expires.value <= now {
      return t, Rejected;
    }
    if j.deadline.Some? && j.deadline.value <= now {
      return t, Rejected;
    }
    var ok, w := ReceiveSteersTx(t.rows, gen, received);
    if !ok {
      return t, Rejected;
    }
    j := j.(expires := Some(now + LIVENESS));
    var next := Offerable(w, gen);
    if next != {} {
      var s := Min(next);
      w := w.(steers := w.steers[s := w.steers[s].(offered := true)]);
    }
    return Turn(j, w, t.receipts), Beat(gen, now);
  }

  method CompleteTx(t: Turn, gen: nat, claimed: nat, valid: bool, acks: seq<nat>, now: nat) returns (u: Turn, out: Outcome)
    requires Inv(t)
    ensures (u, out) == CompleteStep(t, gen, claimed, valid, acks, now)
  {
    if (gen, claimed) in t.receipts {
      return t, if t.receipts[(gen, claimed)] == CompleteReceipt then Replayed(CompleteReceipt) else Rejected;
    }
    if t.job.state != Leased || t.job.gen != gen || t.job.claimed != claimed {
      return t, Rejected;
    }
    if !LiveAt(t.job, now) {
      return t, Rejected;
    }
    if !valid {
      InvGivesFacts(t, Failing);
      u := FinalizeFailureTx(t);
      return u, EndOutcome(t.job, Failing, now);
    }
    var ok, w := AckSteersTx(t.rows, gen, acks);
    if !ok {
      return t, Rejected;
    }
    AcknowledgedInv(t, acks);
    InvGivesFacts(t.(rows := w), Completing);
    u := CompleteLeaseTx(t.(rows := w));
    out := EndOutcome(t.job, Completing, now);
  }

  method FailTx(t: Turn, gen: nat, claimed: nat, now: nat) returns (u: Turn, out: Outcome)
    requires Inv(t)
    ensures (u, out) == FailStep(t, gen, claimed, now)
  {
    if (gen, claimed) in t.receipts {
      return t, Replayed(t.receipts[(gen, claimed)]);
    }
    if t.job.state != Leased || t.job.gen != gen || t.job.claimed != claimed {
      return t, Rejected;
    }
    if t.job.deadline.Some? && t.job.deadline.value <= now {
      InvGivesFacts(t, PastDeadline(false));
      u := FailClosedTx(t, false);
      return u, EndOutcome(t.job, PastDeadline(false), now);
    }
    if t.job.expires.Some? && t.job.expires.value <= now {
      return t, Rejected;
    }
    InvGivesFacts(t, Failing);
    u := FinalizeFailureTx(t);
    out := EndOutcome(t.job, Failing, now);
  }

  /** The prompts an update of all held, unstarted rows touches. */
  function HeldWaiting(w: Rows): set<nat> {
    set s | s in Waiting(w) && w.queue[s].held
  }

  lemma NothingHeld(w: Rows)
    ensures DropRows(w) == w <==> HeldWaiting(w) == {}
  {
    if HeldWaiting(w) == {} {
      forall s | s in w.queue ensures DropRows(w).queue[s] == w.queue[s] { assert s !in HeldWaiting(w); }
      assert DropRows(w).queue == w.queue;
    }
    if DropRows(w) == w {
      forall s | s in w.queue ensures s !in HeldWaiting(w) { assert DropRows(w).queue[s] == w.queue[s]; }
    }
  }

  method DropQueuedPromptsTx(t: Turn) returns (u: Turn, n: nat)
    requires Inv(t)
    ensures u == DropQueued(t) && n == |HeldWaiting(t.rows)|
  {
    NothingHeld(t.rows);
    n := |HeldWaiting(t.rows)|;
    if n == 0 {
      return t, 0;
    }
    var w := DropRows(t.rows);
    assert t.job.pending + 1 !in w.revisions;
    var j, before := t.job, t.job.pending;
    j, w := PromoteFollowUpTx(j, w);
    if j.pending == before {
      return t.(rows := w), n;
    }
    if j.state != Leased {
      j := j.(state := Queued);
    }
    u := Turn(j, w, t.receipts);
  }

  method PromptSteerTx(t: Turn, prompt: string, now: nat) returns (u: Turn, live: bool)
    requires Inv(t)
    ensures u == SteerStep(t, prompt, now).0 && live == SteerIsLive(t.job, now)
  {
    var j := t.job;
    live := j.state == Leased && j.gen > 0 && j.expires.Some? && now < j.expires.value
            && j.deadline.Some? && now < j.deadline.value;
    if live {
      return t.(rows := AddSteer(t.rows, j.gen, prompt)), live;
    }
    var s;
    u, s := EnqueuePromptTx(t, prompt, false);
  }

  // ----- the engine -----

  class Engine {
    var turns: map<int, Turn>

    ghost predicate Valid()
      reads this
    {
      forall id :: id in turns ==> Inv(turns[id])
    }

    constructor ()
      ensures Valid() && turns == map[]
    {
      turns := map[];
    }

    method Insert(id: int, lane: Lane)
      requires Valid() && id !in turns
      modifies this
      ensures Valid() && turns == old(turns)[id := Fresh(lane)]
    {
      FreshInv(lane);
      turns := turns[id := Fresh(lane)];
    }

    method Heartbeat(id: int, gen: nat, claimed: nat, received: seq<nat>, now: nat) returns (out: Outcome)
      requires Valid()
      modifies this
      ensures Valid()
      ensures id !in old(turns) ==> turns == old(turns) && out == Rejected
      ensures id in old(turns) ==>
        turns == old(turns)[id := HeartbeatStep(old(turns)[id], gen, claimed, received, now).0]
        && out == HeartbeatStep(old(turns)[id], gen, claimed, received, now).1
    {
      if id !in turns {
        return Rejected;
      }
      HeartbeatInv(turns[id], gen, claimed, received, now);
      var u;
      u, out := HeartbeatTx(turns[id], gen, claimed, received, now);
      turns := turns[id := u];
    }

    method Complete(id: int, gen: nat, claimed: nat, valid: bool, acks: seq<nat>, now: nat) returns (out: Outcome)
      requires Valid()
      modifies this
      ensures Valid()
      ensures id !in old(turns) ==> turns == old(turns) && out == Rejected
      ensures id in old(turns) ==>
        turns == old(turns)[id := CompleteStep(old(turns)[id], gen, claimed, valid, acks, now).0]
        && out == CompleteStep(old(turns)[id], gen, claimed, valid, acks, now).1
    {
      if id !in turns {
        return Rejected;
      }
      CompleteInv(turns[id], gen, claimed, valid, acks, now);
      var u;
      u, out := CompleteTx(turns[id], gen, claimed, valid, acks, now);
      turns := turns[id := u];
    }

    method Fail(id: int, gen: nat, claimed: nat, now: nat) returns (out: Outcome)
      requires Valid()
      modifies this
      ensures Valid()
      ensures id !in old(turns) ==> turns == old(turns) && out == Rejected
      ensures id in old(turns) ==>
        turns == old(turns)[id := FailStep(old(turns)[id], gen, claimed, now).0]
        && out == FailStep(old(turns)[id], gen, claimed, now).1
    {
      if id !in turns {
        return Rejected;
      }
      FailInv(turns[id], gen, claimed, now);
      var u;
      u, out := FailTx(turns[id], gen, claimed, now);
      turns := turns[id := u];
    }

    /** A claim whose environment turned out busy gives its own lease back, and no other. */
    method RequeueBusy(id: int, gen: nat, claimed: nat) returns (out: Outcome)
      requires Valid()
      modifies this
      ensures Valid()
      ensures id !in old(turns) ==> turns == old(turns) && out == Rejected
      ensures id in old(turns) ==>
        turns == old(turns)[id := RequeueStep(old(turns)[id], gen, claimed).0]
        && out == RequeueStep(old(turns)[id], gen, claimed).1
    {
      if id !in turns {
        return Rejected;
      }
      RequeueInv(turns[id], gen, claimed);
      var j := turns[id].job;
      if j.state != Leased || j.gen != gen || j.claimed != claimed {
        assert turns[id := turns[id]] == turns;
        return Rejected;
      }
      j := j.(state := Queued);
      j := j.(expires := None);
      j := j.(deadline := None);
      turns := turns[id := turns[id].(job := j)];
      return Requeued(gen);
    }

    method Expire(id: int, now: nat)
      requires Valid() && id in turns
      modifies this
      ensures Valid() && turns == old(turns)[id := ExpireStep(old(turns)[id], now).0]
    {
      ExpireInv(turns[id], now);
      var u := ExpireLeaseTx(turns[id], now);
      turns := turns[id := u];
    }

    method Cancel(id: int)
      requires Valid() && id in turns
      modifies this
      ensures Valid() && turns == old(turns)[id := CancelStep(old(turns)[id], 0).0]
    {
      CancelInv(turns[id], 0);
      DroppedInv(turns[id]);
      var u := CancelTurnTx(turns[id].(rows := DropRows(turns[id].rows)));
      turns := turns[id := u];
    }

    method Halt(id: int)
      requires Valid() && id in turns
      modifies this
      ensures Valid() && turns == old(turns)[id := HaltStep(old(turns)[id], 0).0]
    {
      HaltInv(turns[id], 0);
      if turns[id].job.state == Leased {
        var u := HaltTurnTx(turns[id]);
        turns := turns[id := u];
      }
    }

    method FailArchived(id: int)
      requires Valid() && id in turns
      modifies this
      ensures Valid() && turns == old(turns)[id := ArchiveStep(old(turns)[id], 0).0]
    {
      ArchiveInv(turns[id], 0);
      var u := CancelTurnTx(turns[id]);
      if u.job.state == Queued {
        u := u.(job := u.job.(state := Failed));
      }
      turns := turns[id := u];
    }

    method PromptFollowUp(id: int, prompt: string, held: bool) returns (pending: nat, waits: bool)
      requires Valid() && id in turns
      modifies this
      ensures Valid() && turns == old(turns)[id := Enqueue(old(turns)[id], prompt, held)]
      ensures pending == turns[id].job.pending
      ensures waits <==> exists s :: s in Waiting(turns[id].rows) && s <= NextSeq(old(turns)[id].rows)
    {
      EnqueueInv(turns[id], prompt, held);
      var u, s := EnqueuePromptTx(turns[id], prompt, held);
      turns := turns[id := u];
      pending := u.job.pending;
      waits := Waiting(u.rows) != {} && Min(Waiting(u.rows)) <= s;
    }

    method PromptSteer(id: int, prompt: string, now: nat) returns (live: bool)
      requires Valid() && id in turns
      modifies this
      ensures Valid() && turns == old(turns)[id := SteerStep(old(turns)[id], prompt, now).0]
      ensures live == SteerIsLive(old(turns)[id].job, now)
    {
      SteerInv(turns[id], prompt, now);
      var u;
      u, live := PromptSteerTx(turns[id], prompt, now);
      turns := turns[id := u];
    }

    method DropQueuedPrompts(id: int) returns (n: nat)
      requires Valid() && id in turns
      modifies this
      ensures Valid() && turns == old(turns)[id := DropQueued(old(turns)[id])] && n == |HeldWaiting(old(turns)[id].rows)|
    {
      DropQueuedInv(turns[id]);
      var u;
      u, n := DropQueuedPromptsTx(turns[id]);
      turns := turns[id := u];
    }
  }
}
