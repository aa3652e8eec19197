/**
  One turn and the rows that belong to it: the job row, the session's prompt
  queue, the live steers, the saved revisions and the lease receipts. A session
  has exactly one turn, so this is also everything a session owns.

  Every database transaction that changes a turn is a function from a turn to a
  turn. The six transactions that end a lease are all instances of `EndLease`,
  which is driven by one decision table, `Rule`.
  */
module Turns {
  import opened Basics
  import opened Stamps

  const LIVENESS: nat := 180 * SECOND
  const RUN_EXEC_DEADLINE: nat := 2700 * SECOND
  const RETRY_LIMIT: nat := 3

  datatype State = Queued | Leased | Completed | Failed

  datatype Lane = ReviewLane | RunLane | ScheduledLane

  datatype Job = Job(
    lane: Lane, pending: nat, claimed: nat, gen: nat,
    expires: Option<nat>, deadline: Option<nat>, retry: nat, state: State)

  /** A queue row. `held` marks a prompt that waits for the turn to end and may still be dropped. */
  datatype FollowUp = FollowUp(prompt: string, held: bool, consumed: bool, dropped: bool)

  /** A prompt aimed at the lease `gen`; it is named by its place in the queue. */
  datatype Steer = Steer(gen: nat, prompt: string, offered: bool, received: bool, acked: bool, promoted: bool)

  /** What a revision was made from: a fetched item, the prompt a session was started with, or a queue row. */
  datatype Revision = Fetched | Opening | FromPrompt(seqNo: nat, prompt: string)

  datatype ReceiptKind = CompleteReceipt | FailReceipt | CancelledReceipt

  /** The session's tables: the queue, the steers, and the revision each prompt became. */
  datatype Rows = Rows(queue: map<nat, FollowUp>, steers: map<nat, Steer>, revisions: map<nat, Revision>)

  datatype Turn = Turn(job: Job, rows: Rows, receipts: map<(nat, nat), ReceiptKind>)

  /** A turn as it is inserted: revision 1 saved, never leased. A review begins with an item, any other turn with a prompt. */
  function Fresh(lane: Lane): Turn {
    var first := if lane == ReviewLane then Fetched else Opening;
    Turn(Job(lane, 1, 0, 0, None, None, 0, Queued), Rows(map[], map[], map[1 := first]), map[])
  }

  // ----- the prompt queue and the steers -----

  function Waiting(w: Rows): set<nat> {
    set s | s in w.queue && !w.queue[s].consumed
  }

  function Open(w: Rows): set<nat> {
    set s | s in w.steers && !w.steers[s].acked && !w.steers[s].promoted
  }

  /** Steers of leases up to `through` that nobody acknowledged and nobody promoted. */
  function OpenThrough(w: Rows, through: nat): set<nat> {
    set s | s in Open(w) && w.steers[s].gen <= through
  }

  function NextSeq(w: Rows): nat {
    Above(w.queue.Keys + w.steers.Keys)
  }

  /** The steers in `p` join the queue, each at its own number. */
  function PromoteSet(w: Rows, p: set<nat>): Rows
    requires p <= w.steers.Keys
  {
    w.(queue := w.queue + map s | s in p :: FollowUp(w.steers[s].prompt, false, false, false),
       steers := map s | s in w.steers :: if s in p then w.steers[s].(promoted := true) else w.steers[s])
  }

  function Promote(w: Rows, through: nat): Rows {
    PromoteSet(w, OpenThrough(w, through))
  }

  /** The head of the queue becomes revision `rev`. */
  function ApplyHead(w: Rows, rev: nat): Rows
    requires Waiting(w) != {}
  {
    var s := Min(Waiting(w));
    w.(queue := w.queue[s := w.queue[s].(consumed := true)],
       revisions := w.revisions[rev := FromPrompt(s, w.queue[s].prompt)])
  }

  function AddRow(w: Rows, f: FollowUp): Rows {
    w.(queue := w.queue[NextSeq(w) := f])
  }

  function AddSteer(w: Rows, gen: nat, text: string): Rows {
    w.(steers := w.steers[NextSeq(w) := Steer(gen, text, false, false, false, false)])
  }

  function DropRows(w: Rows): Rows {
    w.(queue := map s | s in w.queue ::
         if !w.queue[s].consumed && w.queue[s].held then w.queue[s].(consumed := true, dropped := true)
         else w.queue[s])
  }

  predicate Deliverable(w: Rows, gen: nat, ids: seq<nat>) {
    forall s :: s in ids ==> s in w.steers && w.steers[s].gen == gen && w.steers[s].offered && !w.steers[s].promoted
  }

  function Received(w: Rows, ids: seq<nat>): Rows {
    w.(steers := map s | s in w.steers :: if s in ids then w.steers[s].(received := true) else w.steers[s])
  }

  function Acknowledged(w: Rows, ids: seq<nat>): Rows {
    w.(steers := map s | s in w.steers ::
         if s in ids then w.steers[s].(received := true, acked := true) else w.steers[s])
  }

  function Offerable(w: Rows, gen: nat): set<nat> {
    set s | s in Open(w) && w.steers[s].gen == gen && !w.steers[s].received
  }

  function OfferNext(w: Rows, gen: nat): Rows {
    var o := Offerable(w, gen);
    if o == {} then w else var s := Min(o); w.(steers := w.steers[s := w.steers[s].(offered := true)])
  }

  predicate Owed(j: Job) {
    j.claimed < j.pending
  }

  /** A revision other than the very first one is waiting for a claim. */
  predicate Unclaimed(j: Job) {
    Owed(j) && (j.claimed != 0 || j.pending != 1)
  }

  /** The head may become pending now: nothing is owed before it, it is not held, no earlier steer is open. */
  predicate HeadMayStart(j: Job, w: Rows) {
    && !Unclaimed(j)
    && Waiting(w) != {}
    && var s := Min(Waiting(w));
       && !(w.queue[s].held && (j.state == Leased || j.state == Queued))
       && forall o :: o in Open(w) ==> s <= o
  }

  function WithState(t: Turn, s: State): Turn {
    t.(job := t.job.(state := s))
  }

  function Advanced(t: Turn): Turn
    requires Waiting(t.rows) != {}
  {
    t.(rows := ApplyHead(t.rows, t.job.pending + 1), job := t.job.(pending := t.job.pending + 1, retry := 0))
  }

  function StartHead(t: Turn): Turn {
    if HeadMayStart(t.job, t.rows) then Advanced(t) else t
  }

  function Enqueue(t: Turn, prompt: string, held: bool): Turn {
    var t1 := StartHead(t.(rows := AddRow(t.rows, FollowUp(prompt, held, false, false))));
    if t1.job.state == Leased then t1 else WithState(t1, Queued)
  }

  /** Dropping the held prompts lets a follow-up behind them start. */
  function DropQueued(t: Turn): Turn {
    var dropped := DropRows(t.rows);
    if dropped == t.rows then t
    else
      var t2 := StartHead(t.(rows := dropped));
      if t2.job.pending == t.job.pending || t.job.state == Leased then t2 else WithState(t2, Queued)
  }

  // ----- leases -----

  predicate LiveAt(j: Job, now: nat) {
    && (j.expires.Some? ==> now < j.expires.value)
    && (j.deadline.Some? ==> now < j.deadline.value)
  }

  predicate Holds(j: Job, gen: nat, claimed: nat) {
    j.state == Leased && j.gen == gen && j.claimed == claimed
  }

  function ExecLimit(lane: Lane, exec: nat): nat {
    if lane == RunLane then RUN_EXEC_DEADLINE else exec
  }

  function Grant(j: Job, now: nat, exec: nat): Job {
    j.(gen := j.gen + 1, claimed := j.pending, state := Leased,
       expires := Some(now + LIVENESS), deadline := Some(now + ExecLimit(j.lane, exec)))
  }

  /** How a lease ends. `PastDeadline(true)` is the reaper, `PastDeadline(false)` a late failure report. */
  datatype Ending = Completing | Failing | PastDeadline(reaped: bool) | Lapsing | Cancelling | Halting

  datatype Verdict =
    | Requeue          // the turn waits for a claim as it is
    | Retry            // the same revision is tried again and one try is used up
    | Advance          // the head of the queue is the next revision
    | Finish(final: State, struck: bool)

  /** The whole branching of the six lease-ending transactions. */
  function Rule(e: Ending, owed: bool, steered: bool, waiting: bool, lastTry: bool): Verdict {
    if owed then Requeue
    else match e
      case Completing => if waiting then Advance else Finish(Completed, false)
      case PastDeadline(_) => if waiting then Advance else Finish(Failed, false)
      case Cancelling => if steered then Advance else Finish(Failed, false)
      case Halting => if steered then Advance else Requeue
      case Failing => Struck(steered, waiting, lastTry)
      case Lapsing => Struck(steered, waiting, lastTry)
  }

  function Struck(steered: bool, waiting: bool, lastTry: bool): Verdict {
    if !steered && !lastTry then Retry
    else if waiting then Advance
    else Finish(Failed, true)
  }

  function ReceiptFor(e: Ending): Option<ReceiptKind> {
    match e
    case Completing => Some(CompleteReceipt)
    case Failing => Some(FailReceipt)
    case PastDeadline(_) => Some(FailReceipt)
    case Cancelling => Some(CancelledReceipt)
    case Halting => Some(CancelledReceipt)
    case Lapsing => None
  }

  predicate Bumps(e: Ending) {
    e == Lapsing || e == Halting || e == PastDeadline(true)
  }

  function Receipted(t: Turn, e: Ending): map<(nat, nat), ReceiptKind> {
    if ReceiptFor(e).Some? then t.receipts[(t.job.gen, t.job.claimed) := ReceiptFor(e).value] else t.receipts
  }

  function VerdictOn(t: Turn, e: Ending): Verdict {
    Rule(e, Owed(t.job), OpenThrough(t.rows, t.job.gen) != {}, Waiting(Promote(t.rows, t.job.gen)) != {},
         t.job.retry + 1 >= RETRY_LIMIT)
  }

  /** The steers of the lease are promoted, and the head of the queue starts when the verdict says so. */
  function EndRows(w: Rows, gen: nat, pending: nat, v: Verdict): Rows {
    var p := Promote(w, gen);
    if v == Advance && Waiting(p) != {} then ApplyHead(p, pending + 1) else p
  }

  function EndJob(j: Job, e: Ending, v: Verdict): Job {
    var c := j.(gen := if Bumps(e) then j.gen + 1 else j.gen);
    match v
    case Requeue => c.(state := Queued)
    case Retry => c.(state := Queued, retry := j.retry + 1)
    case Advance => c.(state := Queued, retry := 0, pending := j.pending + 1)
    case Finish(final, struck) => c.(state := final, retry := if struck then j.retry + 1 else j.retry)
  }

  function EndLease(t: Turn, e: Ending): Turn {
    var v := VerdictOn(t, e);
    Turn(EndJob(t.job, e, v), EndRows(t.rows, t.job.gen, t.job.pending, v), Receipted(t, e))
  }

  function CancelTurn(t: Turn): Turn {
    match t.job.state
    case Queued => WithState(t, Failed)
    case Leased => EndLease(t, Cancelling)
    case _ => t
  }

  // ----- the transactions -----

  datatype Event =
    | Claim(exec: nat)
    | RequeueBusy(gen: nat, claimed: nat)
    | Heartbeat(gen: nat, claimed: nat, received: seq<nat>)
    | Complete(gen: nat, claimed: nat, valid: bool, acks: seq<nat>)
    | Fail(gen: nat, claimed: nat)
    | Expire
    | Cancel
    | Halt
    | FailArchived
    | Prompt(text: string, held: bool)
    | PromptSteer(text: string)
    | DropHeld
    | OperatorRetry
    | Admit

  /** What a transaction did, as the caller or the operator can observe it. */
  datatype Outcome =
    | Granted(gen: nat, rev: nat, at: nat, limit: nat)
    | Beat(gen: nat, at: nat)
    | Ended(gen: nat, rev: nat, how: Ending, at: nat, struck: bool)
    | Requeued(gen: nat)
    | Replayed(kind: ReceiptKind)
    | Retried
    | Rejected
    | Other

  /** Whether ending the lease this way uses up one of the revision's tries. */
  predicate Strikes(j: Job, e: Ending) {
    (e == Failing || e == Lapsing) && !Owed(j)
  }

  function EndOutcome(j: Job, e: Ending, now: nat): Outcome {
    Ended(j.gen, j.claimed, e, now, Strikes(j, e))
  }

  function End(t: Turn, e: Ending, now: nat): (Turn, Outcome) {
    (EndLease(t, e), EndOutcome(t.job, e, now))
  }

  function CompleteStep(t: Turn, gen: nat, claimed: nat, valid: bool, acks: seq<nat>, now: nat): (Turn, Outcome) {
    if (gen, claimed) in t.receipts then
      (t, if t.receipts[(gen, claimed)] == CompleteReceipt then Replayed(CompleteReceipt) else Rejected)
    else if !Holds(t.job, gen, claimed) || !LiveAt(t.job, now) then (t, Rejected)
    else if !valid then End(t, Failing, now)
    else if !Deliverable(t.rows, gen, acks) then (t, Rejected)
    else End(t.(rows := Acknowledged(t.rows, acks)), Completing, now)
  }

  function FailStep(t: Turn, gen: nat, claimed: nat, now: nat): (Turn, Outcome) {
    if (gen, claimed) in t.receipts then (t, Replayed(t.receipts[(gen, claimed)]))
    else if !Holds(t.job, gen, claimed) then (t, Rejected)
    else if t.job.deadline.Some? && t.job.deadline.value <= now then End(t, PastDeadline(false), now)
    else if t.job.expires.Some? && t.job.expires.value <= now then (t, Rejected)
    else End(t, Failing, now)
  }

  function ExpireStep(t: Turn, now: nat): (Turn, Outcome) {
    if t.job.state != Leased || LiveAt(t.job, now) then (t, Other)
    else if t.job.deadline.Some? && t.job.deadline.value <= now then End(t, PastDeadline(true), now)
    else End(t, Lapsing, now)
  }

  function HeartbeatStep(t: Turn, gen: nat, claimed: nat, received: seq<nat>, now: nat): (Turn, Outcome) {
    if !Holds(t.job, gen, claimed) || !LiveAt(t.job, now) || !Deliverable(t.rows, gen, received) then (t, Rejected)
    else
      (t.(rows := OfferNext(Received(t.rows, received), gen), job := t.job.(expires := Some(now + LIVENESS))),
       Beat(gen, now))
  }

  function ClaimStep(t: Turn, exec: nat, now: nat): (Turn, Outcome) {
    if t.job.state != Queued then (t, Other)
    else (t.(job := Grant(t.job, now, exec)), Granted(t.job.gen + 1, t.job.pending, now, ExecLimit(t.job.lane, exec)))
  }

  function RequeueStep(t: Turn, gen: nat, claimed: nat): (Turn, Outcome) {
    if !Holds(t.job, gen, claimed) then (t, Rejected)
    else (t.(job := t.job.(state := Queued, expires := None, deadline := None)), Requeued(gen))
  }

  function CancelStep(t: Turn, now: nat): (Turn, Outcome) {
    (CancelTurn(t.(rows := DropRows(t.rows))),
     if t.job.state == Leased then EndOutcome(t.job, Cancelling, now) else Other)
  }

  function HaltStep(t: Turn, now: nat): (Turn, Outcome) {
    if t.job.state == Leased then End(t, Halting, now) else (t, Other)
  }

  function ArchiveStep(t: Turn, now: nat): (Turn, Outcome) {
    var c := CancelTurn(t);
    (if c.job.state == Queued then WithState(c, Failed) else c,
     if t.job.state == Leased then EndOutcome(t.job, Cancelling, now) else Other)
  }

  predicate SteerIsLive(j: Job, now: nat) {
    j.state == Leased && j.gen > 0 && j.expires.Some? && j.deadline.Some? && LiveAt(j, now)
  }

  function SteerStep(t: Turn, text: string, now: nat): (Turn, Outcome) {
    if SteerIsLive(t.job, now) then (t.(rows := AddSteer(t.rows, t.job.gen, text)), Other)
    else (Enqueue(t, text, false), Other)
  }

  function RetryStep(t: Turn): (Turn, Outcome) {
    if t.job.lane != ReviewLane || t.job.state != Failed then (t, Rejected)
    else (t.(job := t.job.(retry := 0, state := Queued)), Retried)
  }

  function AdmitStep(t: Turn): (Turn, Outcome) {
    if t.job.lane != ReviewLane then (t, Rejected)
    else
      var rev := t.job.pending + 1;
      (t.(rows := t.rows.(revisions := t.rows.revisions[rev := Fetched]),
          job := t.job.(pending := rev, retry := 0, state := if t.job.state == Leased then Leased else Queued)), Other)
  }

  function Step(t: Turn, ev: Event, now: nat): (Turn, Outcome) {
    match ev
    case Claim(exec) => ClaimStep(t, exec, now)
    case RequeueBusy(gen, claimed) => RequeueStep(t, gen, claimed)
    case Heartbeat(gen, claimed, received) => HeartbeatStep(t, gen, claimed, received, now)
    case Complete(gen, claimed, valid, acks) => CompleteStep(t, gen, claimed, valid, acks, now)
    case Fail(gen, claimed) => FailStep(t, gen, claimed, now)
    case Expire => ExpireStep(t, now)
    case Cancel => CancelStep(t, now)
    case Halt => HaltStep(t, now)
    case FailArchived => ArchiveStep(t, now)
    case Prompt(text, held) => (Enqueue(t, text, held), Other)
    case PromptSteer(text) => SteerStep(t, text, now)
    case DropHeld => (DropQueued(t), Other)
    case OperatorRetry => RetryStep(t)
    case Admit => AdmitStep(t)
  }
}
