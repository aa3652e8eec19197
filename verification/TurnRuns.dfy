/**
  Properties of whole runs of one turn: any sequence of transactions, in any
  order, at any times, starting from a fresh turn.
  */
module TurnRuns {
  import opened Basics
  import opened Turns
  import opened TurnInvariants

  datatype Call = Call(at: nat, ev: Event)

  function Run(t: Turn, calls: seq<Call>): Turn {
    if calls == [] then t
    else
      var last := calls[|calls| - 1];
      Step(Run(t, calls[..|calls| - 1]), last.ev, last.at).0
  }

  function Outcomes(t: Turn, calls: seq<Call>): (outs: seq<Outcome>)
    ensures |outs| == |calls|
  {
    if calls == [] then []
    else
      var last := calls[|calls| - 1];
      Outcomes(t, calls[..|calls| - 1]) + [Step(Run(t, calls[..|calls| - 1]), last.ev, last.at).1]
  }

  /** The invariant holds in every reachable state. */
  lemma {:induction false} RunInv(lane: Lane, calls: seq<Call>)
    ensures Inv(Run(Fresh(lane), calls))
  {
    if calls == [] {
      FreshInv(lane);
    } else {
      RunInv(lane, calls[..|calls| - 1]);
      StepInv(Run(Fresh(lane), calls[..|calls| - 1]), calls[|calls| - 1].ev, calls[|calls| - 1].at);
    }
  }

  // ----- one step, seen from the job row -----

  predicate Ends(o: Outcome) {
    o.Ended? || o.Requeued?
  }

  predicate Acts(o: Outcome) {
    o.Beat? || Ends(o)
  }

  predicate Pulse(o: Outcome) {
    o.Granted? || o.Beat?
  }

  /** Accepted reports of the lease holder, which must arrive in time. */
  predicate InTime(o: Outcome) {
    o.Beat? || (o.Ended? && (o.how == Completing || o.how == Failing))
  }

  ghost predicate LeaseShape(j: Job, k: Job, o: Outcome) {
    match o
    case Granted(gen, rev, at, limit) =>
      && j.state == Queued && k.state == Leased && gen == k.gen == j.gen + 1
      && rev == k.claimed == j.pending && k.expires == Some(at + LIVENESS) && k.deadline == Some(at + limit)
    case Beat(gen, at) =>
      && j.state == k.state == Leased && gen == j.gen == k.gen && k.claimed == j.claimed
      && LiveAt(j, at) && k.expires == Some(at + LIVENESS) && k.deadline == j.deadline
    case Ended(gen, rev, how, at, struck) =>
      && j.state == Leased && k.state != Leased && gen == j.gen <= k.gen && rev == j.claimed == k.claimed
      && (how == Completing || how == Failing ==> LiveAt(j, at))
    case Requeued(gen) =>
      j.state == Leased && k.state != Leased && gen == j.gen == k.gen && k.claimed == j.claimed
    case _ =>
      && j.gen == k.gen && k.claimed == j.claimed && (j.state == Leased <==> k.state == Leased)
      && (j.state == Leased ==> k.expires == j.expires && k.deadline == j.deadline)
  }

  lemma EnqueueShape(t: Turn, text: string, held: bool)
    ensures LeaseShape(t.job, Enqueue(t, text, held).job, Other)
  {
  }

  lemma EndShape(t: Turn, e: Ending, now: nat)
    requires t.job.state == Leased
    requires e == Completing || e == Failing ==> LiveAt(t.job, now)
    ensures LeaseShape(t.job, EndLease(t, e).job, EndOutcome(t.job, e, now))
  {
  }

  lemma CompleteShape(t: Turn, gen: nat, claimed: nat, valid: bool, acks: seq<nat>, now: nat)
    ensures var (u, o) := CompleteStep(t, gen, claimed, valid, acks, now); LeaseShape(t.job, u.job, o)
  {
  }

  lemma FailShape(t: Turn, gen: nat, claimed: nat, now: nat)
    ensures var (u, o) := FailStep(t, gen, claimed, now); LeaseShape(t.job, u.job, o)
  {
  }

  lemma StopShape(t: Turn, now: nat)
    ensures var (u, o) := ExpireStep(t, now); LeaseShape(t.job, u.job, o)
    ensures var (u, o) := HaltStep(t, now); LeaseShape(t.job, u.job, o)
  {
    if t.job.state == Leased {
      EndShape(t, PastDeadline(true), now);
      EndShape(t, Lapsing, now);
      EndShape(t, Halting, now);
    }
  }

  lemma CancelShape(t: Turn, now: nat)
    ensures var (u, o) := CancelStep(t, now); LeaseShape(t.job, u.job, o)
    ensures var (u, o) := ArchiveStep(t, now); LeaseShape(t.job, u.job, o)
  {
    if t.job.state == Leased {
      EndShape(t, Cancelling, now);
      EndShape(t.(rows := DropRows(t.rows)), Cancelling, now);
    }
  }

  lemma StepShape(t: Turn, ev: Event, now: nat)
    ensures LeaseShape(t.job, Step(t, ev, now).0.job, Step(t, ev, now).1)
  {
    match ev {
      case Complete(gen, claimed, valid, acks) => CompleteShape(t, gen, claimed, valid, acks, now);
      case Fail(gen, claimed) => FailShape(t, gen, claimed, now);
      case Expire => StopShape(t, now);
      case Cancel => CancelShape(t, now);
      case FailArchived => CancelShape(t, now);
      case Halt => StopShape(t, now);
      case Prompt(text, held) => EnqueueShape(t, text, held);
      case PromptSteer(text) => EnqueueShape(t, text, false);
      case _ =>
    }
  }

  // ----- fencing and time -----

  predicate GrantAt(outs: seq<Outcome>, i: int, gen: nat) {
    0 <= i < |outs| && outs[i].Granted? && outs[i].gen == gen
  }

  ghost predicate NoEndBefore(outs: seq<Outcome>, n: int, gen: nat) {
    forall m :: 0 <= m < n && m < |outs| && Ends(outs[m]) ==> outs[m].gen != gen
  }

  /** The last grant or accepted heartbeat of the lease before position `n` is at `k`. */
  ghost predicate LastPulse(outs: seq<Outcome>, k: int, n: int, gen: nat) {
    && 0 <= k < n <= |outs| && Pulse(outs[k]) && outs[k].gen == gen
    && forall m :: k < m < n && Pulse(outs[m]) ==> outs[m].gen != gen
  }

  /** Grants only ever use larger generations, and no generation ends twice. */
  ghost predicate Fenced(outs: seq<Outcome>) {
    && (forall i, j :: 0 <= i < j < |outs| && outs[i].Granted? && outs[j].Granted? ==> outs[i].gen < outs[j].gen)
    && (forall i, j :: 0 <= i < j < |outs| && Ends(outs[i]) && Ends(outs[j]) ==> outs[i].gen != outs[j].gen)
  }

  /** Whatever acts on a lease acts on one that was granted before and has not ended. */
  ghost predicate Backed(outs: seq<Outcome>, j: nat)
    requires j < |outs|
  {
    Acts(outs[j]) ==> NoEndBefore(outs, j, outs[j].gen) && exists i :: i < j && GrantAt(outs, i, outs[j].gen)
  }

  /** An accepted report comes before the deadline fixed at the grant, and within LIVENESS of the last pulse. */
  ghost predicate Timely(outs: seq<Outcome>, j: nat)
    requires j < |outs|
  {
    InTime(outs[j]) ==>
      && (exists i :: i < j && GrantAt(outs, i, outs[j].gen) && outs[j].at < outs[i].at + outs[i].limit)
      && (exists k :: LastPulse(outs, k, j, outs[j].gen) && outs[j].at < outs[k].at + LIVENESS)
  }

  /** What the job row remembers of the outcomes so far. */
  ghost predicate Remembers(j: Job, outs: seq<Outcome>) {
    && (forall i :: 0 <= i < |outs| && (outs[i].Granted? || Acts(outs[i])) ==> outs[i].gen <= j.gen)
    && (j.state == Leased ==>
          && NoEndBefore(outs, |outs|, j.gen)
          && (exists i :: GrantAt(outs, i, j.gen) && j.deadline == Some(outs[i].at + outs[i].limit))
          && (exists k :: LastPulse(outs, k, |outs|, j.gen) && j.expires == Some(outs[k].at + LIVENESS)))
  }

  lemma RemembersStep(j: Job, k: Job, outs: seq<Outcome>, o: Outcome)
    requires Remembers(j, outs) && LeaseShape(j, k, o)
    ensures Remembers(k, outs + [o])
  {
    var outs' := outs + [o];
    var n := |outs|;
    assert outs'[n] == o;
    if k.state == Leased {
      if o.Granted? {
        assert GrantAt(outs', n, k.gen) && LastPulse(outs', n, n + 1, k.gen);
      } else {
        var i :| GrantAt(outs, i, j.gen) && j.deadline == Some(outs[i].at + outs[i].limit);
        assert GrantAt(outs', i, k.gen);
        if o.Beat? {
          assert LastPulse(outs', n, n + 1, k.gen);
        } else {
          var p :| LastPulse(outs, p, n, j.gen) && j.expires == Some(outs[p].at + LIVENESS);
          assert LastPulse(outs', p, n + 1, k.gen);
        }
      }
    }
  }

  lemma FencedStep(j: Job, k: Job, outs: seq<Outcome>, o: Outcome)
    requires Remembers(j, outs) && Fenced(outs) && LeaseShape(j, k, o)
    ensures Fenced(outs + [o])
  {
  }

  lemma TimelyStep(j: Job, k: Job, outs: seq<Outcome>, o: Outcome)
    requires Remembers(j, outs) && LeaseShape(j, k, o)
    ensures Backed(outs + [o], |outs|) && Timely(outs + [o], |outs|)
  {
    var outs' := outs + [o];
    var n := |outs|;
    assert outs'[n] == o;
    if Acts(o) {
      var i :| GrantAt(outs, i, j.gen) && j.deadline == Some(outs[i].at + outs[i].limit);
      assert GrantAt(outs', i, j.gen) && outs'[i] == outs[i];
      var p :| LastPulse(outs, p, n, j.gen) && j.expires == Some(outs[p].at + LIVENESS);
      assert LastPulse(outs', p, n, j.gen) && outs'[p] == outs[p];
    }
  }

  /** Positions already covered stay covered when one more outcome is added. */
  lemma Weaken(outs: seq<Outcome>, o: Outcome, j: nat)
    requires j < |outs| && Backed(outs, j) && Timely(outs, j)
    ensures Backed(outs + [o], j) && Timely(outs + [o], j)
  {
    var outs' := outs + [o];
    assert outs'[j] == outs[j];
    if Acts(outs[j]) {
      var i :| i < j && GrantAt(outs, i, outs[j].gen);
      assert GrantAt(outs', i, outs[j].gen);
      if InTime(outs[j]) {
        var i' :| i' < j && GrantAt(outs, i', outs[j].gen) && outs[j].at < outs[i'].at + outs[i'].limit;
        assert GrantAt(outs', i', outs[j].gen) && outs'[i'] == outs[i'];
        var p :| LastPulse(outs, p, j, outs[j].gen) && outs[j].at < outs[p].at + LIVENESS;
        assert LastPulse(outs', p, j, outs[j].gen) && outs'[p] == outs[p];
      }
    }
  }

  ghost predicate Covered(outs: seq<Outcome>) {
    forall j :: 0 <= j < |outs| ==> Backed(outs, j) && Timely(outs, j)
  }

  lemma CoveredStep(j: Job, k: Job, outs: seq<Outcome>, o: Outcome)
    requires Remembers(j, outs) && Covered(outs) && LeaseShape(j, k, o)
    ensures Covered(outs + [o])
  {
    TimelyStep(j, k, outs, o);
    forall i | 0 <= i < |outs + [o]| ensures Backed(outs + [o], i) && Timely(outs + [o], i) {
      if i < |outs| { Weaken(outs, o, i); }
    }
  }

  /**
    Lease fencing and lease time bounds over every run: generations only grow, no generation
    ends twice, and every accepted heartbeat, completion, failure, cancel, halt or expiry concerns
    a lease granted earlier that has not ended; reports of the holder are in time.
    */
  lemma {:induction false} LeasesAreFenced(lane: Lane, calls: seq<Call>)
    ensures var outs := Outcomes(Fresh(lane), calls);
      Remembers(Run(Fresh(lane), calls).job, outs) && Fenced(outs) && Covered(outs)
  {
    if calls != [] {
      var init := calls[..|calls| - 1];
      var last := calls[|calls| - 1];
      LeasesAreFenced(lane, init);
      var t := Run(Fresh(lane), init);
      var before := Outcomes(Fresh(lane), init);
      var (u, o) := Step(t, last.ev, last.at);
      StepShape(t, last.ev, last.at);
      RemembersStep(t.job, u.job, before, o);
      FencedStep(t.job, u.job, before, o);
      CoveredStep(t.job, u.job, before, o);
    }
  }
}
