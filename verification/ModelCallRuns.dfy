/** Accounting of model calls over every run of reservations, responses and turn ends. */
module ModelCallRuns {
  import opened Basics
  import opened ModelCalls

  // ----- sums -----

  function SumTo(m: map<nat, nat>, n: nat): nat {
    if n == 0 then 0 else SumTo(m, n - 1) + At(m, n - 1)
  }

  function SumCalls(calls: seq<Call>): nat {
    if calls == [] then 0 else SumCalls(calls[..|calls| - 1]) + calls[|calls| - 1].count
  }

  lemma {:induction false} SumWithOneMore(m: map<nat, nat>, k: nat, n: nat)
    ensures SumTo(m[k := At(m, k) + 1], n) == SumTo(m, n) + (if k < n then 1 else 0)
  {
    if n > 0 { SumWithOneMore(m, k, n - 1); }
  }

  lemma {:induction false} SumOfMerged(a: map<nat, nat>, b: map<nat, nat>, n: nat)
    ensures SumTo(MergedStatus(a, b), n) == SumTo(a, n) + SumTo(b, n)
  {
    if n > 0 { SumOfMerged(a, b, n - 1); }
  }

  lemma {:induction false} SumWithMoreAt(calls: seq<Call>, i: nat, d: nat)
    requires i < |calls|
    ensures SumCalls(calls[i := calls[i].(count := calls[i].count + d)]) == SumCalls(calls) + d
    decreases |calls|
  {
    var more := calls[i := calls[i].(count := calls[i].count + d)];
    if i == |calls| - 1 {
      assert more[..i] == calls[..i];
    } else {
      SumWithMoreAt(calls[..|calls| - 1], i, d);
      assert more[..|calls| - 1] == calls[..|calls| - 1][i := calls[i].(count := calls[i].count + d)];
    }
  }

  /** A call added is counted in its entry, in a new entry, or among the others; entries stay distinct and bounded. */
  lemma {:induction false} AddedCounts(calls: seq<Call>, other: nat, next: Call)
    requires |calls| <= MAX_CALLS
    ensures var (c, o) := Added(calls, other, next);
      SumCalls(c) + o == SumCalls(calls) + other + next.count && |calls| <= |c| <= MAX_CALLS
  {
    var i := IndexOf(calls, next);
    if i < |calls| {
      SumWithMoreAt(calls, i, next.count);
    } else {
      assert (calls + [next])[..|calls|] == calls;
    }
  }

  lemma {:induction false} AddedAllCounts(calls: seq<Call>, other: nat, more: seq<Call>)
    requires |calls| <= MAX_CALLS
    ensures var (c, o) := AddedAll(calls, other, more);
      SumCalls(c) + o == SumCalls(calls) + other + SumCalls(more) && |c| <= MAX_CALLS
    decreases |more|
  {
    if more != [] {
      AddedAllCounts(calls, other, more[..|more| - 1]);
      var (c, o) := AddedAll(calls, other, more[..|more| - 1]);
      AddedCounts(c, o, more[|more| - 1]);
    }
  }

  // ----- one summary -----

  /** The total is the statuses, is the listed calls and the others, and is the number of responses behind it. */
  ghost predicate Balanced(s: Summary) {
    && s.count == SumTo(s.status, STATUSES)
    && s.count == SumCalls(s.calls) + s.other
    && s.count == |s.seen|
    && |s.calls| <= MAX_CALLS
  }

  lemma {:induction false} CountedBalances(s: Summary, status: nat, call: Call, id: nat)
    requires Balanced(s) && status < STATUSES && id !in s.seen
    ensures Balanced(Counted(s, status, call, id))
  {
    SumWithOneMore(s.status, status, STATUSES);
    AddedCounts(s.calls, s.other, call.(status := status, count := 1));
  }

  lemma {:induction false} MergedBalances(a: Summary, s: Summary)
    requires Balanced(a) && Balanced(s) && a.seen !! s.seen
    ensures Balanced(Merged(a, s))
  {
    SumOfMerged(a.status, s.status, STATUSES);
    AddedAllCounts(a.calls, a.other + s.other, s.calls);
  }

  // ----- the book -----

  datatype Step =
    | Reserve(turn: int, gen: nat, expires: nat, now: nat, victim: Option<int>)
    | Respond(turn: int, no: nat, status: nat, call: Call)
    | Record(turn: int, commits: bool)

  predicate Enabled(b: Book, st: Step) {
    st.Reserve? ==> Victim(b.live - {st.turn}, st.now, st.victim)
  }

  function Next(b: Book, st: Step): Book {
    match st
    case Reserve(turn, gen, expires, _, v) => Reserved(b, turn, gen, expires, v).0
    case Respond(turn, no, status, call) => Responded(b, turn, no, status, call)
    case Record(turn, commits) => Recorded(b, turn, commits)
  }

  ghost predicate Known(responses: nat, s: Summary) {
    Balanced(s) && forall id :: id in s.seen ==> id < responses
  }

  /** What may still be merged has not been merged. */
  ghost predicate Apart(stored: map<int, Summary>, turn: int, s: Summary) {
    turn in stored && (!s.finished || stored[turn].gen < s.gen) ==> stored[turn].seen !! s.seen
  }

  ghost predicate BookInv(b: Book) {
    && |b.live| <= MAX_TURNS
    && (forall t :: t in b.live ==> Known(b.responses, b.live[t]) && Apart(b.stored, t, b.live[t]))
    && (forall t :: t in b.stored ==> Known(b.responses, b.stored[t]))
  }

  lemma SizeWithout(m: map<int, Summary>, k: int)
    ensures |m - {k}| <= |m| && (k in m ==> |m - {k}| == |m| - 1)
  {
  }

  lemma SizeWith(m: map<int, Summary>, k: int, s: Summary)
    ensures |m[k := s]| <= |m| + 1 && (k in m ==> |m[k := s]| == |m|)
  {
  }

  lemma OpenedInv(b: Book, turn: int, gen: nat, expires: nat)
    requires BookInv(b)
    ensures var s := Opened(gen, b.nextNo, expires, Carried(b, turn)); Known(b.responses, s) && Apart(b.stored, turn, s)
  {
    assert SumTo(map[], STATUSES) == 0 by { EmptySum(STATUSES); }
  }

  lemma {:induction false} EmptySum(n: nat)
    ensures SumTo(map[], n) == 0
  {
    if n > 0 { EmptySum(n - 1); }
  }

  lemma RoomInv(b: Book, turn: int, v: Option<int>)
    requires BookInv(b)
    ensures var room := Room(b.live - {turn}, v);
      |room| <= MAX_TURNS && (forall t :: t in room ==> t in b.live && room[t] == b.live[t]) && BookInv(b.(live := room))
  {
  }

  lemma PutInv(b: Book, turn: int, s: Summary, nextNo: nat)
    requires BookInv(b) && (turn in b.live || |b.live| < MAX_TURNS) && Known(b.responses, s) && Apart(b.stored, turn, s)
    ensures BookInv(b.(live := b.live[turn := s], nextNo := nextNo))
  {
  }

  lemma ReopenStep(b: Book, turn: int, gen: nat, expires: nat, v: Option<int>)
    requires BookInv(b)
    ensures BookInv(Reopened(b, turn, gen, expires, v).0)
  {
    var s := Opened(gen, b.nextNo, expires, Carried(b, turn));
    var roomy := b.(live := Room(b.live - {turn}, v));
    RoomInv(b, turn, v);
    OpenedInv(b, turn, gen, expires);
    if |roomy.live| < MAX_TURNS {
      PutInv(roomy, turn, s, b.nextNo + 1);
    }
  }

  lemma ReserveStep(b: Book, turn: int, gen: nat, expires: nat, v: Option<int>)
    requires BookInv(b)
    ensures BookInv(Reserved(b, turn, gen, expires, v).0)
  {
    ReopenStep(b, turn, gen, expires, v);
    if turn in b.live && gen == b.live[turn].gen {
      PutInv(b, turn, Extended(b.live[turn], expires), b.nextNo);
    }
  }

  lemma RespondStep(b: Book, turn: int, no: nat, status: nat, call: Call)
    requires BookInv(b)
    ensures BookInv(Responded(b, turn, no, status, call))
  {
    var n := Responded(b, turn, no, status, call);
    if n != b {
      var s := b.live[turn];
      assert b.responses !in s.seen;
      CountedBalances(s, status, call, b.responses);
      SizeWith(b.live, turn, n.live[turn]);
    }
  }

  lemma StoreInv(b: Book, turn: int, agg: Summary)
    requires BookInv(b) && turn in b.live && b.live[turn].finished && b.live[turn].gen <= agg.gen && Known(b.responses, agg)
    ensures BookInv(b.(stored := b.stored[turn := agg]))
  {
  }

  lemma RecordStep(b: Book, turn: int, commits: bool)
    requires BookInv(b)
    ensures BookInv(Recorded(b, turn, commits))
  {
    if turn in b.live {
      var s := b.live[turn];
      var done := b.(live := b.live[turn := s.(finished := true)]);
      PutInv(b, turn, s.(finished := true), b.nextNo);
      if turn !in b.stored {
        StoreInv(done, turn, s);
      } else if b.stored[turn].gen < s.gen {
        MergedBalances(b.stored[turn], s);
        StoreInv(done, turn, Merged(b.stored[turn], s));
      }
    }
  }

  lemma BookStep(b: Book, step: Step)
    requires BookInv(b) && Enabled(b, step)
    ensures BookInv(Next(b, step))
  {
    match step {
      case Reserve(turn, gen, expires, _, v) => ReserveStep(b, turn, gen, expires, v);
      case Respond(turn, no, status, call) => RespondStep(b, turn, no, status, call);
      case Record(turn, commits) => RecordStep(b, turn, commits);
    }
  }

  /** Step `n` is possible where it is taken and leads from book `n` to the next one. */
  ghost predicate Taken(bs: seq<Book>, steps: seq<Step>, n: nat) {
    n < |steps| && n + 1 < |bs| && Enabled(bs[n], steps[n]) && bs[n + 1] == Next(bs[n], steps[n])
  }

  ghost predicate IsRun(bs: seq<Book>, steps: seq<Step>) {
    && |bs| == |steps| + 1 && bs[0] == Book(map[], map[], 0, 0)
    && forall n :: 0 <= n < |steps| ==> Taken(bs, steps, n)
  }

  /** In every run every live and stored summary balances, and each response is behind its turn's stored count at most once. */
  lemma {:induction false} AccountsBalance(bs: seq<Book>, steps: seq<Step>, n: nat)
    requires IsRun(bs, steps) && n < |bs|
    ensures BookInv(bs[n])
  {
    if n > 0 {
      AccountsBalance(bs, steps, n - 1);
      assert Taken(bs, steps, n - 1);
      BookStep(bs[n - 1], steps[n - 1]);
    }
  }

  /** A newer lease always takes over the counts of an unfinished one: there is room, because the old one is taken out first. */
  lemma CarryIsNeverDropped(bs: seq<Book>, steps: seq<Step>, n: nat, turn: int, gen: nat, expires: nat, v: Option<int>)
    requires IsRun(bs, steps) && n < |bs| && Superseded(bs[n], turn, gen) && !bs[n].live[turn].finished
    ensures var prior := bs[n].live[turn];
      var (next, no) := Reserved(bs[n], turn, gen, expires, v);
      && no == Some(bs[n].nextNo) && turn in next.live && next.live[turn].gen == gen
      && next.live[turn].count == prior.count && next.live[turn].seen == prior.seen
      && next.live[turn].status == prior.status && next.live[turn].calls == prior.calls && next.live[turn].other == prior.other
  {
    AccountsBalance(bs, steps, n);
    SizeWithout(bs[n].live, turn);
    if v.Some? { SizeWithout(bs[n].live - {turn}, v.value); }
  }

  /** Recording a turn again, after a retried transaction or at a later end without new calls, adds nothing. */
  lemma RecordingTwiceIsOnce(b: Book, turn: int)
    ensures var once := Recorded(b, turn, true); Recorded(once, turn, true) == once
  {
  }
}
