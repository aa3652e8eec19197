/**
  Refresh requests: one row per item, owned by at most one fetch at a time. Events arrive while a
  fetch is running, owners expire, and late fetches come back.
  */
module Refresh {
  import opened Basics
  import opened Stamps

  const RETRY_LIMIT: nat := 5

  datatype Phase = Queued | Running | Idle | Failed

  datatype Row = Row(
    gen: nat, owner: bool, expires: Option<nat>, retry: nat, needs: bool, force: bool, phase: Phase, notBefore: Option<nat>)

  /** How a fetch ended, seen from its closing transaction. `AdmissionRan` is an admission without an error, whether or not it made a revision. */
  datatype Fetch = FetchFailed | AdmissionRan | BudgetDenied | Ineligible

  // ----- the transactions on one row -----

  function Asked(row: Option<Row>, force: bool): Row {
    match row
    case None => Row(0, false, None, 0, false, force, Queued, None)
    case Some(r) => r.(needs := r.needs || r.owner, force := r.force || force, phase := Queued)
  }

  /** The condition of the query for due rows, which compares stored text. */
  predicate Due(r: Row, now: nat) {
    r.phase == Queued && !r.owner && (r.notBefore.Some? ==> StoredLe(r.notBefore.value, now))
  }

  /**
    A row that waits is found exactly when its time has come and is not the time of the query cut short, or is
    still to come and the time of the query is that time cut short.
    */
  lemma DueExactly(r: Row, now: nat)
    requires r.phase == Queued && !r.owner && r.notBefore.Some?
    ensures var at := r.notBefore.value;
      Due(r, now) <==> if at <= now then at == now || !CutOff(at, now) else CutOff(now, at)
  {
    StoredOrderExactly(r.notBefore.value, now);
  }

  function Taken(r: Row, now: nat, ttl: nat): Row {
    r.(owner := true, gen := r.gen + 1, expires := Some(now + ttl), phase := Running)
  }

  /** The fetch of generation `gen` still owns the row. */
  predicate Owns(r: Row, gen: nat) {
    r.owner && r.gen == gen
  }

  function AfterFailure(retry: nat): Phase {
    if retry >= RETRY_LIMIT then Failed else Queued
  }

  function Closed(r: Row, gen: nat, asked: bool, f: Fetch): Row {
    if !Owns(r, gen) then r
    else match f
      case FetchFailed => r.(owner := false, retry := r.retry + 1, phase := AfterFailure(r.retry + 1))
      case Ineligible => r.(owner := false, needs := false, force := false, phase := Idle)
      case BudgetDenied =>
        var forced := asked || r.force;
        r.(owner := false, needs := false, force := forced, phase := if r.needs || forced then Queued else Idle)
      case AdmissionRan => r.(owner := false, needs := false, force := false, phase := if r.needs then Queued else Idle)
  }

  predicate Dead(r: Row, now: nat) {
    r.owner && (r.expires.Some? ==> r.expires.value <= now)
  }

  function Pow2(n: nat): nat {
    if n == 0 then 1 else 2 * Pow2(n - 1)
  }

  /** One second doubled per failure, up to a minute. */
  function Backoff(n: nat): nat
    requires n >= 1
  {
    var d := Pow2(if n - 1 < 6 then n - 1 else 6) * SECOND;
    if d < 60 * SECOND then d else 60 * SECOND
  }

  function Expired(r: Row, now: nat): Row {
    if !Dead(r, now) then r
    else r.(owner := false, retry := r.retry + 1, phase := AfterFailure(r.retry + 1),
            notBefore := Some(now + Backoff(r.retry + 1)), gen := r.gen + 1)
  }

  function Restarted(r: Row): Row {
    if r.owner then r.(owner := false, phase := Queued, gen := r.gen + 1) else r
  }

  method ExpireOwner(row: Row, now: nat) returns (r: Row)
    requires row.owner
    ensures r == Expired(row, now)
  {
    r := row;
    var dead := true;
    if r.expires.Some? {
      dead := r.expires.value <= now;
    }
    if dead {
      var n := r.retry + 1;
      var phase := Queued;
      if n >= RETRY_LIMIT {
        phase := Failed;
      }
      r := r.(owner := false, retry := n, phase := phase, notBefore := Some(now + Backoff(n)), gen := r.gen + 1);
    }
  }

  // ----- the table -----

  type Key = (string, int)

  class Requests {
    var rows: map<Key, Row>

    constructor ()
      ensures rows == map[]
    {
      rows := map[];
    }

    method EnsureQueued(key: Key, force: bool)
      modifies this
      ensures rows == old(rows)[key := Asked(if key in old(rows) then Some(old(rows)[key]) else None, force)]
      ensures rows[key].phase == Queued && (force ==> rows[key].force)
      ensures key in old(rows) ==>
        && (old(rows)[key].force ==> rows[key].force)
        && (forall gen :: Owns(rows[key], gen) <==> Owns(old(rows)[key], gen))
        && (old(rows)[key].owner ==> rows[key].needs)
    {
      if key !in rows {
        rows := rows[key := Row(0, false, None, 0, false, force, Queued, None)];
        return;
      }
      var r := rows[key];
      if r.owner {
        r := r.(needs := true);
      }
      if force {
        r := r.(force := true);
      }
      rows := rows[key := r.(phase := Queued)];
    }

    /** The first transaction of a step: take some due row, if there is one. */
    method Take(keys: seq<Key>, now: nat, ttl: nat) returns (key: Option<Key>)
      requires forall k :: k in keys <==> k in rows
      modifies this
      ensures key.None? ==> rows == old(rows) && forall k :: k in old(rows) ==> !Due(old(rows)[k], now)
      ensures key.Some? ==>
        && key.value in old(rows) && Due(old(rows)[key.value], now)
        && rows == old(rows)[key.value := Taken(old(rows)[key.value], now, ttl)]
    {
      for i := 0 to |keys|
        invariant rows == old(rows)
        invariant forall j :: 0 <= j < i ==> !Due(rows[keys[j]], now)
      {
        var r := rows[keys[i]];
        if Due(r, now) {
          rows := rows[keys[i] := r.(owner := true, gen := r.gen + 1, expires := Some(now + ttl), phase := Running)];
          return Some(keys[i]);
        }
      }
      return None;
    }

    /** The second transaction of a step. */
    method Close(key: Key, gen: nat, asked: bool, f: Fetch)
      requires key in rows
      modifies this
      ensures rows == old(rows)[key := Closed(old(rows)[key], gen, asked, f)]
      ensures rows != old(rows) ==> Owns(old(rows)[key], gen) && !rows[key].owner
      ensures Owns(old(rows)[key], gen) && rows[key].phase == Idle ==> !old(rows)[key].needs || f == Ineligible
      ensures Owns(old(rows)[key], gen) && rows[key].phase != Idle ==> rows[key].phase == Queued || f == FetchFailed
    {
      var r := rows[key];
      if r.gen != gen || !r.owner {
        return;
      }
      if f == FetchFailed {
        var n := r.retry + 1;
        rows := rows[key := r.(owner := false, retry := n, phase := if n >= RETRY_LIMIT then Failed else Queued)];
        return;
      }
      if f == Ineligible {
        rows := rows[key := r.(owner := false, needs := false, force := false, phase := Idle)];
        return;
      }
      if f == BudgetDenied {
        var phase, forced := Idle, asked || r.force;
        if r.needs || forced {
          phase := Queued;
        }
        rows := rows[key := r.(owner := false, needs := false, force := forced, phase := phase)];
        return;
      }
      if r.needs {
        rows := rows[key := r.(owner := false, needs := false, force := false, phase := Queued)];
        return;
      }
      rows := rows[key := r.(owner := false, force := false, phase := Idle)];
    }

    /** Expires every dead owner and touches no other row. */
    method ExpireOwners(owned: seq<Key>, now: nat)
      requires forall k :: k in owned <==> k in rows && rows[k].owner
      requires forall i, j :: 0 <= i < j < |owned| ==> owned[i] != owned[j]
      modifies this
      ensures rows.Keys == old(rows).Keys
      ensures forall k :: k in rows ==> rows[k] == Expired(old(rows)[k], now)
    {
      ghost var was := rows;
      for i := 0 to |owned|
        invariant rows.Keys == was.Keys
        invariant forall k :: k in rows && k !in owned[..i] ==> rows[k] == was[k]
        invariant forall k :: k in owned[..i] ==> rows[k] == Expired(was[k], now)
      {
        var r := ExpireOwner(rows[owned[i]], now);
        rows := rows[owned[i] := r];
      }
    }
  }
}
