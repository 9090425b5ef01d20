/**
 The record of applying a configuration: what is wanted, what was last read back, and the ticket
 that each attempt carries. SQLite triggers bump the source revision with every relevant write.
 */
module Tickets {
  import opened Common

  datatype Ticket = Ticket(revision: int, routingOff: bool, generation: nat, attempt: nat, digest: string)

  /** The single row of config_apply_state; the time of the last read-back is reduced to whether there is one. */
  datatype Row = Row(sourceRevision: int, desiredRevision: int, desiredOff: Option<bool>, desiredGeneration: nat, attempt: nat,
                     desiredHash: string, appliedGeneration: nat, appliedHash: string, verified: bool, lastError: Option<string>)

  const Fresh: Row := Row(0, -1, None, 0, 0, "", 0, "", false, None)

  predicate ValidDigest(d: string) {
    |d| == 64 && forall i | 0 <= i < 64 :: '0' <= d[i] <= '9' || 'a' <= d[i] <= 'f'
  }

  predicate ValidCode(code: string) {
    code in {"write_failed", "delivery_failed", "reload_failed", "readback_failed", "readback_mismatch", "dns_flush_failed", "runtime_idle"}
  }

  /** The ticket compares equal to the row column by column. */
  predicate Current(row: Row, t: Ticket) {
    && row.desiredRevision == t.revision && row.desiredOff == Some(t.routingOff) && row.desiredGeneration == t.generation
    && row.attempt == t.attempt && row.desiredHash == t.digest
  }

  predicate Pending(row: Row, off: bool) {
    || !row.verified || row.lastError.Some? || row.sourceRevision != row.desiredRevision || row.desiredOff != Some(off)
    || row.desiredGeneration != row.appliedGeneration || row.desiredHash != row.appliedHash
  }

  /** What was last read back is what the ticket stands for, and nothing has gone wrong since. */
  predicate InForce(row: Row, t: Ticket) {
    row.verified && row.appliedGeneration == t.generation && row.appliedHash == t.digest && row.lastError.None?
  }

  predicate MayPrepare(row: Row, revision: int, digest: string) {
    ValidDigest(digest) && row.sourceRevision == revision
  }

  function NextTicket(row: Row, revision: int, off: bool, digest: string): Ticket {
    Ticket(revision, off, row.desiredGeneration + (if row.desiredHash != digest then 1 else 0), row.attempt + 1, digest)
  }

  function Prepared(row: Row, t: Ticket): Row {
    row.(desiredRevision := t.revision, desiredOff := Some(t.routingOff), desiredGeneration := t.generation,
         attempt := t.attempt, desiredHash := t.digest, lastError := Some("unconfirmed"))
  }

  function ReadBack(row: Row, error: Option<string>): Row {
    row.(appliedGeneration := row.desiredGeneration, appliedHash := row.desiredHash, verified := true, lastError := error)
  }

  class TicketStore {
    var row: Row

    constructor ()
      ensures row == Fresh
    {
      row := Fresh;
    }

    /** A relevant write to channels or rules, in its own transaction. */
    method Bump()
      modifies this
      ensures row == old(row).(sourceRevision := old(row).sourceRevision + 1)
    {
      row := row.(sourceRevision := row.sourceRevision + 1);
    }

    method Prepare(revision: int, off: bool, digest: string) returns (t: Option<Ticket>)
      modifies this
      ensures t.Some? == MayPrepare(old(row), revision, digest)
      ensures t.Some? ==> t.value == NextTicket(old(row), revision, off, digest) && row == Prepared(old(row), t.value)
      ensures t.None? ==> row == old(row)
      ensures t.Some? <==> ValidDigest(digest) && old(row).sourceRevision == revision
      ensures t.Some? ==> Current(row, t.value) && t.value.revision == revision && t.value.routingOff == off && t.value.digest == digest
      ensures t.Some? ==> t.value.attempt == old(row).attempt + 1
                          && t.value.generation == old(row).desiredGeneration + (if digest == old(row).desiredHash then 0 else 1)
      ensures t.Some? ==> row.lastError == Some("unconfirmed") && row.sourceRevision == revision && row.verified == old(row).verified
                          && row.appliedGeneration == old(row).appliedGeneration && row.appliedHash == old(row).appliedHash
    {
      if !ValidDigest(digest) || row.sourceRevision != revision { return None; }
      var generation := row.desiredGeneration;
      if row.desiredHash != digest { generation := generation + 1; }
      var attempt := row.attempt + 1;
      row := row.(desiredRevision := revision, desiredOff := Some(off), desiredGeneration := generation,
                  attempt := attempt, desiredHash := digest, lastError := Some("unconfirmed"));
      t := Some(Ticket(revision, off, generation, attempt, digest));
    }

    method RecordReadback(t: Ticket, error: Option<string>) returns (ok: bool)
      modifies this
      ensures ok == Current(old(row), t)
      ensures row == if ok then ReadBack(old(row), error) else old(row)
      ensures ok ==> row.verified && row.appliedGeneration == t.generation && row.appliedHash == t.digest && row.lastError == error
                     && Current(row, t) && row.sourceRevision == old(row).sourceRevision
    {
      ok := Current(row, t);
      if ok {
        row := row.(appliedGeneration := row.desiredGeneration, appliedHash := row.desiredHash, verified := true, lastError := error);
      }
    }

    method Confirmed(t: Ticket) returns (ok: bool)
      modifies this
      ensures ok == Current(old(row), t)
      ensures row == if ok then ReadBack(old(row), None) else old(row)
    {
      ok := RecordReadback(t, None);
    }

    method Observed(t: Ticket) returns (ok: bool)
      modifies this
      ensures ok == Current(old(row), t)
      ensures row == if ok then ReadBack(old(row), Some("unconfirmed")) else old(row)
    {
      ok := RecordReadback(t, Some("unconfirmed"));
    }

    method Failed(t: Ticket, code: string) returns (ok: bool)
      modifies this
      ensures ok == (ValidCode(code) && Current(old(row), t))
      ensures row == if ok then old(row).(lastError := Some(code)) else old(row)
      ensures code in {"write_failed", "delivery_failed", "reload_failed", "readback_failed", "readback_mismatch", "dns_flush_failed", "runtime_idle"} ==>
                ok == Current(old(row), t)
    {
      ok := ValidCode(code) && Current(row, t);
      if ok { row := row.(lastError := Some(code)); }
    }

    /** Nothing is pending exactly if the ticket in the row is for the present sources and switch and has been read back without error. */
    method Status(off: bool) returns (pending: bool)
      ensures pending == Pending(row, off)
      ensures !pending <==> exists t :: Current(row, t) && t.revision == row.sourceRevision && t.routingOff == off && InForce(row, t)
    {
      if !Pending(row, off) {
        assert Current(row, Ticket(row.desiredRevision, off, row.desiredGeneration, row.attempt, row.desiredHash));
      }
      pending := !row.verified || row.lastError.Some? || row.sourceRevision != row.desiredRevision || row.desiredOff != Some(off)
        || row.desiredGeneration != row.appliedGeneration || row.desiredHash != row.appliedHash;
    }
  }

  // ---------------------------------------------------------------- runs

  /** What callers do, with whatever tickets they hold. */
  datatype Event =
    | Change
    | Prepare(revision: int, off: bool, digest: string)
    | Observe(t: Ticket)
    | Confirm(t: Ticket)
    | Fail(t: Ticket, code: string)

  /** The row after an event; one that raises leaves it alone. */
  function After(row: Row, e: Event): Row {
    match e
    case Change => row.(sourceRevision := row.sourceRevision + 1)
    case Prepare(revision, off, digest) =>
      if MayPrepare(row, revision, digest) then Prepared(row, NextTicket(row, revision, off, digest)) else row
    case Observe(t) => if Current(row, t) then ReadBack(row, Some("unconfirmed")) else row
    case Confirm(t) => if Current(row, t) then ReadBack(row, None) else row
    case Fail(t, code) => if ValidCode(code) && Current(row, t) then row.(lastError := Some(code)) else row
  }

  function At(events: seq<Event>, n: nat): Row
    requires n <= |events|
  {
    if n == 0 then Fresh else After(At(events, n - 1), events[n - 1])
  }

  /** Event k prepares successfully; the ticket it hands out. */
  predicate Prepares(events: seq<Event>, k: nat)
    requires k < |events|
  {
    events[k].Prepare? && MayPrepare(At(events, k), events[k].revision, events[k].digest)
  }

  function Issued(events: seq<Event>, k: nat): Ticket
    requires k < |events| && events[k].Prepare?
  {
    NextTicket(At(events, k), events[k].revision, events[k].off, events[k].digest)
  }

  /** k is the last successful prepare before n. */
  predicate Latest(events: seq<Event>, k: nat, n: nat)
    requires n <= |events|
  {
    k < n && Prepares(events, k) && forall j | k < j < n :: !Prepares(events, j)
  }

  lemma {:induction false} LatestIsCurrent(events: seq<Event>, k: nat, n: nat)
    requires n <= |events| && Latest(events, k, n)
    ensures Current(At(events, n), Issued(events, k))
  {
    if n > k + 1 {
      LatestIsCurrent(events, k, n - 1);
      assert !Prepares(events, n - 1);
    }
  }

  lemma {:induction false} NothingPrepared(events: seq<Event>, n: nat)
    requires n <= |events| && forall j | 0 <= j < n :: !Prepares(events, j)
    ensures At(events, n).desiredOff.None? && !At(events, n).verified
  {
    if n > 0 {
      NothingPrepared(events, n - 1);
      assert !Prepares(events, n - 1);
    }
  }

  lemma {:induction false} FindLatest(events: seq<Event>, n: nat) returns (k: nat)
    requires n <= |events| && exists j | 0 <= j < n :: Prepares(events, j)
    ensures Latest(events, k, n)
  {
    if Prepares(events, n - 1) { k := n - 1; } else { k := FindLatest(events, n - 1); }
  }

  /** A ticket does anything only while it is the latest that was prepared. */
  lemma OnlyLatestActs(events: seq<Event>, n: nat, t: Ticket) returns (k: nat)
    requires n < |events| && (events[n] == Observe(t) || events[n] == Confirm(t) || (events[n].Fail? && events[n].t == t))
    requires At(events, n + 1) != At(events, n)
    ensures Latest(events, k, n) && Issued(events, k) == t
  {
    if forall j | 0 <= j < n :: !Prepares(events, j) { NothingPrepared(events, n); }
    k := FindLatest(events, n);
    LatestIsCurrent(events, k, n);
  }

  /** No two prepares hand out the same ticket. */
  lemma {:induction false} AttemptsGrow(events: seq<Event>, i: nat, j: nat)
    requires i <= j <= |events|
    ensures At(events, i).attempt <= At(events, j).attempt
    ensures i < j && Prepares(events, i) ==> At(events, i).attempt < At(events, j).attempt
  {
    if i < j { AttemptsGrow(events, i, j - 1); }
  }

  lemma TicketsDiffer(events: seq<Event>, i: nat, j: nat)
    requires i < j < |events| && Prepares(events, i) && Prepares(events, j)
    ensures Issued(events, i) != Issued(events, j)
  {
    AttemptsGrow(events, i, j);
  }

  /** Equal generations stand for equal contents, and the applied generation never runs ahead. */
  lemma {:induction false} EqualGenerationsEqualHashes(events: seq<Event>, n: nat)
    requires n <= |events|
    ensures At(events, n).appliedGeneration <= At(events, n).desiredGeneration
    ensures At(events, n).appliedGeneration == At(events, n).desiredGeneration ==> At(events, n).appliedHash == At(events, n).desiredHash
  {
    if n > 0 { EqualGenerationsEqualHashes(events, n - 1); }
  }

  lemma {:induction false} SourceGrows(events: seq<Event>, k: nat, n: nat)
    requires k <= n <= |events|
    ensures At(events, k).sourceRevision <= At(events, n).sourceRevision
    ensures At(events, k).sourceRevision == At(events, n).sourceRevision <==> forall j | k <= j < n :: !events[j].Change?
  {
    if k < n { SourceGrows(events, k, n - 1); }
  }

  /** Somewhere after k the ticket was confirmed, and nothing was recorded for it since. */
  predicate ConfirmedSince(events: seq<Event>, k: nat, n: nat, t: Ticket)
    requires k < n <= |events|
  {
    exists c | k < c < n :: events[c] == Confirm(t) && forall j | c < j < n :: events[j] != Observe(t) && !FailsFor(events[j], t)
  }

  predicate FailsFor(e: Event, t: Ticket) {
    e.Fail? && e.t == t && ValidCode(e.code)
  }

  /** One more event, other than a preparation, confirms, spoils or leaves the confirmation. */
  lemma ConfirmedStep(events: seq<Event>, k: nat, n: nat, t: Ticket)
    requires k < n < |events|
    ensures ConfirmedSince(events, k, n + 1, t) <==>
      events[n] == Confirm(t) || (ConfirmedSince(events, k, n, t) && events[n] != Observe(t) && !FailsFor(events[n], t))
  {
    hide FailsFor;
    if ConfirmedSince(events, k, n + 1, t) && events[n] != Confirm(t) {
      var c :| k < c < n + 1 && events[c] == Confirm(t) && forall j | c < j < n + 1 :: events[j] != Observe(t) && !FailsFor(events[j], t);
      assert c < n && k < c;
    }
    if ConfirmedSince(events, k, n, t) && events[n] != Observe(t) && !FailsFor(events[n], t) {
      var c :| k < c < n && events[c] == Confirm(t) && forall j | c < j < n :: events[j] != Observe(t) && !FailsFor(events[j], t);
      assert k < c < n + 1 && forall j | c < j < n + 1 :: events[j] != Observe(t) && !FailsFor(events[j], t);
    }
  }

  lemma NotConfirmedYet(events: seq<Event>, k: nat, t: Ticket)
    requires k < |events|
    ensures !ConfirmedSince(events, k, k + 1, t)
  {
  }

  /** What an event does to the error of the row that carries ticket t. */
  lemma ErrorStep(row: Row, e: Event, t: Ticket)
    requires Current(row, t) && !(e.Prepare? && MayPrepare(row, e.revision, e.digest))
    ensures After(row, e).lastError.None? <==> e == Confirm(t) || (row.lastError.None? && e != Observe(t) && !FailsFor(e, t))
    ensures e == Confirm(t) ==> After(row, e) == ReadBack(row, None)
    ensures After(row, e).lastError.None? && e != Confirm(t) ==>
      After(row, e) == row.(sourceRevision := After(row, e).sourceRevision)
  {
  }

  lemma {:induction false} NoErrorMeansConfirmed(events: seq<Event>, k: nat, n: nat)
    requires k < n <= |events| && Latest(events, k, n)
    ensures At(events, n).lastError.None? <==> ConfirmedSince(events, k, n, Issued(events, k))
    ensures At(events, n).lastError.None? ==>
      At(events, n).verified && At(events, n).appliedGeneration == At(events, n).desiredGeneration
      && At(events, n).appliedHash == At(events, n).desiredHash
  {
    hide ConfirmedSince, FailsFor, Current;
    if n > k + 1 {
      NoErrorMeansConfirmed(events, k, n - 1);
      LatestIsCurrent(events, k, n - 1);
      assert !Prepares(events, n - 1);
      ErrorStep(At(events, n - 1), events[n - 1], Issued(events, k));
      ConfirmedStep(events, k, n - 1, Issued(events, k));
      hide After;
    } else {
      NotConfirmedYet(events, k, Issued(events, k));
    }
  }

  /** What it takes for the configuration to be settled. */
  predicate Settled(events: seq<Event>, n: nat, off: bool)
    requires n <= |events|
  {
    exists k | 0 <= k < n ::
      && Latest(events, k, n) && Issued(events, k).routingOff == off
      && (forall j | k <= j < n :: !events[j].Change?)
      && ConfirmedSince(events, k, n, Issued(events, k))
  }

  /**
   Not pending means, and only ever means: the latest ticket was confirmed after it was prepared,
   the sources have not changed since, and the switch for all routing is as it was.
   */
  lemma NotPendingMeansSettled(events: seq<Event>, n: nat, off: bool)
    requires n <= |events|
    ensures !Pending(At(events, n), off) <==> Settled(events, n, off)
  {
    if forall j | 0 <= j < n :: !Prepares(events, j) {
      NothingPrepared(events, n);
    } else {
      var k := FindLatest(events, n);
      LatestIsCurrent(events, k, n);
      NoErrorMeansConfirmed(events, k, n);
      SourceGrows(events, k, n);
      if Settled(events, n, off) {
        var l :| 0 <= l < n && Latest(events, l, n) && Issued(events, l).routingOff == off
          && (forall j | l <= j < n :: !events[j].Change?) && ConfirmedSince(events, l, n, Issued(events, l));
        assert l == k;
      }
    }
  }
}
