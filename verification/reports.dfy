/** What the workers' reports do to a channel: a bad answer is never the end, and routes never move for one. */
module Reports {
  import opened Common
  import J = Journal
  import opened Probes
  import S = Sources

  predicate Running(status: J.Status) { status == J.Up || status == J.LoggedIn }

  // ---------------------------------------------------------------- what a report writes

  /** A report counts exactly in its own generation, with the service open and the channel running; then it writes the measured status. */
  lemma ReportWrites(events: seq<Event>, n: nat)
    requires n < |events| && events[n].Reports? && MayReport(At(events, n).slot, events[n].p)
    ensures var s, t, e := At(events, n).slot, At(events, n + 1).slot, events[n];
      && (t.owner == Wrote(e.p, e.ok, e.latency) <==> s.probes[e.p].generation == s.generation && !s.closing && s.present && Running(s.status))
      && (t.owner != Wrote(e.p, e.ok, e.latency) ==> t.owner == Free)
      && t.status == (if t.owner == Free then s.status else if e.ok then J.LoggedIn else J.Up)
  {
    OneMore(events, n + 1);
    hide At;
  }

  /** No worker takes a channel out of the two running statuses or brings it back to them, or touches anything else that closes routes. */
  lemma WorkersKeepRunning(events: seq<Event>, n: nat)
    requires n < |events| && OfWorker(events[n])
    ensures var s, t := At(events, n).slot, At(events, n + 1).slot;
      && (Running(t.status) <==> Running(s.status)) && (!Running(s.status) ==> t.status == s.status)
      && t.present == s.present && t.intent == s.intent
      && t.phase in {s.phase, Some(J.Committed)} && (t.phase != s.phase ==> s.phase == Some(J.AwaitingLogin))
  {
    OneMore(events, n + 1);
    AfterWorker(At(events, n), events[n]);
    hide At;
  }

  // ---------------------------------------------------------------- the rows behind the slot

  /** The slot shows what the database holds. */
  predicate Shows(s: Slot, db: J.Db) {
    && s.present == db.row.Some? && (db.row.Some? ==> s.status == db.row.value.status)
    && s.intent == db.intent.Some?
    && s.phase == (if db.record.Some? then Some(db.record.value.phase) else None)
  }

  /** A report that counts is the database's own write of a probe result; it opens or closes no route and makes no configuration outdated. */
  lemma ReportIsWritten(s: Slot, db: J.Db, p: nat, ok: bool, latency: Option<nat>)
    requires MayReport(s, p) && Shows(s, db)
    ensures var t, after := Report(s, p, ok, latency), S.Written(db, S.Probes(ok));
      if t.owner.Wrote? then Shows(t, after) && S.Silent(after) == S.Silent(db) && !S.Bumps(db, after) else Shows(t, db)
  {
  }

  /** A wish saved in the slot is the database's own write of it, and waits if there is an instance or an operation. */
  lemma WishIsWritten(s: Slot, db: J.Db, ticket: nat)
    requires Shows(s, db)
    ensures Shows(Wish(s, db.row.Some? && (db.row.value.container.Some? || db.record.Some?)), S.Written(db, S.Wishes(ticket)))
  {
  }

  // ---------------------------------------------------------------- a bad answer is not the end

  /** No wish is open and no operation is in the middle of its work. */
  predicate Clear(s: Slot) {
    !s.intent && s.phase in {None, Some(J.AwaitingLogin), Some(J.Committed), Some(J.RolledBack)}
  }

  /** As long as somebody asks in the present generation, a running channel is clear. */
  ghost predicate Fair(y: System) {
    Asked(y) && Running(y.slot.status) ==> Clear(y.slot)
  }

  ghost predicate Asked(y: System) {
    || (exists c :: c in y.callers && Asks(y.callers[c], y.slot.generation))
    || (exists i :: 0 <= i < |y.slot.probes| && y.slot.probes[i].generation == y.slot.generation)
  }

  predicate Asks(stage: Stage, generation: nat) {
    (stage.Looked? || stage.Checked?) && stage.seen == generation
  }

  lemma FairStep(y: System, e: Event)
    requires Sound(y) && Fair(y)
    ensures Fair(After(y, e))
  {
    if OfCaller(e) { CallersAreFair(y, e); }
    else if OfWorker(e) { WorkersAreFair(y, e); }
    else { OthersAreFair(y, e); }
  }

  lemma OthersAreFair(y: System, e: Event)
    requires Sound(y) && Fair(y) && !OfCaller(e) && !OfWorker(e)
    ensures Fair(After(y, e))
  {
    var z := After(y, e);
    OutsideIsOnward(y, e);
    StartsCount(y, e);
    forall c | c in y.callers && Asks(y.callers[c], z.slot.generation) ensures z.slot.generation == y.slot.generation && y.slot.owner != Mutation {
      assert StageHolds(y.slot, c, y.callers[c]);
    }
    forall i | 0 <= i < |y.slot.probes| && z.slot.probes[i].generation == z.slot.generation
      ensures z.slot.generation == y.slot.generation && y.slot.owner != Mutation && y.slot.probes[i].generation == y.slot.generation
    {
      assert ProbeHolds(y.slot, i);
    }
  }

  lemma WorkersAreFair(y: System, e: Event)
    requires Sound(y) && Fair(y) && OfWorker(e)
    ensures Fair(After(y, e))
  {
    var z := After(y, e);
    AfterWorker(y, e);
    WorkerIsOnward(y, e);
    StartsCount(y, e);
    forall i | 0 <= i < |y.slot.probes| && z.slot.probes[i].generation == z.slot.generation ensures y.slot.probes[i].generation == y.slot.generation { }
  }

  lemma CallersAreFair(y: System, e: Event)
    requires Sound(y) && Fair(y) && OfCaller(e)
    ensures Fair(After(y, e))
  {
    var z := After(y, e);
    CallersLeaveRow(y, e);
    if Asked(z) && Running(z.slot.status) && !Asked(y) {
      forall i | 0 <= i < |z.slot.probes| ensures z.slot.probes[i].generation != z.slot.generation { NoneSent(y, e, i); }
      var c :| c in z.callers && Asks(z.callers[c], z.slot.generation);
      AskerHasLooked(y, e, c);
    }
  }

  lemma CallersLeaveRow(y: System, e: Event)
    requires OfCaller(e)
    ensures var s, t := y.slot, After(y, e).slot;
      t.generation == s.generation && t.status == s.status && t.intent == s.intent && t.phase == s.phase
  {
    hide Hit, Occupied, Snapshot;
  }

  lemma NoneSent(y: System, e: Event, i: nat)
    requires OfCaller(e) && !Asked(y) && i < |After(y, e).slot.probes|
    ensures After(y, e).slot.probes[i].generation != y.slot.generation
  {
    hide Hit, Occupied, Snapshot;
    if e.Acts? && MayAct(y, e.c) { assert !Asks(y.callers[e.c], y.slot.generation); }
  }

  lemma AskerHasLooked(y: System, e: Event, c: nat)
    requires OfCaller(e) && !Asked(y) && c in After(y, e).callers && Asks(After(y, e).callers[c], y.slot.generation)
    ensures Clear(y.slot)
  {
    hide Hit, Occupied;
    if c in y.callers { assert !Asks(y.callers[c], y.slot.generation); }
  }

  lemma {:induction false} AlwaysFair(events: seq<Event>, n: nat)
    requires n <= |events|
    ensures Fair(At(events, n))
  {
    if n > 0 {
      AlwaysFair(events, n - 1);
      AlwaysSound(events, n - 1);
      OneMore(events, n);
      FairStep(At(events, n - 1), events[n - 1]);
    }
  }

  /** The event does not write the channel's row from outside, and is not the shutdown. */
  predicate LeavesRow(e: Event) { !e.Changes? && !e.Wishes? && !e.Shut? }

  /** Open, present, running and clear. */
  predicate Fit(s: Slot) { !s.closing && s.present && Running(s.status) && Clear(s) }

  lemma FitStep(y: System, e: Event)
    requires Fit(y.slot) && LeavesRow(e)
    ensures Fit(After(y, e).slot)
  {
    hide Delay, Pow2, Snapshot, Hit, Occupied;
  }

  lemma {:induction false} FitStays(events: seq<Event>, a: nat, n: nat)
    requires a <= n <= |events| && Fit(At(events, a).slot) && forall k | a <= k < n :: LeavesRow(events[k])
    ensures Fit(At(events, n).slot)
  {
    if a < n {
      FitStays(events, a, n - 1);
      OneMore(events, n);
      hide At;
      FitStep(At(events, n - 1), events[n - 1]);
    }
  }

  /**
   After a report that counted, bad or good, whoever looks is told to look further, until the row is written from outside or the
   service shuts down: a channel that has failed a probe is probed again.
   */
  lemma FailureIsNotFinal(events: seq<Event>, m: nat, n: nat)
    requires m < n < |events| && events[m].Reports? && MayReport(At(events, m).slot, events[m].p) && At(events, m + 1).slot.owner.Wrote?
    requires forall k | m < k < n :: LeavesRow(events[k])
    requires events[n].Looks? && MayLook(At(events, n), events[n].c)
    ensures var c := events[n].c;
      && c in At(events, n + 1).callers && At(events, n + 1).callers[c] == Looked(At(events, n).slot.generation, events[n].anew)
    ensures !events[m].ok ==> At(events, m + 1).slot.status == J.Up
  {
    hide At, After, Fair, Fit;
    ReportWrites(events, m);
    AlwaysFair(events, m);
    OneMore(events, m + 1);
    ReportedFit(At(events, m), events[m]);
    FitStays(events, m + 1, n);
    OneMore(events, n + 1);
    LookIsToldToLook(At(events, n), events[n]);
  }

  lemma ReportedFit(y: System, e: Event)
    requires Fair(y) && e.Reports? && MayReport(y.slot, e.p) && After(y, e).slot.owner.Wrote?
    ensures Fit(After(y, e).slot)
  {
    assert y.slot.probes[e.p].generation == y.slot.generation;
  }

  lemma LookIsToldToLook(y: System, e: Event)
    requires Fit(y.slot) && e.Looks? && MayLook(y, e.c)
    ensures After(y, e).callers == y.callers[e.c := Looked(y.slot.generation, e.anew)]
  {
  }
}
