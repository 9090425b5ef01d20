/** One change, interrupted as often as may be, and the recovery that is at last left alone. */
module Comeback {
  import opened Common
  import opened Settings
  import opened Journal
  import opened World
  import opened Transitions
  import opened Closing
  import opened Hosts
  import opened Recovery
  import opened Lineage
  import opened Replacing

  /** The change of state a is over: it is in force, or everything is as before. */
  ghost predicate Settled(a: State, b: State, fields: Fields, secrets: set<Field>) {
    exists p :: PlanOf(a, p, fields, secrets) && (InForce(a, b, p) || AsBefore(a, b, p))
  }

  lemma StoryThroughWeather(a: State, b: State, drift: bool, fields: Fields, secrets: set<Field>)
    requires Story(a, b, fields, secrets)
    ensures Story(a, Weathered(b, drift), fields, secrets)
    ensures Trap(Weathered(b, drift)) <==> Trap(b)
  {
    var c := Weathered(b, drift);
    if !SameBinding(a.db, b.db) {
      var p :| PlanOf(a, p, fields, secrets) && Carries(a, b, p);
      if AsBefore(a, b, p) { BeforeThroughWeather(a, b, drift, p); }
      assert Carries(a, c, p);
    }
  }

  lemma BeforeThroughWeather(a: State, b: State, drift: bool, p: Payload)
    requires p.Plan? && a.db.row.Some? && AsBefore(a, b, p)
    ensures AsBefore(a, Weathered(b, drift), p)
  {
    var applied :| b.db.row.value.settings == SettingsAfter(a.db.row.value.settings, p, applied);
    hide SettingsAfter;
    assert Weathered(b, drift).db.row.value.settings == SettingsAfter(a.db.row.value.settings, p, applied);
  }

  lemma StoryEnds(a: State, b: State, fields: Fields, secrets: set<Field>)
    requires Story(a, b, fields, secrets) && b.db.record.None?
    ensures SameBinding(a.db, b.db) || Settled(a, b, fields, secrets)
  {
    if !SameBinding(a.db, b.db) {
      var p :| PlanOf(a, p, fields, secrets) && Carries(a, b, p);
      assert !OnRecord(a, b, p);
      hide PlanOf, InForce, AsBefore, OnRecord;
    }
  }

  /** A recovery that nothing disturbs gets through, unless the change was only queued or somebody holds on to the loser's volume. */
  lemma WhatRemains(a: State, m: State, fields: Fields, secrets: set<Field>)
    requires Story(a, m, fields, secrets) && Inv(m) && !Trap(m) && Unplanned(a)
    ensures !Recoverable(m) ==> m.db.record.Some? && m.db.record.value.phase in {Queued, Committed}
    ensures m.db.record.Some? && m.db.record.value.phase == Queued ==> SameBinding(a.db, m.db)
    ensures m.db.record.Some? && m.db.record.value.phase == Committed ==> NewSide(a, m, fields, secrets)
  {
    RecordShape(m);
    if SameBinding(a.db, m.db) {
    } else {
      var p :| PlanOf(a, p, fields, secrets) && Carries(a, m, p);
      if OnRecord(a, m, p) {
        if m.db.record.value.phase == Committed { CommittedRow(m, m.db.record.value); }
      }
    }
    hide Inv, Trap, Closable, PlansFrom;
  }

  /** Where nothing has been begun a recovery begins nothing. */
  lemma NothingBegun(a: State, m: State, b: State)
    requires SameBinding(a.db, m.db) && Pursued(m, b) && (a.db.record.Some? ==> a.db.record.value.payload.Intent?)
    ensures SameBinding(a.db, b.db)
  {
    hide Recovered, GoesOn;
    if m.db.record.None? { NothingToRecover(m, b); }
  }

  /** One attempt at recovery, in whatever weather. */
  method Again(h: Host, faults: bool, drift: bool, ghost a: State, ghost fields: Fields, ghost secrets: set<Field>) returns (end: Outcome)
    requires Inv(a) && Unplanned(a) && Inv(h.S()) && Story(a, h.S(), fields, secrets) && !Trap(h.S())
    modifies h`containers, h`volumes, h`seeds, h`nextId, h`base, h`stored, h`past, h`faults, h`drift, h.store
    ensures Inv(h.S()) && Story(a, h.S(), fields, secrets) && !Trap(h.S()) && h.faults == faults && h.drift == drift
    ensures end == Done ==> h.store.record.None?
    ensures SameBinding(a.db, old(h.S()).db) ==> SameBinding(a.db, h.S().db)
    ensures h.past.lowered == old(h.past.lowered) && (h.past.still <==> old(h.past.still) && !drift)
    ensures !faults && !drift && end != Done ==>
              h.store.record.Some? && h.store.record.value.phase in {Queued, Committed}
  {
    hide Inv, Story, Trap, Recovered, Recoverable, Unplanned;
    StoryThroughWeather(a, h.S(), drift, fields, secrets);
    h.Weather(faults, drift);
    ghost var m := h.S();
    WhatRemains(a, m, fields, secrets);
    PlanlessIsIntent(a);
    end := Recover(h);
    StoryGoesOn(a, m, h.S(), fields, secrets);
    if SameBinding(a.db, m.db) { NothingBegun(a, m, h.S()); }
  }

  lemma PlanlessIsIntent(a: State)
    requires Inv(a) && Unplanned(a)
    ensures a.db.record.Some? ==> a.db.record.value.payload.Intent?
  {
    RecordShape(a);
  }

  /** The channel is under its old settings again and runs exactly if its container in state a ran. */
  ghost predicate RunsAsItDid(a: State, b: State, fields: Fields, secrets: set<Field>) {
    exists p :: PlanOf(a, p, fields, secrets) && AsBefore(a, b, p)
      && (p.oldId.Some? ==>
            ChannelUp(b) && (b.containers[b.db.row.value.container.value].life == Running <==> a.containers[p.oldId.value].life == Running))
  }

  lemma SettledRuns(a: State, b: State, fields: Fields, secrets: set<Field>)
    requires Settled(a, b, fields, secrets) && b.past.still && !b.past.lowered && !a.drift
    ensures (exists p :: PlanOf(a, p, fields, secrets) && InForce(a, b, p)) || RunsAsItDid(a, b, fields, secrets)
  {
    var p :| PlanOf(a, p, fields, secrets) && (InForce(a, b, p) || AsBefore(a, b, p));
    if !InForce(a, b, p) { BeforeRuns(a, b, p); }
  }

  lemma BeforeRuns(a: State, b: State, p: Payload)
    requires p.Plan? && a.db.row.Some? && AsBefore(a, b, p) && b.past.still && !b.past.lowered
    ensures p.oldId.Some? ==> ChannelUp(b) && (b.containers[b.db.row.value.container.value].life == Running <==> p.oldRunning)
  {
    hide SettingsAfter;
  }

  /**
   A change is begun, and it and every recovery after it may stop anywhere and lose any reply while the world moves.
   The first recovery that is left alone in a world at rest then ends it: nothing was begun, the new settings are in force,
   or everything is as before, and unless the world has moved meanwhile the channel runs exactly if it ran.
   */
  method ComeBack(h: Host, fields: Fields, secrets: set<Field>, forceStart: bool, selfInstalled: bool, mustPass: bool)
    returns (end: Outcome, ghost moved: bool)
    requires Inv(h.S()) && Unplanned(h.S())
    modifies h`containers, h`volumes, h`seeds, h`nextId, h`nextOp, h`base, h`stored, h`past, h`answers, h`faults, h`drift, h.store
    ensures Inv(h.S()) && !Trap(h.S())
    ensures var all := Merged(old(h.store.record), fields);
      if end == Done then
        h.store.record.None? && (SameBinding(old(h.S()).db, h.S().db) || Settled(old(h.S()), h.S(), all, secrets))
      else if h.store.record.Some? && h.store.record.value.phase == Committed then
        NewSide(old(h.S()), h.S(), all, secrets)
      else
        h.store.record.Some? && h.store.record.value.phase == Queued && SameBinding(old(h.S()).db, h.S().db)
    ensures SameBinding(old(h.S()).db, h.S().db) || (!h.past.lowered && (h.past.still <==> !moved))
    ensures old(h.drift) ==> moved
    ensures end == Done && !moved && !SameBinding(old(h.S()).db, h.S().db) ==>
      var all := Merged(old(h.store.record), fields);
      (exists p :: PlanOf(old(h.S()), p, all, secrets) && InForce(old(h.S()), h.S(), p)) || RunsAsItDid(old(h.S()), h.S(), all, secrets)
  {
    hide Inv, Story, Trap, NewSide, Unplanned, Settled, SameBinding, PlanOf, InForce, AsBefore, RunsAsItDid;
    ghost var a, all := h.S(), Merged(h.store.record, fields);
    moved := h.drift;
    end := Replace(h, fields, secrets, forceStart, selfInstalled, mustPass);
    var attempts: nat := *;
    while attempts > 0
      invariant Inv(h.S()) && Story(a, h.S(), all, secrets) && !Trap(h.S()) && (a.drift ==> moved)
      invariant SameBinding(a.db, h.S().db) || (!h.past.lowered && (h.past.still <==> !moved))
    {
      var faults, drift := *, *;
      moved := moved || drift;
      end := Again(h, faults, drift, a, all, secrets);
      attempts := attempts - 1;
    }
    end := Again(h, false, false, a, all, secrets);
    if h.store.record.None? { StoryEnds(a, h.S(), all, secrets); }
    WhatRemains(a, h.S(), all, secrets);
    if end == Done && !moved && !SameBinding(a.db, h.S().db) { SettledRuns(a, h.S(), all, secrets); }
  }
}
