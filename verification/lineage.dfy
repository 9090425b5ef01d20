/** What any number of interrupted attempts at one change can have led to. */
module Lineage {
  import opened Common
  import opened Names
  import opened Settings
  import opened Journal
  import opened World
  import opened Drift
  import opened Transitions
  import opened Renames
  import opened Effects
  import opened Closing
  import opened Recovery

  /** The plan remembers how the old container was. */
  predicate PlansFrom(a: State, p: Payload) {
    && p.Plan? && a.db.row.Some?
    && (p.oldId.Some? ==> p.oldId == a.db.row.value.container && p.oldId.value in a.containers
                          && p.oldPolicy == a.containers[p.oldId.value].policy
                          && (!a.drift ==> p.oldRunning == (a.containers[p.oldId.value].life == Running)))
    && (p.oldId.None? && a.db.row.value.container.Some? ==> a.db.row.value.container.value !in a.containers)
    && (p.kind == Replacement <==> p.oldId.Some?)
  }

  /** The plan to change the channel of state a in these fields. */
  predicate PlanOf(a: State, p: Payload, fields: Fields, secrets: set<Field>) {
    PlansFrom(a, p) && p.oldVolume == a.db.row.value.volume && p.fields == fields && p.secrets == secrets
  }

  /** Nothing is left of operation op but the container the row names. */
  ghost predicate NothingLeftOf(b: State, op: nat, p: Payload)
    requires p.Plan?
  {
    && (forall i | i in b.containers && OfOperation(b.containers[i], op) :: IsChannel(b, i))
    && (p.oldId.Some? && p.oldId.value in b.containers ==> IsChannel(b, p.oldId.value))
  }

  /** The change is in force on its own volume, and the old side is gone. */
  ghost predicate InForce(a: State, b: State, p: Payload)
    requires p.Plan? && a.db.row.Some?
  {
    && b.db.record.None? && b.db.row.Some? && ChannelUp(b) && NothingLeftOf(b, a.nextOp, p)
    && b.db.row.value.volume == Fresh(a.nextOp) && p.oldVolume !in b.volumes
    && b.db.row.value.settings == Update(a.db.row.value.settings, p.fields, p.secrets)
    && Fresh(a.nextOp) in b.containers[b.db.row.value.container.value].mounts
    && b.containers[b.db.row.value.container.value].policy == UnlessStopped
  }

  /** Everything is as it was: settings, volume, name, policy, and whether the channel runs. */
  ghost predicate AsBefore(a: State, b: State, p: Payload)
    requires p.Plan? && a.db.row.Some?
  {
    && b.db.record.None? && b.db.row.Some? && NothingLeftOf(b, a.nextOp, p)
    && b.db.row.value.volume == p.oldVolume && Fresh(a.nextOp) !in b.volumes
    && (exists applied :: b.db.row.value.settings == SettingsAfter(a.db.row.value.settings, p, applied))
    && (if p.oldId.None? then b.db.row.value.container == None && NameFree(b, Canonical) else
          && ChannelUp(b)
          && var c := b.containers[b.db.row.value.container.value];
             && p.oldVolume in c.mounts && c.policy == p.oldPolicy
             && (b.past.still && !b.past.lowered ==> (c.life == Running <==> p.oldRunning)))
  }

  /** The operation is on record with that plan. */
  predicate OnRecord(a: State, b: State, p: Payload) {
    && a.db.row.Some? && p.Plan? && b.db.record.Some? && b.db.record.value.op == a.nextOp && b.db.record.value.payload.Plan?
    && b.db.record.value.phase !in {Queued, Deleting}
    && b.db.record.value.payload == p.(configApplied := b.db.record.value.payload.configApplied, newId := b.db.record.value.payload.newId)
    && b.base == a.db.row.value.settings
  }

  ghost predicate Carries(a: State, b: State, p: Payload) {
    p.Plan? && a.db.row.Some? && (OnRecord(a, b, p) || InForce(a, b, p) || AsBefore(a, b, p))
  }

  /** Nothing has been begun, or one operation has, whose plan was drawn from state a. */
  ghost predicate Story(a: State, b: State, fields: Fields, secrets: set<Field>) {
    SameBinding(a.db, b.db) || exists p :: PlanOf(a, p, fields, secrets) && Carries(a, b, p)
  }

  /** What a recovery promises of its result, however it ended. */
  ghost predicate Pursued(a: State, b: State) {
    && b.past == a.past
    && (b.db.record.None? ==> Recovered(a, b))
    && (b.db.record.Some? ==> GoesOn(a, b))
    && (a.db.record.Some? && a.db.record.value.payload.Intent? ==> b.db == a.db)
  }

  lemma StoryGoesOn(a: State, m: State, b: State, fields: Fields, secrets: set<Field>)
    requires a.db.record.Some? ==> a.db.record.value.payload.Intent?
    requires Story(a, m, fields, secrets) && Inv(m) && Pursued(m, b)
    ensures Story(a, b, fields, secrets)
  {
    hide PlanOf, Carries, Inv, Recovered, GoesOn;
    if SameBinding(a.db, m.db) {
      if m.db.record.None? { NothingToRecover(m, b); }
    } else {
      var p :| PlanOf(a, p, fields, secrets) && Carries(a, m, p);
      Onward(a, m, b, p);
    }
  }

  lemma NothingToRecover(m: State, b: State)
    requires m.db.record.None? && Pursued(m, b)
    ensures b == m
  {
  }

  lemma Onward(a: State, m: State, b: State, p: Payload)
    requires Carries(a, m, p) && Inv(m) && Pursued(m, b)
    ensures Carries(a, b, p)
  {
    hide Inv, InForce, AsBefore, Closed, Restored, Ongoing;
    if !OnRecord(a, m, p) { EndedIsOffRecord(a, m, p); }
    if m.db.record.None? {
      NothingToRecover(m, b);
    } else if b.db.record.Some? {
      StaysOnRecord(a, m, b, p);
    } else {
      Concluded(a, m, b, p);
    }
  }

  lemma EndedIsOffRecord(a: State, b: State, p: Payload)
    requires p.Plan? && a.db.row.Some? && (InForce(a, b, p) || AsBefore(a, b, p))
    ensures b.db.record.None?
  {
  }

  lemma StaysOnRecord(a: State, m: State, b: State, p: Payload)
    requires OnRecord(a, m, p) && GoesOn(m, b)
    ensures OnRecord(a, b, p)
  {
  }

  lemma Concluded(a: State, m: State, b: State, p: Payload)
    requires OnRecord(a, m, p) && Inv(m) && Recovered(m, b) && b.db.record.None? && b.past == m.past
    ensures InForce(a, b, p) || AsBefore(a, b, p)
  {
    hide Inv, Closed, Restored, InForce, AsBefore;
    var r := m.db.record.value;
    StandsStill(m);
    if r.phase == Committed {
      ConcludedNew(a, m, b, p);
    } else if r.phase == RolledBack {
      RolledBackSettings(m, r);
      ConcludedOld(a, m, b, p);
    } else {
      ConcludedBack(a, m, b, p, r.phase == AwaitingLogin || (r.phase == RollingBack && r.payload.configApplied));
    }
  }

  lemma ConcludedNew(a: State, m: State, b: State, p: Payload)
    requires OnRecord(a, m, p) && Inv(m) && m.db.record.value.phase == Committed && Closed(m, b)
    ensures InForce(a, b, p)
  {
    CommittedRow(m, m.db.record.value);
    hide Inv;
  }

  lemma CommittedRow(m: State, r: Record)
    requires Inv(m) && m.db.record == Some(r) && r.payload.Plan? && r.phase == Committed
    ensures RowAfter(m, r)
  {
    hide Frame, OperationHolds, RowAfter;
  }

  /** With the rollback on record the channel runs as the plan says, unless the world moves or a stop has lowered the flag. */
  lemma RunsBack(m: State, r: Record)
    requires Inv(m) && m.db.record == Some(r) && r.payload.Plan? && r.phase == RolledBack && r.payload.oldId.Some?
    requires m.past.still && !m.past.lowered && ChannelUp(m)
    ensures m.containers[m.db.row.value.container.value].life == Running <==> r.payload.oldRunning
    ensures !m.drift
  {
    hide Frame, PhaseHolds, OperationShapes;
  }

  lemma ConcludedOld(a: State, m: State, b: State, p: Payload)
    requires OnRecord(a, m, p) && Inv(m) && m.db.record.value.phase == RolledBack && Closed(m, b) && b.past == m.past
    requires m.db.row.Some? && m.db.row.value.volume == p.oldVolume
    requires m.db.row.value.settings == SettingsAfter(m.base, m.db.record.value.payload, m.db.record.value.payload.configApplied)
    ensures AsBefore(a, b, p)
  {
    var r := m.db.record.value;
    KindMeansOld(m, r);
    if r.payload.oldId.Some? && m.past.still && !m.past.lowered && ChannelUp(m) { RunsBack(m, r); }
    hide Inv, SettingsAfter;
    assert SettingsAfter(m.base, r.payload, r.payload.configApplied) == SettingsAfter(a.db.row.value.settings, p, r.payload.configApplied) by { SamePlan(m.base, r.payload, p, r.payload.configApplied); }
  }

  lemma SamePlan(base: Settings, q: Payload, p: Payload, applied: bool)
    requires p.Plan? && q.Plan? && q == p.(configApplied := q.configApplied, newId := q.newId)
    ensures SettingsAfter(base, q, applied) == SettingsAfter(base, p, applied)
  {
  }

  lemma KindMeansOld(m: State, r: Record)
    requires Inv(m) && m.db.record == Some(r) && r.payload.Plan?
    ensures r.payload.kind == Replacement <==> r.payload.oldId.Some?
  {
    hide Frame, PhaseHolds, OperationShapes;
  }

  /** In a world that stands still the old container runs only if the plan says so. */
  lemma OldRanBefore(m: State, r: Record)
    requires Inv(m) && m.db.record == Some(r) && r.payload.Plan? && r.phase != Deleting && m.past.still && !m.past.lowered
    ensures !m.drift
    ensures r.payload.oldId.Some? && RunsAsChannel(m, r.payload.oldId.value) ==> r.payload.oldRunning
  {
    hide Frame, RecordHolds;
  }

  lemma ConcludedBack(a: State, m: State, b: State, p: Payload, applied: bool)
    requires OnRecord(a, m, p) && Inv(m) && Restored(m, b, m.db.record.value, applied) && b.past == m.past
    ensures AsBefore(a, b, p)
  {
    var r := m.db.record.value;
    KindMeansOld(m, r);
    if m.past.still && !m.past.lowered { OldRanBefore(m, r); }
    hide Inv, SettingsAfter, RunsAsChannel;
    SamePlan(m.base, r.payload, p, applied);
  }
}
