/** Changes that leave names, labels and mounts alone: drift, policies, stopping. */
module Drift {
  import opened Common
  import opened Names
  import opened Settings
  import opened Journal
  import opened World

  /** Same name, labels and mounts. */
  predicate AlikeContainer(c: Container, d: Container) {
    d == c.(life := d.life, policy := d.policy)
  }

  /** Nothing differs but lives, policies, the contents of volumes and the seeds. */
  ghost predicate Alike(a: State, b: State) {
    && b == a.(containers := b.containers, volumes := b.volumes, seeds := b.seeds)
    && b.containers.Keys == a.containers.Keys
    && (forall i | i in a.containers :: AlikeContainer(a.containers[i], b.containers[i]))
    && b.volumes.Keys == a.volumes.Keys
    && (forall v | v in a.volumes :: b.volumes[v].tag == a.volumes[v].tag)
  }

  /** The same containers with the same labels and mounts, and the same rows. */
  ghost predicate Kin(a: State, b: State) {
    && b.db == a.db && b.nextOp == a.nextOp && b.birth == a.birth && b.foreign == a.foreign && b.elsewhere == a.elsewhere
    && b.nextId == a.nextId && b.stored == a.stored
    && b.containers.Keys == a.containers.Keys
    && (forall i | i in a.containers ::
          b.containers[i] == a.containers[i].(name := b.containers[i].name, life := b.containers[i].life, policy := b.containers[i].policy))
    && b.volumes.Keys == a.volumes.Keys
    && (forall v | v in a.volumes :: b.volumes[v].tag == a.volumes[v].tag)
  }

  lemma KinTags(a: State, b: State)
    requires Kin(a, b) && DistinctTags(a) && Census(a) && VolumeCensus(a) && RowsOwn(a) && DataKept(a)
    ensures DistinctTags(b) && Census(b) && VolumeCensus(b) && RowsOwn(b) && DataKept(b)
  {
    forall i | i in b.containers ensures b.containers[i].tag == a.containers[i].tag { }
    forall i: nat ensures Referenced(b, i) <==> Referenced(a, i) { }
    forall v ensures VolumeReferenced(b, v) <==> VolumeReferenced(a, v) { }
  }

  lemma AlikeIsKin(a: State, b: State)
    requires Alike(a, b)
    ensures Kin(a, b)
  {
    assert forall i | i in a.containers :: AlikeContainer(a.containers[i], b.containers[i]);
  }

  /** No candidate has been started for the first time. */
  ghost predicate NoneStarted(a: State, b: State) {
    && b.seeds == a.seeds
    && (forall i | i in a.containers && i in b.containers && a.containers[i].tag.Owned? && a.containers[i].tag.role == Candidate ::
          b.containers[i].life == Created <==> a.containers[i].life == Created)
  }

  /** The pieces of the invariant, for callers that keep it folded. */
  lemma InvParts(s: State)
    requires Inv(s)
    ensures Frame(s) && RecordHolds(s) && Promise(s) && LeftAlone(s)
    ensures DistinctNames(s) && DistinctTags(s) && Bounded(s) && ForeignIntact(s) && Quiet(s)
    ensures RowsOwn(s) && Census(s) && VolumeCensus(s) && SeedsAgree(s) && DataKept(s)
  {
    hide DistinctNames, DistinctTags, Bounded, ForeignIntact, Quiet, RowsOwn, Census, VolumeCensus, SeedsAgree, DataKept, RecordHolds, Promise, LeftAlone;
  }

  /** The parts of the promise that a step may change, and what they change with. */
  lemma PromiseCarries(a: State, b: State)
    requires Promise(a) && b.past.still == a.past.still && b.drift == a.drift && b.past.lowered == a.past.lowered && b.past.trapped == a.past.trapped
    requires Planned(b) ==>
      && Planned(a) && b.db.record.value.payload.oldRunning == a.db.record.value.payload.oldRunning
      && (Trap(a) <==> Trap(b))
      && (b.db.record.value.phase in {Committed, RolledBack} ==> !Trap(b))
      && (RunsAsPlanned(a, a.db.record.value) ==> RunsAsPlanned(b, b.db.record.value))
    ensures Promise(b)
  {
    hide Trap, RunsAsPlanned;
  }

  /** The same containers by name and label, and the same record: the trap is where it was. */
  predicate SameTrap(a: State, b: State) {
    && b.db.record == a.db.record
    && (a.db.record.Some? && a.db.record.value.payload.Plan? ==>
          var r := a.db.record.value;
          && (forall i | i in b.containers && IsRecovery(b.containers[i], r.op) :: i in a.containers && a.containers[i] == b.containers[i].(life := a.containers[i].life, policy := a.containers[i].policy))
          && (forall i | i in a.containers && IsRecovery(a.containers[i], r.op) :: i in b.containers && b.containers[i] == a.containers[i].(life := b.containers[i].life, policy := b.containers[i].policy))
          && (r.payload.oldId.Some? ==>
                && (r.payload.oldId.value in a.containers <==> r.payload.oldId.value in b.containers)
                && (r.payload.oldId.value in a.containers ==> b.containers[r.payload.oldId.value].name == a.containers[r.payload.oldId.value].name)))
  }

  lemma SameTrapMeans(a: State, b: State)
    requires SameTrap(a, b)
    ensures Trap(a) <==> Trap(b)
  {
    if Trap(a) {
      var i :| i in a.containers && IsRecovery(a.containers[i], a.db.record.value.op) && a.containers[i].name == Canonical;
      assert i in b.containers && IsRecovery(b.containers[i], b.db.record.value.op) && b.containers[i].name == Canonical;
    }
    if Trap(b) {
      var i :| i in b.containers && IsRecovery(b.containers[i], b.db.record.value.op) && b.containers[i].name == Canonical;
      assert i in a.containers && IsRecovery(a.containers[i], a.db.record.value.op) && a.containers[i].name == Canonical;
    }
  }

  lemma AlikePromise(a: State, b: State)
    requires Promise(a) && Alike(a, b)
    requires forall i | i in a.containers && b.containers[i].life == Running :: a.containers[i].life == Running || !OldOrChannel(a, i)
    requires a.db.record.Some? && a.db.record.value.phase == RolledBack ==>
      forall i | i in a.containers && OldOrChannel(a, i) :: b.containers[i].life == a.containers[i].life
    ensures Promise(b)
  {
    assert forall i | i in a.containers :: AlikeContainer(a.containers[i], b.containers[i]);
    SameTrapMeans(a, b);
    if Planned(a) { PlannedAlike(a, b); }
    hide Alike, Trap;
    PromiseCarries(a, b);
  }

  predicate OldOrChannel(s: State, i: nat) {
    (s.db.record.Some? && s.db.record.value.payload.oldId == Some(i)) || IsChannel(s, i)
  }

  lemma PlannedAlike(a: State, b: State)
    requires Planned(a) && b.db == a.db && b.containers.Keys == a.containers.Keys
    requires forall i | i in a.containers && b.containers[i].life == Running :: a.containers[i].life == Running || !OldOrChannel(a, i)
    requires a.db.record.value.phase == RolledBack ==>
      forall i | i in a.containers && OldOrChannel(a, i) :: b.containers[i].life == a.containers[i].life
    ensures RunsAsPlanned(a, a.db.record.value) ==> RunsAsPlanned(b, b.db.record.value)
  {
  }

  lemma AlikeNames(a: State, b: State)
    requires Alike(a, b) && DistinctNames(a)
    ensures DistinctNames(b)
  {
    forall i, j | i in b.containers && j in b.containers && i != j ensures b.containers[i].name != b.containers[j].name {
      assert AlikeContainer(a.containers[i], b.containers[i]) && AlikeContainer(a.containers[j], b.containers[j]);
    }
  }

  lemma AlikeBounded(a: State, b: State)
    requires Alike(a, b) && Bounded(a)
    requires forall op | op in b.seeds :: op < b.nextOp
    ensures Bounded(b)
  {
    forall i | i in b.containers ensures ContainerBounded(b, i, b.containers[i]) && b.containers[i].mounts == a.containers[i].mounts {
      assert AlikeContainer(a.containers[i], b.containers[i]);
    }
  }

  lemma AlikeForeign(a: State, b: State)
    requires Alike(a, b) && ForeignIntact(a)
    requires forall i | i in a.foreign && i in a.containers :: SameShape(a.containers[i], b.containers[i])
    ensures ForeignIntact(b)
  {
  }

  lemma AlikeFrame(a: State, b: State)
    requires Alike(a, b) && Frame(a) && Quiet(b) && SeedsAgree(b)
    requires forall op | op in b.seeds :: op < b.nextOp
    requires forall i | i in a.foreign && i in a.containers :: SameShape(a.containers[i], b.containers[i])
    ensures Frame(b)
  {
    hide Alike, Kin, DistinctNames, DistinctTags, Bounded, ForeignIntact, Census, VolumeCensus, Quiet, RowsOwn, DataKept;
    AlikeIsKin(a, b); KinTags(a, b);
    AlikeNames(a, b); AlikeBounded(a, b); AlikeForeign(a, b);
  }

  lemma AlikeOld(a: State, b: State, r: Record)
    requires Alike(a, b) && r.payload.Plan?
    ensures OldThere(b, r) <==> OldThere(a, r)
    ensures OldAway(b, r) <==> OldAway(a, r)
    ensures OldBackOrAway(b, r) <==> OldBackOrAway(a, r)
    ensures CandidateIs(b, r) <==> CandidateIs(a, r)
    ensures RowBefore(b, r) <==> RowBefore(a, r)
    ensures RowAfter(b, r) <==> RowAfter(a, r)
  {
    if r.payload.oldId.Some? && r.payload.oldId.value in a.containers {
      assert AlikeContainer(a.containers[r.payload.oldId.value], b.containers[r.payload.oldId.value]);
    }
    if r.payload.newId.Some? && r.payload.newId.value in a.containers {
      assert AlikeContainer(a.containers[r.payload.newId.value], b.containers[r.payload.newId.value]);
    }
  }

  lemma AlikeCandidates(a: State, b: State, r: Record)
    requires Alike(a, b) && r.payload.Plan?
    ensures Moved(b, r) <==> Moved(a, r)
    ensures CandidatesAside(b, r) <==> CandidatesAside(a, r)
    ensures OperationShapes(a, r) ==> OperationShapes(b, r)
  {
    assert forall i | i in a.containers :: AlikeContainer(a.containers[i], b.containers[i]);
  }

  lemma AlikeChannel(a: State, b: State, r: Record)
    requires Alike(a, b) && r.payload.Plan?
    ensures CandidateUp(b, r) <==> CandidateUp(a, r)
    ensures ChannelIsCandidate(b, r) <==> ChannelIsCandidate(a, r)
    ensures ChannelIsBack(b, r) <==> ChannelIsBack(a, r)
    ensures RowBack(b, r) <==> RowBack(a, r)
    ensures ChannelKnown(b, r) <==> ChannelKnown(a, r)
  {
    assert forall i | i in a.containers :: AlikeContainer(a.containers[i], b.containers[i]);
  }

  lemma AlikeRows(a: State, b: State)
    requires Alike(a, b)
    ensures b.db == a.db && b.base == a.base
  {
  }

  lemma AlikeCreated(a: State, b: State, r: Record)
    requires Alike(a, b) && NoneStarted(a, b) && r.payload.Plan?
    ensures CandidatesCreated(b, r) <==> CandidatesCreated(a, r)
    ensures StartedIsRecorded(b, r) <==> StartedIsRecorded(a, r)
    ensures b.seeds == a.seeds
  {
    assert forall i | i in a.containers :: AlikeContainer(a.containers[i], b.containers[i]);
  }

  lemma MovedIsAway(s: State, r: Record)
    requires r.payload.Plan? && Moved(s, r)
    ensures OldAway(s, r)
  {
  }

  lemma AlikePhase(a: State, b: State, r: Record)
    requires Alike(a, b) && NoneStarted(a, b) && r.payload.Plan? && PhaseHolds(a, r)
    requires (r.payload.kind == Replacement <==> r.payload.oldId.Some?)
    requires Sealed(a, r) && Copied(a, r) && (r.phase == Switching ==> Moved(a, r)) ==> Copied(b, r)
    ensures PhaseHolds(b, r)
  {
    hide Alike, NoneStarted, Copied, OldThere, OldAway, OldBackOrAway, CandidateIs, RowBefore, RowAfter, Moved, CandidatesAside,
      CandidatesCreated, CandidateUp, ChannelIsCandidate, ChannelIsBack, RowBack, ChannelKnown, StartedIsRecorded;
    AlikeOld(a, b, r);
    AlikeCandidates(a, b, r);
    AlikeChannel(a, b, r);
    AlikeRows(a, b);
    AlikeCreated(a, b, r);
    if Moved(a, r) { MovedIsAway(a, r); }
  }

  /** A change of this kind keeps whatever the record promises, if it keeps the copy faithful. */
  lemma AlikeRecord(a: State, b: State)
    requires Alike(a, b) && NoneStarted(a, b) && RecordHolds(a)
    requires (a.db.record.Some? && a.db.record.value.payload.Plan?
              && Sealed(a, a.db.record.value) && Copied(a, a.db.record.value)
              && (a.db.record.value.phase == Switching ==> Moved(a, a.db.record.value))) ==> Copied(b, a.db.record.value)
    ensures RecordHolds(b)
  {
    if a.db.record.Some? && a.db.record.value.payload.Plan? {
      hide PhaseHolds, OperationShapes, Copied;
      var r := a.db.record.value;
      AlikePhase(a, b, r);
      AlikeCandidates(a, b, r);
    }
  }

  /** With both volumes in still hands, drift leaves the copy as it is. */
  lemma DriftKeepsCopy(a: State, b: State, r: Record)
    requires Evolves(a, b) && Bounded(a)
    requires r.payload.Plan? && OldStill(a, r) && CandidatesCreated(a, r) && Copied(a, r)
    ensures Copied(b, r)
  {
    if r.payload.sourceExists {
      forall i | i in a.containers && (r.payload.oldVolume in a.containers[i].mounts || Fresh(r.op) in a.containers[i].mounts)
        ensures !Active(a.containers[i])
      {
      }
      forall i | i in a.containers ensures ContainerBounded(a, i, a.containers[i]) { }
      assert Unwritten(a, r.payload.oldVolume) && Unwritten(a, Fresh(r.op));
    }
  }

  /** An old container under its backup name is still. */
  lemma SealedIsStill(s: State, r: Record)
    requires Quiet(s) && RowsOwn(s) && s.db.record == Some(r) && r.payload.Plan? && Sealed(s, r)
    ensures OldStill(s, r) && CandidatesCreated(s, r)
  {
    if r.payload.oldId.Some? { assert Referenced(s, r.payload.oldId.value); }
  }

  lemma DriftIsAlike(a: State, b: State)
    requires Evolves(a, b)
    ensures Alike(a, b) && NoneStarted(a, b)
    ensures b.nextOp == a.nextOp && b.foreign == a.foreign
    ensures forall i | i in a.containers :: SameShape(a.containers[i], b.containers[i])
    ensures (!a.drift ==> b == a) && b.past == a.past
    ensures Quiet(a) ==> Quiet(b)
  {
    assert forall i | i in a.containers :: LifeDrifts(a.containers[i], b.containers[i]);
  }

  /** The invariant survives whatever the world does on its own. */
  lemma DriftKeepsInv(a: State, b: State)
    requires Inv(a) && Evolves(a, b)
    ensures Inv(b)
  {
    InvParts(a);
    hide Inv, Promise, Evolves, Alike, NoneStarted, RecordHolds, Copied, Sealed, Moved, OldStill, CandidatesCreated, DistinctNames, DistinctTags, Bounded, ForeignIntact, Census, VolumeCensus, Quiet, RowsOwn;
    DriftIsAlike(a, b);
    AlikeSeeds(a, b);
    AlikeFrame(a, b);
    if a.db.record.Some? && a.db.record.value.payload.Plan? && Sealed(a, a.db.record.value) && Copied(a, a.db.record.value) {
      SealedIsStill(a, a.db.record.value);
      DriftKeepsCopy(a, b, a.db.record.value);
    }
    AlikeRecord(a, b);
    DriftPromise(a, b);
    InvFromParts(a, b);
  }

  /** In a world that stands still nothing drifts. */
  lemma DriftPromise(a: State, b: State)
    requires Promise(a) && Evolves(a, b)
    ensures Promise(b)
  {
    if a.drift {
      assert forall i | i in a.containers :: LifeDrifts(a.containers[i], b.containers[i]);
      SameTrapMeans(a, b);
    }
  }

  // ---------------------------------------------------------------- policies and lives

  function Put(s: State, i: nat, c: Container): State {
    s.(containers := s.containers[i := c])
  }

  function WithPolicy(s: State, i: nat, p: Policy): State
    requires i in s.containers
  {
    Put(s, i, s.containers[i].(policy := p))
  }

  /** A stop request leaves a container that was never started as it is. */
  function Halted(c: Container): Container {
    if c.life == Running then c.(life := Exited) else c
  }

  lemma TouchKeepsInv(a: State, b: State, i: nat)
    requires Inv(a) && i !in a.foreign && Alike(a, b) && NoneStarted(a, b) && Quiet(b)
    requires b.volumes == a.volumes
    requires forall j | j in a.containers && j != i :: b.containers[j] == a.containers[j]
    requires i in a.containers && OldOrChannel(a, i) ==> LivesNoMore(a, a.containers[i], b.containers[i])
    ensures Inv(b)
  {
    InvParts(a);
    hide Inv, Promise, Frame, Alike, NoneStarted, RecordHolds, Copied, Sealed, Moved, DistinctNames, DistinctTags, Bounded, ForeignIntact, Census, VolumeCensus, Quiet, RowsOwn, SeedsAgree, DataKept;
    TouchFrame(a, b, i);
    TouchRecord(a, b);
    TouchPromise(a, b, i);
    InvFromParts(a, b);
  }

  /** It is not started, and with a rollback on record it is not stopped either. */
  predicate LivesNoMore(s: State, c: Container, d: Container) {
    && (d.life == Running ==> c.life == Running)
    && (s.db.record.Some? && s.db.record.value.phase == RolledBack ==> d.life == c.life)
  }

  lemma TouchPromise(a: State, b: State, i: nat)
    requires Promise(a) && Alike(a, b)
    requires forall j | j in a.containers && j != i :: b.containers[j] == a.containers[j]
    requires i in a.containers && OldOrChannel(a, i) ==> LivesNoMore(a, a.containers[i], b.containers[i])
    ensures Promise(b)
  {
    hide Promise, Alike, Trap, OldOrChannel;
    AlikeKeys(a, b);
    AlikePromise(a, b);
  }

  lemma AlikeKeys(a: State, b: State)
    requires Alike(a, b)
    ensures b.containers.Keys == a.containers.Keys
  {
  }

  lemma TouchFrame(a: State, b: State, i: nat)
    requires Frame(a) && i !in a.foreign && Alike(a, b) && NoneStarted(a, b) && Quiet(b)
    requires forall j | j in a.containers && j != i :: b.containers[j] == a.containers[j]
    ensures Frame(b)
  {
    assert SeedsAgree(a) && Bounded(a);
    hide Frame, Alike, NoneStarted, DistinctNames, DistinctTags, Bounded, ForeignIntact, Census, VolumeCensus, Quiet, RowsOwn, SeedsAgree, DataKept;
    AlikeSeeds(a, b);
    AlikeFrame(a, b);
  }

  lemma TouchRecord(a: State, b: State)
    requires RecordHolds(a) && Alike(a, b) && NoneStarted(a, b) && b.volumes == a.volumes
    ensures RecordHolds(b)
  {
    hide Alike, NoneStarted, RecordHolds, Copied, Sealed, Moved;
    if a.db.record.Some? && a.db.record.value.payload.Plan? && Copied(a, a.db.record.value) {
      AlikeCopied(a, b, a.db.record.value);
    }
    AlikeRecord(a, b);
  }

  lemma InvFromParts(a: State, b: State)
    requires Frame(b) && RecordHolds(b) && Promise(b) && LeftAlone(a)
    requires b.past.calm ==> a.past.calm && (b.drift ==> a.drift) && b.foreign == a.foreign
    requires b.past.calm ==> forall i | i in a.foreign && i in a.containers :: i in b.containers && b.containers[i] == a.containers[i]
    ensures Inv(b)
  {
    hide Frame, RecordHolds, Promise;
  }

  lemma AlikeSeeds(a: State, b: State)
    requires Alike(a, b) && NoneStarted(a, b) && SeedsAgree(a) && Bounded(a)
    ensures SeedsAgree(b) && b.foreign == a.foreign
    ensures forall op | op in b.seeds :: op < b.nextOp
  {
  }

  lemma AlikeCopied(a: State, b: State, r: Record)
    requires Alike(a, b) && b.volumes == a.volumes && r.payload.Plan? && Copied(a, r)
    ensures Copied(b, r)
  {
    assert forall i | i in a.containers :: AlikeContainer(a.containers[i], b.containers[i]);
  }

  lemma PutIsAlike(s: State, i: nat, c: Container)
    requires i in s.containers && Quiet(s) && AlikeContainer(s.containers[i], c)
    requires (c.life == Created <==> s.containers[i].life == Created) || (c.tag.Owned? && c.tag.role == Copier)
    requires c.name == Canonical || c.name.CopyOf? || (Dormant(s.containers[i]) ==> Dormant(c))
    ensures Alike(s, Put(s, i, c)) && NoneStarted(s, Put(s, i, c)) && Quiet(Put(s, i, c))
  {
  }

  /** A policy may be withdrawn anywhere; it may be granted only to the container under the channel's name. */
  lemma PolicyKeepsInv(s: State, i: nat, p: Policy)
    requires Inv(s) && i in s.containers && i !in s.foreign
    requires p == No || s.containers[i].name == Canonical
    ensures Inv(WithPolicy(s, i, p))
  {
    InvParts(s);
    hide Inv, Promise, Alike, NoneStarted, Quiet;
    PutIsAlike(s, i, s.containers[i].(policy := p));
    TouchKeepsInv(s, WithPolicy(s, i, p), i);
  }

  lemma StopKeepsInv(s: State, i: nat)
    requires Inv(s) && i in s.containers && i !in s.foreign && !(s.db.record.Some? && s.db.record.value.phase == RolledBack)
    ensures Inv(Put(s, i, Halted(s.containers[i])))
  {
    InvParts(s);
    hide Inv, Promise, Alike, NoneStarted, Quiet;
    PutIsAlike(s, i, Halted(s.containers[i]));
    TouchKeepsInv(s, Put(s, i, Halted(s.containers[i])), i);
  }

  // ---------------------------------------------------------------- first starts

  /** What the two volumes of an operation hold at this moment. */
  function SeedNow(s: State, r: Record): Seed
    requires r.payload.Plan?
  {
    if r.payload.sourceExists && Fresh(r.op) in s.volumes && r.payload.oldVolume in s.volumes
    then Seed(s.volumes[Fresh(r.op)].data, s.volumes[r.payload.oldVolume].data, if r.op in s.past.rested then s.past.rested[r.op] else 0)
    else Seed(0, 0, 0)
  }

  function SeedsAfter(s: State, c: Container): map<nat, Seed> {
    if s.db.record.Some? && s.db.record.value.payload.Plan?
       && IsCandidate(c, s.db.record.value.op) && s.db.record.value.op !in s.seeds
    then s.seeds[s.db.record.value.op := SeedNow(s, s.db.record.value)] else s.seeds
  }

  /** A start; the first start of a candidate is remembered together with what its volume held. */
  function Started(s: State, i: nat): State
    requires i in s.containers
  {
    Put(s, i, s.containers[i].(life := Running)).(seeds := SeedsAfter(s, s.containers[i]))
  }

  /** A container may be started under the channel's name: the candidate on trial or the recovered channel. */
  predicate MayStart(s: State, i: nat) {
    && i in s.containers && i !in s.foreign && s.containers[i].name == Canonical
    && s.db.record.Some? && s.db.record.value.payload.Plan?
    && var r := s.db.record.value;
       || (IsCandidate(s.containers[i], r.op) && r.phase in {Validating, AwaitingLogin} && r.payload.newId == Some(i))
       || (IsRecovery(s.containers[i], r.op) && r.phase == RollingBack)
  }

  lemma StartedIsAlike(s: State, i: nat)
    requires i in s.containers && s.containers[i].name == Canonical && Quiet(s)
    ensures Alike(s, Started(s, i)) && Quiet(Started(s, i))
  {
    hide SeedsAfter;
  }

  lemma SeedsStayTrue(s: State, c: Container)
    requires SeedsAgree(s) && Bounded(s)
    requires s.db.record.Some? && s.db.record.value.payload.Plan? && s.db.record.value.op < s.nextOp
    requires IsCandidate(c, s.db.record.value.op) ==> Unstarted(s, s.db.record.value)
    ensures forall op | op in SeedsAfter(s, c) ::
      op < s.nextOp && SeedsAfter(s, c)[op].own == SeedsAfter(s, c)[op].source == SeedsAfter(s, c)[op].rested
    ensures IsCandidate(c, s.db.record.value.op) ==> s.db.record.value.op in SeedsAfter(s, c)
    ensures !IsCandidate(c, s.db.record.value.op) ==> SeedsAfter(s, c) == s.seeds
  {
  }

  lemma StartedOne(a: State, b: State, r: Record, i: nat)
    requires Alike(a, b) && r.payload.Plan? && r.payload.newId == Some(i) && StartedIsRecorded(a, r)
    requires forall j | j in a.containers && j != i :: b.containers[j] == a.containers[j]
    ensures StartedIsRecorded(b, r)
  {
  }

  lemma StartPhase(a: State, b: State, r: Record, i: nat)
    requires Alike(a, b) && r.payload.Plan? && PhaseHolds(a, r)
    requires forall j | j in a.containers && j != i :: b.containers[j] == a.containers[j]
    requires (r.phase in {Validating, AwaitingLogin} && r.payload.newId == Some(i) && r.op in b.seeds) || r.phase == RollingBack
    ensures PhaseHolds(b, r)
  {
    hide Alike, Copied, OldThere, OldAway, OldBackOrAway, CandidateIs, RowBefore, RowAfter, Moved, CandidatesAside,
      CandidatesCreated, CandidateUp, ChannelIsCandidate, ChannelIsBack, RowBack, ChannelKnown, StartedIsRecorded;
    AlikeOld(a, b, r);
    AlikeChannel(a, b, r);
    AlikeRows(a, b);
    if r.phase == AwaitingLogin { StartedOne(a, b, r, i); }
  }

  lemma StartRecord(a: State, b: State, i: nat)
    requires Alike(a, b) && RecordHolds(a) && MayStart(a, i)
    requires forall j | j in a.containers && j != i :: b.containers[j] == a.containers[j]
    requires IsCandidate(a.containers[i], a.db.record.value.op) ==> a.db.record.value.op in b.seeds
    ensures RecordHolds(b)
  {
    hide PhaseHolds, OperationShapes;
    var r := a.db.record.value;
    StartPhase(a, b, r, i);
    AlikeCandidates(a, b, r);
  }

  lemma StartNotOld(s: State, i: nat)
    requires RecordHolds(s) && MayStart(s, i)
    ensures StartIsNotOld(s, i)
  {
    var r := s.db.record.value;
    hide OperationShapes, Copied, Moved, RowBefore, RowAfter, CandidatesCreated, CandidatesAside, CandidateIs, CandidateUp, Unstarted, StartedIsRecorded;
    assert OldThere(s, r);
  }

  lemma StartFacts(s: State, i: nat)
    requires RecordHolds(s) && MayStart(s, i)
    ensures s.db.record.value.op < s.nextOp
    ensures IsCandidate(s.containers[i], s.db.record.value.op) ==> Unstarted(s, s.db.record.value)
  {
    hide OperationShapes, Copied, OldThere, OldAway, Moved, RowBefore, RowAfter, CandidatesCreated, CandidatesAside, CandidateIs, Unstarted;
  }

  lemma StartedSeeds(s: State, i: nat)
    requires i in s.containers && SeedsAgree(s) && Bounded(s)
    requires s.db.record.Some? && s.db.record.value.payload.Plan? && s.db.record.value.op < s.nextOp
    requires IsCandidate(s.containers[i], s.db.record.value.op) ==> Unstarted(s, s.db.record.value)
    ensures SeedsAgree(Started(s, i))
    ensures forall op | op in Started(s, i).seeds :: op < s.nextOp
    ensures IsCandidate(s.containers[i], s.db.record.value.op) ==> s.db.record.value.op in Started(s, i).seeds
  {
    SeedsStayTrue(s, s.containers[i]);
    hide SeedsAfter, Bounded, Unstarted;
  }

  lemma StartedOthers(s: State, i: nat)
    requires i in s.containers
    ensures var b := Started(s, i);
      && b.foreign == s.foreign && b.nextOp == s.nextOp && b.past == s.past && b.drift == s.drift && i in b.containers
      && (forall j | j in s.containers && j != i :: j in b.containers && b.containers[j] == s.containers[j])
      && SameShape(s.containers[i], b.containers[i])
  {
    hide SeedsAfter;
  }

  /** Starting under the channel's name keeps the invariant, and a first start finds a faithful copy. */
  lemma StartKeepsInv(s: State, i: nat)
    requires Inv(s) && MayStart(s, i)
    ensures Inv(Started(s, i))
  {
    hide Inv, Promise, LeftAlone, Frame, Alike, Quiet, SeedsAgree, RecordHolds, Started, DistinctNames, DistinctTags, Bounded, ForeignIntact,
      Census, VolumeCensus, RowsOwn, DataKept, Unstarted;
    InvParts(s);
    StartFacts(s, i);
    StartNotOld(s, i);
    StartedSeeds(s, i);
    StartedIsAlike(s, i);
    StartedOthers(s, i);
    StartRecord(s, Started(s, i), i);
    StartFrame(s, i);
    StartPromise(s, i);
    InvFromParts(s, Started(s, i));
  }

  /** What may be started is neither the old container nor, with a rollback on record, the channel. */
  lemma StartPromise(s: State, i: nat)
    requires Promise(s) && MayStart(s, i) && Alike(s, Started(s, i)) && StartIsNotOld(s, i)
    ensures Promise(Started(s, i))
  {
    StartedOthers(s, i);
    hide Promise, Alike, Started;
    TouchStarted(s, Started(s, i), i);
  }

  predicate StartIsNotOld(s: State, i: nat) {
    s.db.record.Some? && s.db.record.value.payload.oldId != Some(i)
  }

  lemma TouchStarted(a: State, b: State, i: nat)
    requires Promise(a) && Alike(a, b) && MayStart(a, i) && StartIsNotOld(a, i)
    requires forall j | j in a.containers && j != i :: b.containers[j] == a.containers[j]
    ensures Promise(b)
  {
    AlikeRows(a, b);
    assert forall i | i in a.containers :: AlikeContainer(a.containers[i], b.containers[i]);
    SameTrapMeans(a, b);
    hide Alike, Trap;
    PromiseCarries(a, b);
  }

  lemma StartFrame(s: State, i: nat)
    requires i in s.containers && Frame(s) && Alike(s, Started(s, i)) && Quiet(Started(s, i)) && SeedsAgree(Started(s, i))
    requires forall op | op in Started(s, i).seeds :: op < s.nextOp
    ensures Frame(Started(s, i))
  {
    hide Frame, Alike, Quiet, SeedsAgree, DistinctNames, DistinctTags, Bounded, ForeignIntact, Census, VolumeCensus, RowsOwn, DataKept, Started;
    StartedOthers(s, i);
    AlikeFrame(s, Started(s, i));
  }
}
