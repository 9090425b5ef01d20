/** Containers and volumes coming and going, and the copy from the old volume to the new one. */
module Resources {
  import opened Common
  import opened Names
  import opened Settings
  import opened Journal
  import opened World
  import opened Drift
  import opened Renames

  // ---------------------------------------------------------------- removing a container

  function Removed(s: State, i: nat): State {
    s.(containers := s.containers - {i})
  }

  /** What cleanup, recover, resume and deletion may remove, each in its own phase. */
  predicate MayRemove(s: State, i: nat) {
    && i in s.containers && i !in s.foreign && s.db.record.Some?
    && var r, c := s.db.record.value, s.containers[i];
       || r.phase == Deleting
       || (r.payload.Plan? &&
            (|| (IsCopier(c, r.op) && r.phase in {Switching, RollingBack})
             || (IsCandidate(c, r.op) && r.phase in {AwaitingLogin, RollingBack, RolledBack})
             || (IsRecovery(c, r.op) && ((r.phase == RollingBack && r.payload.oldRunning) || (r.phase == RolledBack && !IsChannel(s, i))))
             || (r.payload.oldId == Some(i) && r.phase in {Committed, RolledBack} && !IsChannel(s, i))))
  }

  lemma RemovedFrame(s: State, i: nat)
    requires Frame(s) && i !in s.foreign
    ensures Frame(Removed(s, i))
  {
    hide DistinctNames, DistinctTags, Bounded, ForeignIntact, Quiet, RowsOwn, Census, VolumeCensus;
    RemovedDistinct(s, i);
    RemovedOthers(s, i);
  }

  lemma RemovedDistinct(s: State, i: nat)
    requires DistinctNames(s) && DistinctTags(s) && Bounded(s)
    ensures DistinctNames(Removed(s, i)) && DistinctTags(Removed(s, i)) && Bounded(Removed(s, i))
  {
    var b := Removed(s, i);
    forall j | j in b.containers ensures j in s.containers && b.containers[j] == s.containers[j] { }
  }

  lemma RemovedOthers(s: State, i: nat)
    requires i !in s.foreign && ForeignIntact(s) && Quiet(s) && RowsOwn(s) && Census(s) && VolumeCensus(s)
    ensures var b := Removed(s, i); ForeignIntact(b) && Quiet(b) && RowsOwn(b) && Census(b) && VolumeCensus(b)
  {
    var b := Removed(s, i);
    forall j | j in b.containers ensures j in s.containers && b.containers[j] == s.containers[j] { }
    assert forall j: nat :: Referenced(b, j) ==> Referenced(s, j);
    assert forall v :: VolumeReferenced(b, v) <==> VolumeReferenced(s, v);
  }

  lemma RemovedRecord(s: State, i: nat)
    requires MayRemove(s, i) && RecordHolds(s)
    ensures RecordHolds(Removed(s, i))
  {
    RemovedShapes(s, i);
    RemovedPhase(s, i);
    hide PhaseHolds, OperationShapes;
    var b := Removed(s, i);
    forall j | j in b.containers ensures j in s.containers && b.containers[j] == s.containers[j] { }
  }

  lemma RemovedShapes(s: State, i: nat)
    ensures forall r: Record | r.payload.Plan? && OperationShapes(s, r) :: OperationShapes(Removed(s, i), r)
  {
  }

  lemma RemovedPhase(s: State, i: nat)
    requires MayRemove(s, i) && RecordHolds(s)
    ensures s.db.record.value.payload.Plan? && s.db.record.value.phase != Deleting ==> PhaseHolds(Removed(s, i), s.db.record.value)
  {
    var r, b := s.db.record.value, Removed(s, i);
    hide OperationHolds;
    forall j | j in b.containers ensures j in s.containers && b.containers[j] == s.containers[j] { }
  }

  lemma RemoveKeepsInv(s: State, i: nat)
    requires Inv(s) && MayRemove(s, i)
    ensures Inv(Removed(s, i))
  {
    InvParts(s);
    hide Inv, Promise, Frame, RecordHolds;
    RemovedFrame(s, i);
    RemovedRecord(s, i);
    RemovedPromise(s, i);
    InvFromParts(s, Removed(s, i));
  }

  /** What is removed is not part of a trap. */
  lemma RemovedPromise(s: State, i: nat)
    requires Promise(s) && RecordHolds(s) && MayRemove(s, i)
    ensures Promise(Removed(s, i))
  {
    hide RecordHolds, OldShape, Trap, RunsAsPlanned, MayRemove;
    if Planned(s) {
      var r := s.db.record.value;
      if r.payload.oldId.Some? && r.payload.oldId.value in s.containers { CastOld(s, r); }
      assert Trap(s) ==> r.phase !in {Committed, RolledBack} by { OutcomeIsNoTrap(s); }
      RemovedTrap(s, i);
      RemovedRuns(s, i);
      PromiseCarries(s, Removed(s, i));
    }
  }

  /** The old container, wherever an operation has got to, carries the channel's volume and none of the operation's labels. */
  lemma CastOld(s: State, r: Record)
    requires RecordHolds(s) && s.db.record == Some(r) && r.payload.Plan?
    requires r.payload.oldId.Some? && r.payload.oldId.value in s.containers
    ensures OldShape(s.containers[r.payload.oldId.value], r)
  {
    hide OperationShapes, RowBefore, RowAfter, RowBack, Moved, CandidatesCreated, CandidatesAside, CandidateIs, Copied, Unstarted,
      SettingsBack, StartedIsRecorded, ChannelIsCandidate, ChannelIsBack, ChannelKnown, OldShape;
  }

  lemma OutcomeIsNoTrap(s: State)
    requires Promise(s) && Planned(s)
    ensures s.db.record.value.phase in {Committed, RolledBack} ==> !Trap(s)
  {
  }

  lemma RemovedRuns(s: State, i: nat)
    requires Planned(s)
    ensures RunsAsPlanned(s, s.db.record.value) ==> RunsAsPlanned(Removed(s, i), s.db.record.value)
  {
  }

  lemma RemovedTrap(s: State, i: nat)
    requires Planned(s) && MayRemove(s, i)
    requires var r := s.db.record.value; r.payload.oldId.Some? && r.payload.oldId.value in s.containers ==> OldShape(s.containers[r.payload.oldId.value], r)
    requires Trap(s) ==> s.db.record.value.phase !in {Committed, RolledBack}
    ensures Trap(s) <==> Trap(Removed(s, i))
    ensures s.db.record.value.phase in {Committed, RolledBack} ==> !Trap(Removed(s, i))
  {
    var r, b := s.db.record.value, Removed(s, i);
    forall j | j in b.containers ensures j in s.containers && b.containers[j] == s.containers[j] { }
    if Trap(s) {
      var j :| j in s.containers && IsRecovery(s.containers[j], r.op) && s.containers[j].name == Canonical;
      assert j != i && r.payload.oldId != Some(i);
      assert j in b.containers && IsRecovery(b.containers[j], r.op) && b.containers[j].name == Canonical;
    }
  }

  // ---------------------------------------------------------------- creating a container

  function Added(s: State, c: Container): State {
    s.(containers := s.containers[s.nextId := c], nextId := s.nextId + 1)
  }

  /** A candidate, its replacement while a login is awaited, or the recovery container. */
  function Blueprint(r: Record, restore: bool, v: Volume): Container {
    Container(Next(r.op, restore), Owned(r.op, restore, Candidate), Created, No, {v}, {v})
  }

  function CopierBlueprint(r: Record): Container {
    Container(CopyOf(r.op), Owned(r.op, false, Copier), Created, No, {r.payload.oldVolume, Fresh(r.op)}, {Fresh(r.op)})
  }

  ghost predicate MayAdd(s: State, c: Container) {
    && s.db.record.Some? && s.db.record.value.payload.Plan?
    && NameFree(s, c.name)
    && (forall i | i in s.containers :: s.containers[i].tag != c.tag)
    && (forall v | v in c.mounts :: v in s.volumes)
    && var r := s.db.record.value;
       || (c == Blueprint(r, false, Fresh(r.op)) && r.phase in {Preparing, AwaitingLogin})
       || (c == Blueprint(r, true, r.payload.oldVolume) && r.phase == RollingBack && r.payload.kind == Replacement && r.payload.oldRunning)
       || (c == CopierBlueprint(r) && r.phase == Switching && !Moved(s, r))
  }

  lemma AddedDistinct(s: State, c: Container)
    requires DistinctNames(s) && DistinctTags(s) && NameFree(s, c.name) && s.nextId !in s.containers
    requires forall i | i in s.containers :: s.containers[i].tag != c.tag
    ensures DistinctNames(Added(s, c)) && DistinctTags(Added(s, c))
  {
  }

  lemma AddedBounded(s: State, c: Container)
    requires Bounded(s) && s.nextId !in s.containers && c.writes <= c.mounts
    requires NamedBefore(c.name, s.nextOp) && (c.tag.Owned? ==> c.tag.op < s.nextOp)
    requires forall v | v in c.mounts :: v in s.volumes
    ensures Bounded(Added(s, c))
  {
    var b := Added(s, c);
    forall j | j in b.containers ensures ContainerBounded(b, j, b.containers[j]) {
      if j != s.nextId { assert ContainerBounded(s, j, s.containers[j]); }
    }
  }

  lemma AddedOthers(s: State, c: Container)
    requires ForeignIntact(s) && Quiet(s) && Census(s) && s.nextId !in s.containers && Dormant(c)
    requires Underway(s) && OfOperation(c, s.db.record.value.op)
    ensures ForeignIntact(Added(s, c)) && Quiet(Added(s, c)) && Census(Added(s, c))
  {
  }

  lemma AddedRows(s: State, c: Container)
    requires RowsOwn(s) && VolumeCensus(s)
    ensures RowsOwn(Added(s, c)) && VolumeCensus(Added(s, c))
  {
    var b := Added(s, c);
    assert forall j: nat :: Referenced(b, j) ==> Referenced(s, j);
    assert forall v :: VolumeReferenced(b, v) <==> VolumeReferenced(s, v);
  }

  lemma AddedFrame(s: State, c: Container)
    requires Frame(s) && NameFree(s, c.name) && Dormant(c) && c.writes <= c.mounts && s.nextId !in s.containers
    requires Underway(s) && OfOperation(c, s.db.record.value.op) && s.db.record.value.op < s.nextOp
    requires NamedBefore(c.name, s.nextOp)
    requires forall i | i in s.containers :: s.containers[i].tag != c.tag
    requires forall v | v in c.mounts :: v in s.volumes
    ensures Frame(Added(s, c))
  {
    hide DistinctNames, DistinctTags, Bounded, ForeignIntact, Quiet, RowsOwn, Census, VolumeCensus, NameFree;
    AddedDistinct(s, c); AddedBounded(s, c); AddedOthers(s, c); AddedRows(s, c);
  }

  lemma AddedRecord(s: State, c: Container)
    requires MayAdd(s, c) && RecordHolds(s) && RowsOwn(s) && s.nextId !in s.containers
    ensures RecordHolds(Added(s, c))
  {
    var r, b := s.db.record.value, Added(s, c);
    AddedPhase(s, c, r);
    AddedShapes(s, c, r);
    hide PhaseHolds, OperationShapes, MayAdd;
  }

  /** What is added holds the volumes only where no copy counts any more, or as the candidate. */
  lemma AddedCopied(s: State, c: Container, r: Record)
    requires MayAdd(s, c) && s.db.record == Some(r) && Copied(s, r) && IsCandidate(c, r.op)
    ensures Copied(Added(s, c), r)
  {
  }

  lemma AddedOld(s: State, c: Container, r: Record)
    requires s.db.record == Some(r) && r.payload.Plan? && RowsOwn(s) && s.nextId !in s.containers
    ensures var b := Added(s, c);
      (OldThere(s, r) ==> OldThere(b, r)) && (OldAway(s, r) ==> OldAway(b, r)) && (OldBackOrAway(s, r) ==> OldBackOrAway(b, r))
  {
    assert r.payload.oldId.Some? ==> Referenced(s, r.payload.oldId.value);
    hide Referenced, RowsOwn;
  }

  lemma AddedRow(s: State, c: Container, r: Record)
    requires s.db.record == Some(r) && r.payload.Plan? && RowsOwn(s) && s.nextId !in s.containers
    ensures var b := Added(s, c);
      (RowBefore(s, r) ==> RowBefore(b, r)) && (RowAfter(s, r) ==> RowAfter(b, r)) && (RowBack(s, r) ==> RowBack(b, r))
  {
    hide Update;
    assert s.db.row.Some? && s.db.row.value.container.Some? ==> Referenced(s, s.db.row.value.container.value);
    hide Referenced, RowsOwn;
  }

  lemma AddedChannel(s: State, c: Container, r: Record)
    requires s.db.record == Some(r) && r.payload.Plan? && RowsOwn(s) && s.nextId !in s.containers
    ensures var b := Added(s, c);
      && (CandidateIs(s, r) ==> CandidateIs(b, r)) && (CandidateUp(s, r) ==> CandidateUp(b, r))
      && (ChannelIsCandidate(s, r) ==> ChannelIsCandidate(b, r)) && (ChannelIsBack(s, r) ==> ChannelIsBack(b, r))
      && (ChannelKnown(s, r) ==> ChannelKnown(b, r))
  {
    assert s.db.row.Some? && s.db.row.value.container.Some? ==> Referenced(s, s.db.row.value.container.value);
    assert r.payload.newId.Some? ==> Referenced(s, r.payload.newId.value);
    hide Referenced, RowsOwn;
  }

  lemma AddedCandidates(s: State, c: Container, r: Record)
    requires MayAdd(s, c) && s.db.record == Some(r) && s.nextId !in s.containers && RowsOwn(s)
    ensures var b := Added(s, c);
      && (Moved(b, r) <==> Moved(s, r)) && (CandidatesCreated(s, r) ==> CandidatesCreated(b, r))
      && (CandidatesAside(s, r) ==> CandidatesAside(b, r)) && (StartedIsRecorded(s, r) ==> StartedIsRecorded(b, r))
  {
    var b := Added(s, c);
    assert r.payload.oldId.Some? ==> Referenced(s, r.payload.oldId.value);
    hide Referenced, RowsOwn, NameFree;
    forall j | j in s.containers ensures j in b.containers && b.containers[j] == s.containers[j] { }
  }

  lemma AddedPhase(s: State, c: Container, r: Record)
    requires MayAdd(s, c) && s.db.record == Some(r) && PhaseHolds(s, r) && RowsOwn(s) && s.nextId !in s.containers
    ensures PhaseHolds(Added(s, c), r)
  {
    hide OldThere, OldAway, OldBackOrAway, RowBefore, RowAfter, CandidateIs, CandidateUp, ChannelIsCandidate, ChannelIsBack, ChannelKnown, RowBack,
      Moved, CandidatesCreated, CandidatesAside, StartedIsRecorded, Copied;
    AddedOld(s, c, r);
    AddedRow(s, c, r);
    AddedChannel(s, c, r);
    AddedCandidates(s, c, r);
    if IsCandidate(c, r.op) && Copied(s, r) { AddedCopied(s, c, r); }
  }

  lemma AddedShapes(s: State, c: Container, r: Record)
    requires MayAdd(s, c) && s.db.record == Some(r) && OperationShapes(s, r) && s.nextId !in s.containers
    ensures OperationShapes(Added(s, c), r)
  {
    hide Moved;
  }

  lemma AddKeepsInv(s: State, c: Container)
    requires Inv(s) && MayAdd(s, c)
    ensures Inv(Added(s, c))
  {
    hide Inv, Promise, LeftAlone, Frame, RecordHolds, MayAdd, Blueprint, CopierBlueprint, DistinctNames, DistinctTags, Bounded, ForeignIntact, Quiet,
      Census, VolumeCensus, RowsOwn, SeedsAgree, DataKept;
    InvParts(s);
    AddFacts(s, c);
    NextIdUnused(s);
    AddedPromise(s, c);
    AddedFrame(s, c);
    AddedRecord(s, c);
    InvFromParts(s, Added(s, c));
  }

  lemma AddedPromise(s: State, c: Container)
    requires Promise(s) && MayAdd(s, c) && RowsOwn(s) && s.nextId !in s.containers
    ensures Promise(Added(s, c))
  {
    var r, b := s.db.record.value, Added(s, c);
    assert s.db.row.Some? && s.db.row.value.container.Some? ==> Referenced(s, s.db.row.value.container.value);
    assert r.payload.oldId.Some? ==> Referenced(s, r.payload.oldId.value);
    AddedTrap(s, c);
    hide Promise, Trap, MayAdd, RowsOwn;
    OutcomeStaysTrapless(s, b);
    PromiseCarries(s, b);
  }

  lemma OutcomeStaysTrapless(a: State, b: State)
    requires Promise(a) && b.db == a.db && (Trap(a) <==> Trap(b))
    ensures Planned(b) && b.db.record.value.phase in {Committed, RolledBack} ==> !Trap(b)
  {
    hide Trap;
  }

  lemma AddedTrap(s: State, c: Container)
    requires MayAdd(s, c) && RowsOwn(s) && s.nextId !in s.containers
    ensures Trap(s) <==> Trap(Added(s, c))
  {
    var r, b := s.db.record.value, Added(s, c);
    assert r.payload.oldId.Some? ==> Referenced(s, r.payload.oldId.value);
    assert c.name != Canonical;
    forall j | j in s.containers ensures j in b.containers && b.containers[j] == s.containers[j] { }
  }

  /** Volumes have no part in the promise. */
  lemma VolumesPromise(a: State, b: State)
    requires Promise(a) && b == a.(volumes := b.volumes)
    ensures Promise(b)
  {
    SameTrapMeans(a, b);
    OutcomeStaysTrapless(a, b);
    hide Promise, Trap;
    PromiseCarries(a, b);
  }

  lemma NextIdUnused(s: State)
    requires Bounded(s)
    ensures s.nextId !in s.containers
  {
    assert s.nextId in s.containers ==> ContainerBounded(s, s.nextId, s.containers[s.nextId]);
  }

  lemma AddFacts(s: State, c: Container)
    requires MayAdd(s, c) && RecordHolds(s)
    ensures NameFree(s, c.name) && Dormant(c) && c.writes <= c.mounts && Underway(s)
    ensures OfOperation(c, s.db.record.value.op) && s.db.record.value.op < s.nextOp && NamedBefore(c.name, s.nextOp)
    ensures forall i | i in s.containers :: s.containers[i].tag != c.tag
    ensures forall v | v in c.mounts :: v in s.volumes
  {
    hide PhaseHolds, OperationShapes;
  }

  // ---------------------------------------------------------------- volumes

  function VolumeAdded(s: State, op: nat, data: nat): State {
    s.(volumes := s.volumes[Fresh(op) := Disk(Owned(op, false, Candidate), data)])
  }

  function VolumeRemoved(s: State, v: Volume): State {
    s.(volumes := s.volumes - {v})
  }

  lemma VolumeAddKeepsInv(s: State, data: nat)
    requires Inv(s) && s.db.record.Some? && s.db.record.value.phase == Preparing && Fresh(s.db.record.value.op) !in s.volumes
    ensures Inv(VolumeAdded(s, s.db.record.value.op, data))
  {
    InvParts(s);
    hide Inv, Promise, Frame, RecordHolds, PhaseHolds;
    VolumesPromise(s, VolumeAdded(s, s.db.record.value.op, data));
    VolumeAddFacts(s);
    VolumeAddedFrame(s, s.db.record.value.op, data);
    VolumeAddedRecord(s, data);
    InvFromParts(s, VolumeAdded(s, s.db.record.value.op, data));
  }

  lemma VolumeAddFacts(s: State)
    requires RecordHolds(s) && s.db.record.Some? && s.db.record.value.phase == Preparing
    ensures s.birth <= s.db.record.value.op < s.nextOp && s.db.record.value.payload.Plan?
  {
    hide PhaseHolds, OperationShapes;
  }

  lemma VolumeAddedFrame(s: State, op: nat, data: nat)
    requires Frame(s) && s.birth <= op < s.nextOp && Underway(s) && s.db.record.value.op == op && Fresh(op) !in s.volumes
    ensures Frame(VolumeAdded(s, op, data))
  {
    var b := VolumeAdded(s, op, data);
    assert RowsOwn(b) by { assert forall j: nat :: Referenced(b, j) ==> Referenced(s, j); }
    assert VolumeCensus(b) by { assert forall v :: VolumeReferenced(b, v) <==> VolumeReferenced(s, v); }
    assert ForeignIntact(b);
  }

  lemma VolumeAddedRecord(s: State, data: nat)
    requires RecordHolds(s) && s.db.record.Some? && s.db.record.value.phase == Preparing
    ensures RecordHolds(VolumeAdded(s, s.db.record.value.op, data))
  {
  }

  predicate Unused(s: State, v: Volume) {
    forall i | i in s.containers :: v !in s.containers[i].mounts
  }

  /** The new volume after a rollback, the old one after a commit, either in a deletion. */
  predicate MayDrop(s: State, v: Volume) {
    && v in s.volumes && Unused(s, v) && s.db.record.Some?
    && var r := s.db.record.value;
       || (r.phase == RolledBack && r.payload.Plan? && v == Fresh(r.op))
       || (r.phase == Committed && r.payload.Plan? && v == r.payload.oldVolume)
       || (r.phase == Deleting && v !in s.elsewhere)
  }

  /** No step outside a deletion removes the volume that the channel's row names. */
  lemma DropSparesChannelData(s: State, v: Volume)
    requires Inv(s) && MayDrop(s, v) && s.db.record.value.phase != Deleting
    ensures s.db.row.Some? && v != s.db.row.value.volume && v !in s.elsewhere
  {
    InvParts(s);
    assert VolumeReferenced(s, v);
    hide Frame, OperationShapes;
  }

  lemma DropFacts(s: State, v: Volume)
    requires Inv(s) && MayDrop(s, v)
    ensures Unused(s, v) && v !in s.elsewhere && s.db.record.Some?
    ensures s.db.record.value.phase == Deleting || (s.db.row.Some? && s.db.row.value.volume != v)
  {
    hide Inv;
    if s.db.record.value.phase != Deleting { DropSparesChannelData(s, v); }
  }

  lemma DropKeepsInv(s: State, v: Volume)
    requires Inv(s) && MayDrop(s, v)
    ensures Inv(VolumeRemoved(s, v))
  {
    hide Inv, Promise, Frame, RecordHolds, MayDrop;
    InvParts(s);
    DropFacts(s, v);
    VolumesPromise(s, VolumeRemoved(s, v));
    DroppedFrame(s, v);
    DroppedRecord(s, v);
    InvFromParts(s, VolumeRemoved(s, v));
  }

  lemma DroppedFrame(s: State, v: Volume)
    requires Frame(s) && Unused(s, v) && v !in s.elsewhere
    requires s.db.record.Some? && (s.db.record.value.phase == Deleting || (s.db.row.Some? && s.db.row.value.volume != v))
    ensures Frame(VolumeRemoved(s, v))
  {
    DroppedCensus(s, v);
    DroppedBounds(s, v);
    hide RowsOwn, VolumeCensus, ForeignIntact, Bounded, Unused;
  }

  lemma DroppedCensus(s: State, v: Volume)
    requires RowsOwn(s) && VolumeCensus(s) && v !in s.elsewhere
    ensures RowsOwn(VolumeRemoved(s, v)) && VolumeCensus(VolumeRemoved(s, v))
  {
    var b := VolumeRemoved(s, v);
    assert forall j: nat :: Referenced(b, j) ==> Referenced(s, j);
    assert forall w :: VolumeReferenced(b, w) <==> VolumeReferenced(s, w);
  }

  lemma DroppedBounds(s: State, v: Volume)
    requires ForeignIntact(s) && Bounded(s) && Unused(s, v) && v !in s.elsewhere
    ensures ForeignIntact(VolumeRemoved(s, v)) && Bounded(VolumeRemoved(s, v))
  {
  }

  lemma DroppedRecord(s: State, v: Volume)
    requires MayDrop(s, v) && RecordHolds(s)
    ensures RecordHolds(VolumeRemoved(s, v))
  {
  }

  // ---------------------------------------------------------------- copying

  /** What the old volume holds at this moment, when its container has come to rest. */
  function Rested(s: State, r: Record): State {
    if r.payload.oldVolume in s.volumes then s.(past := s.past.(rested := s.past.rested[r.op := s.volumes[r.payload.oldVolume].data])) else s
  }

  lemma RestKeepsInv(s: State, r: Record)
    requires Inv(s) && s.db.record == Some(r) && r.phase == Switching && r.payload.Plan? && !Moved(s, r)
    ensures Inv(Rested(s, r))
  {
    InvParts(s);
    hide Inv, Promise, Frame, RecordHolds;
    RestedFrame(s, r);
    RestedRecord(s, r);
    RestedPromise(s, r);
    InvFromParts(s, Rested(s, r));
  }

  lemma RestedFrame(s: State, r: Record)
    requires Frame(s)
    ensures Frame(Rested(s, r))
  {
    var b := Rested(s, r);
    forall i | i in b.containers ensures ContainerBounded(b, i, b.containers[i]) { assert ContainerBounded(s, i, s.containers[i]); }
    assert forall i: nat :: Referenced(b, i) <==> Referenced(s, i);
    assert forall v :: VolumeReferenced(b, v) <==> VolumeReferenced(s, v);
    assert DistinctNames(b) && DistinctTags(b) && Bounded(b) && ForeignIntact(b) && Quiet(b);
    assert RowsOwn(b) && Census(b) && VolumeCensus(b) && SeedsAgree(b) && DataKept(b);
  }

  lemma RestedRecord(s: State, r: Record)
    requires RecordHolds(s) && s.db.record == Some(r) && r.phase == Switching && r.payload.Plan? && !Moved(s, r)
    ensures RecordHolds(Rested(s, r))
  {
  }

  lemma RestedPromise(s: State, r: Record)
    requires Promise(s)
    ensures Promise(Rested(s, r))
  {
    SameTrapMeans(s, Rested(s, r));
    OutcomeStaysTrapless(s, Rested(s, r));
    hide Promise, Trap;
    PromiseCarries(s, Rested(s, r));
  }

  function Refilled(s: State, v: Volume, data: nat): State
    requires v in s.volumes
  {
    s.(volumes := s.volumes[v := s.volumes[v].(data := data)])
  }

  /** While the old container has not made way the new volume may hold anything. */
  lemma RefillKeepsInv(s: State, data: nat)
    requires Inv(s) && s.db.record.Some? && s.db.record.value.phase == Switching
    requires s.db.record.value.payload.Plan? && !Moved(s, s.db.record.value)
    requires Fresh(s.db.record.value.op) in s.volumes
    ensures Inv(Refilled(s, Fresh(s.db.record.value.op), data))
  {
    InvParts(s);
    hide Inv, Promise, Frame, RecordHolds, Alike, NoneStarted, Quiet, Moved, Copied, Sealed, Bounded, SeedsAgree;
    VolumesPromise(s, Refilled(s, Fresh(s.db.record.value.op), data));
    var b := Refilled(s, Fresh(s.db.record.value.op), data);
    RefillIsAlike(s, Fresh(s.db.record.value.op), data);
    AlikeSeeds(s, b);
    AlikeFrame(s, b);
    AlikeRecord(s, b);
    InvFromParts(s, b);
  }

  lemma RefillIsAlike(s: State, v: Volume, data: nat)
    requires v in s.volumes && Quiet(s)
    ensures var b := Refilled(s, v, data); Alike(s, b) && NoneStarted(s, b) && Quiet(b)
  {
  }
}
