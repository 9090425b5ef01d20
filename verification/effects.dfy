/** What a call to Docker about one container leaves alone, and what stays possible while time passes. */
module Effects {
  import opened Common
  import opened Names
  import opened Settings
  import opened Journal
  import opened World
  import opened Drift
  import opened Renames
  import opened Resources
  import opened Transitions

  /** What time may do to a container; nothing if the world does not move. */
  ghost predicate Passes(drift: bool, c: Container, d: Container) {
    LifeDrifts(c, d) && (!drift ==> d == c)
  }

  /** Only container i may differ in anything but its life. */
  ghost predicate Others(a: State, b: State, i: nat) {
    && b == a.(containers := b.containers, volumes := b.volumes, seeds := b.seeds, nextId := b.nextId)
    && (forall j | j in a.containers && j != i :: j in b.containers && Passes(a.drift, a.containers[j], b.containers[j]))
    && (forall j | j in b.containers && j != i :: j in a.containers)
    && b.volumes.Keys == a.volumes.Keys
    && (forall v | v in a.volumes :: b.volumes[v].tag == a.volumes[v].tag)
  }

  lemma EvolvesOthers(a: State, b: State, i: nat)
    requires Evolves(a, b)
    ensures Others(a, b, i)
    ensures i in a.containers ==> i in b.containers && Passes(a.drift, a.containers[i], b.containers[i])
    ensures i in b.containers ==> i in a.containers
  {
  }

  lemma PassesThen(drift: bool, c: Container, d: Container, e: Container)
    requires Passes(drift, c, d) && Passes(drift, d, e)
    ensures Passes(drift, c, e)
  {
  }

  lemma OthersThen(a: State, b: State, c: State, i: nat)
    requires Others(a, b, i) && Others(b, c, i)
    ensures Others(a, c, i)
  {
    forall j | j in a.containers && j != i ensures j in c.containers && Passes(a.drift, a.containers[j], c.containers[j]) {
      assert Passes(a.drift, a.containers[j], b.containers[j]) && Passes(a.drift, b.containers[j], c.containers[j]);
    }
  }

  lemma EvolvesShape(a: State, b: State)
    requires Evolves(a, b)
    ensures Alike(a, b) && NoneStarted(a, b) && b.db == a.db && b.foreign == a.foreign && b.nextId == a.nextId
    ensures b.elsewhere == a.elsewhere && (!a.drift ==> b == a)
    ensures forall i | i in a.containers :: SameShape(a.containers[i], b.containers[i])
    ensures forall i | i in a.containers && Dormant(a.containers[i]) :: Dormant(b.containers[i])
    ensures forall n: Name :: NameFree(a, n) <==> NameFree(b, n)
    ensures forall v :: Unused(a, v) <==> Unused(b, v)
  {
    DriftIsAlike(a, b);
    forall i | i in a.containers ensures SameShape(a.containers[i], b.containers[i]) && (Dormant(a.containers[i]) ==> Dormant(b.containers[i])) {
      assert LifeDrifts(a.containers[i], b.containers[i]);
    }
  }

  lemma StillStays(a: State, b: State, r: Record)
    requires Evolves(a, b) && OldStill(a, r)
    ensures OldStill(b, r)
  {
    EvolvesShape(a, b);
  }

  /** A switching operation's candidates have not been started. */
  lemma SwitchingCreated(s: State, r: Record)
    requires Inv(s) && s.db.record == Some(r) && r.phase == Switching
    ensures r.payload.Plan? && CandidatesCreated(s, r)
  {
    InvParts(s);
    hide Frame, OperationHolds, OldThere, Copied, Moved, CandidateIs, RowBefore, CandidatesCreated;
  }

  lemma CopyStays(a: State, b: State, r: Record)
    requires Inv(a) && Evolves(a, b) && a.db.record == Some(r) && r.phase == Switching
    requires r.payload.Plan? && OldStill(a, r) && Copied(a, r)
    ensures OldStill(b, r) && Copied(b, r)
  {
    InvParts(a);
    hide Inv, Frame, RecordHolds, Copied, OldStill, CandidatesCreated, Bounded;
    SwitchingCreated(a, r);
    DriftKeepsCopy(a, b, r);
    StillStays(a, b, r);
  }

  lemma MayRenameStays(a: State, b: State, i: nat, n: Name)
    requires Inv(a) && Evolves(a, b) && MayRename(a, i, n)
    ensures MayRename(b, i, n)
  {
    hide Inv, Evolves, Copied, OldStill;
    EvolvesShape(a, b);
    var r := a.db.record.value;
    if r.phase == Switching && OldStill(a, r) && Copied(a, r) { CopyStays(a, b, r); }
  }

  lemma MayStartStays(a: State, b: State, i: nat)
    requires Evolves(a, b) && MayStart(a, i)
    ensures MayStart(b, i)
  {
    hide Evolves;
    EvolvesShape(a, b);
  }

  lemma MayRemoveStays(a: State, b: State, i: nat)
    requires Evolves(a, b) && MayRemove(a, i)
    ensures MayRemove(b, i)
  {
    hide Evolves;
    EvolvesShape(a, b);
  }

  lemma MayAddStays(a: State, b: State, c: Container)
    requires Evolves(a, b) && MayAdd(a, c)
    ensures MayAdd(b, c)
  {
    hide Evolves, Moved;
    EvolvesShape(a, b);
    AlikeCandidates(a, b, a.db.record.value);
  }

  lemma MayDropStays(a: State, b: State, v: Volume)
    requires Evolves(a, b) && MayDrop(a, v)
    ensures MayDrop(b, v)
  {
    hide Evolves;
    EvolvesShape(a, b);
  }

  /** A volume that nobody could write to is as it was, and still nobody can. */
  ghost predicate LeavesAlone(a: State, b: State) {
    forall v | v in a.volumes && Unwritten(a, v) :: v in b.volumes && b.volumes[v] == a.volumes[v] && Unwritten(b, v)
  }

  lemma EvolvesLeavesAlone(a: State, b: State)
    requires Evolves(a, b)
    ensures LeavesAlone(a, b)
  {
  }

  lemma LeavesAloneThen(a: State, b: State, c: State)
    requires LeavesAlone(a, b) && LeavesAlone(b, c)
    ensures LeavesAlone(a, c)
  {
    hide Unwritten;
  }

  /** The same for one volume. */
  ghost predicate KeepsVolume(a: State, b: State, v: Volume) {
    v in a.volumes && Unwritten(a, v) ==> v in b.volumes && b.volumes[v] == a.volumes[v] && Unwritten(b, v)
  }

  lemma LeavingAloneKeeps(a: State, b: State, v: Volume)
    requires LeavesAlone(a, b)
    ensures KeepsVolume(a, b, v)
  {
    hide Unwritten;
  }

  lemma KeepsVolumeThen(a: State, b: State, c: State, v: Volume)
    requires KeepsVolume(a, b, v) && KeepsVolume(b, c, v)
    ensures KeepsVolume(a, c, v)
  {
    hide Unwritten;
  }

  lemma AddedLeavesAlone(s: State, c: Container)
    requires s.nextId !in s.containers && Dormant(c)
    ensures LeavesAlone(s, Added(s, c))
  {
  }

  /** A container may start or stop without harm to volumes it cannot write to. */
  lemma PutKeepsVolume(s: State, i: nat, c: Container, v: Volume)
    requires i in s.containers && v !in c.writes
    ensures KeepsVolume(s, Put(s, i, c), v)
  {
  }

  lemma RemovedLeavesAlone(s: State, i: nat)
    ensures LeavesAlone(s, Removed(s, i))
  {
  }

  /** Container i keeps all but its name, and lives on as any container may. */
  ghost predicate Shifted(a: State, b: State, i: nat) {
    && Others(a, b, i) && i in a.containers && i in b.containers && b.nextId == a.nextId
    && Passes(a.drift, a.containers[i].(name := b.containers[i].name), b.containers[i])
  }

  /** Container i keeps its name, labels and mounts. */
  ghost predicate Touched(a: State, b: State, i: nat) {
    && Others(a, b, i) && i in a.containers && i in b.containers && b.nextId == a.nextId
    && AlikeContainer(a.containers[i], b.containers[i])
    && (b.containers[i].life == Created ==> a.containers[i].life == Created)
  }

  /** Only volume v may have come or gone. */
  ghost predicate OtherVolumes(a: State, b: State, v: Volume) {
    && b == a.(containers := b.containers, volumes := b.volumes)
    && b.containers.Keys == a.containers.Keys
    && (forall i | i in a.containers :: Passes(a.drift, a.containers[i], b.containers[i]))
    && (forall w | w != v :: w in b.volumes <==> w in a.volumes)
    && (forall w | w != v && w in a.volumes :: b.volumes[w].tag == a.volumes[w].tag)
  }

  lemma OtherVolumesThen(a: State, b: State, c: State, v: Volume)
    requires OtherVolumes(a, b, v) && OtherVolumes(b, c, v)
    ensures OtherVolumes(a, c, v)
  {
    forall i | i in a.containers ensures Passes(a.drift, a.containers[i], c.containers[i]) {
      assert Passes(a.drift, a.containers[i], b.containers[i]) && Passes(a.drift, b.containers[i], c.containers[i]);
    }
  }

  lemma EvolvesTouched(a: State, b: State, i: nat)
    requires Evolves(a, b) && i in a.containers
    ensures Touched(a, b, i) && Shifted(a, b, i) && b.containers[i] == a.containers[i].(life := b.containers[i].life)
  {
    EvolvesOthers(a, b, i);
  }

  lemma TouchedThen(a: State, b: State, c: State, i: nat)
    requires Touched(a, b, i) && Touched(b, c, i)
    ensures Touched(a, c, i)
  {
    OthersThen(a, b, c, i);
  }

  lemma ShiftedThen(a: State, b: State, c: State, i: nat)
    requires Shifted(a, b, i) && Shifted(b, c, i)
    ensures Shifted(a, c, i)
  {
    OthersThen(a, b, c, i);
  }

  lemma PutOthers(s: State, i: nat, c: Container)
    requires i in s.containers
    ensures Others(s, Put(s, i, c), i)
  {
  }

  // ---------------------------------------------------------------- who is who

  /** The names in a world whose record is r, and whose containers they are. */
  ghost predicate Cast(s: State, r: Record) {
    forall i | i in s.containers :: CastEntry(s, r, i)
  }

  predicate CastEntry(s: State, r: Record, i: nat)
    requires i in s.containers
  {
    var c := s.containers[i];
    && (c.name == CopyOf(r.op) ==> IsCopier(c, r.op))
    && (c.name == Next(r.op, false) ==> IsCandidate(c, r.op))
    && (c.name == Next(r.op, true) ==> IsRecovery(c, r.op))
    && (c.name == Previous(r.op) ==> r.payload.oldId == Some(i))
    && (c.name == Canonical ==> r.payload.oldId == Some(i) || IsCandidate(c, r.op) || IsRecovery(c, r.op))
    && (i in s.foreign ==> !OfOperation(c, r.op) && r.payload.oldId != Some(i) && c.name != Canonical)
    && (IsCopier(c, r.op) ==> c.name == CopyOf(r.op))
    && (IsCandidate(c, r.op) ==> c.name in {Next(r.op, false), Canonical})
    && (IsRecovery(c, r.op) ==> c.name in {Next(r.op, true), Canonical})
    && (OfOperation(c, r.op) ==> IsCandidate(c, r.op) || IsRecovery(c, r.op) || IsCopier(c, r.op))
    && (i !in s.foreign && !OfOperation(c, r.op) ==> r.payload.oldId == Some(i))
    && (r.payload.oldId == Some(i) ==> OldShape(c, r))
  }

  lemma CastMember(s: State, r: Record, i: nat)
    requires Census(s) && RecordHolds(s) && s.db.record == Some(r) && r.payload.Plan? && i in s.containers && i !in s.foreign
    ensures r.payload.oldId == Some(i) || OfOperation(s.containers[i], r.op)
  {
    hide OperationShapes, OldThere, OldAway, Moved, CandidatesCreated, CandidatesAside, CandidateIs, Copied, Unstarted, SettingsBack, StartedIsRecorded;
  }

  lemma CastShapes(s: State, r: Record)
    requires RecordHolds(s) && s.db.record == Some(r) && r.payload.Plan?
    ensures OperationShapes(s, r) && s.birth <= r.op && (forall i | i in s.foreign :: s.foreign[i].name != Canonical)
  {
    hide OperationShapes, PhaseHolds;
  }

  lemma CastForeign(s: State, r: Record, i: nat)
    requires Frame(s) && s.db.record == Some(r) && s.birth <= r.op && i in s.foreign
    ensures i in s.containers && SameShape(s.foreign[i], s.containers[i]) && s.containers[i].tag == Unlabelled
    ensures NamedBefore(s.containers[i].name, r.op) && r.payload.oldId != Some(i)
  {
    assert Referenced(s, i) ==> i !in s.foreign;
    hide DistinctNames, DistinctTags, Bounded, Quiet, Census, VolumeCensus, SeedsAgree, DataKept, RowsOwn;
  }

  lemma CastOutside(s: State, r: Record, i: nat)
    requires i in s.containers && i in s.foreign && s.containers[i].tag == Unlabelled
    requires NamedBefore(s.containers[i].name, r.op) && r.payload.oldId != Some(i) && s.containers[i].name != Canonical
    ensures CastEntry(s, r, i)
  {
  }

  lemma CastInside(s: State, r: Record, i: nat)
    requires i in s.containers && i !in s.foreign && r.payload.Plan? && OperationShapes(s, r)
    requires r.payload.oldId == Some(i) || OfOperation(s.containers[i], r.op)
    requires r.payload.oldId == Some(i) ==> OldShape(s.containers[i], r)
    ensures CastEntry(s, r, i)
  {
  }

  lemma CastHolds(s: State, r: Record)
    requires Inv(s) && s.db.record == Some(r) && r.payload.Plan?
    ensures Cast(s, r)
  {
    InvParts(s);
    hide Inv, Frame, RecordHolds, DistinctNames, DistinctTags, Bounded, Quiet, Census, VolumeCensus, SeedsAgree, DataKept, ForeignIntact, RowsOwn, OperationShapes;
    CastShapes(s, r);
    forall i | i in s.containers ensures CastEntry(s, r, i) {
      hide CastEntry, OldShape;
      if i in s.foreign { CastForeign(s, r, i); CastOutside(s, r, i); }
      else {
        CastMember(s, r, i);
        if r.payload.oldId == Some(i) { CastOld(s, r); }
        CastInside(s, r, i);
      }
    }
  }
}
