/** What the invariant means to the owner of a channel. */
module Safety {
  import opened Common
  import opened Names
  import opened Settings
  import opened Journal
  import opened World
  import opened Drift
  import opened Renames
  import opened Resources
  import opened Transitions
  import opened Hosts
  import opened Recovery
  import opened Stopping

  /** A container of the channel itself: not somebody else's, and not the copier. */
  predicate Instance(s: State, i: nat) {
    i in s.containers && i !in s.foreign && !s.containers[i].name.CopyOf?
  }

  /** At most one instance runs, at most one would be restarted, and it is the same one. */
  lemma AtMostOneActive(s: State, i: nat, j: nat)
    requires Inv(s) && Instance(s, i) && Instance(s, j)
    requires s.containers[i].life == Running || s.containers[i].policy != No
    requires s.containers[j].life == Running || s.containers[j].policy != No
    ensures i == j && s.containers[i].name == Canonical
  {
    InvParts(s);
    hide Inv, Frame, RecordHolds;
  }

  /** The volume that the channel's row names exists from the first commit until the channel is deleted. */
  lemma DataIsKept(s: State)
    requires Inv(s) && s.stored && s.db.row.Some?
    requires s.db.record.Some? ==> s.db.record.value.phase != Deleting
    ensures s.db.row.value.volume in s.volumes
  {
    InvParts(s);
    hide Inv, Frame, RecordHolds;
  }

  /** Until there is a commit that has been confirmed the old data is there as well. */
  lemma OldDataIsKept(s: State, r: Record)
    requires Inv(s) && s.db.record == Some(r) && r.payload.Plan? && r.payload.sourceExists
    requires r.phase !in {Committed, Deleting}
    ensures r.payload.oldVolume in s.volumes
  {
    hide Frame, PhaseHolds, OperationShapes;
  }

  /** The candidate never holds the old volume, and nobody but the operation's own copier and candidate writes to the new one. */
  lemma NewVolumeIsPrivate(s: State, r: Record, i: nat)
    requires Inv(s) && s.db.record == Some(r) && r.payload.Plan? && i in s.containers
    ensures IsCandidate(s.containers[i], r.op) ==> r.payload.oldVolume !in s.containers[i].mounts
    ensures IsCopier(s.containers[i], r.op) ==> r.payload.oldVolume !in s.containers[i].writes
  {
    hide Frame, PhaseHolds;
    assert OfOperation(s.containers[i], r.op) ==> OperationShape(s.containers[i], r);
    if IsCopier(s.containers[i], r.op) {
      CopierWrites(s, r, i);
    }
  }

  lemma CopierWrites(s: State, r: Record, i: nat)
    requires i in s.containers && r.payload.Plan? && OperationShape(s.containers[i], r) && IsCopier(s.containers[i], r.op)
    requires r.payload.oldVolume != Fresh(r.op)
    ensures r.payload.oldVolume !in s.containers[i].writes
  {
  }

  /** When a candidate first started, its volume held exactly what the old volume had held since the old container came to rest. */
  lemma FirstStartIsFaithful(s: State, op: nat)
    requires Inv(s) && op in s.seeds
    ensures s.seeds[op].own == s.seeds[op].source == s.seeds[op].rested
  {
    InvParts(s);
    hide Inv, Frame, RecordHolds;
  }

  /** Which side the row is on, as a function of the phase. */
  predicate OnNewSide(r: Record)
    requires r.payload.Plan?
  {
    r.phase in {AwaitingLogin, Committed} || (r.phase == RollingBack && r.payload.configApplied)
  }

  /** Settings and data volume always belong to the same side. */
  lemma SidesAgree(s: State, r: Record)
    requires Inv(s) && s.db.record == Some(r) && r.payload.Plan? && r.phase != Deleting
    ensures s.db.row.Some?
    ensures OnNewSide(r) ==> s.db.row.value.volume == Fresh(r.op) && s.db.row.value.settings == Update(s.base, r.payload.fields, r.payload.secrets)
    ensures !OnNewSide(r) ==> s.db.row.value.volume == r.payload.oldVolume
    ensures !OnNewSide(r) && r.phase != RolledBack ==> s.db.row.value.settings == s.base
    ensures r.phase == RolledBack ==> s.db.row.value.settings == SettingsAfter(s.base, r.payload, r.payload.configApplied)
  {
    hide Frame, OperationShapes, OldThere, OldAway, OldBackOrAway, Moved, Copied, CandidatesCreated, CandidatesAside, CandidateIs, CandidateUp,
      Unstarted, StartedIsRecorded, ChannelIsCandidate, ChannelIsBack;
  }

  /**
   A rollback, from whatever phase, leaves every column as it was before the operation, unless it takes back a commit
   and a changed column held what no write would have left there; the mirrors come back if they agreed.
   */
  lemma RollbackRestores(base: Settings, p: Payload, applied: bool)
    requires Whole(base) && p.Plan?
    ensures SettingsAfter(base, p, applied).columns == base.columns <==> !applied || Neat(base, p.fields)
    ensures SettingsAfter(base, p, applied) == base <==> !applied || (Neat(base, p.fields) && MirrorAgrees(base, p.fields, p.secrets))
  {
    RollbackRestoresColumns(base, p.fields, p.secrets);
    RollbackIsExact(base, p.fields, p.secrets);
  }

  /**
   Containers and volumes of others are there as they were; a container may only have been started or stopped by Docker.
   As long as Docker does nothing by itself nobody stops, starts or changes them at all.
   */
  lemma OthersAreUntouched(s: State, i: nat, v: Volume)
    requires Inv(s)
    ensures i in s.foreign && s.past.calm ==> i in s.containers && s.containers[i] == s.foreign[i]
    ensures i in s.foreign ==> i in s.containers && SameShape(s.foreign[i], s.containers[i])
    ensures v in s.elsewhere ==> v in s.volumes && s.volumes[v].tag == s.elsewhere[v]
  {
    InvParts(s);
    hide Inv, Frame, RecordHolds;
  }

  // ---------------------------------------------------------------- the trap, as a concrete case

  function TrapRow(settings: Settings): Row {
    Row(Some(0), Original, None, Up, None, settings)
  }

  function TrapRecord(oldRunning: bool): Record {
    Record(0, RollingBack, Plan(map[], Some(0), Original, Replacement, map[], {}, true, oldRunning, UnlessStopped, oldRunning, false, None))
  }

  function OldAtRest(): Container {
    Container(Previous(0), Unlabelled, Exited, No, {Original}, {Original})
  }

  /** A recovery that has put the old container away and is about to build the channel anew. */
  function BeforeRebuild(settings: Settings, oldRunning: bool): State {
    State(map[0 := OldAtRest()], map[Original := Disk(Unlabelled, 7)],
          Db(Some(TrapRow(settings)), Some(TrapRecord(oldRunning)), None), 1, 1,
          settings, map[], map[], map[], 0, true, false, Past(map[], false, false, false, false))
  }

  /** The same recovery two effects later: the new container has the channel's name and is about to be started. */
  function Rebuilt(settings: Settings, oldRunning: bool): State {
    Renamed(Added(BeforeRebuild(settings, oldRunning), Blueprint(TrapRecord(oldRunning), true, Original)), 1, Canonical)
  }

  lemma BeforeRebuildFrame(settings: Settings)
    ensures Frame(BeforeRebuild(settings, true))
  {
    var s := BeforeRebuild(settings, true);
    assert Bounded(s) by { assert ContainerBounded(s, 0, s.containers[0]); }
    assert VolumeCensus(s) by { assert VolumeReferenced(s, Original); }
    assert RowsOwn(s) by { assert forall i: nat :: Referenced(s, i) <==> i == 0; }
  }

  lemma BeforeRebuildIsSound(settings: Settings)
    ensures Inv(BeforeRebuild(settings, true))
  {
    BeforeRebuildFrame(settings);
    hide Frame;
    InvFromParts(BeforeRebuild(settings, true), BeforeRebuild(settings, true));
  }

  lemma NextSteps(settings: Settings)
    ensures var s, c := BeforeRebuild(settings, true), Blueprint(TrapRecord(true), true, Original);
      && MayAdd(s, c) && NameFree(Added(s, c), Canonical) && MayRename(Added(s, c), 1, Canonical)
  {
    var t := Added(BeforeRebuild(settings, true), Blueprint(TrapRecord(true), true, Original));
    assert t.containers.Keys == {0, 1} && t.containers[1] == Blueprint(TrapRecord(true), true, Original);
  }

  lemma RebuiltShape(settings: Settings)
    ensures var u := Rebuilt(settings, true);
      && u.containers == map[0 := OldAtRest(), 1 := Blueprint(TrapRecord(true), true, Original).(name := Canonical)]
      && u.db.record == Some(TrapRecord(true))
  {
  }

  /**
   A recovery that dies here would converge if it were simply tried again. A stop that comes first
   lowers the flag, and from then on no recovery gets through.
   */
  lemma StopCanTrap(settings: Settings)
    ensures MayAdd(BeforeRebuild(settings, true), Blueprint(TrapRecord(true), true, Original))
    ensures Inv(Rebuilt(settings, true)) && Recoverable(Rebuilt(settings, true)) && Caught(Rebuilt(settings, true))
    ensures var after := Lowered(Rebuilt(settings, true)); Inv(after) && Stuck(after) && !Recoverable(after)
  {
    var s, c := BeforeRebuild(settings, true), Blueprint(TrapRecord(true), true, Original);
    hide Inv, MayAdd, MayRename, NameFree, Rebuilt, BeforeRebuild;
    BeforeRebuildIsSound(settings);
    NextSteps(settings);
    AddKeepsInv(s, c);
    RenameKeepsInv(Added(s, c), 1, Canonical);
    RebuiltIs(settings);
    var u := Rebuilt(settings, true);
    RebuiltShape(settings);
    LowerKeepsInv(u);
    assert IsRecovery(u.containers[1], 0);
  }

  lemma RebuiltIs(settings: Settings)
    ensures Rebuilt(settings, true) == Renamed(Added(BeforeRebuild(settings, true), Blueprint(TrapRecord(true), true, Original)), 1, Canonical)
  {
  }

  /** A recovery has put the old container of a running channel away and has nothing in its place yet. */
  ghost predicate AboutToRebuild(s: State, r: Record) {
    && Undoing(s, r) && Apart(s, r) && r.payload.kind == Replacement && r.payload.oldRunning
    && r.payload.oldId.Some? && r.payload.oldId.value in s.containers && s.containers[r.payload.oldId.value].name == Previous(r.op)
    && (forall i | i in s.containers :: !IsRecovery(s.containers[i], r.op))
  }

  function RebuiltFrom(s: State, r: Record): State {
    var a := Added(s, Blueprint(r, true, r.payload.oldVolume));
    a.(containers := a.containers[s.nextId := Blueprint(r, true, r.payload.oldVolume).(name := Canonical)])
  }

  lemma AddedStillAbout(s: State, r: Record)
    requires AboutToRebuild(s, r)
    ensures var a := Added(s, Blueprint(r, true, r.payload.oldVolume));
      Undoing(a, r) && Apart(a, r) && MayRename(a, s.nextId, Canonical) && NameFree(a, Canonical)
  {
    hide Inv, MayAdd, MayRename, NameFree, CandidatesAside, NoCopier;
    MayRebuild(s, r);
    AddKeepsInv(s, Blueprint(r, true, r.payload.oldVolume));
    var a := Added(s, Blueprint(r, true, r.payload.oldVolume));
    NextIdFree(s);
    AddedApart(s, r);
    RebuiltMayBecomeChannel(a, r, r.payload.oldId.value, s.nextId);
  }

  lemma AddedApart(s: State, r: Record)
    requires Apart(s, r)
    ensures Apart(Added(s, Blueprint(r, true, r.payload.oldVolume)), r)
  {
  }

  /**
   The trap is never far: every recovery of a channel that was running comes through such a state, and whatever that state is,
   two effects later it still gets through if it is tried again, and with a stop in between it never does.
   */
  lemma EveryRebuildCanTrap(s: State, r: Record)
    requires AboutToRebuild(s, r)
    ensures var u := RebuiltFrom(s, r);
      && Inv(u) && Recoverable(u) && Caught(u)
      && Inv(Lowered(u)) && Stuck(Lowered(u)) && !Recoverable(Lowered(u))
  {
    RebuiltIsSound(s, r);
    RebuiltIsCaught(s, r);
    hide Inv, Caught, Trap, AboutToRebuild, RebuiltFrom;
    ForgottenTrap(RebuiltFrom(s, r), r);
  }

  lemma RebuiltIsSound(s: State, r: Record)
    requires AboutToRebuild(s, r)
    ensures Inv(RebuiltFrom(s, r)) && RebuiltFrom(s, r).db.record == Some(r) && r.phase == RollingBack && r.payload.Plan? && r.payload.oldRunning
    ensures Inv(Lowered(RebuiltFrom(s, r)))
  {
    hide Inv, MayRename, NameFree, Apart, Lowered;
    var a, u := Added(s, Blueprint(r, true, r.payload.oldVolume)), RebuiltFrom(s, r);
    AddedStillAbout(s, r);
    assert u == Renamed(a, s.nextId, Canonical);
    RenameKeepsInv(a, s.nextId, Canonical);
    LowerKeepsInv(u);
  }

  lemma RebuiltIsCaught(s: State, r: Record)
    requires AboutToRebuild(s, r)
    ensures Caught(RebuiltFrom(s, r)) && !Trap(RebuiltFrom(s, r))
  {
    hide Inv, Apart;
    NextIdFree(s);
    var u := RebuiltFrom(s, r);
    assert u.containers[s.nextId].name == Canonical && IsRecovery(u.containers[s.nextId], r.op);
  }
}
