/** Renaming: the five moves by which containers take and give up the channel's name. */
module Renames {
  import opened Common
  import opened Names
  import opened Settings
  import opened Journal
  import opened World
  import opened Drift

  function Renamed(s: State, i: nat, n: Name): State
    requires i in s.containers
  {
    Put(s, i, s.containers[i].(name := n))
  }

  predicate NameFree(s: State, n: Name) {
    forall i | i in s.containers :: s.containers[i].name != n
  }

  lemma RenamedNames(s: State, i: nat, n: Name)
    requires i in s.containers && DistinctNames(s) && NameFree(s, n)
    ensures DistinctNames(Renamed(s, i, n))
  {
  }

  lemma RenamedRest(s: State, i: nat, n: Name)
    requires i in s.containers && i !in s.foreign && Bounded(s) && ForeignIntact(s) && Quiet(s)
    requires NamedBefore(n, s.nextOp) && (n == Canonical || Dormant(s.containers[i]))
    ensures var b := Renamed(s, i, n); Bounded(b) && ForeignIntact(b) && Quiet(b) && Kin(s, b)
  {
    forall j | j in s.containers ensures ContainerBounded(Renamed(s, i, n), j, Renamed(s, i, n).containers[j]) {
      assert ContainerBounded(s, j, s.containers[j]);
    }
  }

  lemma RenamedFrame(s: State, i: nat, n: Name)
    requires i in s.containers && i !in s.foreign && Frame(s) && NameFree(s, n)
    requires NamedBefore(n, s.nextOp) && (n == Canonical || Dormant(s.containers[i]))
    ensures Frame(Renamed(s, i, n))
  {
    hide DistinctNames, DistinctTags, Bounded, ForeignIntact, Quiet, RowsOwn, Census, VolumeCensus, DataKept, Kin;
    RenamedNames(s, i, n);
    RenamedRest(s, i, n);
    KinTags(s, Renamed(s, i, n));
  }

  /** What a rename of container i cannot affect. */
  lemma RenamedKeeps(s: State, i: nat, n: Name, r: Record)
    requires i in s.containers && r.payload.Plan?
    ensures var b := Renamed(s, i, n);
      && (RowBefore(b, r) <==> RowBefore(s, r)) && (RowAfter(b, r) <==> RowAfter(s, r))
      && (CandidatesCreated(b, r) <==> CandidatesCreated(s, r)) && (CandidateIs(b, r) <==> CandidateIs(s, r))
      && (Copied(s, r) ==> Copied(b, r))
      && (StartedIsRecorded(b, r) <==> StartedIsRecorded(s, r))
  {
    var b := Renamed(s, i, n);
    forall j | j in s.containers ensures b.containers[j] == s.containers[j].(name := b.containers[j].name) { }
    forall j | j in b.containers ensures b.containers[j].life == s.containers[j].life && b.containers[j].tag == s.containers[j].tag { }
    hide Renamed;
  }

  lemma RenamedOld(s: State, i: nat, n: Name, r: Record)
    requires i in s.containers && r.payload.Plan?
    requires r.payload.oldId == Some(i) ==> n in {Canonical, Previous(r.op)}
    requires OldThere(s, r)
    ensures OldThere(Renamed(s, i, n), r)
    ensures r.payload.oldId != Some(i) ==> (OldAway(Renamed(s, i, n), r) <==> OldAway(s, r))
  {
  }

  lemma RenamedShapes(s: State, i: nat, n: Name, r: Record)
    requires i in s.containers && r.payload.Plan? && OperationShapes(s, r)
    requires OfOperation(s.containers[i], r.op) ==> OperationShape(s.containers[i].(name := n), r)
    ensures OperationShapes(Renamed(s, i, n), r)
  {
  }

  /** The moves that replace, recover and resume make, each in its own phase. */
  ghost predicate MayRename(s: State, i: nat, n: Name) {
    && i in s.containers && i !in s.foreign
    && s.db.record.Some? && s.db.record.value.payload.Plan?
    && var r, c := s.db.record.value, s.containers[i];
       || (r.payload.oldId == Some(i) && Dormant(c) && n == Previous(r.op)
           && (r.phase == RollingBack || (r.phase == Switching && Copied(s, r) && OldStill(s, r))))
       || (r.payload.oldId == Some(i) && n == Canonical && r.phase == RollingBack)
       || (IsCandidate(c, r.op) && Dormant(c) && n == Next(r.op, false) && r.phase == RollingBack)
       || (IsCandidate(c, r.op) && n == Canonical && (r.phase == AwaitingLogin || (r.phase == Switching && Copied(s, r) && OldStill(s, r))))
       || (IsRecovery(c, r.op) && n == Canonical && r.phase == RollingBack && r.payload.oldRunning)
  }

  lemma RenamedRecord(s: State, i: nat, n: Name)
    requires MayRename(s, i, n) && RecordHolds(s)
    ensures RecordHolds(Renamed(s, i, n))
  {
    var r := s.db.record.value;
    RenameFacts(s, i, n);
    hide RowBefore, RowAfter, OldThere, OldAway, CandidateIs, CandidatesCreated, Copied, Moved, StartedIsRecorded, CandidatesAside,
      CandidateUp, ChannelIsCandidate, ChannelIsBack, RowBack, OldBackOrAway, OperationShapes, MayRename;
    RenamedKeeps(s, i, n, r);
    RenamedOld(s, i, n, r);
    RenamedShapes(s, i, n, r);
  }

  lemma RenameFacts(s: State, i: nat, n: Name)
    requires MayRename(s, i, n) && RecordHolds(s)
    ensures var r := s.db.record.value;
      && r.op < s.nextOp && OldThere(s, r) && OperationShapes(s, r)
      && (r.payload.oldId == Some(i) ==> n in {Canonical, Previous(r.op)})
      && (r.payload.oldId == Some(i) && r.phase != RollingBack ==> r.phase == Switching)
      && (OfOperation(s.containers[i], r.op) ==> OperationShape(s.containers[i].(name := n), r))
      && (r.phase == Switching ==> Copied(s, r))
      && r.phase in {Switching, AwaitingLogin, RollingBack}
  {
    hide RowBefore, RowAfter, CandidatesCreated, Copied, Moved, StartedIsRecorded, CandidatesAside;
  }

  lemma RenameKeepsInv(s: State, i: nat, n: Name)
    requires Inv(s) && MayRename(s, i, n) && NameFree(s, n)
    ensures Inv(Renamed(s, i, n))
  {
    hide Inv, Promise, LeftAlone, Frame, RecordHolds, MayRename, NameFree, DistinctNames, DistinctTags, Bounded, ForeignIntact, Quiet, RowsOwn, Census,
      VolumeCensus, SeedsAgree, DataKept;
    InvParts(s);
    RenameAdmissible(s, i, n);
    RenamedFrame(s, i, n);
    RenamedRecord(s, i, n);
    RenamedPromise(s, i, n);
    InvFromParts(s, Renamed(s, i, n));
  }

  /** Renaming neither opens nor closes the trap: the name it needs is taken, or nobody recovers. */
  lemma RenamedPromise(s: State, i: nat, n: Name)
    requires Promise(s) && RecordHolds(s) && DistinctNames(s) && MayRename(s, i, n) && NameFree(s, n)
    ensures Promise(Renamed(s, i, n))
  {
    RenameFacts(s, i, n);
    hide Promise, RecordHolds, PhaseHolds, OperationHolds;
    RenamedTrap(s, i, n);
    RenamedRuns(s, i, n);
    hide MayRename, Trap, NameFree, DistinctNames;
    PromiseCarries(s, Renamed(s, i, n));
  }

  lemma RenamedRuns(s: State, i: nat, n: Name)
    requires i in s.containers && s.db.record.Some? && s.db.record.value.payload.Plan?
    ensures RunsAsPlanned(s, s.db.record.value) ==> RunsAsPlanned(Renamed(s, i, n), s.db.record.value)
  {
  }

  lemma RenamedTrap(s: State, i: nat, n: Name)
    requires DistinctNames(s) && MayRename(s, i, n) && NameFree(s, n) && OperationShapes(s, s.db.record.value)
    requires OldThere(s, s.db.record.value) && (s.db.record.value.phase in {Switching, AwaitingLogin, RollingBack})
    ensures Trap(s) <==> Trap(Renamed(s, i, n))
  {
    var r, b := s.db.record.value, Renamed(s, i, n);
    if r.payload.kind == Replacement && !r.payload.oldRunning {
      if r.payload.oldId == Some(i) {
        OldRenamed(s, i, n);
      } else {
        assert IsCandidate(s.containers[i], r.op);
        hide Copied, OldStill, OperationShapes, MayRename;
        forall j | j in s.containers && IsRecovery(s.containers[j], r.op) ensures b.containers[j] == s.containers[j] { }
        SameTrapMeans(s, b);
      }
    }
  }

  /** The old container does not make way for a recovery container, nor come back beside one. */
  lemma OldRenamed(s: State, i: nat, n: Name)
    requires DistinctNames(s) && MayRename(s, i, n) && NameFree(s, n) && OperationShapes(s, s.db.record.value)
    requires OldThere(s, s.db.record.value) && s.db.record.value.payload.oldId == Some(i)
    requires s.db.record.value.payload.kind == Replacement && s.db.record.value.phase in {Switching, AwaitingLogin, RollingBack}
    ensures !Trap(s) && !Trap(Renamed(s, i, n))
  {
    var r := s.db.record.value;
    assert !OfOperation(s.containers[i], r.op);
    assert n in {Canonical, Previous(r.op)} && s.containers[i].name in {Canonical, Previous(r.op)} && s.containers[i].name != n;
  }

  lemma RenameAdmissible(s: State, i: nat, n: Name)
    requires MayRename(s, i, n) && RecordHolds(s)
    ensures i in s.containers && i !in s.foreign && NamedBefore(n, s.nextOp) && (n == Canonical || Dormant(s.containers[i]))
  {
    hide PhaseHolds, OperationShapes, Copied;
  }
}
