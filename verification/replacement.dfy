/** Changing a channel: a candidate is built beside it, takes over its data and its name, and is put to the test. */
module Replacing {
  import opened Common
  import opened Names
  import opened Settings
  import opened Journal
  import opened ReplacementStore
  import opened World
  import opened Drift
  import opened Renames
  import opened Resources
  import opened Transitions
  import opened Effects
  import opened Hosts
  import opened Copying
  import opened Closing
  import opened Recovery
  import opened Lineage

  // ---------------------------------------------------------------- preparing

  /** Nobody but the old container holds the old volume. */
  predicate Lone(s: State, r: Record) {
    forall i | i in s.containers && r.payload.oldVolume in s.containers[i].mounts :: r.payload.oldId == Some(i)
  }

  predicate InPhase(s: State, r: Record, phase: Phase) {
    s.db.record == Some(r) && r.phase == phase && r.payload.Plan?
  }

  lemma PreparingView(s: State, r: Record)
    requires Inv(s) && InPhase(s, r, Preparing)
    ensures CandidatesAside(s, r) && CandidatesCreated(s, r) && !Moved(s, r)
  {
    hide Frame, OperationHolds, CandidatesAside, CandidatesCreated, Moved, RowBefore, OldThere;
  }

  lemma MayCreate(s: State, r: Record)
    requires Inv(s) && InPhase(s, r, Preparing) && Fresh(r.op) in s.volumes
    ensures NameFree(s, Next(r.op, false)) ==> MayAdd(s, Blueprint(r, false, Fresh(r.op)))
  {
    PreparingView(s, r);
    CastHolds(s, r);
    hide Inv, Moved, CandidatesCreated;
    if NameFree(s, Next(r.op, false)) {
      forall i | i in s.containers ensures s.containers[i].tag != Owned(r.op, false, Candidate) { assert CastEntry(s, r, i); }
    }
  }

  lemma VolumesLeaveNames(a: State, b: State, r: Record, v: Volume)
    requires OtherVolumes(a, b, v)
    ensures forall n: Name :: NameFree(a, n) <==> NameFree(b, n)
    ensures Lone(a, r) <==> Lone(b, r)
  {
    forall i | i in a.containers ensures i in b.containers && SameShape(a.containers[i], b.containers[i]) {
      assert Passes(a.drift, a.containers[i], b.containers[i]);
    }
  }

  method MakeCandidate(h: Host, r: Record) returns (end: Outcome, id: nat)
    requires Inv(h.S()) && InPhase(h.S(), r, Preparing)
    modifies h`containers, h`volumes, h`seeds, h`nextId
    ensures Inv(h.S())
    ensures end == Done ==> id in h.containers && IsCandidate(h.containers[id], r.op)
    ensures h.Calm() && NameFree(old(h.S()), Next(r.op, false)) ==> end == Done && (Lone(old(h.S()), r) <==> Lone(h.S(), r))
  {
    hide Inv, MayAdd, MayAdvance, NameFree, Others, OtherVolumes, Lone, Added, Blueprint;
    id := 0;
    end := h.EnsureVolume(r.op);
    VolumesLeaveNames(old(h.S()), h.S(), r, Fresh(r.op));
    if end != Done { return; }
    MayCreate(h.S(), r);
    OldVolumeDiffers(h.S(), r);
    ghost var s := h.S();
    NextIdFree(s);
    CandidateLone(s, r);
    end, id := h.CreateCandidate(r, false, Fresh(r.op));
  }

  /** Makes volume and candidate, and records the candidate. */
  method Prepare(h: Host, r: Record) returns (end: Outcome, q: Record)
    requires Inv(h.S()) && InPhase(h.S(), r, Preparing)
    modifies h`containers, h`volumes, h`seeds, h`nextId, h.store
    ensures Inv(h.S()) && Along(h.S(), r) && h.store.record.value.phase in {Preparing, Prepared}
    ensures end == Done ==> InPhase(h.S(), q, Prepared) && q == Record(r.op, Prepared, r.payload.(newId := q.payload.newId))
    ensures h.store.row == old(h.store.row)
    ensures h.Calm() && NameFree(old(h.S()), Next(r.op, false)) ==> end == Done && (Lone(old(h.S()), r) <==> Lone(h.S(), q))
  {
    hide Inv, MayAdvance, NameFree, Lone;
    q := r;
    var id;
    end, id := MakeCandidate(h, r);
    if end != Done { return; }
    PreparedLone(h.S(), r, id);
    MayRecordCandidate(h.S(), r, id);
    end, q := h.Advance(r, Prepared, r.payload.(newId := Some(id)));
  }

  lemma CandidateLone(s: State, r: Record)
    requires r.payload.oldVolume != Fresh(r.op)
    requires s.nextId !in s.containers
    ensures Lone(s, r) <==> Lone(Added(s, Blueprint(r, false, Fresh(r.op))), r)
  {
    var b := Added(s, Blueprint(r, false, Fresh(r.op)));
    forall i | i in s.containers ensures i in b.containers && b.containers[i] == s.containers[i] { }
  }

  lemma PreparedLone(s: State, r: Record, id: nat)
    requires s.db.record.Some? && r.payload.Plan?
    ensures var p := r.payload.(newId := Some(id)); Lone(s, r) <==> Lone(Advanced(s, Prepared, p), Record(r.op, Prepared, p))
  {
  }

  lemma MayRecordCandidate(s: State, r: Record, id: nat)
    requires InPhase(s, r, Preparing) && id in s.containers && IsCandidate(s.containers[id], r.op)
    ensures MayAdvance(s, Prepared, r.payload.(newId := Some(id)))
  {
  }

  /** The record still describes the operation that began as r. */
  predicate Along(s: State, r: Record) {
    && s.db.record.Some? && s.db.record.value.op == r.op && s.db.record.value.payload.Plan? && r.payload.Plan?
    && s.db.record.value.payload == r.payload.(newId := s.db.record.value.payload.newId)
    && s.db.record.value.phase in {Preparing, Prepared, Switching, Validating, AwaitingLogin, Committed}
  }

  // ---------------------------------------------------------------- switching

  lemma PreparedView(s: State, r: Record)
    requires Inv(s) && InPhase(s, r, Prepared)
    ensures !Moved(s, r) && NoCopier(s, r) && MayAdvance(s, Switching, r.payload)
  {
    InvParts(s);
    hide Frame, Moved, RowBefore, OldThere, CandidatesCreated, CandidatesAside, CandidateIs, DistinctNames, DistinctTags, Bounded,
      ForeignIntact, Quiet, Census, VolumeCensus, RowsOwn, SeedsAgree, DataKept, Copied, Inv;
    forall i | i in s.containers ensures !IsCopier(s.containers[i], r.op) {
      assert OfOperation(s.containers[i], r.op) ==> OperationShape(s.containers[i], r);
    }
  }

  /** Switching, with the old container under its own name and no copier about. */
  ghost predicate Ready(s: State, r: Record) {
    BeforeMove(s, r) && NoCopier(s, r)
  }

  lemma NowReady(s: State, r: Record)
    requires InPhase(s, r, Prepared) && Inv(Advanced(s, Switching, r.payload)) && !Moved(s, r) && NoCopier(s, r)
    ensures Ready(Advanced(s, Switching, r.payload), Record(r.op, Switching, r.payload))
  {
    hide Inv;
  }

  lemma TouchedReady(a: State, b: State, i: nat, r: Record)
    requires Ready(a, r) && Touched(a, b, i) && Inv(b)
    ensures Ready(b, r)
  {
    hide Inv;
    forall j | j in a.containers ensures j in b.containers && b.containers[j].name == a.containers[j].name && b.containers[j].tag == a.containers[j].tag {
      if j != i { assert Passes(a.drift, a.containers[j], b.containers[j]); }
    }
  }

  /** The old container is stopped for good, and what its volume then holds is noted. */
  method StopOld(h: Host, r: Record) returns (end: Outcome)
    requires Ready(h.S(), r) && r.payload.oldId.Some? && r.payload.sourceExists
    modifies h`containers, h`volumes, h`seeds, h`nextId, h`past
    ensures Inv(h.S()) && SamePlace(old(h.past), h.past)
    ensures end == Done ==> Ready(h.S(), r) && OldStill(h.S(), r) && AsRested(h.S(), r) && (Lone(old(h.S()), r) <==> Lone(h.S(), r))
    ensures h.Calm() ==> end == Done
  {
    hide Inv, Moved, NoCopier, Touched, OldStill, Lone, AsRested;
    var old_ := r.payload.oldId.value;
    SwitchingOld(h.S(), r);
    ghost var s := h.S();
    end := h.SetPolicy(old_, No);
    TouchedReady(s, h.S(), old_, r);
    TouchedLone(s, h.S(), old_, r);
    if end != Done { return; }
    s := h.S();
    end := h.SetRunning(old_, false);
    TouchedReady(s, h.S(), old_, r);
    TouchedLone(s, h.S(), old_, r);
    if end != Done { return; }
    NowStill(h.S(), r);
    NowAtRest(h.S(), r);
    h.Rest(r);
  }

  /** The old container is stopped, its data is copied, and it makes way. */
  method MoveOld(h: Host, r: Record) returns (end: Outcome)
    requires Ready(h.S(), r) && r.payload.oldId.Some? && r.payload.sourceExists
    modifies h`containers, h`volumes, h`seeds, h`nextId, h`past
    ensures Inv(h.S()) && SamePlace(old(h.past), h.past)
    ensures end == Done ==> Moved(h.S(), r) && NoCopier(h.S(), r)
    ensures h.Calm() ==> (end == Done <==> Lone(old(h.S()), r))
  {
    hide Inv, Moved, NoCopier, NameFree, MayRename, Others, Copied, Shifted, OldStill, Lone, Users, AsRested;
    end := StopOld(h, r);
    if end != Done { return; }
    LoneUsers(h.S(), r);
    end := CopyVolume(h, r);
    if end != Done { return; }
    var old_ := r.payload.oldId.value;
    SwitchingOld(h.S(), r);
    ghost var s := h.S();
    SourceIsThere(s, r);
    BackupNameFree(s, r);
    OldMayMove(s, r);
    end := h.Rename(old_, Canonical, Previous(r.op));
    ShiftedNoCopier(s, h.S(), old_, r);
    if end == Done { NowMoved(h.S(), r); }
  }

  /** Noting what the old volume holds changes nothing else. */
  lemma NowAtRest(s: State, r: Record)
    requires Ready(s, r) && OldStill(s, r) && r.payload.sourceExists
    ensures Inv(Rested(s, r)) ==> Ready(Rested(s, r), r)
    ensures OldStill(Rested(s, r), r) && AsRested(Rested(s, r), r) && (Lone(s, r) <==> Lone(Rested(s, r), r))
  {
    SourceIsThere(s, r);
    hide Inv, CandidateIs, OldThere, SameTrap;
  }

  /** Of what is remembered about the past only what volumes held at rest has changed. */
  predicate SamePlace(a: Past, b: Past) {
    b == a.(rested := b.rested)
  }

  lemma TouchedLone(a: State, b: State, i: nat, r: Record)
    requires Touched(a, b, i)
    ensures Lone(a, r) <==> Lone(b, r)
  {
    forall j | j in a.containers ensures j in b.containers && b.containers[j].mounts == a.containers[j].mounts {
      if j != i { assert Passes(a.drift, a.containers[j], b.containers[j]); }
    }
  }

  /** If nobody else holds the old volume, both volumes are in the right hands. */
  lemma LoneUsers(s: State, r: Record)
    requires Ready(s, r)
    ensures Lone(s, r) <==> Users(s, r, None)
  {
    hide Inv, Moved, OldThere, CandidateIs;
    CastHolds(s, r);
    SwitchingFacts(s, r);
    OldVolumeDiffers(s, r);
    if Users(s, r, None) { UsersAreLone(s, r); }
    if Lone(s, r) {
      forall i | i in s.containers && HoldsVolume(s.containers[i], r) ensures r.payload.oldId == Some(i) || IsCandidate(s.containers[i], r.op) {
        assert CastEntry(s, r, i);
        if i in s.foreign { ForeignMounts(s, i, r.op); }
        assert OfOperation(s.containers[i], r.op) ==> OperationShape(s.containers[i], r);
      }
    }
  }

  lemma UsersAreLone(s: State, r: Record)
    requires r.payload.Plan? && OperationShapes(s, r) && r.payload.oldVolume != Fresh(r.op) && Users(s, r, None)
    ensures Lone(s, r)
  {
    forall i | i in s.containers && IsCandidate(s.containers[i], r.op) ensures r.payload.oldVolume !in s.containers[i].mounts {
      assert OperationShape(s.containers[i], r);
    }
  }

  lemma BackupNameFree(s: State, r: Record)
    requires BeforeMove(s, r)
    ensures NameFree(s, Previous(r.op))
  {
    CastHolds(s, r);
    SwitchingFacts(s, r);
    hide Inv, OperationShapes, CandidateIs;
    forall i | i in s.containers ensures s.containers[i].name != Previous(r.op) { assert CastEntry(s, r, i); }
  }

  lemma SwitchingOld(s: State, r: Record)
    requires Inv(s) && InPhase(s, r, Switching) && r.payload.oldId.Some?
    ensures r.payload.oldId.value in s.containers && r.payload.oldId.value !in s.foreign && r.payload.kind == Replacement
  {
    InvParts(s);
    assert Referenced(s, r.payload.oldId.value);
    hide Frame, RowBefore, CandidatesCreated, CandidateIs, Copied, Moved, OperationShapes, DistinctNames, DistinctTags, Bounded, ForeignIntact,
      Quiet, Census, VolumeCensus, SeedsAgree, DataKept, Inv;
  }

  lemma NowStill(s: State, r: Record)
    requires r.payload.oldId.Some? && r.payload.oldId.value in s.containers && Dormant(s.containers[r.payload.oldId.value])
    ensures OldStill(s, r)
  {
  }

  lemma OldMayMove(s: State, r: Record)
    requires InPhase(s, r, Switching) && Copied(s, r) && OldStill(s, r) && r.payload.oldId.Some?
    requires r.payload.oldId.value in s.containers && r.payload.oldId.value !in s.foreign
    ensures MayRename(s, r.payload.oldId.value, Previous(r.op))
  {
    hide Copied;
  }

  lemma ShiftedNoCopier(a: State, b: State, i: nat, r: Record)
    requires Shifted(a, b, i) && NoCopier(a, r)
    ensures NoCopier(b, r)
  {
    forall j | j in b.containers && j != i ensures Passes(a.drift, a.containers[j], b.containers[j]) { }
  }

  lemma NowMoved(s: State, r: Record)
    requires r.payload.Plan? && r.payload.kind == Replacement && r.payload.oldId.Some? && r.payload.oldId.value in s.containers
    requires s.containers[r.payload.oldId.value].name == Previous(r.op)
    ensures Moved(s, r)
  {
  }

  /** Without an old container only data that nobody holds is copied, and the channel's name must be free. */
  method MoveNothing(h: Host, r: Record) returns (end: Outcome)
    requires Ready(h.S(), r) && r.payload.oldId.None?
    modifies h`containers, h`volumes, h`seeds, h`nextId, h`past
    ensures Inv(h.S()) && SamePlace(old(h.past), h.past)
    ensures end == Done ==> Copied(h.S(), r) && NoCopier(h.S(), r)
    ensures h.Calm() ==> (end == Done <==> Lone(old(h.S()), r))
  {
    hide Inv, Moved, NoCopier, Copied, Evolves, Lone, Users, OldStill, NameFree, AsRested;
    ChannelNameFree(h.S(), r);
    LoneUsers(h.S(), r);
    var holder;
    end, holder := h.Get(Canonical);
    StillReady(old(h.S()), h.S(), r);
    EvolvesShape(old(h.S()), h.S());
    if end != Done { return; }
    if holder.Some? { return Raised; }
    NoOldStill(h.S(), r);
    if r.payload.sourceExists {
      NowAtRest(h.S(), r);
      h.Rest(r);
      LoneUsers(h.S(), r);
      end := CopyVolume(h, r);
    } else {
      NothingToCopy(h.S(), r);
      NothingIsLone(h.S(), r);
    }
  }

  lemma NothingIsLone(s: State, r: Record)
    requires Inv(s) && InPhase(s, r, Switching) && !r.payload.sourceExists
    ensures Lone(s, r)
  {
    SourceMissing(s, r);
    InvParts(s);
    hide Inv, Frame, RecordHolds, DistinctNames, DistinctTags, ForeignIntact, Quiet, Census, VolumeCensus, RowsOwn, SeedsAgree, DataKept;
  }

  lemma SourceMissing(s: State, r: Record)
    requires Inv(s) && InPhase(s, r, Switching) && !r.payload.sourceExists
    ensures r.payload.oldVolume !in s.volumes
  {
    hide Frame, PhaseHolds, OperationShapes;
  }

  lemma NoOldStill(s: State, r: Record)
    requires r.payload.oldId.None?
    ensures OldStill(s, r)
  {
  }

  /** Without an old container the channel's name is free until the candidate takes it. */
  lemma ChannelNameFree(s: State, r: Record)
    requires BeforeMove(s, r) && r.payload.oldId.None?
    ensures NameFree(s, Canonical)
  {
    CastHolds(s, r);
    SwitchingFacts(s, r);
    hide Inv, OldThere, CandidateIs;
    forall i | i in s.containers ensures s.containers[i].name != Canonical {
      assert CastEntry(s, r, i);
      assert OfOperation(s.containers[i], r.op) ==> OperationShape(s.containers[i], r);
    }
  }

  lemma StillReady(a: State, b: State, r: Record)
    requires Ready(a, r) && Evolves(a, b)  && r.payload.oldId.None?
    ensures Ready(b, r)
  {
    PassBeforeMove(a, b, r);
    EvolvesShape(a, b);
    hide BeforeMove, Evolves;
  }

  lemma NothingToCopy(s: State, r: Record)
    requires r.payload.Plan? && !r.payload.sourceExists
    ensures Copied(s, r)
  {
  }

  /** The copy is faithful and in still hands, the old container has made way, and no copier is about. */
  ghost predicate CopiedOver(s: State, r: Record) {
    && Inv(s) && InPhase(s, r, Switching) && Copied(s, r) && OldStill(s, r) && NoCopier(s, r)
    && (r.payload.kind == Replacement ==> Moved(s, r))
  }

  lemma MovedIsCopied(s: State, r: Record)
    requires Inv(s) && InPhase(s, r, Switching) && Moved(s, r)
    ensures Copied(s, r) && OldStill(s, r)
  {
    InvParts(s);
    hide Frame, RowBefore, OldThere, CandidatesCreated, CandidateIs, Copied, OperationHolds, DistinctNames, DistinctTags, Bounded, ForeignIntact,
      Census, VolumeCensus, SeedsAgree, DataKept, Inv;
    if r.payload.oldId.Some? { SwitchingOld(s, r); } 
  }

  lemma StillCopiedOver(a: State, b: State, r: Record)
    requires CopiedOver(a, r) && Evolves(a, b) && Inv(b)
    ensures CopiedOver(b, r)
  {
    hide Inv, Evolves, Copied, Moved, OldStill;
    CopyStays(a, b, r);
    EvolvesShape(a, b);
    AlikeCandidates(a, b, r);
  }

  lemma SwitchingCandidate(s: State, r: Record)
    requires Inv(s) && InPhase(s, r, Switching)
    ensures r.payload.newId.Some? && r.payload.newId.value in s.containers && IsCandidate(s.containers[r.payload.newId.value], r.op)
    ensures r.payload.newId.value !in s.foreign && r.payload.oldId != r.payload.newId
  {
    InvParts(s);
    assert Referenced(s, r.payload.newId.value);
    hide Frame, RowBefore, CandidatesCreated, Copied, Moved, OperationShapes, DistinctNames, DistinctTags, Bounded, ForeignIntact,
      Quiet, Census, VolumeCensus, SeedsAgree, DataKept, Inv;
  }

  lemma CandidateMayTakeName(s: State, r: Record, id: nat)
    requires CopiedOver(s, r) && id in s.containers && IsCandidate(s.containers[id], r.op) && id !in s.foreign
    ensures MayRename(s, id, Canonical)
  {
    hide Inv, Copied, Moved, OldStill;
  }

  /** With the old container away the channel's name is the candidate's or free. */
  lemma CandidateCanTakeName(s: State, r: Record, id: nat)
    requires CopiedOver(s, r) && r.payload.newId == Some(id) && id in s.containers && IsCandidate(s.containers[id], r.op)
    ensures s.containers[id].name == Canonical || (s.containers[id].name == Next(r.op, false) && NameFree(s, Canonical))
  {
    CastHolds(s, r);
    SwitchingFacts(s, r);
    InvParts(s);
    hide Inv, Frame, RecordHolds, OldThere, Copied, OldStill, NoCopier, DistinctNames, Bounded, ForeignIntact, Quiet, Census, VolumeCensus, RowsOwn, SeedsAgree, DataKept;
    assert CastEntry(s, r, id);
    if s.containers[id].name != Canonical {
      forall i | i in s.containers ensures s.containers[i].name != Canonical {
        assert CastEntry(s, r, i);
        assert OfOperation(s.containers[i], r.op) ==> OperationShape(s.containers[i], r);
      }
    }
  }

  /** The candidate has the channel's name: the switch may be recorded. */
  lemma MayRecordSwitch(a: State, b: State, r: Record, id: nat)
    requires CopiedOver(a, r) && Inv(b) && Shifted(a, b, id) && r.payload.newId == Some(id) && r.payload.oldId != Some(id)
    requires id in a.containers && IsCandidate(a.containers[id], r.op) && id in b.containers && b.containers[id].name == Canonical
    ensures MayAdvance(b, Validating, r.payload)
  {
    hide Inv, Copied;
    ShiftedNoCopier(a, b, id, r);
    SwitchedKind(a, b, r, id);
    MovedIsCopied(b, r);
    MovedIsAway(b, r);
    hide Shifted, NoCopier, Moved, OldStill, OldAway;
  }

  lemma SwitchedKind(a: State, b: State, r: Record, id: nat)
    requires CopiedOver(a, r) && Inv(b) && Shifted(a, b, id) && r.payload.newId == Some(id) && r.payload.oldId != Some(id)
    requires id in a.containers && IsCandidate(a.containers[id], r.op) && id in b.containers && b.containers[id].name == Canonical
    ensures Moved(b, r) && InPhase(b, r, Switching) && CandidateUp(b, r)
  {
    hide Inv, Copied, NoCopier, OldStill;
  }

  lemma SwitchingUnstarted(s: State, r: Record)
    requires CopiedOver(s, r)
    ensures r.op !in s.seeds
  {
    hide Frame, OperationHolds, OldThere, Copied, Moved, NoCopier, OldStill, CandidateIs, RowBefore, CandidatesCreated;
  }

  method TakeName(h: Host, r: Record) returns (end: Outcome, q: Record)
    requires CopiedOver(h.S(), r)
    modifies h`containers, h`volumes, h`seeds, h`nextId, h.store
    ensures Inv(h.S()) && h.store.row == old(h.store.row) && r.op !in h.seeds
    ensures end == Done ==> q == Record(r.op, Validating, r.payload) && h.store.record == Some(q)
    ensures h.store.record in {Some(r), Some(Record(r.op, Validating, r.payload))}
    ensures h.Calm() ==> end == Done
  {
    hide Inv, Moved, NoCopier, Copied, Evolves, NameFree, MayRename, MayAdvance, OldStill, Shifted;
    q := r;
    SwitchingCandidate(h.S(), r);
    SwitchingUnstarted(h.S(), r);
    var id, here := r.payload.newId.value, false;
    end, here := h.Identity(id);
    DriftKeepsInv(old(h.S()), h.S());
    StillCopiedOver(old(h.S()), h.S(), r);
    SwitchingCandidate(h.S(), r);
    if end != Done { return; }
    if !here { return Raised, r; }
    CandidateCanTakeName(h.S(), r, id);
    ghost var s := h.S();
    CandidateMayTakeName(s, r, id);
    end := h.Rename(id, Next(r.op, false), Canonical);
    if end != Done { return; }
    MayRecordSwitch(s, h.S(), r, id);
    end, q := h.Advance(r, Validating, r.payload);
  }

  // ---------------------------------------------------------------- the trial

  lemma OnTrial(s: State, r: Record)
    requires Inv(s) && InPhase(s, r, Validating)
    ensures r.payload.newId.Some? && r.payload.newId.value in s.containers && r.payload.newId.value !in s.foreign
    ensures MayStart(s, r.payload.newId.value) && s.db.row.Some? && MayGrant(s, r.payload.newId)
  {
    ValidatingFacts(s);
    InvParts(s);
    assert Referenced(s, r.payload.newId.value);
    hide Frame, RecordHolds, DistinctNames, DistinctTags, Bounded, ForeignIntact, Quiet, Census, VolumeCensus, SeedsAgree, DataKept, Inv, RowBefore, NoCopier;
  }

  /** A candidate that has not been started stays as it was created. */
  lemma StaysUnstarted(a: State, b: State, r: Record)
    requires Inv(a) && InPhase(a, r, Validating) && r.op !in a.seeds && Evolves(a, b)
    requires r.payload.newId.Some? && r.payload.newId.value in a.containers
    ensures r.payload.newId.value in b.containers && b.containers[r.payload.newId.value].life != Running
  {
    hide Frame, OperationHolds, OldThere, Copied, RowBefore, OldAway;
  }

  /** The candidate runs exactly if the channel is to run. */
  predicate RunsAsAsked(s: State, r: Record) {
    r.payload.Plan? && r.payload.newId.Some? && r.payload.newId.value in s.containers
    && (s.containers[r.payload.newId.value].life == Running <==> r.payload.start)
  }

  lemma MayCommitNow(s: State, r: Record, runtime: Runtime)
    requires InPhase(s, r, Validating) && s.db.row.Some? && r.payload.newId == Some(runtime.container) && runtime.volume == Fresh(r.op)
    ensures MayCommit(s, r.payload.fields, r.payload.secrets, runtime)
  {
  }

  /** Starts the candidate if the channel is to run, and insists on a working login where that can be told: three tries. */
  method StartAndProbe(h: Host, r: Record, mustPass: bool) returns (end: Outcome, connected: bool, latency: Option<nat>)
    requires Inv(h.S()) && InPhase(h.S(), r, Validating) && r.op !in h.seeds
    modifies h`containers, h`volumes, h`seeds, h`nextId, h`answers
    ensures Inv(h.S()) && (!r.payload.start ==> h.S() == old(h.S()))
    ensures connected <==> Vouched(old(h.answers), h.answers)
    ensures end == Done ==> (connected <==> r.payload.start && mustPass)
    ensures |old(h.answers)| <= |h.answers| <= |old(h.answers)| + (if r.payload.start && mustPass then 3 else 0)
    ensures h.Calm() && end != Done ==> |h.answers| == |old(h.answers)| + 3 && forall k | |old(h.answers)| <= k < |h.answers| :: !h.answers[k]
    ensures h.Calm() && end == Done ==> RunsAsAsked(h.S(), r)
    ensures h.Calm() && !mustPass ==> end == Done
  {
    hide Inv, Evolves, MayStart, Touched;
    connected, latency := false, None;
    OnTrial(h.S(), r);
    var id := r.payload.newId.value;
    if !r.payload.start {
      EvolvesReflexive(h.S());
      StaysUnstarted(h.S(), h.S(), r);
      return Done, false, None;
    }
    end := h.SetRunning(id, true);
    if end != Done { return; }
    ghost var s := h.S();
    OnTrial(s, r);
    end := h.Ask();
    DriftKeepsInv(s, h.S());
    EvolvesShape(s, h.S());
    if end != Done || !mustPass { return; }
    ghost var began := h.S();
    end, connected, latency := ProbeThrice(h);
    DriftKeepsInv(began, h.S());
    EvolvesShape(began, h.S());
    if end == Done && !connected { end := Raised; }
  }

  /** Up to three probes, until one is answered well. */
  method ProbeThrice(h: Host) returns (end: Outcome, connected: bool, latency: Option<nat>)
    modifies h`containers, h`volumes, h`answers
    ensures Evolves(old(h.S()), h.S()) && (!h.faults ==> end == Done)
    ensures connected <==> Vouched(old(h.answers), h.answers)
    ensures connected ==> end == Done
    ensures |old(h.answers)| <= |h.answers| <= |old(h.answers)| + 3
    ensures end == Done && !connected ==> |h.answers| == |old(h.answers)| + 3 && forall k | |old(h.answers)| <= k < |h.answers| :: !h.answers[k]
  {
    hide Evolves;
    EvolvesReflexive(h.S());
    end, connected, latency := Done, false, None;
    var attempt := 0;
    while attempt < 3 && !connected
      invariant Evolves(old(h.S()), h.S()) && end == Done
      invariant 0 <= attempt <= 3 && |h.answers| == |old(h.answers)| + attempt
      invariant connected <==> Vouched(old(h.answers), h.answers)
      invariant !connected ==> forall k | |old(h.answers)| <= k < |h.answers| :: !h.answers[k]
    {
      ghost var s := h.S();
      end, connected, latency := h.Probe();
      EvolvesTransitive(old(h.S()), s, h.S());
      if end != Done { return; }
      attempt := attempt + 1;
    }
  }

  /** The container exists under the channel's name. */
  predicate MayGrant(s: State, id: Option<nat>) {
    id.Some? && id.value in s.containers && id.value !in s.foreign && s.containers[id.value].name == Canonical
  }

  /**
   A committed change has its login proved or waited for: it waits exactly if no probe has vouched for it and there
   is something to go back to.
   */
  predicate Judged(db: Db, p: Payload, mustPass: bool, vouched: bool) {
    && p.Plan? && db.row.Some? && (vouched <==> p.start && mustPass)
    && (db.record.Some? && db.record.value.phase == AwaitingLogin <==> !vouched && (p.oldId.Some? || p.sourceExists || p.fields != map[]))
    && db.row.value.status == (if vouched then LoggedIn else if p.start then Up else Stopped)
  }

  /** Puts the candidate to the test: what it runs as, and whether its login is to be waited for. */
  method Test(h: Host, r: Record, mustPass: bool) returns (end: Outcome, runtime: Runtime, waiting: bool)
    requires Inv(h.S()) && InPhase(h.S(), r, Validating) && r.op !in h.seeds
    modifies h`containers, h`volumes, h`seeds, h`nextId, h`answers
    ensures Inv(h.S())
    ensures end == Done ==> r.payload.newId == Some(runtime.container) && runtime.volume == Fresh(r.op)
    ensures end == Done ==> Tested(r.payload, mustPass, Vouched(old(h.answers), h.answers), runtime, waiting)
    ensures h.Calm() && !mustPass ==> end == Done
    ensures h.Calm() && end == Done ==> RunsAsAsked(h.S(), r)
  {
    hide Inv, Evolves, MayStart, MayGrant;
    runtime, waiting := Runtime(0, Original, None, Stopped, None), false;
    var connected, latency;
    end, connected, latency := StartAndProbe(h, r, mustPass);
    if end != Done { return; }
    OnTrial(h.S(), r);
    ghost var s := h.S();
    waiting := !connected && (r.payload.oldId.Some? || r.payload.sourceExists || r.payload.fields != map[]);
    end, runtime := h.ReadRuntime(r.payload.newId.value, Fresh(r.op), connected, latency);
    DriftKeepsInv(s, h.S());
    EvolvesShape(s, h.S());
    if end != Done { return; }
    if !r.payload.start { StaysUnstarted(s, h.S(), r); }
    if r.payload.start && runtime.status == Stopped { end := Raised; }
  }

  /** The verdict on a candidate. */
  predicate Tested(p: Payload, mustPass: bool, vouched: bool, runtime: Runtime, waiting: bool) {
    && p.Plan? && (vouched <==> p.start && mustPass) && ValidRuntime(runtime)
    && (waiting <==> !vouched && (p.oldId.Some? || p.sourceExists || p.fields != map[]))
    && runtime.status == (if vouched then LoggedIn else if p.start then Up else Stopped)
  }

  /** Puts the candidate to the test and commits. */
  method Try(h: Host, r: Record, mustPass: bool) returns (end: Outcome)
    requires Inv(h.S()) && InPhase(h.S(), r, Validating) && r.op !in h.seeds
    modifies h`containers, h`volumes, h`seeds, h`nextId, h`stored, h`answers, h.store
    ensures Inv(h.S())
    ensures h.store.record in {Some(r), Some(r.(phase := AwaitingLogin)), Some(r.(phase := Committed))}
    ensures end == Done ==> h.store.record != Some(r) && MayGrant(h.S(), r.payload.newId)
    ensures h.store.record == Some(r) ==> h.store.row == old(h.store.row)
    ensures h.store.record != Some(r) ==> h.store.row.Some? && h.store.row.value.container == r.payload.newId
    ensures h.store.record != Some(r) ==> Judged(h.S().db, r.payload, mustPass, Vouched(old(h.answers), h.answers))
    ensures h.Calm() ==> (!mustPass ==> end == Done) && (end != Done ==> h.store.record == Some(r))
    ensures h.Calm() && end == Done ==> RunsAsAsked(h.S(), h.store.record.value)
  {
    hide Inv, MayStart, MayCommit;
    var runtime, waiting;
    end, runtime, waiting := Test(h, r, mustPass);
    if end != Done { return; }
    OnTrial(h.S(), r);
    MayCommitNow(h.S(), r, runtime);
    end := h.Commit(r, runtime, waiting);
  }

  // ---------------------------------------------------------------- replace

  /** From the journal row to the commit. */
  method Attempt(h: Host, r: Record, mustPass: bool) returns (end: Outcome)
    requires Inv(h.S()) && InPhase(h.S(), r, Preparing)
    modifies h`containers, h`volumes, h`seeds, h`nextId, h`stored, h`past, h`answers, h.store
    ensures Inv(h.S()) && Along(h.S(), r) && SamePlace(old(h.past), h.past)
    ensures h.store.record.value.phase in {AwaitingLogin, Committed} ==> Judged(h.S().db, r.payload, mustPass, Vouched(old(h.answers), h.answers))
    ensures h.store.record.value.phase in {AwaitingLogin, Committed} ==>
              h.store.row.Some? && h.store.row.value.container == h.store.record.value.payload.newId
    ensures h.Calm() && end == Done ==> RunsAsAsked(h.S(), h.store.record.value)
    ensures end == Done ==> h.store.record.value.phase in {AwaitingLogin, Committed} && MayGrant(h.S(), h.store.record.value.payload.newId)
    ensures h.store.record.value.phase !in {AwaitingLogin, Committed} ==> h.store.row == old(h.store.row)
    ensures h.Calm() && NameFree(old(h.S()), Next(r.op, false)) ==>
              (end == Done <==> h.store.record.value.phase in {AwaitingLogin, Committed}) && (!mustPass ==> (end == Done <==> Lone(old(h.S()), r)))
  {
    hide Inv, NameFree, Lone, CopiedOver, MayGrant, SamePlace, RunsAsAsked;
    var q;
    end, q := Switch(h, r);
    if end != Done { return; }
    CopiedOverMeans(h.S(), q);
    end, q := TakeName(h, q);
    if end != Done { return; }
    end := Try(h, q, mustPass);
  }

  /** The candidate is there, the data has gone over and the channel's name is free for it. */
  method Switch(h: Host, r: Record) returns (end: Outcome, q: Record)
    requires Inv(h.S()) && InPhase(h.S(), r, Preparing)
    modifies h`containers, h`volumes, h`seeds, h`nextId, h`past, h.store
    ensures Inv(h.S()) && Along(h.S(), r) && h.store.record.value.phase !in {AwaitingLogin, Committed}
    ensures SamePlace(old(h.past), h.past) && h.store.row == old(h.store.row)
    ensures end == Done ==> CopiedOver(h.S(), q) && q == Record(r.op, Switching, r.payload.(newId := q.payload.newId)) && h.store.record == Some(q)
    ensures h.Calm() && NameFree(old(h.S()), Next(r.op, false)) ==> (end == Done <==> Lone(old(h.S()), r))
  {
    hide Inv, NameFree, Lone, Ready, CopiedOver;
    end, q := StartSwitch(h, r);
    if end != Done { return; }
    end := MakeRoom(h, q);
  }

  /** The candidate is there and the switch begins. */
  method StartSwitch(h: Host, r: Record) returns (end: Outcome, q: Record)
    requires Inv(h.S()) && InPhase(h.S(), r, Preparing)
    modifies h`containers, h`volumes, h`seeds, h`nextId, h.store
    ensures Inv(h.S()) && Along(h.S(), r) && h.store.record.value.phase !in {AwaitingLogin, Committed}
    ensures end == Done ==> Ready(h.S(), q) && q == Record(r.op, Switching, r.payload.(newId := q.payload.newId)) && h.store.record == Some(q)
    ensures h.store.row == old(h.store.row)
    ensures h.Calm() && NameFree(old(h.S()), Next(r.op, false)) ==> end == Done && (Lone(old(h.S()), r) <==> Lone(h.S(), q))
  {
    hide Inv, Moved, NoCopier, MayAdvance, NameFree, Lone;
    end, q := Prepare(h, r);
    if end != Done { return; }
    PreparedView(h.S(), q);
    ghost var s := h.S();
    end, q := h.Advance(q, Switching, q.payload);
    if end != Done { return; }
    NowReady(s, h.store.record.value.(phase := Prepared));
    AdvancedLone(s, q.op, q.payload);
  }

  /** The data goes over and the channel's name becomes free for the candidate. */
  method MakeRoom(h: Host, r: Record) returns (end: Outcome)
    requires Ready(h.S(), r)
    modifies h`containers, h`volumes, h`seeds, h`nextId, h`past
    ensures Inv(h.S()) && SamePlace(old(h.past), h.past)
    ensures end == Done ==> CopiedOver(h.S(), r)
    ensures h.Calm() ==> (end == Done <==> Lone(old(h.S()), r))
  {
    hide Inv, Moved, NoCopier, Copied, OldStill, Lone;
    OldMeansSource(h.S(), r);
    if r.payload.oldId.Some? {
      end := MoveOld(h, r);
      if end != Done { return; }
      MovedIsCopied(h.S(), r);
    } else {
      end := MoveNothing(h, r);
      if end != Done { return; }
      NoOldInitial(h.S(), r);
    }
  }

  lemma CopiedOverMeans(s: State, r: Record)
    requires CopiedOver(s, r)
    ensures Inv(s) && InPhase(s, r, Switching)
  {
    hide Inv, Copied, OldStill, NoCopier, Moved;
  }

  lemma AdvancedLone(s: State, op: nat, p: Payload)
    requires s.db.record.Some?
    ensures Lone(s, Record(op, Prepared, p)) <==> Lone(Advanced(s, Switching, p), Record(op, Switching, p))
  {
  }

  lemma OldMeansSource(s: State, r: Record)
    requires Inv(s) && InPhase(s, r, Switching)
    ensures r.payload.oldId.Some? ==> r.payload.sourceExists
  {
    hide Frame, PhaseHolds, OperationShapes;
  }

  lemma NoOldInitial(s: State, r: Record)
    requires Inv(s) && InPhase(s, r, Switching) && r.payload.oldId.None?
    ensures r.payload.kind == Initial && OldStill(s, r)
  {
    hide Frame, PhaseHolds, OperationShapes;
  }

  /** What is asked for now wins over what was queued, and nothing queued is forgotten. */
  function Merged(queued: Option<Record>, fields: Fields): (all: Fields)
    ensures forall k | k in fields :: k in all && all[k] == fields[k]
    ensures queued.Some? ==> forall k | k in queued.value.payload.fields && k !in fields :: k in all && all[k] == queued.value.payload.fields[k]
    ensures all.Keys == fields.Keys + (if queued.Some? then queued.value.payload.fields.Keys else {})
  {
    if queued.Some? then queued.value.payload.fields + fields else fields
  }

  /** The container the row names, if it exists, has the channel's name and holds its volume. */
  predicate OldFits(s: State, row: Row) {
    row.container.Some? && row.container.value in s.containers ==>
      s.containers[row.container.value].name == Canonical && row.volume in s.containers[row.container.value].mounts
  }

  /** The channel is as a change expects it, its name is its own or free, and nobody else holds its volume. */
  predicate Replaceable(s: State, selfInstalled: bool) {
    && s.db.row.Some? && (s.db.record.Some? ==> s.db.record.value.phase == Queued)
    && var row := s.db.row.value;
       && !(selfInstalled && row.container.Some?)
       && OldFits(s, row)
       && (row.container.None? || row.container.value !in s.containers ==> NameFree(s, Canonical))
       && HeldByChannel(s, row)
  }

  predicate HeldByChannel(s: State, row: Row) {
    forall i | i in s.containers && row.volume in s.containers[i].mounts :: row.container == Some(i)
  }

  /** The container the row names, if it still exists, as it is now. */
  method FindOld(h: Host, row: Row) returns (end: Outcome, old_: Option<nat>, running: bool, policy: Policy)
    requires Inv(h.S()) && h.store.row == Some(row)
    modifies h`containers, h`volumes, h.store
    ensures Inv(h.S()) && SameBinding(old(h.S()).db, h.S().db)
    ensures h.containers.Keys == old(h.containers.Keys) && h.volumes.Keys == old(h.volumes.Keys)
    ensures end == Done && old_.Some? ==>
      && old_ == row.container && old_.value in h.containers && h.containers[old_.value].name == Canonical
      && row.volume in h.containers[old_.value].mounts && policy == old(h.containers)[old_.value].policy
      && (!h.drift ==> running == (old(h.containers)[old_.value].life == Running))
    ensures end == Done && old_.None? ==> (row.container.Some? ==> row.container.value !in h.containers)
    ensures end == Done ==> h.store.row == Some(if old_.None? && row.container.Some? then row.(status := Failed) else row)
    ensures !h.drift ==> h.containers == old(h.containers) && h.volumes == old(h.volumes)
    ensures h.Calm() ==> (end == Done <==> OldFits(old(h.S()), row))
  {
    hide Inv, Evolves;
    end, old_, running, policy := Done, None, false, No;
    if row.container.None? { return; }
    var here;
    end, here := h.Identity(row.container.value);
    DriftKeepsInv(old(h.S()), h.S());
    EvolvesShape(old(h.S()), h.S());
    if end != Done { return; }
    if !here {
      end := h.MarkStatus(Failed);
      return;
    }
    var c := h.containers[row.container.value];
    old_, running, policy := row.container, c.life == Running, c.policy;
    if c.name != Canonical || row.volume !in c.mounts { end := Raised; }
  }

  /** What looking for the old container has found: that container as it was, or none and the channel's name free. */
  ghost predicate Found(a: State, b: State, row: Row, old_: Option<nat>, running: bool, policy: Policy) {
    && b.containers.Keys == a.containers.Keys
    && (old_.Some? ==>
          && old_ == row.container && old_.value in b.containers && b.containers[old_.value].name == Canonical
          && row.volume in b.containers[old_.value].mounts && policy == a.containers[old_.value].policy
          && (!a.drift ==> running == (a.containers[old_.value].life == Running)))
    && (old_.None? ==> NameFree(b, Canonical) && (row.container.Some? ==> row.container.value !in b.containers))
    && b.drift == a.drift && (!a.drift ==> b.containers == a.containers)
  }

  lemma FoundStays(a: State, b: State, c: State, row: Row, old_: Option<nat>, running: bool, policy: Policy)
    requires Found(a, b, row, old_, running, policy) && Evolves(b, c) && Inv(c)
    ensures Found(a, c, row, old_, running, policy) && (old_.Some? ==> row.volume in c.volumes) && c.volumes.Keys == b.volumes.Keys
  {
    hide Inv, Evolves, NameFree;
    EvolvesShape(b, c);
    MountedExists(c);
  }

  /** The old container as it is now, or none and the channel's name free. */
  method FindOldOrFree(h: Host, row: Row) returns (end: Outcome, old_: Option<nat>, running: bool, policy: Policy)
    requires Inv(h.S()) && h.store.row == Some(row)
    modifies h`containers, h`volumes, h.store
    ensures Inv(h.S()) && SameBinding(old(h.S()).db, h.S().db)
    ensures h.volumes.Keys == old(h.volumes.Keys)
    ensures end == Done ==> Found(old(h.S()), h.S(), row, old_, running, policy)
    ensures !h.drift ==> h.containers == old(h.containers) && h.volumes == old(h.volumes)
    ensures h.Calm() ==> (end == Done <==> Drawable(old(h.S()), row))
  {
    hide Inv, Evolves, NameFree, OldFits;
    end, old_, running, policy := FindOld(h, row);
    if end != Done || old_.Some? { return; }
    ghost var s := h.S();
    if !h.drift { SameContainers(old(h.S()), s, Canonical); }
    var holder;
    end, holder := h.Get(Canonical);
    DriftKeepsInv(s, h.S());
    EvolvesShape(s, h.S());
    if end == Done && holder.Some? { end := Raised; }
  }

  lemma SameContainers(a: State, b: State, n: Name)
    requires b.containers == a.containers
    ensures NameFree(a, n) <==> NameFree(b, n)
  {
  }

  /** The old container, if there is one, and whether its data exists. */
  method Survey(h: Host, row: Row) returns (end: Outcome, old_: Option<nat>, running: bool, policy: Policy, sourceExists: bool)
    requires Inv(h.S()) && h.store.row == Some(row)
    modifies h`containers, h`volumes, h.store
    ensures Inv(h.S()) && SameBinding(old(h.S()).db, h.S().db)
    ensures end == Done ==> Found(old(h.S()), h.S(), row, old_, running, policy) && (old_.Some? ==> sourceExists)
    ensures end == Done ==> sourceExists == (row.volume in h.volumes) == (row.volume in old(h.volumes))
    ensures !h.drift ==> h.containers == old(h.containers) && h.volumes == old(h.volumes)
    ensures h.Calm() ==> (end == Done <==> Drawable(old(h.S()), row))
  {
    hide Inv, Evolves, NameFree, Drawable, OldFits, Found, Alike, NoneStarted, Unused, Dormant, SameShape;
    sourceExists := false;
    end, old_, running, policy := FindOldOrFree(h, row);
    if end != Done { return; }
    ghost var s := h.S();
    end := h.Ask();
    DriftKeepsInv(s, h.S());
    EvolvesShape(s, h.S());
    FoundStays(old(h.S()), s, h.S(), row, old_, running, policy);
    if end != Done { return; }
    sourceExists := row.volume in h.volumes;
    if old_.Some? && !sourceExists { end := Raised; }
  }

  /** Looks at the channel as it is and writes down how to change it and how to go back. */
  method DrawPlan(h: Host, fields: Fields, secrets: set<Field>, forceStart: bool) returns (end: Outcome, p: Payload)
    requires Inv(h.S()) && h.store.row.Some? && (h.store.record.Some? ==> h.store.record.value.phase == Queued)
    modifies h`containers, h`volumes, h.store
    ensures Inv(h.S()) && SameBinding(old(h.S()).db, h.S().db)
    ensures end == Done ==> p.Plan? && MayBegin(h.S(), p) && p.fields == fields && p.secrets == secrets && p.oldVolume == old(h.store.row).value.volume
    ensures end == Done ==> PlansFrom(old(h.S()), p) && p.sourceExists == (old(h.store.row).value.volume in old(h.volumes))
    ensures end == Done ==> p.start == (forceStart || old(h.store.row).value.status != Stopped)
    ensures !h.drift ==> h.containers == old(h.containers) && h.volumes == old(h.volumes)
    ensures h.Calm() ==> (end == Done <==> Drawable(old(h.S()), old(h.store.row).value))
  {
    hide Inv, MayBegin, Drawable, Saved, Found, PlansFrom;
    var row := h.store.row.value;
    p := Intent(map[], None, row.volume);
    var old_, running, policy, sourceExists;
    end, old_, running, policy, sourceExists := Survey(h, row);
    if end != Done { return; }
    p := Plan(fields, old_, row.volume, if old_.Some? then Replacement else Initial, Saved(row.settings, fields), secrets,
              sourceExists, running, policy, forceStart || row.status != Stopped, false, None);
    MayBeginNow(old(h.S()), h.S(), p, row);
  }

  predicate Drawable(s: State, row: Row) {
    OldFits(s, row) && (row.container.None? || row.container.value !in s.containers ==> NameFree(s, Canonical))
  }

  lemma MountedExists(s: State)
    requires Inv(s)
    ensures forall i, v | i in s.containers && v in s.containers[i].mounts :: v in s.volumes
  {
    InvParts(s);
    hide Inv, Frame, RecordHolds, DistinctNames, DistinctTags, ForeignIntact, Quiet, Census, VolumeCensus, RowsOwn, SeedsAgree, DataKept;
  }

  lemma MayBeginNow(a: State, s: State, p: Payload, row: Row)
    requires a.db.row == Some(row) && SameBinding(a.db, s.db) && (s.db.record.Some? ==> s.db.record.value.phase == Queued)
    requires p.Plan? && p.oldVolume == row.volume && p.oldFields == Saved(row.settings, p.fields) && !p.configApplied && p.newId == None
    requires p.sourceExists == (p.oldVolume in s.volumes) && p.kind == (if p.oldId.Some? then Replacement else Initial)
    requires Found(a, s, row, p.oldId, p.oldRunning, p.oldPolicy)
    ensures MayBegin(s, p) && PlansFrom(a, p)
  {
    hide NameFree, Saved;
  }

  /** The new settings are in force on the operation's own volume. */
  predicate NewSide(a: State, b: State, fields: Fields, secrets: set<Field>) {
    && b.db.row.Some?
    && b.db.row.value.volume == Fresh(a.nextOp)
    && a.db.row.Some? && b.db.row.value.settings == Update(a.db.row.value.settings, fields, secrets)
    && (b.db.record.Some? ==> b.db.record.value.op == a.nextOp && b.db.record.value.phase in {AwaitingLogin, Committed})
  }

  /** Nothing was begun, or everything is as it was. */
  ghost predicate OldSide(a: State, b: State) {
    || SameBinding(a.db, b.db)
    || (a.db.row.Some? && b.db.record.None? && b.db.row.Some?
        && b.db.row.value.volume == a.db.row.value.volume && b.db.row.value.settings == a.db.row.value.settings
        && (if a.db.row.value.container.Some? && a.db.row.value.container.value in a.containers then
              && ChannelUp(b)
              && var c, d := a.containers[a.db.row.value.container.value], b.containers[b.db.row.value.container.value];
                 d.policy == c.policy && (d.life == Running <==> c.life == Running)
            else b.db.row.value.container == None && NameFree(b, Canonical)))
  }

  lemma InForceNow(b: State, r: Record)
    requires Inv(b) && Along(b, r) && b.db.record.value.phase in {AwaitingLogin, Committed}
    ensures NowInForce(b, b.base, r)
  {
    hide Frame, OperationHolds, OldThere, OldAway, OldBackOrAway, Unstarted, StartedIsRecorded, ChannelIsCandidate;
  }

  lemma InForceStays(m: State, b: State, base: Settings, r: Record)
    requires NowInForce(m, base, r) && b.db.row == m.db.row && (b.db.record == m.db.record || b.db.record.None?)
    ensures NowInForce(b, base, r)
  {
  }

  lemma BaseIsRow(a: State)
    requires Inv(a) && a.db.row.Some? && (a.db.record.Some? ==> a.db.record.value.phase == Queued)
    ensures a.db.row.value.settings == a.base
  {
    hide Frame, OperationHolds, PhaseHolds;
  }

  lemma PursuedNewSide(a: State, m: State, b: State, p: Payload)
    requires Inv(a) && a.db.row.Some? && (a.db.record.Some? ==> a.db.record.value.phase == Queued) && p.Plan?
    requires m.base == a.base && NowInForce(b, m.base, Record(a.nextOp, Preparing, p))
    ensures NewSide(a, b, p.fields, p.secrets)
  {
    BaseIsRow(a);
    hide Inv;
  }

  lemma WentBackToOld(a: State, b: State, p: Payload)
    requires a.db.row.Some? && PlansFrom(a, p) && p.oldVolume == a.db.row.value.volume && Carries(a, b, p)
    requires !a.drift && b.past.still && !b.past.lowered && p.oldVolume != Fresh(a.nextOp)
    requires b.db.record.None? && b.db.row.Some? && b.db.row.value.volume == p.oldVolume && b.db.row.value.settings == a.db.row.value.settings
    ensures OldSide(a, b)
  {
    hide NameFree, SettingsAfter;
  }

  /** An attempt cannot fall into the trap: only a recovery makes recovery containers. */
  lemma NoTrapYet(s: State, r: Record)
    requires Inv(s) && Along(s, r)
    ensures !Trap(s)
  {
    CastShapes(s, s.db.record.value) by { InvParts(s); }
    hide Inv;
    forall i | i in s.containers ensures !IsRecovery(s.containers[i], r.op) {
      assert OfOperation(s.containers[i], r.op) ==> OperationShape(s.containers[i], s.db.record.value);
    }
  }

  lemma NoTrapAlong(s: State, r: Record)
    requires Inv(s) && (s.db.record.Some? ==> Along(s, r))
    ensures !Trap(s)
  {
    hide Inv;
    if s.db.record.Some? { NoTrapYet(s, r); }
  }

  /** A container's volume is older than the next operation. */
  lemma OldVolumeIsOlder(s: State)
    requires Inv(s) && s.db.row.Some?
    ensures s.db.row.value.volume != Fresh(s.nextOp)
  {
    InvParts(s);
    hide Inv, Frame, RecordHolds, DistinctNames, DistinctTags, Bounded, ForeignIntact, Quiet, Census, VolumeCensus, SeedsAgree, DataKept;
  }

  /** While no plan is on record a channel can be changed. */
  predicate Unplanned(s: State) {
    s.db.record.Some? ==> s.db.record.value.phase == Queued
  }

  /** A change leaves the channel running unless it was stopped and nobody asks for more. */
  predicate ToRun(s: State, forceStart: bool) {
    forceStart || (s.db.row.Some? && s.db.row.value.status != Stopped)
  }

  method Replace(h: Host, fields: Fields, secrets: set<Field>, forceStart: bool, selfInstalled: bool, mustPass: bool) returns (end: Outcome)
    requires Inv(h.S())
    modifies h`containers, h`volumes, h`seeds, h`nextId, h`nextOp, h`base, h`stored, h`past, h`answers, h.store
    ensures Inv(h.S())
    ensures end == Done ==> NewSide(old(h.S()), h.S(), Merged(old(h.store.record), fields), secrets)
    ensures end == Done ==> LoginHandled(old(h.S()), h.S(), Merged(old(h.store.record), fields), ToRun(old(h.S()), forceStart), mustPass,
                                         Vouched(old(h.answers), h.answers))
    ensures h.Calm() && end == Done && TidiedUp(h.S().db) ==>
              ServesAsAsked(h.S(), ToRun(old(h.S()), forceStart))
    ensures end == Raised && h.Calm() ==> OldSide(old(h.S()), h.S())
    ensures h.Calm() && !mustPass ==> (end == Done <==> Replaceable(old(h.S()), selfInstalled))
    ensures !Unplanned(old(h.S())) ==> h.S() == old(h.S())
    ensures Unplanned(old(h.S())) ==> Story(old(h.S()), h.S(), Merged(old(h.store.record), fields), secrets) && !Trap(h.S())
    ensures Unplanned(old(h.S())) ==> SameBinding(old(h.S()).db, h.S().db) || (!h.past.lowered && (h.past.still <==> !h.drift))
  {
    hide Inv, MayBegin, NewSide, OldSide, Restored, Trap, NameFree, PlansFrom, Drawable, HeldByChannel, Lone, Carries, LoginHandled, ServesAsAsked, Vouched;
    SameSide(h.S());
    WhenReplaceable(h.S(), selfInstalled);
    TrapNeedsPlan(h.S());
    RecordShape(h.S());
    var queued;
    end, queued := h.ReadJournal();
    if end != Done { return; }
    if queued.Some? && queued.value.phase != Queued { return Raised; }
    if h.store.row.None? || (selfInstalled && h.store.row.value.container.Some?) { return Raised; }
    var p;
    end, p := DrawPlan(h, Merged(queued, fields), secrets, forceStart);
    TrapNeedsPlan(h.S());
    if end != Done { SameSideBinding(old(h.S()), h.S()); return; }
    end := Undertake(h, p, queued, mustPass, old(h.S()));
  }

  /** A plan drawn from state a goes on record and is carried out. */
  method Undertake(h: Host, p: Payload, queued: Option<Record>, mustPass: bool, ghost a: State) returns (end: Outcome)
    requires Inv(a) && Inv(h.S()) && Unplanned(a) && MayBegin(h.S(), p) && h.store.record == queued
    requires p.Plan? && a.db.row.Some? && PlanOf(a, p, p.fields, p.secrets) && SameBinding(a.db, h.S().db) && h.base == a.base && h.nextOp == a.nextOp
    requires h.drift == a.drift && (!h.drift ==> h.containers == a.containers) && p.sourceExists == (p.oldVolume in a.volumes)
    modifies h`containers, h`volumes, h`seeds, h`nextId, h`nextOp, h`base, h`stored, h`past, h`answers, h.store
    ensures end == Done ==> LoginHandled(a, h.S(), p.fields, p.start, mustPass, Vouched(old(h.answers), h.answers))
    ensures h.Calm() && end == Done && TidiedUp(h.S().db) ==> ServesAsAsked(h.S(), p.start)
    ensures Inv(h.S()) && Story(a, h.S(), p.fields, p.secrets) && !Trap(h.S())
    ensures SameBinding(a.db, h.S().db) || (!h.past.lowered && (h.past.still <==> !h.drift))
    ensures end == Done ==> NewSide(a, h.S(), p.fields, p.secrets)
    ensures end == Raised && h.Calm() ==> OldSide(a, h.S())
    ensures h.Calm() && !mustPass ==> (end == Done <==> HeldByChannel(a, a.db.row.value))
  {
    hide Inv, MayBegin, NewSide, OldSide, Trap, NameFree, PlansFrom, HeldByChannel, Lone, Carries, OnRecord, NowInForce, Judged, ServesAsAsked, LoginHandled, Vouched;
    BaseIsRow(a);
    TrapNeedsPlan(h.S());
    RecordShape(h.S());
    ghost var s := h.S();
    end := h.Begin(p, queued);
    NowOnRecord(a, s, p);
    NoTrapBegun(s, p);
    if end != Done { return; }
    BegunFresh(s, p);
    BegunLone(a, s, p);
    ghost var began := h.S();
    end := Pursue(h, mustPass, a, p);
    if end == Done {
      NowHandled(a, h.S(), p, began.base, mustPass, Vouched(old(h.answers), h.answers));
      PursuedNewSide(a, began, h.S(), p);
    }
    if end == Raised && h.Calm() {
      OldVolumeIsOlder(a);
      WentBackToOld(a, h.S(), p);
    }
  }

  /** There is something to go back to: an old container, old data, or other settings. */
  predicate SomethingToLose(a: State, fields: Fields)
    requires a.db.row.Some?
  {
    var row := a.db.row.value;
    (row.container.Some? && row.container.value in a.containers) || row.volume in a.volumes || fields != map[]
  }

  /**
   A change that has gone through: where a probe had to vouch for the login one has, and a login nobody has vouched for is
   waited for, the old container kept under its backup name and the old volume in place, unless there is nothing to go back to.
   */
  ghost predicate LoginHandled(a: State, b: State, fields: Fields, start: bool, mustPass: bool, vouched: bool) {
    && a.db.row.Some? && b.db.row.Some? && (vouched <==> start && mustPass)
    && b.db.row.value.status == (if vouched then LoggedIn else if start then Up else Stopped)
    && if !vouched && SomethingToLose(a, fields) then
         && b.db.record.Some? && b.db.record.value.op == a.nextOp && b.db.record.value.phase == AwaitingLogin
         && (a.db.row.value.volume in a.volumes ==> a.db.row.value.volume in b.volumes)
         && (a.db.row.value.container.Some? && a.db.row.value.container.value in a.containers ==>
               var old_ := a.db.row.value.container.value;
               old_ in b.containers && b.containers[old_].name == Previous(a.nextOp) && a.db.row.value.volume in b.containers[old_].mounts)
       else b.db.record.None? || b.db.record.value.phase == Committed
  }

  lemma NowHandled(a: State, b: State, p: Payload, base: Settings, mustPass: bool, vouched: bool)
    requires Inv(b) && p.Plan? && a.db.row.Some? && PlansFrom(a, p) && p.oldVolume == a.db.row.value.volume
    requires p.sourceExists == (p.oldVolume in a.volumes) && Carries(a, b, p) && Judged(b.db, p, mustPass, vouched)
    requires NowInForce(b, base, Record(a.nextOp, Preparing, p))
    ensures LoginHandled(a, b, p.fields, p.start, mustPass, vouched)
  {
    if b.db.record.Some? {
      assert OnRecord(a, b, p) by { hide Inv; }
      if b.db.record.value.phase == AwaitingLogin { OldWaits(b, b.db.record.value); }
    }
    hide Inv, InForce, AsBefore;
  }

  lemma OldWaits(s: State, r: Record)
    requires Inv(s) && InPhase(s, r, AwaitingLogin)
    ensures r.payload.sourceExists ==> r.payload.oldVolume in s.volumes
    ensures r.payload.oldId.Some? ==>
      && r.payload.oldId.value in s.containers && s.containers[r.payload.oldId.value].name == Previous(r.op)
      && r.payload.oldVolume in s.containers[r.payload.oldId.value].mounts
  {
    hide Frame, Unstarted, StartedIsRecorded, OperationShapes, RowAfter;
  }

  lemma NowOnRecord(a: State, s: State, p: Payload)
    requires p.Plan? && PlanOf(a, p, p.fields, p.secrets) && MayBegin(s, p) && s.base == a.db.row.value.settings && s.nextOp == a.nextOp
    ensures OnRecord(a, Begun(s, p), p) && Carries(a, Begun(s, p), p)
    ensures InPhase(Begun(s, p), Record(s.nextOp, Preparing, p), Preparing)
  {
    hide NameFree, InForce, AsBefore;
  }

  lemma NoTrapBegun(s: State, p: Payload)
    requires Inv(s) && MayBegin(s, p)
    ensures !Trap(Begun(s, p))
  {
    BeginKeepsInv(s, p);
    assert p.Plan? && Along(Begun(s, p), Record(s.nextOp, Preparing, p)) by { hide Inv, NameFree; }
    hide Inv, MayBegin, Trap, Begun;
    NoTrapYet(Begun(s, p), Record(s.nextOp, Preparing, p));
  }

  /** Either the operation r is committed and its settings are in force. */
  predicate NowInForce(b: State, base: Settings, r: Record) {
    && r.payload.Plan? && b.db.row.Some? && b.db.row.value.volume == Fresh(r.op)
    && b.db.row.value.settings == Update(base, r.payload.fields, r.payload.secrets)
    && (b.db.record.Some? ==> b.db.record.value.op == r.op && b.db.record.value.phase in {AwaitingLogin, Committed})
  }

  /** Or everything went back. */
  predicate WentBack(a: State, b: State, r: Record) {
    && b.db.record.None? && b.db.row.Some?
    && b.db.row.value.volume == r.payload.oldVolume && b.db.row.value.settings == a.base
  }

  /** What happens once the operation, planned from state a, is on record. */
  method Pursue(h: Host, mustPass: bool, ghost a: State, ghost p: Payload) returns (end: Outcome)
    requires Inv(h.S()) && OnRecord(a, h.S(), p) && InPhase(h.S(), Record(a.nextOp, Preparing, p), Preparing)
    modifies h`containers, h`volumes, h`seeds, h`nextId, h`nextOp, h`base, h`stored, h`past, h`answers, h.store
    ensures Inv(h.S()) && Carries(a, h.S(), p) && !Trap(h.S()) && SamePlace(old(h.past), h.past)
    ensures end == Done ==> Judged(h.S().db, p, mustPass, Vouched(old(h.answers), h.answers))
    ensures h.Calm() && NameFree(old(h.S()), Next(a.nextOp, false)) && end == Done && TidiedUp(h.S().db) ==> ServesAsAsked(h.S(), p.start)
    ensures end == Done ==> NowInForce(h.S(), old(h.base), Record(a.nextOp, Preparing, p))
    ensures end == Raised && h.Calm() ==> WentBack(old(h.S()), h.S(), Record(a.nextOp, Preparing, p))
    ensures h.Calm() && !mustPass && NameFree(old(h.S()), Next(a.nextOp, false)) ==>
              (end == Done <==> Lone(old(h.S()), Record(a.nextOp, Preparing, p)))
  {
    hide Inv, NameFree, Lone, NowInForce, Trap, Pursued, OnRecord, Carries, MayGrant, RunsAsAsked, AsAskedBy, ServesAsAsked, Vouched, Judged;
    ghost var r := Record(a.nextOp, Preparing, p);
    var found;
    end, found := h.ReadJournal();
    if end == Done && found.Some? { end := Attempt(h, found.value, mustPass); }
    NoTrapYet(h.S(), r);
    AlongIsOnRecord(a, old(h.S()), h.S(), p);
    if end == Crashed { return; }
    ghost var m := h.S();
    if end == Done { NowAsAsked(m, r); }
    ghost var vouched := Vouched(old(h.answers), h.answers);
    end := Conclude(h, r, end == Done);
    if end == Done { JudgedStays(m.db, h.S().db, p, mustPass, vouched); }
    Onward(a, m, h.S(), p);
  }

  /** Nothing is left to tidy up: the record is gone, or it waits for a login. */
  predicate TidiedUp(db: Db) {
    db.record.None? || db.record.value.phase == AwaitingLogin
  }

  /** After an attempt: adopt the candidate, keep what was committed after all, or go back. */
  method Conclude(h: Host, ghost r: Record, done: bool) returns (end: Outcome)
    requires Inv(h.S()) && Along(h.S(), r)
    requires done ==> h.store.record.value.phase in {AwaitingLogin, Committed} && MayGrant(h.S(), h.store.record.value.payload.newId)
    modifies h`containers, h`volumes, h`seeds, h`nextId, h`nextOp, h`base, h`stored, h.store
    ensures Inv(h.S()) && Pursued(old(h.S()), h.S()) && !Trap(h.S())
    ensures end == Done ==> h.store.row == old(h.store.row) && h.store.record in {old(h.store.record), None}
    ensures end == Done ==> old(h.store.record).value.phase in {AwaitingLogin, Committed} && NowInForce(h.S(), old(h.base), r)
    ensures end == Done && h.store.record.None? ==> old(h.store.record).value.phase == Committed
    ensures done && h.Calm() ==> end == Done && (AsAskedBy(old(h.S()), r.payload.start) && TidiedUp(h.S().db) ==> ServesAsAsked(h.S(), r.payload.start))
    ensures !done && h.Calm() && old(h.store.record).value.phase !in {AwaitingLogin, Committed} ==> end != Done
    ensures end == Raised && h.Calm() ==> WentBack(old(h.S()), h.S(), r)
  {
    hide Inv, Trap, Pursued, NowInForce, MayGrant, AsAskedBy, ServesAsAsked;
    if done {
      InForceNow(h.S(), r);
      end := Adopt(h, r);
      InForceStays(old(h.S()), h.S(), old(h.base), r);
    } else {
      end := GiveUp(h, r);
      if end == Done { InForceNow(h.S(), r); }
    }
  }

  lemma JudgedStays(a: Db, b: Db, p: Payload, mustPass: bool, vouched: bool)
    requires Judged(a, p, mustPass, vouched) && b.row == a.row && b.record in {a.record, None}
    requires b.record.None? ==> a.record.Some? && a.record.value.phase == Committed
    ensures Judged(b, p, mustPass, vouched)
  {
  }

  lemma NowAsAsked(s: State, r: Record)
    requires Along(s, r) && s.db.row.Some? && s.db.row.value.container == s.db.record.value.payload.newId
    ensures RunsAsAsked(s, s.db.record.value) ==> AsAskedBy(s, r.payload.start)
  {
  }

  lemma AlongIsOnRecord(a: State, s: State, b: State, p: Payload)
    requires OnRecord(a, s, p) && Along(b, Record(a.nextOp, Preparing, p)) && b.base == s.base
    ensures OnRecord(a, b, p) && Carries(a, b, p)
  {
    hide InForce, AsBefore;
  }

  lemma WhenReplaceable(s: State, selfInstalled: bool)
    ensures Replaceable(s, selfInstalled) <==>
      && s.db.row.Some? && (s.db.record.Some? ==> s.db.record.value.phase == Queued)
      && !(selfInstalled && s.db.row.value.container.Some?) && Drawable(s, s.db.row.value) && HeldByChannel(s, s.db.row.value)
  {
  }

  /** Nothing is called by the name of an operation that has just begun. */
  lemma BegunFresh(s: State, p: Payload)
    requires Inv(s)
    ensures NameFree(Begun(s, p), Next(s.nextOp, false))
  {
    InvParts(s);
    forall i | i in s.containers ensures s.containers[i].name != Next(s.nextOp, false) { assert ContainerBounded(s, i, s.containers[i]); }
  }

  lemma BegunLone(a: State, s: State, p: Payload)
    requires PlansFrom(a, p) && a.db.row.Some? && p.oldVolume == a.db.row.value.volume
    ensures s.containers == a.containers ==> (Lone(Begun(s, p), Record(s.nextOp, Preparing, p)) <==> HeldByChannel(a, a.db.row.value))
  {
  }

  /** The outcome of a failed attempt: keep what was committed after all, or go back. */
  method GiveUp(h: Host, ghost r: Record) returns (end: Outcome)
    requires Inv(h.S()) && Along(h.S(), r)
    modifies h`containers, h`volumes, h`seeds, h`nextId, h`nextOp, h`base, h`stored, h.store
    ensures Inv(h.S()) && Pursued(old(h.S()), h.S()) && !Trap(h.S())
    ensures end == Done ==> h.S() == old(h.S()) && h.store.record.value.phase in {AwaitingLogin, Committed}
    ensures end == Raised && h.Calm() ==> old(h.store.record).value.phase !in {AwaitingLogin, Committed}
    ensures end == Raised && h.Calm() ==> WentBack(old(h.S()), h.S(), r)
  {
    hide Inv, Restored, Trap, Closed, Closable, Ongoing;
    NoTrapYet(h.S(), r);
    GoesOnReflexive(h.S());
    var found;
    end, found := h.ReadJournal();
    if end != Done || (found.Some? && found.value.phase in {AwaitingLogin, Committed}) { return; }
    end := Recover(h);
    if h.store.record.None? { RestoredIsBack(old(h.S()), h.S(), r); }
    if end == Done { end := Raised; }
  }

  lemma RestoredIsBack(a: State, b: State, r: Record)
    requires Along(a, r) && a.db.record.value.phase !in {AwaitingLogin, Committed} && Recovered(a, b)
    ensures WentBack(a, b, r)
  {
    hide NameFree, RunsAsChannel, Closed;
  }

  /** After a commit the new container gets its policy and the old side goes, if that can be done now. */
  method Adopt(h: Host, ghost r: Record) returns (end: Outcome)
    requires Inv(h.S()) && Along(h.S(), r) && h.store.record.value.phase in {AwaitingLogin, Committed}
    requires MayGrant(h.S(), h.store.record.value.payload.newId)
    modifies h`containers, h`volumes, h`seeds, h`nextId, h`nextOp, h`base, h`stored, h.store
    ensures Inv(h.S()) && Pursued(old(h.S()), h.S()) && !Trap(h.S())
    ensures h.store.row == old(h.store.row) && h.store.record in {old(h.store.record), None}
    ensures h.store.record.None? ==> old(h.store.record).value.phase == Committed
    ensures end != Raised && (h.Calm() ==> end == Done)
    ensures h.Calm() && AsAskedBy(old(h.S()), r.payload.start) && TidiedUp(h.S().db) ==>
              ServesAsAsked(h.S(), r.payload.start)
  {
    hide Inv, Closed, Closable, Trap, Ongoing, AsAskedBy, ServesAsAsked;
    GoesOnReflexive(h.S());
    var id := h.store.record.value.payload.newId.value;
    end := h.SetPolicy(id, UnlessStopped);
    ghost var s := h.S();
    if end == Done && h.store.record.value.phase == Committed {
      end := Cleanup(h);
      if h.store.record.None? { ClosedSince(old(h.S()), s, h.S(), id); }
    }
    if h.Calm() && AsAskedBy(old(h.S()), r.payload.start) { NowServes(old(h.S()), s, h.S(), id, r.payload.start); }
    NoTrapAlong(h.S(), r);
    if end == Raised { end := Done; }
  }

  /** The new container is the channel and runs exactly if it is to. */
  predicate AsAskedBy(s: State, start: bool) {
    && s.db.record.Some? && s.db.record.value.payload.Plan? && s.db.record.value.payload.start == start
    && s.db.row.Some? && s.db.row.value.container == s.db.record.value.payload.newId
    && RunsAsAsked(s, s.db.record.value)
  }

  /** The channel runs exactly if it is to, under its name, and Docker keeps it so. */
  predicate ServesAsAsked(s: State, start: bool) {
    && ChannelUp(s)
    && var c := s.containers[s.db.row.value.container.value];
       c.policy == UnlessStopped && (c.life == Running <==> start)
  }

  lemma NowServes(a: State, m: State, b: State, i: nat, start: bool)
    requires AsAskedBy(a, start) && !a.drift && MayGrant(a, Some(i)) && a.db.record.value.payload.newId == Some(i)
    requires m == WithPolicy(a, i, UnlessStopped)
    requires a.db.record.value.phase in {AwaitingLogin, Committed} && b.db.row == a.db.row
    requires b.db.record.None? ==> a.db.record.value.phase == Committed && Closed(a, b)
    requires b.db.record.Some? && b.db.record.value.phase == AwaitingLogin ==> b == m
    ensures b.db.record.None? || b.db.record.value.phase == AwaitingLogin ==> ServesAsAsked(b, start)
  {
    hide NameFree;
  }

  lemma ClosedSince(a: State, m: State, b: State, i: nat)
    requires HasOutcome(a) && a.db.record.value.payload.Plan? && Touched(a, m, i) && Closed(m, b)
    requires !a.drift ==> m.containers[i].life == a.containers[i].life
    ensures Closed(a, b)
  {
    hide NameFree;
    forall j | j in a.containers && j != i ensures j in m.containers && Passes(a.drift, a.containers[j], m.containers[j]) { }
  }

  lemma SameSide(s: State)
    ensures OldSide(s, s)
  {
  }

  lemma SameSideBinding(a: State, b: State)
    requires SameBinding(a.db, b.db)
    ensures OldSide(a, b)
  {
  }
}
