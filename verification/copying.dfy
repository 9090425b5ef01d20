/** Copying the old volume into the operation's own by a throw-away container, with its users checked before and after. */
module Copying {
  import opened Common
  import opened Names
  import opened Settings
  import opened Journal
  import opened ReplacementStore
  import opened World
  import opened Drift
  import opened Renames
  import opened Resources
  import opened Transitions
  import opened Effects
  import opened Hosts

  /** The operation is switching and the old container has not made way. */
  ghost predicate BeforeMove(s: State, r: Record) {
    Inv(s) && s.db.record == Some(r) && r.phase == Switching && r.payload.Plan? && !Moved(s, r)
  }

  predicate HoldsVolume(c: Container, r: Record) {
    r.payload.oldVolume in c.mounts || Fresh(r.op) in c.mounts
  }

  /** Whoever holds the two volumes is the old container, the candidate, or k. */
  predicate Users(s: State, r: Record, k: Option<nat>) {
    forall i | i in s.containers && HoldsVolume(s.containers[i], r) ::
      r.payload.oldId == Some(i) || IsCandidate(s.containers[i], r.op) || k == Some(i)
  }

  predicate SameData(s: State, r: Record) {
    r.payload.oldVolume in s.volumes && Fresh(r.op) in s.volumes && s.volumes[r.payload.oldVolume].data == s.volumes[Fresh(r.op)].data
  }

  lemma UsersStay(a: State, b: State, r: Record, k: Option<nat>)
    requires b.containers.Keys == a.containers.Keys
    requires forall i | i in a.containers :: b.containers[i] == a.containers[i].(name := b.containers[i].name, life := b.containers[i].life)
    ensures Users(b, r, k) <==> Users(a, r, k)
  {
    forall i | i in a.containers ensures b.containers[i].tag == a.containers[i].tag && b.containers[i].mounts == a.containers[i].mounts { }
  }

  lemma PassBeforeMove(a: State, b: State, r: Record)
    requires BeforeMove(a, r) && Evolves(a, b) && OldStill(a, r)
    ensures BeforeMove(b, r) && OldStill(b, r)
    ensures forall k :: Users(a, r, k) <==> Users(b, r, k)
    ensures forall i | i in a.containers :: i in b.containers && SameShape(a.containers[i], b.containers[i])
  {
    hide Inv, Evolves, Moved, Users;
    DriftKeepsInv(a, b);
    EvolvesShape(a, b);
    AlikeCandidates(a, b, r);
    StillStays(a, b, r);
    forall k ensures Users(a, r, k) <==> Users(b, r, k) { UsersStay(a, b, r, k); }
  }

  /** Nobody but the old container and the candidate may hold the volume, and nobody who does may be running. */
  method CheckUsers(h: Host, r: Record, v: Volume) returns (end: Outcome)
    requires BeforeMove(h.S(), r) && OldStill(h.S(), r)
    modifies h`containers, h`volumes
    ensures BeforeMove(h.S(), r) && OldStill(h.S(), r) && Evolves(old(h.S()), h.S())
    ensures end == Done ==> forall i | i in h.containers && v in h.containers[i].mounts :: r.payload.oldId == Some(i) || IsCandidate(h.containers[i], r.op)
    ensures h.Calm() && StillUsers(old(h.S()), r, v) ==> end == Done
  {
    hide Evolves, BeforeMove, OldStill, Users, Alike, NoneStarted, NameFree, Unused;
    end := h.Ask();
    PassBeforeMove(old(h.S()), h.S(), r);
    EvolvesShape(old(h.S()), h.S());
    if end != Done { return; }
    var todo := set i | i in h.containers && v in h.containers[i].mounts;
    while todo != {}
      invariant BeforeMove(h.S(), r) && OldStill(h.S(), r) && Evolves(old(h.S()), h.S())
      invariant todo <= h.containers.Keys && end == Done
      invariant h.Calm() ==> h.S() == old(h.S()) && forall i | i in todo :: v in h.containers[i].mounts
      invariant forall i | i in h.containers && v in h.containers[i].mounts ::
                  i in todo || r.payload.oldId == Some(i) || IsCandidate(h.containers[i], r.op)
    {
      var i :| i in todo;
      ghost var s := h.S();
      end := CheckUser(h, r, v, i);
      EvolvesShape(s, h.S());
      EvolvesTransitive(old(h.S()), s, h.S());
      if end != Done { return; }
      todo := todo - {i};
    }
  }

  method CheckUser(h: Host, r: Record, v: Volume, i: nat) returns (end: Outcome)
    requires BeforeMove(h.S(), r) && OldStill(h.S(), r) && i in h.containers
    modifies h`containers, h`volumes
    ensures BeforeMove(h.S(), r) && OldStill(h.S(), r) && Evolves(old(h.S()), h.S())
    ensures end == Done ==> i in h.containers && (r.payload.oldId == Some(i) || IsCandidate(h.containers[i], r.op))
    ensures h.Calm() ==> h.S() == old(h.S())
    ensures h.Calm() && v in h.containers[i].mounts && StillUsers(old(h.S()), r, v) ==> end == Done
  {
    hide Evolves, BeforeMove, OldStill, Users;
    end := h.Ask();
    PassBeforeMove(old(h.S()), h.S(), r);
    EvolvesShape(old(h.S()), h.S());
    if end != Done { return; }
    if v == r.payload.oldVolume && r.payload.oldId.None? { return Raised; }
    if h.containers[i].life == Running { return Raised; }
    if r.payload.oldId != Some(i) && !IsCandidate(h.containers[i], r.op) { return Raised; }
  }

  /** Whoever holds the volume may hold it and is not running. */
  predicate StillUsers(s: State, r: Record, v: Volume) {
    forall i | i in s.containers && v in s.containers[i].mounts ::
      && (r.payload.oldId == Some(i) || IsCandidate(s.containers[i], r.op)) && s.containers[i].life != Running
      && (v == r.payload.oldVolume ==> r.payload.oldId.Some?)
  }

  lemma UsersAreStill(s: State, r: Record)
    requires BeforeMove(s, r) && OldStill(s, r) && Users(s, r, None)
    ensures StillUsers(s, r, r.payload.oldVolume) && StillUsers(s, r, Fresh(r.op))
  {
    hide Inv, Moved;
    SwitchingCreated(s, r);
    CastShapes(s, r) by { InvParts(s); }
    OldVolumeDiffers(s, r);
    forall i | i in s.containers && IsCandidate(s.containers[i], r.op) ensures s.containers[i].mounts == {Fresh(r.op)} {
      assert OperationShape(s.containers[i], r);
    }
  }

  lemma OldVolumeDiffers(s: State, r: Record)
    requires Inv(s) && s.db.record == Some(r) && r.payload.Plan?
    ensures r.payload.oldVolume != Fresh(r.op)
  {
    hide Frame, PhaseHolds, OperationShapes;
  }

  method CheckBoth(h: Host, r: Record) returns (end: Outcome)
    requires BeforeMove(h.S(), r) && OldStill(h.S(), r)
    modifies h`containers, h`volumes
    ensures BeforeMove(h.S(), r) && OldStill(h.S(), r) && Evolves(old(h.S()), h.S())
    ensures end == Done ==> Users(h.S(), r, None)
    ensures h.Calm() ==> (end == Done <==> Users(old(h.S()), r, None))
  {
    hide Evolves, BeforeMove, OldStill, StillUsers;
    if Users(h.S(), r, None) { UsersAreStill(h.S(), r); }
    end := CheckUsers(h, r, r.payload.oldVolume);
    EvolvesShape(old(h.S()), h.S());
    if end != Done { return; }
    ghost var s := h.S();
    end := CheckUsers(h, r, Fresh(r.op));
    PassBeforeMove(s, h.S(), r);
    EvolvesShape(s, h.S());
    EvolvesTransitive(old(h.S()), s, h.S());
  }

  // ---------------------------------------------------------------- the copy

  lemma BothUnwritten(s: State, r: Record, k: nat)
    requires BeforeMove(s, r) && OldStill(s, r) && Users(s, r, Some(k)) && (k in s.containers ==> s.containers[k].policy == No && s.containers[k].life != Running)
    ensures Unwritten(s, r.payload.oldVolume) && Unwritten(s, Fresh(r.op))
  {
    InvParts(s);
    SwitchingCreated(s, r);
    hide BeforeMove, Inv, Frame, RecordHolds, Moved, DistinctNames, DistinctTags, ForeignIntact, Quiet, Census, VolumeCensus, RowsOwn;
    forall i | i in s.containers ensures s.containers[i].writes <= s.containers[i].mounts { assert ContainerBounded(s, i, s.containers[i]); }
  }

  lemma WorkBeforeMove(a: State, b: State, i: nat, r: Record)
    requires BeforeMove(a, r) && OldStill(a, r) && CopierAtWork(a, b, i) && Inv(b) && r.payload.oldId != Some(i)
    ensures BeforeMove(b, r) && OldStill(b, r)
    ensures forall k :: Users(a, r, k) <==> Users(b, r, k)
    ensures i in b.containers && SameShape(a.containers[i], b.containers[i]) && b.volumes.Keys == a.volumes.Keys
  {
    hide Inv, Moved, Users, CopierAtWork, OldStill;
    AtWorkMoved(a, b, i, r);
    WorkShape(a, b, i, r);
    forall k ensures Users(a, r, k) <==> Users(b, r, k) { UsersStay(a, b, r, k); }
  }

  lemma WorkShape(a: State, b: State, i: nat, r: Record)
    requires CopierAtWork(a, b, i)
    ensures b.db == a.db && b.containers.Keys == a.containers.Keys && b.volumes.Keys == a.volumes.Keys && i in b.containers
    ensures forall j | j in a.containers :: SameShape(a.containers[j], b.containers[j])
    ensures OldStill(a, r) && r.payload.oldId != Some(i) ==> OldStill(b, r)
  {
  }

  lemma GoneBeforeMove(a: State, b: State, i: nat, r: Record)
    requires BeforeMove(a, r) && OldStill(a, r) && Others(a, b, i) && Inv(b) && r.payload.oldId != Some(i)
    requires i in a.containers && IsCopier(a.containers[i], r.op) && i !in b.containers
    ensures BeforeMove(b, r) && OldStill(b, r) && NoCopier(b, r)
    ensures Users(a, r, Some(i)) ==> Users(b, r, None)
  {
    hide Inv, Moved, Users, Others, OldStill, NoCopier, DistinctTags;
    DistinctTagsOf(a);
    GoneShape(a, b, i);
    GoneUsers(a, b, i, r);
    GoneMoved(a, b, i, r);
  }

  lemma DistinctTagsOf(s: State)
    requires Inv(s)
    ensures DistinctTags(s)
  {
  }

  lemma GoneShape(a: State, b: State, i: nat)
    requires Others(a, b, i) && i !in b.containers
    ensures b.db == a.db && b.containers.Keys == a.containers.Keys - {i}
    ensures forall j | j in b.containers :: SameShape(a.containers[j], b.containers[j]) && (Dormant(a.containers[j]) ==> Dormant(b.containers[j]))
  {
    forall j | j in b.containers ensures SameShape(a.containers[j], b.containers[j]) && (Dormant(a.containers[j]) ==> Dormant(b.containers[j])) {
      assert Passes(a.drift, a.containers[j], b.containers[j]);
    }
  }

  lemma GoneUsers(a: State, b: State, i: nat, r: Record)
    requires b.containers.Keys == a.containers.Keys - {i} && r.payload.oldId != Some(i) && DistinctTags(a)
    requires forall j | j in b.containers :: SameShape(a.containers[j], b.containers[j]) && (Dormant(a.containers[j]) ==> Dormant(b.containers[j]))
    requires i in a.containers && IsCopier(a.containers[i], r.op) && OldStill(a, r)
    ensures OldStill(b, r) && NoCopier(b, r) && (Users(a, r, Some(i)) ==> Users(b, r, None))
  {
  }

  lemma GoneMoved(a: State, b: State, i: nat, r: Record)
    requires b.containers.Keys == a.containers.Keys - {i} && r.payload.oldId != Some(i) && r.payload.Plan? && !Moved(a, r)
    requires forall j | j in b.containers :: SameShape(a.containers[j], b.containers[j]) && (Dormant(a.containers[j]) ==> Dormant(b.containers[j]))
    ensures !Moved(b, r)
  {
  }

  /** The old volume holds what it held when the old container came to rest. */
  predicate AsRested(s: State, r: Record) {
    r.payload.oldVolume in s.volumes && r.op in s.past.rested && s.past.rested[r.op] == s.volumes[r.payload.oldVolume].data
  }

  lemma NowCopied(s: State, r: Record)
    requires r.payload.Plan? && Users(s, r, None) && SameData(s, r) && AsRested(s, r)
    ensures Copied(s, r)
  {
  }

  /** Runs the copier; good is whether it is known to have exited with code 0. */
  method RunToEnd(h: Host, r: Record, id: nat) returns (end: Outcome, good: bool)
    requires BeforeMove(h.S(), r) && OldStill(h.S(), r) && Users(h.S(), r, Some(id))
    requires id in h.containers && h.containers[id] == CopierBlueprint(r) && id !in h.foreign && r.payload.oldId != Some(id)
    requires Fresh(r.op) in h.volumes && r.payload.oldVolume in h.volumes && r.payload.oldVolume != Fresh(r.op)
    modifies h`containers, h`volumes, h`seeds, h`nextId
    ensures Inv(h.S()) && KeepsVolume(old(h.S()), h.S(), r.payload.oldVolume)
    ensures end != Crashed ==> BeforeMove(h.S(), r) && OldStill(h.S(), r) && Users(h.S(), r, Some(id))
    ensures end != Crashed ==> id in h.containers && IsCopier(h.containers[id], r.op)
    ensures end != Crashed && good ==> SameData(h.S(), r) && Unwritten(h.S(), r.payload.oldVolume) && Unwritten(h.S(), Fresh(r.op))
    ensures h.Calm() ==> end != Crashed && good
  {
    hide Evolves, OldStill, Users, Inv, Moved, CopierAtWork, LeavesAlone, Unwritten, KeepsVolume;
    good := false;
    end := h.CallStartCopier(id, r);
    WorkBeforeMove(old(h.S()), h.S(), id, r);
    if end == Crashed { return; }
    ghost var s := h.S();
    var succeeded;
    end, succeeded := h.AwaitCopier(id, r);
    KeepsVolumeThen(old(h.S()), s, h.S(), r.payload.oldVolume);
    WorkBeforeMove(s, h.S(), id, r);
    if end == Crashed { return; }
    s := h.S();
    end := h.Ask();
    PassBeforeMove(s, h.S(), r);
    EvolvesShape(s, h.S());
    PassVolume(s, h.S(), r.payload.oldVolume);
    KeepsVolumeThen(old(h.S()), s, h.S(), r.payload.oldVolume);
    if end == Crashed { return; }
    good := end == Done && succeeded && h.containers[id].life == Exited;
    if good {
      BothUnwritten(s, r, id);
      EvolvesLeavesAlone(s, h.S());
      DataLeft(s, h.S(), r);
      LeftUnwritten(s, h.S(), r.payload.oldVolume);
      LeftUnwritten(s, h.S(), Fresh(r.op));
    }
  }

  lemma PassVolume(a: State, b: State, v: Volume)
    requires Evolves(a, b)
    ensures KeepsVolume(a, b, v)
  {
    EvolvesLeavesAlone(a, b);
    LeavingAloneKeeps(a, b, v);
  }

  lemma LeftUnwritten(a: State, b: State, v: Volume)
    requires LeavesAlone(a, b) && Unwritten(a, v) && v in a.volumes
    ensures Unwritten(b, v)
  {
    hide Unwritten;
  }

  /** Runs the copier and takes it away again, whatever became of it. */
  method RunAndRemove(h: Host, r: Record, id: nat) returns (end: Outcome)
    requires BeforeMove(h.S(), r) && OldStill(h.S(), r) && Users(h.S(), r, Some(id))
    requires id in h.containers && h.containers[id] == CopierBlueprint(r) && id !in h.foreign && r.payload.oldId != Some(id)
    requires Fresh(r.op) in h.volumes && r.payload.oldVolume in h.volumes && r.payload.oldVolume != Fresh(r.op)
    modifies h`containers, h`volumes, h`seeds, h`nextId
    ensures Inv(h.S())
    ensures end == Done ==> BeforeMove(h.S(), r) && OldStill(h.S(), r) && NoCopier(h.S(), r) && Users(h.S(), r, None) && SameData(h.S(), r)
    ensures end == Done ==> KeepsVolume(old(h.S()), h.S(), r.payload.oldVolume)
    ensures h.Calm() ==> end == Done
  {
    hide Evolves, OldStill, Users, Inv, Moved, LeavesAlone, Others, MayRemove, Unwritten, NoCopier, KeepsVolume, SameData;
    var good;
    end, good := RunToEnd(h, r, id);
    if end == Crashed { return; }
    ghost var s := h.S();
    CopierMayLeave(s, r, id);
    end := h.Remove(id);
    LeavingAloneKeeps(s, h.S(), r.payload.oldVolume);
    KeepsVolumeThen(old(h.S()), s, h.S(), r.payload.oldVolume);
    if end != Done { return; }
    GoneBeforeMove(s, h.S(), id, r);
    if !good { return Raised; }
    DataLeft(s, h.S(), r);
  }

  lemma CopierMayLeave(s: State, r: Record, i: nat)
    requires s.db.record == Some(r) && r.phase == Switching && r.payload.Plan? && i in s.containers && i !in s.foreign && IsCopier(s.containers[i], r.op)
    ensures MayRemove(s, i)
  {
  }

  lemma DataLeft(a: State, b: State, r: Record)
    requires LeavesAlone(a, b) && Unwritten(a, r.payload.oldVolume) && Unwritten(a, Fresh(r.op)) && SameData(a, r)
    ensures SameData(b, r)
  {
    hide Unwritten;
  }

  lemma MayAddCopier(s: State, r: Record)
    requires BeforeMove(s, r) && NameFree(s, CopyOf(r.op)) && r.payload.oldVolume in s.volumes && Fresh(r.op) in s.volumes
    ensures MayAdd(s, CopierBlueprint(r))
  {
    CastHolds(s, r);
    hide Inv, Moved;
    forall i | i in s.containers ensures s.containers[i].tag != Owned(r.op, false, Copier) { assert CastEntry(s, r, i); }
  }

  lemma NewIdApart(s: State, r: Record)
    requires Inv(s) && s.db.record == Some(r) && r.payload.Plan?
    ensures s.nextId !in s.foreign && r.payload.oldId != Some(s.nextId) && s.nextId !in s.containers
  {
    InvParts(s);
    NextIdUnused(s);
    assert Referenced(s, s.nextId) ==> s.nextId < s.nextId;
    hide Inv, Frame, RecordHolds, DistinctNames, DistinctTags, Bounded, Quiet, Census, VolumeCensus;
  }

  /** The copier that was asked for is the only container under its name. */
  lemma CopierCreated(a: State, b: State, r: Record, k: nat)
    requires BeforeMove(a, r) && OldStill(a, r) && Users(a, r, None) && Others(a, b, k) && Inv(b) && k == a.nextId
    requires NameFree(a, CopyOf(r.op)) && (k in b.containers ==> b.containers[k] == CopierBlueprint(r))
    ensures BeforeMove(b, r) && OldStill(b, r) && Users(b, r, Some(k)) && k !in b.foreign && r.payload.oldId != Some(k)
    ensures forall i | i in b.containers && b.containers[i].name == CopyOf(r.op) :: i == k
    ensures b.volumes.Keys == a.volumes.Keys
  {
    hide Inv, Others;
    NewIdApart(a, r);
    AddedShape(a, b, k);
  }

  lemma AddedShape(a: State, b: State, i: nat)
    requires Others(a, b, i) && i !in a.containers
    ensures b.db == a.db && b.foreign == a.foreign && b.volumes.Keys == a.volumes.Keys
    ensures forall j | j in a.containers :: j in b.containers && SameShape(a.containers[j], b.containers[j]) && (Dormant(a.containers[j]) ==> Dormant(b.containers[j]))
    ensures forall j | j in b.containers && j != i :: j in a.containers
  {
    forall j | j in a.containers ensures j in b.containers && SameShape(a.containers[j], b.containers[j]) && (Dormant(a.containers[j]) ==> Dormant(b.containers[j])) {
      assert Passes(a.drift, a.containers[j], b.containers[j]);
    }
  }

  lemma CopierNameFree(s: State, r: Record)
    requires BeforeMove(s, r) && NoCopier(s, r)
    ensures NameFree(s, CopyOf(r.op))
  {
    CastHolds(s, r);
    hide Inv, Moved;
    forall i | i in s.containers ensures s.containers[i].name != CopyOf(r.op) { assert CastEntry(s, r, i); }
  }

  method CreateCopier(h: Host, r: Record) returns (end: Outcome, id: nat)
    requires BeforeMove(h.S(), r) && OldStill(h.S(), r) && Users(h.S(), r, None) && Fresh(r.op) in h.volumes && r.payload.oldVolume in h.volumes
    modifies h`containers, h`volumes, h`seeds, h`nextId
    ensures Inv(h.S())
    ensures end == Done ==> BeforeMove(h.S(), r) && OldStill(h.S(), r) && Users(h.S(), r, Some(id))
    ensures end == Done ==> id in h.containers && h.containers[id] == CopierBlueprint(r) && id !in h.foreign && r.payload.oldId != Some(id)
    ensures end == Done ==> h.volumes.Keys == old(h.volumes.Keys) && LeavesAlone(old(h.S()), h.S())
    ensures h.Calm() && NoCopier(old(h.S()), r) ==> end == Done
  {
    hide Evolves, OldStill, Users, Inv, Moved, Others, NameFree, MayAdd, NoCopier, LeavesAlone;
    if NoCopier(h.S(), r) { CopierNameFree(h.S(), r); }
    id := 0;
    var found;
    end, found := h.Get(CopyOf(r.op));
    PassBeforeMove(old(h.S()), h.S(), r);
    EvolvesShape(old(h.S()), h.S());
    EvolvesLeavesAlone(old(h.S()), h.S());
    if end != Done { return; }
    if found.Some? { return Raised, 0; }
    ghost var s := h.S();
    MayAddCopier(s, r);
    end := h.CallCreate(CopierBlueprint(r));
    LeavesAloneThen(old(h.S()), s, h.S());
    CopierCreated(s, h.S(), r, s.nextId);
    if end == Crashed { return; }
    if h.Calm() && NameFree(s, CopyOf(r.op)) { AddedName(s, CopierBlueprint(r)); }
    s := h.S();
    end, found := h.Get(CopyOf(r.op));
    PassBeforeMove(s, h.S(), r);
    EvolvesShape(s, h.S());
    EvolvesLeavesAlone(s, h.S());
    LeavesAloneThen(old(h.S()), s, h.S());
    if end != Done { return; }
    if found.None? { return Raised, 0; }
    id := found.value;
    PassUnnoticed(s, h.S(), id);
    s := h.S();
    end := h.Ask();
    PassBeforeMove(s, h.S(), r);
    EvolvesShape(s, h.S());
    EvolvesLeavesAlone(s, h.S());
    LeavesAloneThen(old(h.S()), s, h.S());
    PassUnnoticed(s, h.S(), id);
    if end != Done { return; }
    if !IsCopier(h.containers[id], r.op) { end := Raised; }
  }

  /** While an operation is switching both volumes are there, and so is the old container, stopped, under the channel's name. */
  lemma SourceIsThere(s: State, r: Record)
    requires BeforeMove(s, r) && OldStill(s, r)
    ensures r.payload.oldVolume != Fresh(r.op) && (r.payload.sourceExists ==> r.payload.oldVolume in s.volumes)
    ensures Fresh(r.op) in s.volumes && s.volumes[Fresh(r.op)].tag == Owned(r.op, false, Candidate)
    ensures r.payload.oldId.Some? ==>
      && r.payload.oldId.value in s.containers && s.containers[r.payload.oldId.value].name == Canonical
      && s.containers[r.payload.oldId.value].life != Running && r.payload.oldVolume in s.containers[r.payload.oldId.value].mounts
  {
    OldVolumeDiffers(s, r);
    CandidateVolume(s, r);
    FreshIsOurs(s, r.op);
    SwitchingFacts(s, r);
    hide Inv, CandidateIs, OperationShapes;
  }

  lemma SwitchingFacts(s: State, r: Record)
    requires Inv(s) && s.db.record == Some(r) && r.phase == Switching && r.payload.Plan?
    ensures OldThere(s, r) && CandidateIs(s, r) && OperationShapes(s, r) && (r.payload.sourceExists ==> r.payload.oldVolume in s.volumes)
    ensures r.payload.kind == Replacement <==> r.payload.oldId.Some?
  {
    hide Frame, OldThere, CandidateIs, OperationShapes, RowBefore, CandidatesCreated, Moved, Copied;
  }

  lemma CandidateVolume(s: State, r: Record)
    requires Inv(s) && s.db.record == Some(r) && r.phase == Switching && r.payload.Plan?
    ensures Fresh(r.op) in s.volumes
  {
    SwitchingFacts(s, r);
    InvParts(s);
    hide Inv, Frame, RecordHolds, DistinctNames, DistinctTags, ForeignIntact, Quiet, Census, VolumeCensus, RowsOwn, SeedsAgree, DataKept;
    var i := r.payload.newId.value;
    assert OfOperation(s.containers[i], r.op) && OperationShape(s.containers[i], r);
    assert Fresh(r.op) in s.containers[i].mounts;
  }

  method CopyOnce(h: Host, r: Record) returns (end: Outcome)
    requires BeforeMove(h.S(), r) && OldStill(h.S(), r) && Users(h.S(), r, None)
    requires Fresh(r.op) in h.volumes && r.payload.oldVolume in h.volumes && r.payload.oldVolume != Fresh(r.op)
    modifies h`containers, h`volumes, h`seeds, h`nextId
    ensures Inv(h.S())
    ensures end == Done ==> BeforeMove(h.S(), r) && OldStill(h.S(), r) && NoCopier(h.S(), r) && Users(h.S(), r, None) && SameData(h.S(), r)
    ensures end == Done ==> KeepsVolume(old(h.S()), h.S(), r.payload.oldVolume)
    ensures h.Calm() && NoCopier(old(h.S()), r) ==> end == Done
  {
    hide Evolves, BeforeMove, OldStill, Users, Inv, NoCopier, KeepsVolume, LeavesAlone, SameData;
    var id;
    end, id := CreateCopier(h, r);
    if end != Done { return; }
    LeavingAloneKeeps(old(h.S()), h.S(), r.payload.oldVolume);
    ghost var s := h.S();
    end := RunAndRemove(h, r, id);
    if end == Done { KeepsVolumeThen(old(h.S()), s, h.S(), r.payload.oldVolume); }
  }

  /**
   Copies the old volume into the operation's. When it returns normally the two hold the same,
   the copier is gone, and nobody else holds either of them.
   */
  method CopyVolume(h: Host, r: Record) returns (end: Outcome)
    requires BeforeMove(h.S(), r) && OldStill(h.S(), r) && AsRested(h.S(), r)
    modifies h`containers, h`volumes, h`seeds, h`nextId
    ensures Inv(h.S())
    ensures end == Done ==> BeforeMove(h.S(), r) && OldStill(h.S(), r) && NoCopier(h.S(), r) && Copied(h.S(), r)
    ensures h.Calm() && r.payload.sourceExists && NoCopier(old(h.S()), r) ==> (end == Done <==> Users(old(h.S()), r, None))
  {
    hide Evolves, Inv, Moved, OldStill, Users, NoCopier, Copied, AsRested;
    end := CheckAndCopy(h, r);
    if end != Done { return; }
    ghost var s := h.S();
    end := CheckBoth(h, r);
    CopyKept(s, h.S(), r);
    if end != Done || r.payload.oldId.None? { return; }
    s := h.S();
    end := h.Ask();
    CopyKept(s, h.S(), r);
    PassBeforeMove(s, h.S(), r);
    SourceIsThere(h.S(), r);
    if end == Done && (r.payload.oldId.value !in h.containers || h.containers[r.payload.oldId.value].life == Running) { end := Raised; }
  }

  method CheckAndCopy(h: Host, r: Record) returns (end: Outcome)
    requires BeforeMove(h.S(), r) && OldStill(h.S(), r) && AsRested(h.S(), r)
    modifies h`containers, h`volumes, h`seeds, h`nextId
    ensures Inv(h.S())
    ensures end == Done ==> BeforeMove(h.S(), r) && OldStill(h.S(), r) && NoCopier(h.S(), r) && Copied(h.S(), r) && Users(h.S(), r, None)
    ensures h.Calm() && r.payload.sourceExists && NoCopier(old(h.S()), r) ==> (end == Done <==> Users(old(h.S()), r, None))
  {
    hide Evolves, OldStill, Users, Inv, Moved, NoCopier, Copied, KeepsVolume, Unwritten, SameData;
    end := CheckFirst(h, r);
    if end != Done { return; }
    OldVolumeDiffers(h.S(), r);
    ghost var s := h.S();
    end := CopyOnce(h, r);
    if end != Done { return; }
    KeepsVolumeThen(old(h.S()), s, h.S(), r.payload.oldVolume);
    StillAsRested(old(h.S()), h.S(), r);
    NowCopied(h.S(), r);
  }

  /** The source is as it should be and nobody else holds either volume. */
  method CheckFirst(h: Host, r: Record) returns (end: Outcome)
    requires BeforeMove(h.S(), r) && OldStill(h.S(), r)
    modifies h`containers, h`volumes
    ensures BeforeMove(h.S(), r) && OldStill(h.S(), r)
    ensures end == Done ==> Users(h.S(), r, None) && Fresh(r.op) in h.volumes && r.payload.oldVolume in h.volumes
    ensures end == Done ==> KeepsVolume(old(h.S()), h.S(), r.payload.oldVolume) && Unwritten(old(h.S()), r.payload.oldVolume)
    ensures h.Calm() ==> h.S() == old(h.S()) && (r.payload.sourceExists ==> (end == Done <==> Users(old(h.S()), r, None)))
  {
    hide Evolves, BeforeMove, OldStill, Users, KeepsVolume, LeavesAlone, Unwritten;
    end := CheckSource(h, r);
    EvolvesShape(old(h.S()), h.S());
    if end != Done { return; }
    ghost var s := h.S();
    end := CheckBoth(h, r);
    EvolvesShape(s, h.S());
    VolumesStay(s, h.S());
    if end != Done { return; }
    EvolvesTransitive(old(h.S()), s, h.S());
    PassBeforeMove(old(h.S()), h.S(), r);
    NobodyWrites(old(h.S()), r);
    EvolvesLeavesAlone(old(h.S()), h.S());
    LeavingAloneKeeps(old(h.S()), h.S(), r.payload.oldVolume);
  }

  lemma VolumesStay(a: State, b: State)
    requires Evolves(a, b)
    ensures b.volumes.Keys == a.volumes.Keys
  {
  }

  lemma NobodyWrites(s: State, r: Record)
    requires BeforeMove(s, r) && OldStill(s, r) && Users(s, r, None)
    ensures Unwritten(s, r.payload.oldVolume)
  {
    NextIdFree(s);
    BothUnwritten(s, r, s.nextId);
  }

  lemma StillAsRested(a: State, b: State, r: Record)
    requires AsRested(a, r) && Unwritten(a, r.payload.oldVolume) && KeepsVolume(a, b, r.payload.oldVolume) && b.past == a.past
    ensures AsRested(b, r)
  {
    hide Unwritten;
  }

  lemma CopyKept(a: State, b: State, r: Record)
    requires BeforeMove(a, r) && OldStill(a, r) && Copied(a, r) && NoCopier(a, r) && Evolves(a, b)
    ensures Copied(b, r) && NoCopier(b, r)
  {
    CopyStays(a, b, r);
    EvolvesShape(a, b);
    hide Inv, Copied, Evolves, Moved;
  }

  /** The source exists, belongs to the stopped old container under the channel's name, and the target is the operation's. */
  method CheckSource(h: Host, r: Record) returns (end: Outcome)
    requires BeforeMove(h.S(), r) && OldStill(h.S(), r)
    modifies h`containers, h`volumes
    ensures BeforeMove(h.S(), r) && OldStill(h.S(), r) && Evolves(old(h.S()), h.S())
    ensures end == Done ==> Fresh(r.op) in h.volumes && r.payload.oldVolume in h.volumes
    ensures end == Done && r.payload.oldId.Some? ==>
              r.payload.oldId.value in h.containers && h.containers[r.payload.oldId.value].name == Canonical
              && r.payload.oldVolume in h.containers[r.payload.oldId.value].mounts
    ensures h.Calm() ==> h.S() == old(h.S()) && (r.payload.sourceExists ==> end == Done)
  {
    hide Evolves, OldStill, Users, Inv, Moved;
    SourceIsThere(h.S(), r);
    EvolvesReflexive(h.S());
    if r.payload.oldVolume == Fresh(r.op) { return Raised; }
    end := h.Ask();
    PassBeforeMove(old(h.S()), h.S(), r);
    EvolvesShape(old(h.S()), h.S());
    if end != Done { return; }
    if r.payload.oldVolume !in h.volumes { return Raised; }
    ghost var s := h.S();
    if r.payload.oldId.Some? {
      var here;
      end, here := h.Identity(r.payload.oldId.value);
      PassBeforeMove(s, h.S(), r);
      EvolvesTransitive(old(h.S()), s, h.S());
      EvolvesShape(s, h.S());
      PassVolumes(s, h.S(), r.payload.oldVolume);
      if end != Done { return; }
      if !here { return Raised; }
      var c := h.containers[r.payload.oldId.value];
      if c.name != Canonical || c.life == Running || r.payload.oldVolume !in c.mounts { return Raised; }
    }
    s := h.S();
    end := h.Ask();
    PassBeforeMove(s, h.S(), r);
    EvolvesTransitive(old(h.S()), s, h.S());
    EvolvesShape(s, h.S());
    PassVolumes(s, h.S(), r.payload.oldVolume);
    if end != Done { return; }
    if Fresh(r.op) !in h.volumes || h.volumes[Fresh(r.op)].tag != Owned(r.op, false, Candidate) { return Raised; }
  }
}
