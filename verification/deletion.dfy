/** Deleting a channel: all its containers and every volume that carries its labels go before the rows do. */
module Deletion {
  import opened Common
  import opened Names
  import opened Settings
  import opened Journal
  import opened ReplacementStore
  import opened World
  import opened Drift
  import opened Renames
  import opened Resources
  import opened Transitions
  import opened Effects
  import opened Hosts
  import opened Closing

  ghost predicate Condemning(s: State, r: Record) {
    Inv(s) && s.db.record == Some(r) && r.phase == Deleting
  }

  /** The container that the record calls the old one. */
  predicate IsOld(r: Record, i: nat) { r.payload.oldId == Some(i) }

  ghost predicate Ours(s: State, r: Record, doomed: set<nat>) {
    forall i | i in doomed :: i in s.containers && i !in s.foreign && !IsCopier(s.containers[i], r.op)
  }

  /** Whoever is neither foreign nor spoken for is the operation's copier. */
  ghost predicate Accounted(s: State, r: Record, doomed: set<nat>) {
    && (forall i | i in s.containers :: i in s.foreign || i in doomed || IsCopier(s.containers[i], r.op))
    && Ours(s, r, doomed)
  }

  /** Of the channel's containers only the old one and the operation's own are left. */
  lemma CondemnedCast(s: State, r: Record)
    requires Condemning(s, r)
    ensures forall i | i in s.containers && i !in s.foreign :: IsOld(r, i) || OfOperation(s.containers[i], r.op)
    ensures forall i | i in s.containers && i in s.foreign :: !OfOperation(s.containers[i], r.op) && !IsOld(r, i)
    ensures forall i | i in s.containers && IsOld(r, i) :: !OfOperation(s.containers[i], r.op)
    ensures forall i | i in s.containers && OfOperation(s.containers[i], r.op) ::
              IsCandidate(s.containers[i], r.op) || IsRecovery(s.containers[i], r.op) || IsCopier(s.containers[i], r.op)
    ensures forall i | i in s.containers && s.containers[i].name == Next(r.op, false) :: IsOld(r, i) || IsCandidate(s.containers[i], r.op)
    ensures forall i | i in s.containers && s.containers[i].name == Next(r.op, true) :: IsOld(r, i) || IsRecovery(s.containers[i], r.op)
  {
    if r.payload.Plan? {
      CastHolds(s, r);
      hide Inv;
      forall i | i in s.containers ensures CastEntry(s, r, i) { }
    } else {
      IntentCast(s, r);
    }
  }

  lemma IntentCast(s: State, r: Record)
    requires Condemning(s, r) && r.payload.Intent?
    ensures forall i | i in s.containers && i !in s.foreign :: IsOld(r, i)
    ensures forall i | i in s.containers && i in s.foreign :: !OfOperation(s.containers[i], r.op) && !IsOld(r, i)
    ensures forall i | i in s.containers :: !OfOperation(s.containers[i], r.op)
    ensures forall i, restore | i in s.containers && s.containers[i].name == Next(r.op, restore) :: IsOld(r, i)
  {
    InvParts(s);
    assert forall i | IsOld(r, i) :: Referenced(s, i);
    hide Inv, Frame, DistinctNames, DistinctTags, Bounded, Quiet, VolumeCensus, SeedsAgree, DataKept;
  }

  lemma MayDoom(s: State, r: Record, i: nat)
    requires Condemning(s, r) && i in s.containers && i !in s.foreign
    ensures MayRemove(s, i)
  {
    hide Inv;
  }

  lemma OwnedIsOurs(s: State, r: Record, i: nat)
    requires Condemning(s, r) && i in s.containers && OfOperation(s.containers[i], r.op)
    ensures i !in s.foreign
  {
    CondemnedCast(s, r);
    hide Inv;
  }

  lemma OldIsOurs(s: State, r: Record, i: nat)
    requires Condemning(s, r) && IsOld(r, i)
    ensures i !in s.foreign && (i in s.containers ==> !OfOperation(s.containers[i], r.op))
  {
    CondemnedCast(s, r);
    InvParts(s);
    assert Referenced(s, i);
    hide Inv, Frame, RecordHolds, DistinctNames, DistinctTags, Bounded, ForeignIntact, Quiet, Census, VolumeCensus, SeedsAgree, DataKept;
  }

  lemma OldKnown(s: State, r: Record)
    requires Condemning(s, r) && r.payload.Plan?
    ensures forall i | i in s.containers && IsOld(r, i) ::
              s.containers[i].name in {Canonical, Previous(r.op)} && r.payload.oldVolume in s.containers[i].mounts
  {
    CastHolds(s, r);
    hide Inv;
    forall i | i in s.containers && IsOld(r, i)
      ensures s.containers[i].name in {Canonical, Previous(r.op)} && r.payload.oldVolume in s.containers[i].mounts
    {
      assert CastEntry(s, r, i);
    }
  }

  method CollectOld(h: Host, r: Record) returns (end: Outcome, doomed: set<nat>)
    requires Condemning(h.S(), r)
    modifies h`containers, h`volumes
    ensures Inv(h.S())
    ensures end == Done ==> Ours(h.S(), r, doomed) && forall i | i in h.containers && IsOld(r, i) :: i in doomed
    ensures h.Calm() && r.payload.Plan? ==> end == Done
  {
    hide Inv, Evolves, NameFree;
    if r.payload.Plan? { OldKnown(h.S(), r); }
    end, doomed := Done, {};
    if r.payload.oldId.None? { return; }
    var here;
    end, here := h.Identity(r.payload.oldId.value);
    DriftKeepsInv(old(h.S()), h.S());
    EvolvesShape(old(h.S()), h.S());
    if end != Done || !here { return; }
    var c := h.containers[r.payload.oldId.value];
    if c.name !in {Canonical, Previous(r.op)} || r.payload.oldVolume !in c.mounts { return Raised, doomed; }
    OldIsOurs(h.S(), r, r.payload.oldId.value);
    doomed := {r.payload.oldId.value};
  }

  method CollectOwned(h: Host, r: Record, restore: bool, before: set<nat>) returns (end: Outcome, doomed: set<nat>)
    requires Condemning(h.S(), r) && Ours(h.S(), r, before)
    modifies h`containers, h`volumes
    ensures Inv(h.S()) && Evolves(old(h.S()), h.S())
    ensures end == Done ==> Ours(h.S(), r, doomed) && before <= doomed
    ensures end == Done ==> forall i | i in h.containers && h.containers[i].tag == Owned(r.op, restore, Candidate) :: i in doomed
    ensures h.Calm() && r.payload.Plan? ==> end == Done
  {
    hide Inv, Evolves, NameFree;
    doomed := before;
    var found;
    end, found := h.FindOwned(r, restore, true);
    EvolvesShape(old(h.S()), h.S());
    if end != Done { return; }
    Alone(h.S(), r, restore, found);
    if found.Some? { OwnedIsOurs(h.S(), r, found.value); doomed := doomed + {found.value}; }
  }

  /** Every container that is to go: the old one, the candidate and the recovery container, by label and by name. */
  method Collect(h: Host, r: Record) returns (end: Outcome, doomed: set<nat>)
    requires Condemning(h.S(), r)
    modifies h`containers, h`volumes
    ensures Inv(h.S())
    ensures end == Done ==> Accounted(h.S(), r, doomed)
    ensures h.Calm() && r.payload.Plan? ==> end == Done
  {
    hide Inv, Evolves, NameFree;
    end, doomed := CollectOld(h, r);
    if end != Done { return; }
    ghost var s := h.S();
    end, doomed := CollectOwned(h, r, false, doomed);
    EvolvesShape(s, h.S());
    if end != Done { return; }
    s := h.S();
    end, doomed := CollectOwned(h, r, true, doomed);
    EvolvesShape(s, h.S());
    if end != Done { return; }
    CondemnedCast(h.S(), r);
  }

  lemma Alone(s: State, r: Record, restore: bool, found: Option<nat>)
    requires Inv(s)
    requires found.Some? ==> found.value in s.containers && s.containers[found.value].tag == Owned(r.op, restore, Candidate)
    requires found.None? ==> forall i | i in s.containers :: s.containers[i].tag != Owned(r.op, restore, Candidate)
    ensures forall i | i in s.containers && s.containers[i].tag == Owned(r.op, restore, Candidate) :: found == Some(i)
  {
    InvParts(s);
    hide Inv, Frame, RecordHolds;
  }

  /** A container that goes by the channel's name and is not spoken for is somebody else's. */
  method CheckCanonical(h: Host, r: Record, doomed: set<nat>) returns (end: Outcome)
    requires Condemning(h.S(), r) && Accounted(h.S(), r, doomed)
    modifies h`containers, h`volumes
    ensures Inv(h.S()) && Accounted(h.S(), r, doomed)
    ensures h.Calm() && r.payload.Plan? ==> end == Done
  {
    hide Inv, Evolves, NameFree;
    if r.payload.Plan? { CanonicalIsDoomed(h.S(), r, doomed); }
    var current;
    end, current := h.Get(Canonical);
    DriftKeepsInv(old(h.S()), h.S());
    EvolvesShape(old(h.S()), h.S());
    if end == Done && current.Some? && current.value !in doomed { end := Raised; }
  }

  lemma CanonicalIsDoomed(s: State, r: Record, doomed: set<nat>)
    requires Condemning(s, r) && r.payload.Plan? && Accounted(s, r, doomed)
    ensures forall i | i in s.containers && s.containers[i].name == Canonical :: i in doomed
  {
    CastHolds(s, r);
    hide Inv;
    forall i | i in s.containers && s.containers[i].name == Canonical ensures i in doomed { assert CastEntry(s, r, i); }
  }

  method RemoveCopier(h: Host, r: Record, doomed: set<nat>) returns (end: Outcome)
    requires Condemning(h.S(), r) && Accounted(h.S(), r, doomed)
    modifies h`containers, h`volumes, h`seeds, h`nextId
    ensures Inv(h.S())
    ensures end == Done ==> Only(h.S(), doomed) && Ours(h.S(), r, doomed)
    ensures h.Calm() && r.payload.Plan? ==> end == Done
  {
    hide Inv, Evolves, MayRemove, Others;
    var helper;
    end, helper := h.Get(CopyOf(r.op));
    DriftKeepsInv(old(h.S()), h.S());
    EvolvesShape(old(h.S()), h.S());
    if end != Done { return; }
    ghost var s := h.S();
    CopierName(s, r);
    if helper.None? { return; }
    if r.payload.Plan? { NamedCopier(s, r, helper.value); }
    if h.containers[helper.value].tag != Owned(r.op, false, Copier) { return Raised; }
    OwnedIsOurs(s, r, helper.value);
    MayDoom(s, r, helper.value);
    end := h.Remove(helper.value);
    if end == Done { OthersOnly(s, h.S(), r, helper.value, doomed); }
  }

  /** Nothing of the channel is left but the doomed. */
  ghost predicate Only(s: State, doomed: set<nat>) {
    forall i | i in s.containers :: i in s.foreign || i in doomed
  }

  lemma CopierName(s: State, r: Record)
    requires Condemning(s, r)
    ensures forall i | i in s.containers && IsCopier(s.containers[i], r.op) :: s.containers[i].name == CopyOf(r.op)
  {
    if r.payload.Plan? {
      CastHolds(s, r);
      hide Inv;
      forall i | i in s.containers ensures CastEntry(s, r, i) { }
    } else {
      IntentCast(s, r);
      hide Inv;
    }
  }

  lemma NamedCopier(s: State, r: Record, i: nat)
    requires Condemning(s, r) && r.payload.Plan? && i in s.containers && s.containers[i].name == CopyOf(r.op)
    ensures IsCopier(s.containers[i], r.op)
  {
    CastHolds(s, r);
    assert CastEntry(s, r, i);
  }

  lemma OthersOnly(a: State, b: State, r: Record, i: nat, doomed: set<nat>)
    requires Inv(a) && Accounted(a, r, doomed) && Others(a, b, i) && i in a.containers && i !in b.containers && IsCopier(a.containers[i], r.op)
    ensures Only(b, doomed) && Ours(b, r, doomed)
  {
    InvParts(a);
    hide Inv, Frame, RecordHolds;
  }

  /** Withdraws each one's policy and removes it. */
  method RemoveAll(h: Host, r: Record, doomed: set<nat>) returns (end: Outcome)
    requires Condemning(h.S(), r) && Only(h.S(), doomed) && Ours(h.S(), r, doomed)
    modifies h`containers, h`volumes, h`seeds, h`nextId
    ensures Inv(h.S())
    ensures end == Done ==> Only(h.S(), {})
    ensures h.Calm() ==> end == Done
  {
    hide Inv, Evolves, MayRemove, Others, Touched;
    var todo := doomed;
    end := Done;
    while todo != {}
      invariant Condemning(h.S(), r) && Only(h.S(), todo) && Ours(h.S(), r, todo) && end == Done
    {
      var i :| i in todo;
      ghost var s := h.S();
      end := h.SetPolicy(i, No);
      TouchedOnly(s, h.S(), r, i, todo);
      if end != Done { return; }
      s := h.S();
      MayDoom(s, r, i);
      end := h.Remove(i);
      if end != Done { return; }
      GoneOnly(s, h.S(), r, i, todo);
      todo := todo - {i};
    }
  }

  lemma TouchedOnly(a: State, b: State, r: Record, i: nat, todo: set<nat>)
    requires Only(a, todo) && Ours(a, r, todo) && Touched(a, b, i)
    ensures Only(b, todo) && Ours(b, r, todo)
  {
    forall j | j in a.containers ensures j in b.containers && b.containers[j].tag == a.containers[j].tag {
      if j != i { assert Passes(a.drift, a.containers[j], b.containers[j]); }
    }
  }

  lemma GoneOnly(a: State, b: State, r: Record, i: nat, todo: set<nat>)
    requires Only(a, todo) && Ours(a, r, todo) && Others(a, b, i) && i !in b.containers
    ensures Only(b, todo - {i}) && Ours(b, r, todo - {i})
  {
    forall j | j in a.containers && j != i ensures j in b.containers && b.containers[j].tag == a.containers[j].tag {
      assert Passes(a.drift, a.containers[j], b.containers[j]);
    }
  }

  // ---------------------------------------------------------------- volumes and rows

  /** The volumes that carry the channel's labels are those named by their own labels. */
  lemma LabelledVolume(s: State, v: Volume)
    requires Inv(s) && v in s.volumes && s.volumes[v].tag != Unlabelled
    ensures v.Fresh? && s.volumes[v].tag == Owned(v.op, false, Candidate) && v !in s.elsewhere
  {
    InvParts(s);
    hide Inv, Frame, RecordHolds, DistinctNames, DistinctTags, Bounded, ForeignIntact, Quiet, Census, RowsOwn, SeedsAgree, DataKept;
  }

  /** Nobody else uses a labelled volume. */
  lemma LabelledUnused(s: State, v: Volume)
    requires Inv(s) && v in s.volumes && s.volumes[v].tag != Unlabelled && Only(s, {})
    ensures Unused(s, v)
  {
    InvParts(s);
    hide Inv, Frame, RecordHolds, DistinctNames, DistinctTags, Bounded, Quiet, Census, RowsOwn, SeedsAgree, DataKept;
  }

  method RemoveVolumes(h: Host, r: Record) returns (end: Outcome)
    requires Condemning(h.S(), r) && Only(h.S(), {})
    modifies h`containers, h`volumes, h`seeds, h`nextId
    ensures Inv(h.S())
    ensures end == Done ==> Only(h.S(), {}) && forall v | v in h.volumes :: h.volumes[v].tag == Unlabelled
    ensures h.Calm() ==> end == Done
  {
    hide Inv, Evolves, Only, MayDrop, OtherVolumes;
    end := h.Ask();
    DriftKeepsInv(old(h.S()), h.S());
    EvolvesShape(old(h.S()), h.S());
    SameOnly(old(h.S()), h.S());
    if end != Done { return; }
    var todo := set v | v in h.volumes && h.volumes[v].tag != Unlabelled;
    while todo != {}
      invariant Condemning(h.S(), r) && Only(h.S(), {}) && end == Done
      invariant forall v | v in h.volumes && h.volumes[v].tag != Unlabelled :: v in todo
    {
      var v :| v in todo;
      ghost var s := h.S();
      if v in h.volumes && h.volumes[v].tag != Unlabelled {
        LabelledVolume(s, v);
        LabelledUnused(s, v);
        MayDropDoomed(s, r, v);
        end := h.RemoveVolume(v, Some(h.volumes[v].tag.op));
        VolumeGone(s, h.S(), v);
        if end != Done { return; }
      }
      todo := todo - {v};
    }
  }

  lemma MayDropDoomed(s: State, r: Record, v: Volume)
    requires s.db.record == Some(r) && r.phase == Deleting && v in s.volumes && v !in s.elsewhere
    ensures Unused(s, v) ==> MayDrop(s, v)
  {
  }

  lemma SameOnly(a: State, b: State)
    requires Only(a, {}) && b.containers.Keys == a.containers.Keys && b.foreign == a.foreign
    ensures Only(b, {})
  {
  }

  lemma VolumeGone(a: State, b: State, v: Volume)
    requires OtherVolumes(a, b, v) && Only(a, {})
    ensures Only(b, {}) && b.db == a.db
    ensures forall w | w in b.volumes && w != v :: w in a.volumes && b.volumes[w].tag == a.volumes[w].tag
  {
  }

  /** Deletes the channel that the record belongs to; without a record there is nothing for it to do. */
  method Discard(h: Host) returns (end: Outcome, found: bool)
    requires Inv(h.S())
    modifies h`containers, h`volumes, h`seeds, h`nextId, h`elsewhere, h.store
    ensures Inv(h.S())
    ensures end == Done && !found ==> old(h.store.record).None? && h.S() == old(h.S())
    ensures end == Done && found ==> h.store.Rows() == Db(None, None, None)
    ensures end == Done && found ==> forall i | i in h.containers :: i in h.foreign
    ensures end == Done && found ==> forall v | v in h.volumes :: h.volumes[v].tag == Unlabelled
    ensures h.Calm() && (old(h.store.record).Some? ==> old(h.store.record).value.payload.Plan?) ==> end == Done
  {
    hide Inv, Evolves, Only, Ours, Accounted;
    found := false;
    var record;
    end, record := h.ReadJournal();
    if end != Done || record.None? { return; }
    var r := record.value;
    found := true;
    if r.phase != Deleting {
      end := h.RequestDelete(r);
      if end != Done { return; }
      end, record := h.ReadJournal();
      if end != Done || record.None? { return; }
      r := record.value;
    }
    var doomed;
    end, doomed := Collect(h, r);
    if end != Done { return; }
    end := CheckCanonical(h, r, doomed);
    if end != Done { return; }
    end := RemoveCopier(h, r, doomed);
    if end != Done { return; }
    end := RemoveAll(h, r, doomed);
    if end != Done { return; }
    end := RemoveVolumes(h, r);
    if end != Done { return; }
    OnlyForeign(h.S());
    end := h.Deleted(r);
  }

  lemma OnlyForeign(s: State)
    requires Only(s, {})
    ensures forall i | i in s.containers :: i in s.foreign
  {
  }
}
