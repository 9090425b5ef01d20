/**
 One channel's Docker host and journal as the replacement code meets them. Every call may be
 performed or not, may be answered, may fail although it was performed, and may be the last thing
 the process does. The helpers confirm each effect by reading it back.
 */
module Hosts {
  import opened Common
  import opened Names
  import opened Settings
  import opened Journal
  import opened ReplacementStore
  import opened World
  import opened Drift
  import opened Renames
  import opened Resources
  import opened Transitions
  import opened Effects

  /** A channel that has just been entered. */
  function Newborn(settings: Settings, containers: map<nat, Container>, volumes: map<Volume, Disk>, nextId: nat, nextOp: nat, drift: bool): State {
    State(containers, volumes, Db(Some(Row(None, Original, None, Failed, None, settings)), None, None), nextId, nextOp,
          settings, map[], containers, map v | v in volumes && v != Original :: volumes[v].tag, nextOp, false, drift, Past(map[], false, false, false, !drift))
  }

  lemma NewbornIsSound(settings: Settings, containers: map<nat, Container>, volumes: map<Volume, Disk>, nextId: nat, nextOp: nat, drift: bool)
    requires forall i, j | i in containers && j in containers && i != j :: containers[i].name != containers[j].name
    requires forall i | i in containers :: i < nextId && containers[i].tag == Unlabelled && NamedBefore(containers[i].name, nextOp)
    requires forall i | i in containers :: containers[i].writes <= containers[i].mounts <= volumes.Keys
    requires forall v | v in volumes :: volumes[v].tag == Unlabelled
    requires forall op: nat | Fresh(op) in volumes :: op < nextOp
    ensures Inv(Newborn(settings, containers, volumes, nextId, nextOp, drift))
  {
    var s := Newborn(settings, containers, volumes, nextId, nextOp, drift);
    assert Bounded(s) by {
      forall i | i in containers ensures ContainerBounded(s, i, containers[i]) { }
    }
    assert VolumeCensus(s) by { assert forall v :: VolumeReferenced(s, v) <==> v == Original; }
    assert RowsOwn(s) && Census(s);
  }

  /** A probe has been answered since, and the last answer was that the login works. */
  predicate Vouched(was: seq<bool>, now: seq<bool>) {
    |now| > |was| && now[|now| - 1]
  }

  /** How a piece of code ends: it returns, it raises, or the process dies in it. */
  datatype Outcome = Done | Raised | Crashed

  class Host {
    var containers: map<nat, Container>
    var volumes: map<Volume, Disk>
    var nextId: nat
    var nextOp: nat
    const store: Store

    /** Whether calls may fail or the process may die, and whether the world moves by itself. */
    var faults: bool
    var drift: bool

    ghost var base: Settings
    ghost var seeds: map<nat, Seed>
    ghost var stored: bool
    ghost var elsewhere: map<Volume, Label>
    ghost var past: Past

    /** The answers of all probes so far, latest last. */
    ghost var answers: seq<bool>
    ghost const foreign: map<nat, Container>
    ghost const birth: nat

    ghost function S(): State
      reads this, store
    {
      State(containers, volumes, store.Rows(), nextId, nextOp, base, seeds, foreign, elsewhere, birth, stored, drift, past)
    }

    ghost predicate Calm()
      reads this
    {
      !faults && !drift
    }

    /** A new channel beside whatever containers and volumes there are. */
    constructor (settings: Settings, containers: map<nat, Container>, volumes: map<Volume, Disk>, nextId: nat, nextOp: nat,
                 faults: bool, drift: bool)
      requires forall i, j | i in containers && j in containers && i != j :: containers[i].name != containers[j].name
      requires forall i | i in containers :: i < nextId && containers[i].tag == Unlabelled && NamedBefore(containers[i].name, nextOp)
      requires forall i | i in containers :: containers[i].writes <= containers[i].mounts <= volumes.Keys
      requires forall v | v in volumes :: volumes[v].tag == Unlabelled
      requires forall op: nat | Fresh(op) in volumes :: op < nextOp
      ensures Inv(S()) && store.record.None? && S().birth == nextOp && this.foreign == containers
      ensures S() == Newborn(settings, containers, volumes, nextId, nextOp, drift)
      ensures this.faults == faults && this.drift == drift && past.calm == !drift
    {
      this.containers, this.volumes, this.nextId, this.nextOp := containers, volumes, nextId, nextOp;
      this.faults, this.drift := faults, drift;
      store := new Store(Row(None, Original, None, Failed, None, settings));
      base, seeds, stored := settings, map[], false;
      foreign, birth := containers, nextOp;
      elsewhere := map v | v in volumes && v != Original :: volumes[v].tag;
      past := Past(map[], false, false, false, !drift);
      new;
      hide Inv;
      NewbornIsSound(settings, containers, volumes, nextId, nextOp, drift);
      assert S() == Newborn(settings, containers, volumes, nextId, nextOp, drift);
    }

    // -------------------------------------------------------------- the world moves

    /** Calls begin or cease to fail, and the world begins to move or comes to rest. */
    method Weather(faults: bool, drift: bool)
      requires Inv(S())
      modifies this`faults, this`drift, this`past
      ensures Inv(S()) && this.faults == faults && S() == Weathered(old(S()), drift)
    {
      hide Inv;
      WeatherKeepsInv(S(), drift);
      this.faults := faults;
      this.drift := drift;
      past := past.(still := past.still && !drift, calm := past.calm && !drift);
    }

    /** Notes what the old volume holds, now that the old container has come to rest. */
    ghost method Rest(r: Record)
      requires Inv(S()) && store.record == Some(r) && r.phase == Switching && r.payload.Plan? && !Moved(S(), r)
      requires r.payload.oldId.Some? ==> r.payload.oldId.value in containers && Dormant(containers[r.payload.oldId.value])
      modifies this`past
      ensures Inv(S()) && S() == Rested(old(S()), r)
    {
      hide Inv, Moved;
      RestKeepsInv(S(), r);
      if r.payload.oldVolume in volumes { past := past.(rested := past.rested[r.op := volumes[r.payload.oldVolume].data]); }
    }

    /** Time passes: active containers exit, come back, and write to their volumes. */
    method Settle()
      modifies this`containers, this`volumes
      ensures Evolves(old(S()), S())
    {
      hide Evolves;
      EvolvesReflexive(S());
      var n: nat := *;
      if !drift { return; }
      while n > 0
        invariant Evolves(old(S()), S())
      {
        ghost var s := S();
        var i: nat := *;
        if i in containers && Active(containers[i]) {
          if * {
            var up: bool := *;
            containers := containers[i := containers[i].(life := if up then Running else Exited)];
            LifeEvolves(s, i, if up then Running else Exited);
          } else {
            var v: Volume := *;
            var data: nat := *;
            if v in containers[i].writes && v in volumes {
              volumes := volumes[v := volumes[v].(data := data)];
              DataEvolves(s, i, v, data);
            } else {
              EvolvesReflexive(s);
            }
          }
        } else {
          EvolvesReflexive(s);
        }
        EvolvesTransitive(old(S()), s, S());
        n := n - 1;
      }
    }

    /** What becomes of a call: whether it was performed, and what the caller learns. */
    method Fate() returns (performed: bool, end: Outcome)
      ensures end == Done ==> performed
      ensures !faults ==> end == Done
    {
      performed, end := true, Done;
      if faults {
        performed := *;
        var dead: bool := *;
        var lost: bool := *;
        end := if dead then Crashed else if lost || !performed then Raised else Done;
      }
    }

    /** A question: time passes, and the answer may not come. */
    method Ask() returns (end: Outcome)
      modifies this`containers, this`volumes
      ensures Evolves(old(S()), S())
      ensures !faults ==> end == Done
    {
      var performed;
      Settle();
      performed, end := Fate();
    }

    // -------------------------------------------------------------- reading

    method Get(name: Name) returns (end: Outcome, found: Option<nat>)
      modifies this`containers, this`volumes
      ensures Evolves(old(S()), S())
      ensures !faults ==> end == Done
      ensures end == Done && found.Some? ==> found.value in containers && containers[found.value].name == name
      ensures end == Done ==> (found.None? <==> NameFree(S(), name))
    {
      hide Evolves;
      found := None;
      end := Ask();
      if end == Done {
        if i: nat :| i in containers && containers[i].name == name { found := Some(i); }
      }
    }

    /** The container with a known identity, if it still exists. */
    method Identity(id: nat) returns (end: Outcome, here: bool)
      modifies this`containers, this`volumes
      ensures Evolves(old(S()), S())
      ensures !faults ==> end == Done
      ensures end == Done ==> here == (id in containers)
    {
      hide Evolves;
      end := Ask();
      here := end == Done && id in containers;
    }

    /** What the journal will say about a container that is, or is becoming, the channel. */
    method ReadRuntime(id: nat, volume: Volume, connected: bool, latency: Option<nat>) returns (end: Outcome, runtime: Runtime)
      requires id in containers
      modifies this`containers, this`volumes
      ensures Evolves(old(S()), S())
      ensures !faults ==> end == Done
      ensures runtime.container == id && runtime.volume == volume && ValidRuntime(runtime)
      ensures id in containers && (runtime.status == Stopped <==> containers[id].life != Running)
      ensures runtime.status == LoggedIn <==> containers[id].life == Running && connected
      ensures runtime.latency == if connected then latency else None
    {
      var port: Option<nat> := *;
      end := Ask();
      assert id in containers;
      var running := containers[id].life == Running;
      runtime := Runtime(id, volume, port, if running && connected then LoggedIn else if running then Up else Stopped,
                         if connected then latency else None);
    }

    /** Asks through the channel's proxy whether the login works. */
    method Probe() returns (end: Outcome, connected: bool, latency: Option<nat>)
      modifies this`containers, this`volumes, this`answers
      ensures Evolves(old(S()), S())
      ensures !faults ==> end == Done
      ensures answers == if end == Done then old(answers) + [connected] else old(answers)
      ensures end != Done ==> !connected
    {
      end := Ask();
      connected := *;
      latency := *;
      if end == Done { answers := answers + [connected]; } else { connected := false; }
    }

    /** The container that carries the labels of an operation, wherever those containers may be. */
    method FindOwned(r: Record, restore: bool, canonical: bool) returns (end: Outcome, found: Option<nat>)
      requires Inv(S()) && store.record == Some(r)
      modifies this`containers, this`volumes
      ensures Inv(S()) && Evolves(old(S()), S())
      ensures !faults && r.payload.Plan? ==> end == Done
      ensures end == Done && found.Some? ==> found.value in containers && containers[found.value].tag == Owned(r.op, restore, Candidate)
      ensures end == Done && found.Some? && !canonical ==> containers[found.value].name == Next(r.op, restore)
      ensures end == Done && found.None? ==> NameFree(S(), Next(r.op, restore))
      ensures end == Done && found.None? && canonical ==> forall i | i in containers :: containers[i].tag != Owned(r.op, restore, Candidate)
    {
      hide Evolves, Inv, CastEntry;
      end, found := Get(Next(r.op, restore));
      DriftKeepsInv(old(S()), S());
      EvolvesShape(old(S()), S());
      if end != Done { return; }
      if found.Some? {
        if r.payload.Plan? { OwnedByName(S(), r, restore, found.value); }
        if containers[found.value].tag != Owned(r.op, restore, Candidate) { end := Raised; }
        return;
      }
      if canonical {
        ghost var s := S();
        end, found := Get(Canonical);
        DriftKeepsInv(s, S());
        EvolvesShape(s, S());
        EvolvesTransitive(old(S()), s, S());
        if end != Done { return; }
        if found.None? || containers[found.value].tag != Owned(r.op, restore, Candidate) {
          NotOwned(S(), r, restore, found);
          found := None;
        }
      }
    }

    // -------------------------------------------------------------- one container

    /** The bare call: Docker refuses a name that is taken. */
    method CallRename(i: nat, target: Name) returns (end: Outcome)
      requires Inv(S()) && i in containers && MayRename(S(), i, target)
      modifies this`containers, this`volumes, this`seeds, this`nextId
      ensures Inv(S()) && Shifted(old(S()), S(), i)
      ensures i in containers && containers[i].name in {old(containers)[i].name, target}
      ensures Calm() ==> end != Crashed && S() == if NameFree(old(S()), target) then Renamed(old(S()), i, target) else old(S())
      ensures seeds == old(seeds)
    {
      hide Evolves, Inv, MayRename, Shifted, NameFree, LifeDrifts;
      Settle();
      BeforeRename(old(S()), S(), i, target);
      ghost var s := S();
      var performed;
      performed, end := Fate();
      if performed && IsFree(target) {
        RenameKeepsInv(s, i, target);
        RenamedShifted(s, i, target);
        containers := containers[i := containers[i].(name := target)];
        ShiftedThen(old(S()), s, S(), i);
      }
    }

    method Rename(i: nat, expected: Name, target: Name) returns (end: Outcome)
      requires Inv(S()) && i in containers && MayRename(S(), i, target)
      modifies this`containers, this`volumes, this`seeds, this`nextId
      ensures Inv(S()) && Shifted(old(S()), S(), i)
      ensures i in containers && containers[i].name in {old(containers)[i].name, target}
      ensures end == Done ==> containers[i].name == target
      ensures Calm() ==> (end == Done <==> old(containers)[i].name == target || (old(containers)[i].name == expected && NameFree(old(S()), target)))
      ensures Calm() ==> end != Crashed
      ensures Calm() ==> S() == if end == Done then Renamed(old(S()), i, target) else old(S())
      ensures seeds == old(seeds)
    {
      hide Evolves, Inv, MayRename, Shifted, NameFree, LifeDrifts;
      end := Ask();
      BeforeRename(old(S()), S(), i, target);
      if end != Done { return; }
      if containers[i].name == target { RenamedSame(S(), i); return; }
      if containers[i].name != expected { end := Raised; return; }
      ghost var s := S();
      end := CallRename(i, target);
      ShiftedThen(old(S()), s, S(), i);
      if end == Crashed { return; }
      s := S();
      end := Ask();
      AfterRename(s, S(), i);
      ShiftedThen(old(S()), s, S(), i);
      if end == Done && containers[i].name != target { end := Raised; }
    }

    // policy

    method CallUpdate(i: nat, p: Policy) returns (end: Outcome)
      requires Inv(S()) && i in containers && i !in foreign && (p == No || containers[i].name == Canonical)
      modifies this`containers, this`volumes, this`seeds, this`nextId
      ensures Inv(S()) && Touched(old(S()), S(), i)
      ensures i in containers && (!drift ==> containers[i].life == old(containers)[i].life)
      ensures Calm() ==> end != Crashed && S() == WithPolicy(old(S()), i, p)
    {
      hide Evolves, Inv, Touched, LifeDrifts;
      Settle();
      AfterTouch(old(S()), S(), i);
      ghost var s := S();
      var performed;
      performed, end := Fate();
      if performed {
        PolicyKeepsInv(s, i, p);
        WithPolicyTouched(s, i, p);
        containers := containers[i := containers[i].(policy := p)];
        TouchedThen(old(S()), s, S(), i);
      }
    }

    method SetPolicy(i: nat, p: Policy) returns (end: Outcome)
      requires Inv(S()) && i in containers && i !in foreign && (p == No || containers[i].name == Canonical)
      modifies this`containers, this`volumes, this`seeds, this`nextId
      ensures Inv(S()) && Touched(old(S()), S(), i)
      ensures end == Done ==> i in containers && containers[i].policy == p
      ensures i in containers && (!drift ==> containers[i].life == old(containers)[i].life)
      ensures Calm() ==> end == Done && S() == WithPolicy(old(S()), i, p)
    {
      hide Evolves, Inv, Touched, LifeDrifts;
      end := CallUpdate(i, p);
      if end == Crashed { return; }
      ghost var s := S();
      TouchedHas(old(S()), s, i);
      end := Ask();
      AfterTouch(s, S(), i);
      TouchedThen(old(S()), s, S(), i);
      if end == Done && containers[i].policy != p { end := Raised; }
    }

    // starting and stopping

    method CallStop(i: nat) returns (end: Outcome)
      requires Inv(S()) && i in containers && i !in foreign && !(store.record.Some? && store.record.value.phase == Phase.RolledBack)
      modifies this`containers, this`volumes, this`seeds, this`nextId
      ensures Inv(S()) && Touched(old(S()), S(), i)
      ensures i in containers && containers[i].policy == old(containers)[i].policy
      ensures Calm() ==> end != Crashed && S() == Put(old(S()), i, Halted(old(containers)[i]))
    {
      hide Evolves, Inv, Touched, LifeDrifts;
      Settle();
      AfterTouch(old(S()), S(), i);
      ghost var s := S();
      var performed;
      performed, end := Fate();
      if performed {
        StopKeepsInv(s, i);
        StoppedTouched(s, i);
        containers := containers[i := Halted(containers[i])];
        TouchedThen(old(S()), s, S(), i);
      }
    }

    method CallStart(i: nat) returns (end: Outcome)
      requires Inv(S()) && i in containers && MayStart(S(), i)
      modifies this`containers, this`volumes, this`seeds, this`nextId
      ensures Inv(S()) && Touched(old(S()), S(), i)
      ensures i in containers && containers[i].policy == old(containers)[i].policy
      ensures Calm() ==> end != Crashed && S() == Started(old(S()), i)
    {
      hide Evolves, Inv, Touched, LifeDrifts, MayStart, SeedsAfter;
      Settle();
      AfterTouch(old(S()), S(), i);
      MayStartStays(old(S()), S(), i);
      ghost var s := S();
      var performed;
      performed, end := Fate();
      if performed {
        StartKeepsInv(s, i);
        StartedTouched(s, i);
        containers := containers[i := containers[i].(life := Running)];
        seeds := SeedsAfter(s, s.containers[i]);
        TouchedThen(old(S()), s, S(), i);
      }
    }

    method SetRunning(i: nat, running: bool) returns (end: Outcome)
      requires Inv(S()) && i in containers && i !in foreign && (running ==> MayStart(S(), i))
      requires !(store.record.Some? && store.record.value.phase == Phase.RolledBack)
      modifies this`containers, this`volumes, this`seeds, this`nextId
      ensures Inv(S()) && Touched(old(S()), S(), i)
      ensures i in containers && containers[i].policy == old(containers)[i].policy
      ensures end == Done ==> (containers[i].life == Running) == running
      ensures Calm() ==> end == Done
      ensures Calm() && !running ==> S() == Put(old(S()), i, Halted(old(containers)[i]))
      ensures Calm() && running ==> S() == if old(containers)[i].life == Running then old(S()) else Started(old(S()), i)
    {
      hide Evolves, Inv, Touched, LifeDrifts, MayStart, SeedsAfter;
      end := Ask();
      AfterTouch(old(S()), S(), i);
      if running { MayStartStays(old(S()), S(), i); }
      if end != Done { return; }
      if (containers[i].life == Running) == running { PutSame(S(), i); return; }
      ghost var s := S();
      if running { end := CallStart(i); } else { end := CallStop(i); }
      TouchedThen(old(S()), s, S(), i);
      if end == Crashed { return; }
      s := S();
      end := Ask();
      AfterTouch(s, S(), i);
      TouchedThen(old(S()), s, S(), i);
      if end == Done && (containers[i].life == Running) != running { end := Raised; }
    }

    // removal

    method CallRemove(i: nat) returns (end: Outcome)
      requires Inv(S()) && i in containers && MayRemove(S(), i)
      modifies this`containers, this`volumes, this`seeds, this`nextId
      ensures Inv(S()) && Others(old(S()), S(), i) && LeavesAlone(old(S()), S())
      ensures i in containers ==> Passes(drift, old(containers)[i], containers[i])
      ensures Calm() ==> end != Crashed && S() == Removed(old(S()), i)
    {
      hide Evolves, Inv, LifeDrifts, MayRemove, Others, LeavesAlone;
      Settle();
      DriftKeepsInv(old(S()), S());
      EvolvesOthers(old(S()), S(), i);
      EvolvesShape(old(S()), S());
      MayRemoveStays(old(S()), S(), i);
      EvolvesLeavesAlone(old(S()), S());
      ghost var s := S();
      var performed;
      performed, end := Fate();
      if performed {
        RemoveKeepsInv(s, i);
        RemovedOthersOnly(s, i);
        containers := containers - {i};
        OthersThen(old(S()), s, S(), i);
        RemovedLeavesAlone(s, i);
        LeavesAloneThen(old(S()), s, S());
      }
    }

    method Remove(i: nat) returns (end: Outcome)
      requires Inv(S()) && i in containers && MayRemove(S(), i)
      modifies this`containers, this`volumes, this`seeds, this`nextId
      ensures Inv(S()) && Others(old(S()), S(), i) && LeavesAlone(old(S()), S())
      ensures i in containers ==> Passes(drift, old(containers)[i], containers[i])
      ensures end == Done ==> i !in containers
      ensures Calm() ==> end == Done && S() == Removed(old(S()), i)
    {
      hide Evolves, Inv, LifeDrifts, MayRemove, Others, LeavesAlone;
      end := CallRemove(i);
      if end == Crashed { return; }
      ghost var s := S();
      end := Ask();
      DriftKeepsInv(s, S());
      EvolvesShape(s, S());
      EvolvesOthers(s, S(), i);
      OthersThen(old(S()), s, S(), i);
      EvolvesLeavesAlone(s, S());
      LeavesAloneThen(old(S()), s, S());
      if i in containers { PassesThen(drift, old(containers)[i], s.containers[i], containers[i]); }
      if end == Done && i in containers { end := Raised; }
    }

    // creation

    method CallCreate(c: Container) returns (end: Outcome)
      requires Inv(S()) && Dormant(c) && (NameFree(S(), c.name) ==> MayAdd(S(), c))
      modifies this`containers, this`volumes, this`seeds, this`nextId
      ensures Inv(S()) && Others(old(S()), S(), old(nextId)) && old(nextId) !in old(containers)
      ensures LeavesAlone(old(S()), S())
      ensures old(nextId) in containers ==> containers[old(nextId)] == c
      ensures Calm() ==> end != Crashed && S() == if NameFree(old(S()), c.name) then Added(old(S()), c) else old(S())
    {
      hide Evolves, Inv, LifeDrifts, MayAdd, Others, NameFree, LeavesAlone;
      NextIdFree(S());
      Settle();
      DriftKeepsInv(old(S()), S());
      EvolvesOthers(old(S()), S(), nextId);
      EvolvesShape(old(S()), S());
      EvolvesLeavesAlone(old(S()), S());
      ghost var s := S();
      var performed;
      performed, end := Fate();
      if performed && IsFree(c.name) {
        MayAddStays(old(S()), s, c);
        AddKeepsInv(s, c);
        AddedOthersOnly(s, c);
        AddedLeavesAlone(s, c);
        LeavesAloneThen(old(S()), s, Added(s, c));
        containers, nextId := containers[nextId := c], nextId + 1;
        OthersThen(old(S()), s, S(), old(nextId));
      }
    }

    /** Asks for the container that is missing under its name, and looks whether it is there now. */
    method CreateMissing(c: Container) returns (end: Outcome, found: Option<nat>)
      requires Inv(S()) && Dormant(c) && NameFree(S(), c.name) && MayAdd(S(), c)
      modifies this`containers, this`volumes, this`seeds, this`nextId
      ensures Inv(S()) && Others(old(S()), S(), old(nextId)) && old(nextId) !in old(containers)
      ensures old(nextId) in containers ==> containers[old(nextId)] == c
      ensures end == Done ==> found.Some? && found.value in containers && containers[found.value].name == c.name
      ensures Calm() ==> end == Done && found == Some(old(nextId)) && S() == Added(old(S()), c)
    {
      hide Evolves, Inv, LifeDrifts, MayAdd, Others, NameFree;
      found := None;
      end := CallCreate(c);
      if end == Crashed { return; }
      ghost var s := S();
      end, found := Get(c.name);
      PassUnnoticed(s, S(), old(nextId));
      OthersThen(old(S()), s, S(), old(nextId));
      if Calm() { AddedName(old(S()), c); }
      if end == Done && found.None? { end := Raised; }
    }

    /** Finds or makes the container under the operation's name; it must not have been started. */
    method CreateCandidate(r: Record, restore: bool, v: Volume) returns (end: Outcome, id: nat)
      requires Inv(S()) && store.record == Some(r) && r.payload.Plan?
      requires NameFree(S(), Next(r.op, restore)) ==> MayAdd(S(), Blueprint(r, restore, v))
      modifies this`containers, this`volumes, this`seeds, this`nextId
      ensures Inv(S()) && Others(old(S()), S(), old(nextId)) && old(nextId) !in old(containers)
      ensures old(nextId) in containers ==> containers[old(nextId)] == Blueprint(r, restore, v)
      ensures end == Done ==> id in containers && containers[id].name == Next(r.op, restore)
      ensures end == Done ==> containers[id].tag == Owned(r.op, restore, Candidate) && containers[id].life == Created
      ensures Calm() && NameFree(old(S()), Next(r.op, restore)) ==>
                end == Done && id == old(nextId) && S() == Added(old(S()), Blueprint(r, restore, v))
    {
      hide Evolves, Inv, LifeDrifts, MayAdd, Others, NameFree, Added;
      id := 0;
      NextIdFree(S());
      var found;
      end, found := Get(Next(r.op, restore));
      PassUnnoticed(old(S()), S(), nextId);
      EvolvesShape(old(S()), S());
      if end != Done { return; }
      ghost var s := S();
      if found.None? {
        MayAddStays(old(S()), s, Blueprint(r, restore, v));
        end, found := CreateMissing(Blueprint(r, restore, v));
        OthersThen(old(S()), s, S(), old(nextId));
        if end != Done { return; }
        AddedHas(s, Blueprint(r, restore, v));
        s := S();
      }
      id := found.value;
      end := Ask();
      PassUnnoticed(s, S(), id);
      PassUnnoticed(s, S(), old(nextId));
      OthersThen(old(S()), s, S(), old(nextId));
      if end != Done { return; }
      if containers[id].tag != Owned(r.op, restore, Candidate) || containers[id].life != Created { end := Raised; }
    }

    method CallStartCopier(i: nat, r: Record) returns (end: Outcome)
      requires Inv(S()) && store.record == Some(r) && r.phase == Switching && r.payload.Plan? && i in containers && i !in foreign
      requires IsCopier(containers[i], r.op) && containers[i].name.CopyOf? && r.payload.oldVolume !in containers[i].writes
      modifies this`containers, this`volumes, this`seeds, this`nextId
      ensures Inv(S()) && CopierAtWork(old(S()), S(), i) && KeepsVolume(old(S()), S(), r.payload.oldVolume)
      ensures Calm() ==> end != Crashed && i in containers && containers[i].life == Running
    {
      hide Evolves, Inv, CopierAtWork, Moved, KeepsVolume;
      Settle();
      PassCopier(old(S()), S(), i, r);
      ghost var s := S();
      var performed;
      performed, end := Fate();
      if performed {
        CopierLifeKeepsInv(s, r, i, Running);
        containers := containers[i := containers[i].(life := Running)];
        LifeAtWork(s, i, Running);
        PutKeepsVolume(s, i, s.containers[i].(life := Running), r.payload.oldVolume);
        KeepsVolumeThen(old(S()), s, Put(s, i, s.containers[i].(life := Running)), r.payload.oldVolume);
        CopierAtWorkThen(old(S()), s, S(), i);
      }
    }

    /** Waits for the copier; it has succeeded only if it has exited with code 0. */
    method AwaitCopier(i: nat, r: Record) returns (end: Outcome, succeeded: bool)
      requires Inv(S()) && store.record == Some(r) && r.phase == Switching && r.payload.Plan? && !Moved(S(), r)
      requires i in containers && i !in foreign && SameShape(CopierBlueprint(r), containers[i])
      requires Fresh(r.op) in volumes && r.payload.oldVolume in volumes && r.payload.oldVolume != Fresh(r.op)
      modifies this`containers, this`volumes, this`seeds, this`nextId
      ensures Inv(S()) && CopierAtWork(old(S()), S(), i) && KeepsVolume(old(S()), S(), r.payload.oldVolume)
      ensures succeeded ==> volumes[r.payload.oldVolume].data == volumes[Fresh(r.op)].data && containers[i].life == Exited
      ensures Calm() && old(containers)[i].life == Running ==> end != Crashed && succeeded
    {
      hide Evolves, Inv, CopierAtWork, Moved, KeepsVolume, CopyFinished;
      succeeded := false;
      Settle();
      PassCopier(old(S()), S(), i, r);
      ghost var s := S();
      var performed;
      performed, end := Fate();
      if performed && containers[i].life == Running {
        FinishKeepsCopier(s, i, r);
        CopierAtWorkThen(old(S()), s, CopyFinished(s, i, r), i);
        FinishKeepsVolume(s, i, r);
        KeepsVolumeThen(old(S()), s, CopyFinished(s, i, r), r.payload.oldVolume);
        CopyFinishedIs(s, i, r);
        volumes := volumes[Fresh(r.op) := volumes[Fresh(r.op)].(data := volumes[r.payload.oldVolume].data)];
        containers := containers[i := containers[i].(life := Exited)];
        succeeded := true;
      }
    }

    // volumes

    /** Finds or makes the operation's volume. */
    method EnsureVolume(op: nat) returns (end: Outcome)
      requires Inv(S()) && store.record.Some? && store.record.value.phase == Preparing && store.record.value.op == op
      modifies this`containers, this`volumes, this`seeds, this`nextId
      ensures Inv(S()) && OtherVolumes(old(S()), S(), Fresh(op))
      ensures end == Done ==> Fresh(op) in volumes
      ensures !faults ==> end == Done
    {
      hide Evolves, Inv, LifeDrifts, OtherVolumes;
      end := Ask();
      PassVolumes(old(S()), S(), Fresh(op));
      if end != Done { return; }
      ghost var s := S();
      if Fresh(op) !in volumes {
        Settle();
        PassVolumes(s, S(), Fresh(op));
        OtherVolumesThen(old(S()), s, S(), Fresh(op));
        s := S();
        var performed;
        performed, end := Fate();
        if performed {
          var data: nat := *;
          VolumeAddKeepsInv(s, data);
          VolumeAddedOther(s, op, data);
          volumes := volumes[Fresh(op) := Disk(Owned(op, false, Candidate), data)];
          OtherVolumesThen(old(S()), s, S(), Fresh(op));
        }
        if end == Crashed { return; }
        s := S();
        end := Ask();
        PassVolumes(s, S(), Fresh(op));
        OtherVolumesThen(old(S()), s, S(), Fresh(op));
        if end != Done { return; }
        if Fresh(op) !in volumes { end := Raised; return; }
      }
      PreparingIsPlan(S());
      FreshIsOurs(S(), op);
      if volumes[Fresh(op)].tag != Owned(op, false, Candidate) { end := Raised; }
    }

    /** Removes a volume that nothing uses, and the operation's own one only if its labels say so. */
    method RemoveVolume(v: Volume, owner: Option<nat>) returns (end: Outcome)
      requires Inv(S()) && (v in volumes && Unused(S(), v) ==> MayDrop(S(), v))
      modifies this`containers, this`volumes, this`seeds, this`nextId
      ensures Inv(S()) && OtherVolumes(old(S()), S(), v)
      ensures end == Done ==> v !in volumes
      ensures v in volumes ==> v in old(volumes) && volumes[v].tag == old(volumes)[v].tag
      ensures Calm() ==> (end == Done <==>
                v !in old(volumes) || ((owner.Some? ==> old(volumes)[v].tag == Owned(owner.value, false, Candidate)) && Unused(old(S()), v)))
      ensures Calm() && end == Done ==> S() == VolumeRemoved(old(S()), v)
      ensures Calm() ==> end != Crashed
    {
      hide Evolves, Inv, LifeDrifts, OtherVolumes, MayDrop, Unused;
      end := Ask();
      PassVolumes(old(S()), S(), v);
      if end != Done { return; }
      if v !in volumes { return; }
      if owner.Some? && volumes[v].tag != Owned(owner.value, false, Candidate) { end := Raised; return; }
      ghost var s := S();
      end := Ask();
      PassVolumes(s, S(), v);
      OtherVolumesThen(old(S()), s, S(), v);
      if end != Done { return; }
      if InUse(v) { end := Raised; return; }
      MayDropStays(old(S()), s, v);
      MayDropStays(s, S(), v);
      s := S();
      Settle();
      PassVolumes(s, S(), v);
      OtherVolumesThen(old(S()), s, S(), v);
      MayDropStays(s, S(), v);
      s := S();
      var performed;
      performed, end := Fate();
      if performed {
        DropKeepsInv(s, v);
        VolumeRemovedOther(s, v);
        volumes := volumes - {v};
        OtherVolumesThen(old(S()), s, S(), v);
      }
      if end == Crashed { return; }
      s := S();
      end := Ask();
      PassVolumes(s, S(), v);
      OtherVolumesThen(old(S()), s, S(), v);
      if end == Done && v in volumes { end := Raised; }
    }

    predicate InUse(v: Volume): (used: bool)
      reads this, store
      ensures used == !Unused(S(), v)
    {
      exists i | i in containers :: v in containers[i].mounts
    }

    // -------------------------------------------------------------- the journal

    method ReadJournal() returns (end: Outcome, r: Option<Record>)
      ensures end == Done ==> r == store.record
      ensures !faults ==> end == Done
    {
      var performed;
      performed, end := Fate();
      r := if end == Done then store.record else None;
    }

    method ReadIntent() returns (end: Outcome, ticket: Option<nat>)
      ensures end == Done ==> ticket == store.intent
      ensures !faults ==> end == Done
    {
      var performed;
      performed, end := Fate();
      ticket := if end == Done then store.intent else None;
    }

    method Begin(p: Payload, queued: Option<Record>) returns (end: Outcome)
      requires Inv(S()) && MayBegin(S(), p) && queued == store.record
      modifies this`nextOp, this`past, store
      ensures Inv(S())
      ensures S() == old(S()) || S() == Begun(old(S()), p)
      ensures end == Done ==> S() == Begun(old(S()), p)
      ensures !faults ==> end == Done
    {
      hide Inv, MayBegin;
      BeginShape(S(), p);
      BeginKeepsInv(S(), p);
      var performed;
      performed, end := Fate();
      if performed {
        var ok := store.BeginPlan(nextOp, p, queued);
        nextOp := nextOp + 1;
        past := past.(still := !drift, lowered := false, trapped := false);
      }
    }

    method QueueIntent(prior: Option<Record>, now: Fields, later: Payload, secrets: set<Field>) returns (end: Outcome)
      requires Inv(S()) && prior == store.record && MayQueue(S(), later)
      modifies this`nextOp, this`base, store
      ensures Inv(S())
      ensures S() == old(S()) || S() == Queueing(old(S()), now, later, secrets)
      ensures end == Done ==> S() == Queueing(old(S()), now, later, secrets)
    {
      hide Inv;
      QueueKeepsInv(S(), now, later, secrets);
      var performed;
      performed, end := Fate();
      if performed {
        var ok := store.QueueIntent(prior, nextOp, now, later, secrets);
        nextOp := nextOp + 1;
        base := store.row.value.settings;
      }
    }

    method CancelQueued(r: Record) returns (end: Outcome)
      requires Inv(S()) && store.record == Some(r)
      modifies store
      ensures Inv(S())
      ensures S() == old(S()) || (r.phase == Queued && S() == Cancelling(old(S())))
      ensures end == Done ==> r.phase == Queued && S() == Cancelling(old(S()))
    {
      hide Inv;
      if r.phase == Queued { CancelKeepsInv(S()); }
      var performed;
      performed, end := Fate();
      if performed {
        var ok := store.Cancel(r);
        if !ok && end == Done { end := Raised; }
      }
    }

    method Advance(r: Record, phase: Phase, p: Payload) returns (end: Outcome, q: Record)
      requires Inv(S()) && store.record == Some(r) && (Legal(r.phase, phase) ==> MayAdvance(S(), phase, p) && p.oldRunning == r.payload.oldRunning)
      modifies store
      ensures Inv(S())
      ensures S() == old(S()) || (Legal(r.phase, phase) && S() == Advanced(old(S()), phase, p))
      ensures end == Done ==> S() == Advanced(old(S()), phase, p) && q == Record(r.op, phase, p)
      ensures !faults ==> (end == Done <==> Legal(r.phase, phase))
      ensures !Legal(r.phase, phase) ==> S() == old(S())
    {
      hide Inv, MayAdvance;
      q := r;
      if Legal(r.phase, phase) { AdvanceKeepsInv(S(), phase, p); }
      var performed;
      performed, end := Fate();
      if performed {
        var ok := store.AdvanceTo(r, phase, p);
        if !ok && end == Done { end := Raised; }
      }
      if end != Done { return; }
      var found;
      end, found := ReadJournal();
      if end == Done && found.Some? { q := found.value; }
    }

    /** Notes on the record that the channel is not to run. */
    method Lower(r: Record) returns (end: Outcome, q: Record)
      requires Inv(S()) && store.record == Some(r) && MayLower(S())
      modifies this`past, store
      ensures Inv(S())
      ensures S() == old(S()) || S() == Lowered(old(S()))
      ensures end == Done ==> S() == Lowered(old(S())) && q == Record(r.op, r.phase, r.payload.(oldRunning := false, start := false))
      ensures !faults ==> end == Done
    {
      hide Inv, Lowered, MayLower;
      q := r;
      LowerKeepsInv(S());
      var performed;
      performed, end := Fate();
      if performed { WriteLowered(r); }
      LoweredRecord(old(S()), r);
      if end != Done { return; }
      var found;
      end, found := ReadJournal();
      if end == Done && found.Some? { q := found.value; }
    }

    method WriteLowered(r: Record)
      requires store.record == Some(r) && MayLower(S())
      modifies this`past, store
      ensures S() == Lowered(old(S()))
    {
      hide Trap;
      ghost var s := S();
      var ok := store.AdvanceTo(r, r.phase, r.payload.(oldRunning := false, start := false));
      past := Lowered(s).past;
    }

    method Commit(r: Record, runtime: Runtime, awaiting: bool) returns (end: Outcome)
      requires Inv(S()) && store.record == Some(r) && r.payload.Plan? && MayCommit(S(), r.payload.fields, r.payload.secrets, runtime)
      requires ValidRuntime(runtime)
      modifies this`stored, store
      ensures Inv(S())
      ensures S() == old(S()) || S() == Committing(old(S()), r.payload.fields, r.payload.secrets, runtime, awaiting)
      ensures end == Done ==> S() == Committing(old(S()), r.payload.fields, r.payload.secrets, runtime, awaiting)
      ensures !faults ==> end == Done
    {
      hide Inv;
      CommitKeepsInv(S(), r.payload.fields, r.payload.secrets, runtime, awaiting);
      var performed;
      performed, end := Fate();
      if performed {
        var ok := store.CommitPlan(r, r.payload.fields, r.payload.secrets, runtime, awaiting);
        stored := true;
      }
    }

    method Confirm(r: Record) returns (end: Outcome)
      requires Inv(S()) && store.record == Some(r) && MayConfirm(S())
      modifies store
      ensures Inv(S())
      ensures S() == old(S()) || S() == Confirming(old(S()))
      ensures end == Done ==> S() == Confirming(old(S()))
      ensures !faults ==> end == Done
    {
      hide Inv, ChannelIsCandidate;
      ConfirmKeepsInv(S());
      var performed;
      performed, end := Fate();
      if performed { var ok := store.ConfirmLogin(r); }
    }

    method Resumed(r: Record, runtime: Runtime) returns (end: Outcome)
      requires Inv(S()) && store.record == Some(r) && MayResume(S(), runtime) && ValidRuntime(runtime)
      modifies store
      ensures Inv(S())
      ensures S() == old(S()) || S() == Resuming(old(S()), runtime)
      ensures end == Done ==> S() == Resuming(old(S()), runtime)
      ensures !faults ==> end == Done
    {
      hide Inv;
      ResumeKeepsInv(S(), runtime);
      var performed;
      performed, end := Fate();
      if performed { var ok := store.Resume(r, runtime); }
    }

    method RolledBack(r: Record, runtime: Runtime) returns (end: Outcome)
      requires Inv(S()) && store.record == Some(r) && MayRollBack(S(), runtime) && ValidRuntime(runtime)
      modifies store
      ensures Inv(S())
      ensures S() == old(S()) || S() == RollingBackTo(old(S()), runtime)
      ensures end == Done ==> S() == RollingBackTo(old(S()), runtime)
      ensures !faults ==> end == Done
    {
      hide Inv, CandidatesAside, NoCopier;
      RollBackKeepsInv(S(), runtime);
      var performed;
      performed, end := Fate();
      if performed { var ok := store.RollBackPlan(r, runtime, Undo(r), r.payload.secrets); }
    }

    method RestoreWithout(r: Record) returns (end: Outcome)
      requires Inv(S()) && store.record == Some(r) && MayRestoreAbsent(S())
      modifies this`stored, store
      ensures Inv(S())
      ensures S() == old(S()) || S() == RestoringAbsent(old(S()))
      ensures end == Done ==> S() == RestoringAbsent(old(S()))
      ensures !faults ==> end == Done
    {
      hide Inv, NoCopier;
      RestoreAbsentKeepsInv(S());
      var performed;
      performed, end := Fate();
      if performed {
        var ok := store.RestoreWithout(r, r.payload.oldVolume, Undo(r), r.payload.secrets, !r.payload.start);
        stored := r.payload.sourceExists;
      }
    }

    method Finish(r: Record) returns (end: Outcome)
      requires Inv(S()) && store.record == Some(r) && MayFinish(S())
      modifies this`base, store
      ensures Inv(S())
      ensures S() == old(S()) || S() == Finishing(old(S()))
      ensures end == Done ==> S() == Finishing(old(S()))
      ensures !faults ==> end == Done
    {
      hide Inv, MayFinish;
      FinishShape(S());
      FinishKeepsInv(S());
      var performed;
      performed, end := Fate();
      if performed {
        var ok := store.FinishPlan(r.op);
        base := store.row.value.settings;
      }
    }

    method RequestDelete(r: Record) returns (end: Outcome)
      requires Inv(S()) && store.record == Some(r) && r.phase != Deleting
      modifies store
      ensures Inv(S())
      ensures S() == old(S()) || S() == Condemned(old(S()))
      ensures end == Done ==> S() == Condemned(old(S()))
      ensures !faults ==> end == Done
    {
      hide Inv;
      CondemnKeepsInv(S());
      var performed;
      performed, end := Fate();
      if performed { var ok := store.AskDelete(r); }
    }

    method Deleted(r: Record) returns (end: Outcome)
      requires Inv(S()) && store.record == Some(r) && MayErase(S())
      modifies this`elsewhere, store
      ensures Inv(S())
      ensures S() == old(S()) || S() == Erased(old(S()))
      ensures end == Done ==> S() == Erased(old(S()))
      ensures !faults ==> end == Done
    {
      hide Inv;
      EraseKeepsInv(S());
      var performed;
      performed, end := Fate();
      if performed {
        var ok := store.DeleteAll(r);
        elsewhere := map v | v in volumes :: volumes[v].tag;
      }
    }

    /** Saves the wish to stop under a ticket of its own, unless an earlier wish is still open. */
    method RequestStop(ticket: nat) returns (end: Outcome)
      requires Inv(S())
      modifies store
      ensures Inv(S()) && SameBinding(old(S()).db, S().db) && S() == WithDb(old(S()), S().db)
      ensures end == Done ==> Some(S().db) == Journal.RequestStop(old(S()).db, ticket)
      ensures !faults ==> (end == Done <==> Journal.RequestStop(old(S()).db, ticket).Some?)
    {
      hide Inv;
      var next := Journal.RequestStop(S().db, ticket);
      if next.Some? { StatusKeepsInv(S(), next.value); }
      var performed;
      performed, end := Fate();
      if performed {
        var ok := store.AskStop(ticket);
        if !ok && end == Done { end := Raised; }
      }
    }

    method ConfirmStop(ticket: nat) returns (end: Outcome)
      requires Inv(S())
      modifies store
      ensures Inv(S()) && SameBinding(old(S()).db, S().db) && S() == WithDb(old(S()), S().db)
      ensures end == Done ==> Some(S().db) == Journal.ConfirmStop(old(S()).db, ticket)
      ensures S().db == old(S()).db || Some(S().db) == Journal.ConfirmStop(old(S()).db, ticket)
      ensures !faults ==> (end == Done <==> Journal.ConfirmStop(old(S()).db, ticket).Some?)
    {
      hide Inv, Journal.ConfirmStop, SameBinding;
      ConfirmStopBinds(S().db, ticket);
      ghost var next := Journal.ConfirmStop(S().db, ticket);
      if next.Some? { StatusKeepsInv(S(), next.value); }
      var performed;
      performed, end := Fate();
      if performed {
        var ok := store.StopConfirmed(ticket);
        if !ok && end == Done { end := Raised; }
      }
    }

    method MarkStatus(status: Status) returns (end: Outcome)
      requires Inv(S())
      modifies store
      ensures Inv(S()) && S() == WithDb(old(S()), S().db) && SameBinding(old(S()).db, S().db)
      ensures end == Done && old(store.row).Some? ==> store.row == Some(old(store.row).value.(status := status))
      ensures !faults ==> end == Done
    {
      hide Inv, SetStatus, SameBinding;
      ghost var s := S();
      StatusBinds(s.db, status);
      StatusKeepsInv(s, SetStatus(s.db, status));
      var performed;
      performed, end := Fate();
      if performed {
        store.MarkStatus(status);
        assert S() == WithDb(s, SetStatus(s.db, status));
      }
    }

    predicate IsFree(name: Name): (free: bool)
      reads this, store
      ensures free == NameFree(S(), name)
    {
      forall i | i in containers :: containers[i].name != name
    }
  }

  lemma RenamedSame(s: State, i: nat)
    requires i in s.containers
    ensures Renamed(s, i, s.containers[i].name) == s
  {
  }

  lemma RenamedShifted(s: State, i: nat, n: Name)
    requires i in s.containers
    ensures Shifted(s, Renamed(s, i, n), i)
  {
    PutOthers(s, i, s.containers[i].(name := n));
  }

  lemma OwnedByName(s: State, r: Record, restore: bool, i: nat)
    requires Inv(s) && s.db.record == Some(r) && r.payload.Plan? && i in s.containers && s.containers[i].name == Next(r.op, restore)
    ensures s.containers[i].tag == Owned(r.op, restore, Candidate)
  {
    CastHolds(s, r);
    assert CastEntry(s, r, i);
  }

  lemma NotOwned(s: State, r: Record, restore: bool, holder: Option<nat>)
    requires Inv(s) && s.db.record == Some(r) && NameFree(s, Next(r.op, restore))
    requires holder.None? ==> NameFree(s, Canonical)
    requires holder.Some? ==> holder.value in s.containers && s.containers[holder.value].name == Canonical
                              && s.containers[holder.value].tag != Owned(r.op, restore, Candidate)
    ensures forall i | i in s.containers :: s.containers[i].tag != Owned(r.op, restore, Candidate)
  {
    InvParts(s);
    hide Frame, DistinctTags, Bounded, ForeignIntact, Quiet, Census, VolumeCensus, RowsOwn, SeedsAgree, DataKept, OperationHolds, PhaseHolds;
    if r.payload.Plan? {
      CastHolds(s, r);
      hide Inv, RecordHolds;
      forall i | i in s.containers ensures CastEntry(s, r, i) { }
    }
  }

  lemma LifeEvolves(s: State, i: nat, life: Life)
    requires s.drift && i in s.containers && Active(s.containers[i]) && life != Created
    ensures Evolves(s, Put(s, i, s.containers[i].(life := life)))
  {
  }

  lemma DataEvolves(s: State, i: nat, v: Volume, data: nat)
    requires s.drift && i in s.containers && Active(s.containers[i]) && v in s.containers[i].writes && v in s.volumes
    ensures Evolves(s, Refilled(s, v, data))
  {
  }

  /** A container that may be renamed may still be renamed a moment later. */
  lemma BeforeRename(a: State, b: State, i: nat, n: Name)
    requires Inv(a) && Evolves(a, b) && MayRename(a, i, n) && i in a.containers
    ensures Inv(b) && MayRename(b, i, n) && Shifted(a, b, i) && (NameFree(a, n) <==> NameFree(b, n)) && (!a.drift ==> b == a)
    ensures i in b.containers && b.containers[i].name == a.containers[i].name
  {
    hide Evolves, Inv, MayRename, Shifted, NameFree;
    DriftKeepsInv(a, b);
    EvolvesTouched(a, b, i);
    EvolvesShape(a, b);
    MayRenameStays(a, b, i, n);
  }

  lemma AfterRename(a: State, b: State, i: nat)
    requires Inv(a) && Evolves(a, b) && i in a.containers
    ensures Inv(b) && Shifted(a, b, i) && (!a.drift ==> b == a) && i in b.containers && b.containers[i].name == a.containers[i].name
  {
    hide Evolves, Inv, Shifted;
    DriftKeepsInv(a, b);
    EvolvesTouched(a, b, i);
    EvolvesShape(a, b);
  }

  lemma AfterTouch(a: State, b: State, i: nat)
    requires Inv(a) && Evolves(a, b) && i in a.containers
    ensures Inv(b) && Touched(a, b, i) && (!a.drift ==> b == a) && i in b.containers
    ensures b.containers[i] == a.containers[i].(life := b.containers[i].life)
  {
    hide Evolves, Inv, Shifted, Others;
    DriftKeepsInv(a, b);
    EvolvesTouched(a, b, i);
    EvolvesShape(a, b);
  }

  lemma TouchedHas(a: State, b: State, i: nat)
    requires Touched(a, b, i)
    ensures i in b.containers && AlikeContainer(a.containers[i], b.containers[i])
  {
  }

  lemma WithPolicyTouched(s: State, i: nat, p: Policy)
    requires i in s.containers
    ensures Touched(s, WithPolicy(s, i, p), i)
  {
    PutOthers(s, i, s.containers[i].(policy := p));
  }

  lemma StoppedTouched(s: State, i: nat)
    requires i in s.containers
    ensures Touched(s, Put(s, i, Halted(s.containers[i])), i)
  {
    PutOthers(s, i, Halted(s.containers[i]));
  }

  lemma StartedTouched(s: State, i: nat)
    requires i in s.containers
    ensures Touched(s, Started(s, i), i)
  {
    hide SeedsAfter;
  }

  lemma PutSame(s: State, i: nat)
    requires i in s.containers
    ensures Put(s, i, s.containers[i]) == s
  {
  }

  lemma RemovedOthersOnly(s: State, i: nat)
    ensures Others(s, Removed(s, i), i)
  {
  }

  lemma VolumeAddedOther(s: State, op: nat, data: nat)
    requires Fresh(op) !in s.volumes
    ensures OtherVolumes(s, VolumeAdded(s, op, data), Fresh(op))
  {
  }

  lemma VolumeRemovedOther(s: State, v: Volume)
    ensures OtherVolumes(s, VolumeRemoved(s, v), v)
  {
  }

  /** The labels on the operation's volume are the operation's. */
  lemma FreshIsOurs(s: State, op: nat)
    requires Inv(s) && s.db.record.Some? && s.db.record.value.payload.Plan? && s.db.record.value.op == op && Fresh(op) in s.volumes
    ensures s.volumes[Fresh(op)].tag == Owned(op, false, Candidate)
  {
    InvParts(s);
    CastShapes(s, s.db.record.value);
    hide Inv, Frame, RecordHolds, OperationShapes;
  }

  lemma PreparingIsPlan(s: State)
    requires Inv(s) && s.db.record.Some? && s.db.record.value.phase == Preparing
    ensures s.db.record.value.payload.Plan?
  {
    hide Frame, PhaseHolds, OperationHolds;
  }

  lemma NextIdFree(s: State)
    requires Inv(s)
    ensures s.nextId !in s.containers
  {
    InvParts(s);
    NextIdUnused(s);
  }

  lemma AddedOthersOnly(s: State, c: Container)
    requires s.nextId !in s.containers
    ensures Others(s, Added(s, c), s.nextId)
  {
  }

  lemma AddedName(s: State, c: Container)
    requires NameFree(s, c.name)
    ensures !NameFree(Added(s, c), c.name)
    ensures forall i | i in Added(s, c).containers && Added(s, c).containers[i].name == c.name :: i == s.nextId
  {
    assert Added(s, c).containers[s.nextId] == c;
  }

  lemma AddedHas(s: State, c: Container)
    ensures s.nextId in Added(s, c).containers && Added(s, c).containers[s.nextId] == c
  {
  }

  lemma PassUnnoticed(a: State, b: State, i: nat)
    requires Inv(a) && Evolves(a, b)
    ensures Inv(b) && Others(a, b, i) && b.nextId == a.nextId && (!a.drift ==> b == a)
    ensures i in b.containers <==> i in a.containers
    ensures i in a.containers ==> SameShape(a.containers[i], b.containers[i]) && (Dormant(a.containers[i]) ==> b.containers[i] == a.containers[i])
  {
    hide Inv, Others;
    DriftKeepsInv(a, b);
    EvolvesOthers(a, b, i);
  }

  lemma PassVolumes(a: State, b: State, v: Volume)
    requires Inv(a) && Evolves(a, b)
    ensures Inv(b) && OtherVolumes(a, b, v) && b.db == a.db && (!a.drift ==> b == a)
    ensures (v in a.volumes <==> v in b.volumes) && (v in a.volumes ==> a.volumes[v].tag == b.volumes[v].tag)
    ensures Unused(a, v) <==> Unused(b, v)
  {
    hide Inv, OtherVolumes, Evolves;
    DriftKeepsInv(a, b);
    EvolvesVolumes(a, b, v);
    EvolvesShape(a, b);
  }

  lemma EvolvesVolumes(a: State, b: State, v: Volume)
    requires Evolves(a, b)
    ensures OtherVolumes(a, b, v)
  {
  }

  lemma CondemnKeepsInv(s: State)
    requires Inv(s) && s.db.record.Some? && s.db.record.value.phase != Deleting
    ensures Inv(Condemned(s))
  {
    InvParts(s);
    hide Inv, Promise, Frame;
    UnplannedPromise(s, Condemned(s));
    if s.db.record.value.phase == Queued { CondemnQueuedFrame(s); } else { CondemnFrame(s); }
    CondemnRecord(s);
    InvFromParts(s, Condemned(s));
  }

  lemma StatusBinds(db: Db, status: Status)
    ensures SameBinding(db, db) && SameBinding(db, SetStatus(db, status))
    ensures db.row.Some? ==> SetStatus(db, status).row == Some(db.row.value.(status := status))
  {
  }

  lemma ConfirmStopBinds(db: Db, ticket: nat)
    ensures SameBinding(db, db)
    ensures Journal.ConfirmStop(db, ticket).Some? ==> SameBinding(db, Journal.ConfirmStop(db, ticket).value)
  {
  }

  lemma LoweredRecord(s: State, r: Record)
    requires s.db.record == Some(r) && MayLower(s)
    ensures Lowered(s).db.record == Some(Record(r.op, r.phase, r.payload.(oldRunning := false, start := false)))
  {
    hide Trap;
  }

  lemma BeginShape(s: State, p: Payload)
    requires MayBegin(s, p)
    ensures s.db.row.Some? && (s.db.record.Some? ==> s.db.record.value.phase == Queued)
  {
  }

  lemma FinishShape(s: State)
    requires MayFinish(s)
    ensures s.db.row.Some? && s.db.record.Some? && s.db.record.value.payload.Plan? && s.db.record.value.phase in {Committed, Phase.RolledBack}
  {
  }

  // ---------------------------------------------------------------- the copier at work

  /** Container i keeps its shape, the others live on, and volumes keep their labels. */
  ghost predicate CopierAtWork(a: State, b: State, i: nat) {
    && b == a.(containers := b.containers, volumes := b.volumes)
    && b.containers.Keys == a.containers.Keys && i in a.containers
    && (forall j | j in a.containers && j != i :: LifeDrifts(a.containers[j], b.containers[j]))
    && SameShape(a.containers[i], b.containers[i])
    && b.volumes.Keys == a.volumes.Keys
    && (forall v | v in a.volumes :: b.volumes[v].tag == a.volumes[v].tag)
  }

  lemma CopierAtWorkThen(a: State, b: State, c: State, i: nat)
    requires CopierAtWork(a, b, i) && CopierAtWork(b, c, i)
    ensures CopierAtWork(a, c, i)
  {
    forall j | j in a.containers && j != i ensures LifeDrifts(a.containers[j], c.containers[j]) {
      assert LifeDrifts(a.containers[j], b.containers[j]) && LifeDrifts(b.containers[j], c.containers[j]);
    }
  }

  lemma AtWorkShape(a: State, b: State, i: nat)
    requires CopierAtWork(a, b, i)
    ensures i in b.containers && SameShape(a.containers[i], b.containers[i]) && b.volumes.Keys == a.volumes.Keys
  {
  }

  lemma AtWorkMoved(a: State, b: State, i: nat, r: Record)
    requires CopierAtWork(a, b, i) && r.payload.Plan?
    ensures Moved(a, r) <==> Moved(b, r)
  {
    assert forall j | j in a.containers :: b.containers[j].name == a.containers[j].name && b.containers[j].tag == a.containers[j].tag;
  }

  lemma PassCopier(a: State, b: State, i: nat, r: Record)
    requires Inv(a) && Evolves(a, b) && i in a.containers && r.payload.Plan?
    ensures KeepsVolume(a, b, r.payload.oldVolume)
    ensures Inv(b) && CopierAtWork(a, b, i) && (Moved(a, r) <==> Moved(b, r)) && (!a.drift ==> b == a)
    ensures i in b.containers && SameShape(a.containers[i], b.containers[i]) && b.volumes.Keys == a.volumes.Keys
  {
    hide Inv, Moved;
    DriftKeepsInv(a, b);
    PassAtWork(a, b, i);
    EvolvesShape(a, b);
    EvolvesLeavesAlone(a, b);
    hide Evolves;
    LeavingAloneKeeps(a, b, r.payload.oldVolume);
    hide KeepsVolume, LeavesAlone;
    AtWorkMoved(a, b, i, r);
    AtWorkShape(a, b, i);
  }

  lemma PassAtWork(a: State, b: State, i: nat)
    requires Evolves(a, b) && i in a.containers
    ensures CopierAtWork(a, b, i)
  {
  }

  /** The copier is neither the old container nor the channel. */
  lemma CopierIsNeither(s: State, r: Record, i: nat)
    requires Inv(s) && s.db.record == Some(r) && r.phase == Switching && r.payload.Plan?
    requires i in s.containers && IsCopier(s.containers[i], r.op)
    ensures !OldOrChannel(s, i)
  {
    CastHolds(s, r);
    assert CastEntry(s, r, i);
    SwitchingRow(s, r);
    hide Inv;
  }

  lemma SwitchingRow(s: State, r: Record)
    requires Inv(s) && s.db.record == Some(r) && r.phase == Switching && r.payload.Plan?
    ensures s.db.row.Some?
    ensures s.db.row.value.container.Some? && s.db.row.value.container.value in s.containers ==> s.db.row.value.container == r.payload.oldId
  {
    hide Frame, Promise, OperationHolds, OldThere, CandidatesCreated, CandidateIs, Moved, Copied;
  }

  lemma CopierLifeKeepsInv(s: State, r: Record, i: nat, life: Life)
    requires Inv(s) && s.db.record == Some(r) && r.phase == Switching && r.payload.Plan?
    requires i in s.containers && i !in s.foreign && IsCopier(s.containers[i], r.op) && s.containers[i].name.CopyOf?
    ensures Inv(Put(s, i, s.containers[i].(life := life)))
  {
    hide Inv, Promise, Alike, NoneStarted, Quiet, OldOrChannel;
    InvParts(s);
    CopierIsNeither(s, r, i);
    PutIsAlike(s, i, s.containers[i].(life := life));
    TouchKeepsInv(s, Put(s, i, s.containers[i].(life := life)), i);
  }

  lemma LifeAtWork(s: State, i: nat, life: Life)
    requires i in s.containers
    ensures CopierAtWork(s, Put(s, i, s.containers[i].(life := life)), i)
  {
  }

  /** The copier has exited with code 0: the new volume holds what the old one holds. */
  function CopyFinished(s: State, i: nat, r: Record): State
    requires Fresh(r.op) in s.volumes && r.payload.oldVolume in s.volumes && i in s.containers
  {
    Put(Refilled(s, Fresh(r.op), s.volumes[r.payload.oldVolume].data), i, s.containers[i].(life := Exited))
  }

  lemma FinishKeepsCopier(s: State, i: nat, r: Record)
    requires Fresh(r.op) in s.volumes && r.payload.oldVolume in s.volumes && i in s.containers && i !in s.foreign
    requires Inv(s) && s.db.record == Some(r) && r.phase == Switching && r.payload.Plan? && !Moved(s, r)
    requires SameShape(CopierBlueprint(r), s.containers[i])
    ensures Inv(CopyFinished(s, i, r)) && CopierAtWork(s, CopyFinished(s, i, r), i)
  {
    hide Inv, Moved, CopierAtWork;
    RefillKeepsInv(s, s.volumes[r.payload.oldVolume].data);
    CopierLifeKeepsInv(Refilled(s, Fresh(r.op), s.volumes[r.payload.oldVolume].data), r, i, Exited);
    FinishAtWork(s, i, r);
  }

  lemma FinishKeepsVolume(s: State, i: nat, r: Record)
    requires Fresh(r.op) in s.volumes && r.payload.oldVolume in s.volumes && r.payload.oldVolume != Fresh(r.op)
    requires i in s.containers && r.payload.oldVolume !in s.containers[i].writes
    ensures KeepsVolume(s, CopyFinished(s, i, r), r.payload.oldVolume)
  {
  }

  lemma CopyFinishedIs(s: State, i: nat, r: Record)
    requires Fresh(r.op) in s.volumes && r.payload.oldVolume in s.volumes && i in s.containers
    ensures CopyFinished(s, i, r) == s.(volumes := s.volumes[Fresh(r.op) := s.volumes[Fresh(r.op)].(data := s.volumes[r.payload.oldVolume].data)],
                                        containers := s.containers[i := s.containers[i].(life := Exited)])
  {
  }

  lemma FinishAtWork(s: State, i: nat, r: Record)
    requires Fresh(r.op) in s.volumes && r.payload.oldVolume in s.volumes && i in s.containers
    ensures CopierAtWork(s, CopyFinished(s, i, r), i)
  {
  }
}
