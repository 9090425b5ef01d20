/**
 Probing a channel: many callers, a pool of workers, operations on the channel, wishes from outside and the shutdown share one slot.
 Two locks guard it. Each function below is what happens under them without interruption; a run is any interleaving.
 */
module Probes {
  import opened Common
  import opened Journal

  datatype Value = Value(connected: bool, latency: Option<nat>, replacement: Option<Phase>)

  /** What a worker brings back: nothing, because it was outdated; an answer; or an error. */
  datatype Result = Dropped | Got(value: Value) | Error

  datatype Probe = Probe(generation: nat, result: Option<Result>, returned: bool)

  datatype Cached = Cached(generation: nat, until: nat, value: Value)

  /**
   Who holds the operation lock: nobody, an operation on the channel, or a worker, which has written the status from probe p's
   result and may go on to confirm a login, or has put its answer together.
   */
  datatype Owner = Free | Mutation | Wrote(p: nat, ok: bool, latency: Option<nat>) | Worker(p: nat, value: Value)

  /** The slot with its two locks, and beside it what is read and written in the database. */
  datatype Slot = Slot(
    generation: nat, closing: bool, owner: Owner, holder: Option<nat>,
    probes: seq<Probe>, pending: Option<nat>, cached: Option<Cached>, failures: nat, clock: nat,
    present: bool, status: Status, intent: bool, phase: Option<Phase>)

  /** What a caller is told. */
  datatype Reply =
    | Gone
    | Raised
    | Told(status: Status, connected: bool, stale: bool, stopPending: bool)
    | Answer(value: Value, stale: bool)
    | Look(generation: nat)

  /** Where a caller is in its round: the next critical section, or the end of the round. */
  datatype Stage =
    | Looked(seen: nat, anew: bool)
    | Checked(seen: nat, anew: bool)
    | Waiting(probe: nat, seen: nat)
    | Turned
    | Ended(reply: Reply)

  // ---------------------------------------------------------------- operations and the world outside

  /** An operation on the channel starts; whatever is under way now is outdated. */
  function Mutate(s: Slot): Slot {
    if s.owner != Free || s.closing then s else s.(generation := s.generation + 1, owner := Mutation)
  }

  function Unlock(s: Slot): Slot {
    if s.owner == Mutation then s.(owner := Free) else s
  }

  /** An operation writes what it likes. */
  function Change(s: Slot, present: bool, status: Status, intent: bool, phase: Option<Phase>): Slot {
    if s.owner == Mutation then s.(present := present, status := status, intent := intent, phase := phase) else s
  }

  /** A wish to stop is saved, at any moment; without an instance and an operation there is nothing to wait for. */
  function Wish(s: Slot, waits: bool): Slot {
    if !s.present || s.phase == Some(Deleting) then s else s.(intent := s.intent || waits, status := Stopped)
  }

  /** The cleanup job takes the record of a finished operation away. */
  function Tidy(s: Slot): Slot {
    if s.owner == Free && !s.closing && s.phase in {Some(Committed), Some(RolledBack)} then s.(phase := None) else s
  }

  /** The shutdown retires whatever is under way, once it has the operation lock. */
  function Retire(s: Slot): Slot {
    if s.closing && s.owner == Free then s.(generation := s.generation + 1) else s
  }

  // ---------------------------------------------------------------- callers

  /** Under the operation lock: what the database says, and the generation it belongs to. */
  function Snapshot(s: Slot): Reply {
    if s.closing then Raised
    else if !s.present then Gone
    else if s.intent then Told(Stopped, false, false, true)
    else if s.phase.Some? && s.phase.value !in {AwaitingLogin, Committed, RolledBack} then Told(Failed, false, true, false)
    else if s.status !in {Up, LoggedIn} then Told(s.status, false, false, false)
    else Look(s.generation)
  }

  function Seen(r: Reply, anew: bool): Stage {
    if r.Look? then Looked(r.generation, anew) else Ended(r)
  }

  /** With the probe lock just taken: is the generation still the one that was seen? Operations do not take this lock. */
  function Checking(s: Slot, seen: nat, anew: bool): Stage {
    if s.closing then Ended(Raised) else if seen != s.generation then Turned else Checked(seen, anew)
  }

  predicate Occupied(s: Slot) {
    s.pending.Some? && s.pending.value < |s.probes| && !s.probes[s.pending.value].returned
  }

  function Hit(s: Slot, seen: nat, anew: bool): bool {
    !anew && s.cached.Some? && s.cached.value.generation == seen
  }

  /** A new probe for the generation the caller saw, unless one is still out. */
  function Submitted(s: Slot, seen: nat): Slot {
    if Occupied(s) then s else s.(probes := s.probes + [Probe(seen, None, false)], pending := Some(|s.probes|))
  }

  /** The rest of that section: the cache, or the probe to wait for. A pool that is shut down refuses new probes. */
  function Acting(s: Slot, seen: nat, anew: bool, refused: bool): (Slot, Stage) {
    var t := s.(holder := None);
    if Hit(s, seen, anew) && s.clock < s.cached.value.until then (t, Ended(Answer(s.cached.value.value, false)))
    else if refused && s.closing && !Occupied(s) then (t, Ended(Raised))
    else
      var u := Submitted(t, seen);
      if Hit(s, seen, anew) then (u, Ended(Answer(s.cached.value.value, true))) else (u, Waiting(u.pending.value, seen))
  }

  /** With the awaited probe back: its answer, if it still counts. */
  function Collected(s: Slot, p: nat): Stage
    requires p < |s.probes|
  {
    match s.probes[p].result
    case Some(Error) => Ended(Raised)
    case Some(Got(value)) => if s.probes[p].generation == s.generation then Ended(Answer(value, false)) else Turned
    case _ => Turned
  }

  // ---------------------------------------------------------------- workers

  function Pow2(n: nat): nat {
    if n == 0 then 1 else 2 * Pow2(n - 1)
  }

  function Min(a: nat, b: nat): nat { if a < b then a else b }

  /** How long an answer may be reused: failures back off. */
  function Delay(ok: bool, failures: nat): nat
    requires !ok ==> failures > 0
  {
    if ok then 30 else Min(30, 5 * Pow2(Min(failures - 1, 3)))
  }

  function WithResult(s: Slot, p: nat, result: Result): Slot
    requires p < |s.probes|
  {
    s.(probes := s.probes[p := s.probes[p].(result := Some(result))])
  }

  predicate Reporting(o: Owner) { o.Wrote? || o.Worker? }

  /** Under the operation lock: the probe's result counts only if no operation has started since, and the status is written only to a running channel. */
  function Report(s: Slot, p: nat, ok: bool, latency: Option<nat>): Slot
    requires p < |s.probes|
  {
    if s.probes[p].generation != s.generation || s.closing then WithResult(s, p, Dropped)
    else if !s.present || s.status !in {Up, LoggedIn} then WithResult(s, p, Error)
    else s.(status := if ok then LoggedIn else Up, owner := Wrote(p, ok, latency))
  }

  /** A transaction of its own: a good probe confirms a login that is awaited. It does not look for a wish. */
  function ConfirmLogin(s: Slot): Slot
    requires s.owner.Wrote?
  {
    if s.owner.ok && s.phase == Some(AwaitingLogin) then s.(phase := Some(Committed)) else s
  }

  /** The answer, with the phase as it is by then. */
  function Assemble(s: Slot): Slot
    requires s.owner.Wrote?
  {
    s.(owner := Worker(s.owner.p, Value(s.owner.ok, s.owner.latency, s.phase)))
  }

  /** Still under it, and with the probe lock as well: the answer goes into the cache. */
  function Store(s: Slot): Slot
    requires s.owner.Worker? && s.owner.p < |s.probes|
  {
    var p, value := s.owner.p, s.owner.value;
    var failures := if value.connected then 0 else s.failures + 1;
    WithResult(s, p, Got(value)).(owner := Free, failures := failures,
      cached := Some(Cached(s.probes[p].generation, s.clock + Delay(value.connected, failures), value)))
  }

  function Return(s: Slot, p: nat): Slot
    requires p < |s.probes|
  {
    s.(probes := s.probes[p := s.probes[p].(returned := true)])
  }

  // ---------------------------------------------------------------- runs

  datatype System = System(slot: Slot, callers: map<nat, Stage>)

  datatype Event =
    | Begin | End | Changes(present: bool, status: Status, intent: bool, phase: Option<Phase>)
    | Wishes(waits: bool) | Tidies | Tick(seconds: nat) | Shut | Retires
    | Looks(c: nat, anew: bool) | Checks(c: nat) | Acts(c: nat, refused: bool) | Collects(c: nat) | TimesOut(c: nat)
    | Reports(p: nat, ok: bool, latency: Option<nat>) | Confirms | Assembles | Stores | Returns(p: nat)

  const Empty: Slot := Slot(0, false, Free, None, [], None, None, 0, 0, true, Up, false, None)
  const Start: System := System(Empty, map[])

  /** A caller may look when it has not called yet, has been turned back, or has been answered and calls again. */
  predicate MayLook(y: System, c: nat) {
    y.slot.owner == Free && (c in y.callers ==> y.callers[c].Turned? || y.callers[c].Ended?)
  }

  predicate MayCheck(y: System, c: nat) {
    c in y.callers && y.callers[c].Looked? && y.slot.holder.None?
  }

  predicate MayAct(y: System, c: nat) {
    c in y.callers && y.callers[c].Checked?
  }

  predicate MayCollect(y: System, c: nat) {
    c in y.callers && y.callers[c].Waiting? && y.callers[c].probe < |y.slot.probes| && y.slot.probes[y.callers[c].probe].returned
  }

  predicate MayReport(s: Slot, p: nat) {
    s.owner == Free && p < |s.probes| && s.probes[p].result.None?
  }

  predicate MayStore(s: Slot) {
    s.owner.Worker? && s.owner.p < |s.probes| && s.holder.None?
  }

  predicate MayReturn(s: Slot, p: nat) {
    p < |s.probes| && s.probes[p].result.Some?
  }

  /** One event; where its turn has not come it waits and nothing happens. */
  function After(y: System, e: Event): System {
    var s, callers := y.slot, y.callers;
    match e
    case Begin => System(Mutate(s), callers)
    case End => System(Unlock(s), callers)
    case Changes(present, status, intent, phase) => System(Change(s, present, status, intent, phase), callers)
    case Wishes(waits) => System(Wish(s, waits), callers)
    case Tidies => System(Tidy(s), callers)
    case Tick(seconds) => System(s.(clock := s.clock + seconds), callers)
    case Shut => System(s.(closing := true), callers)
    case Retires => System(Retire(s), callers)
    case Looks(c, anew) => if MayLook(y, c) then System(s, callers[c := Seen(Snapshot(s), anew)]) else y
    case Checks(c) =>
      if !MayCheck(y, c) then y else
        var stage := Checking(s, callers[c].seen, callers[c].anew);
        System(if stage.Checked? then s.(holder := Some(c)) else s, callers[c := stage])
    case Acts(c, refused) =>
      if !MayAct(y, c) then y else
        var (t, stage) := Acting(s, callers[c].seen, callers[c].anew, refused);
        System(t, callers[c := stage])
    case Collects(c) => if MayCollect(y, c) then System(s, callers[c := Collected(s, callers[c].probe)]) else y
    case TimesOut(c) => if c in callers && callers[c].Waiting? then System(s, callers[c := Ended(Raised)]) else y
    case Reports(p, ok, latency) => if MayReport(s, p) then System(Report(s, p, ok, latency), callers) else y
    case Confirms => if s.owner.Wrote? then System(ConfirmLogin(s), callers) else y
    case Assembles => if s.owner.Wrote? then System(Assemble(s), callers) else y
    case Stores => if MayStore(s) then System(Store(s), callers) else y
    case Returns(p) => if MayReturn(s, p) then System(Return(s, p), callers) else y
  }

  function At(events: seq<Event>, n: nat): System
    requires n <= |events|
  {
    if n == 0 then Start else After(At(events, n - 1), events[n - 1])
  }

  lemma OneMore(events: seq<Event>, n: nat)
    requires 0 < n <= |events|
    ensures At(events, n) == After(At(events, n - 1), events[n - 1])
  {
  }

  /** The event starts an operation on the channel, or retires what is under way at the shutdown. */
  predicate StartsNow(s: Slot, e: Event) {
    s.owner == Free && (if s.closing then e.Retires? else e.Begin?)
  }

  predicate Starts(events: seq<Event>, n: nat)
    requires n < |events|
  {
    StartsNow(At(events, n).slot, events[n])
  }

  lemma StartsCount(y: System, e: Event)
    ensures After(y, e).slot.generation == y.slot.generation + if StartsNow(y.slot, e) then 1 else 0
  {
    hide Delay, Pow2, Snapshot, Hit, Occupied;
  }

  lemma {:induction false} GenerationCountsStarts(events: seq<Event>, a: nat, b: nat)
    requires a <= b <= |events|
    ensures At(events, a).slot.generation <= At(events, b).slot.generation
    ensures At(events, a).slot.generation == At(events, b).slot.generation <==> forall n | a <= n < b :: !Starts(events, n)
  {
    if a < b {
      hide After, StartsNow;
      GenerationCountsStarts(events, a, b - 1);
      StartsCount(At(events, b - 1), events[b - 1]);
      assert Starts(events, b - 1) <==> StartsNow(At(events, b - 1).slot, events[b - 1]);
    }
  }

  // ---------------------------------------------------------------- what always holds

  /** A caller in the middle of its round has seen a generation no later than the present one, and before it if an operation is under way. */
  predicate SawEarlier(s: Slot, seen: nat) {
    seen <= s.generation && (s.owner == Mutation ==> seen < s.generation)
  }

  predicate StageHolds(s: Slot, c: nat, stage: Stage) {
    match stage
    case Looked(seen, _) => SawEarlier(s, seen)
    case Checked(seen, _) => SawEarlier(s, seen) && s.holder == Some(c) && forall i | 0 <= i < |s.probes| :: s.probes[i].generation <= seen
    case Waiting(p, seen) => SawEarlier(s, seen) && p < |s.probes| && s.probes[p].generation <= seen
    case _ => true
  }

  predicate ProbeHolds(s: Slot, i: nat)
    requires i < |s.probes|
  {
    && SawEarlier(s, s.probes[i].generation)
    && (!s.probes[i].returned ==> s.pending == Some(i))
    && (s.probes[i].returned ==> s.probes[i].result.Some?)
  }

  predicate SlotHolds(s: Slot) {
    && (forall i | 0 <= i < |s.probes| :: ProbeHolds(s, i))
    && (Reporting(s.owner) ==> s.owner.p < |s.probes| && s.probes[s.owner.p].generation == s.generation && s.probes[s.owner.p].result.None?)
    && (s.cached.Some? ==> s.cached.value.generation <= s.generation)
  }

  ghost predicate Sound(y: System) {
    && SlotHolds(y.slot)
    && (forall c | c in y.callers :: StageHolds(y.slot, c, y.callers[c]))
    && (y.slot.holder.Some? ==> MayAct(y, y.slot.holder.value))
  }

  predicate OfCaller(e: Event) {
    e.Looks? || e.Checks? || e.Acts? || e.Collects? || e.TimesOut?
  }

  predicate OfWorker(e: Event) {
    e.Reports? || e.Confirms? || e.Assembles? || e.Stores? || e.Returns?
  }

  /** What a worker does to the slot. */
  function ByWorker(s: Slot, e: Event): Slot
    requires OfWorker(e)
  {
    match e
    case Reports(p, ok, latency) => if MayReport(s, p) then Report(s, p, ok, latency) else s
    case Confirms => if s.owner.Wrote? then ConfirmLogin(s) else s
    case Assembles => if s.owner.Wrote? then Assemble(s) else s
    case Stores => if MayStore(s) then Store(s) else s
    case Returns(p) => if MayReturn(s, p) then Return(s, p) else s
  }

  lemma AfterWorker(y: System, e: Event)
    requires OfWorker(e)
    ensures After(y, e) == System(ByWorker(y.slot, e), y.callers)
  {
    hide Report, ConfirmLogin, Assemble, Store, Return;
  }

  /** A step of nobody's round: the probe lock and the probes' generations stay, and generations only grow. */
  predicate Onward(s: Slot, t: Slot) {
    && t.holder == s.holder && t.pending == s.pending && |t.probes| == |s.probes|
    && s.generation <= t.generation && (t.owner == Mutation ==> s.owner == Mutation || s.generation < t.generation)
    && (forall i | 0 <= i < |s.probes| ::
          && t.probes[i].generation == s.probes[i].generation
          && (t.probes[i].returned ==> t.probes[i].result.Some?) && (s.probes[i].returned ==> t.probes[i].returned))
    && (Reporting(t.owner) ==> t.owner.p < |t.probes| && t.probes[t.owner.p].generation == t.generation && t.probes[t.owner.p].result.None?)
    && (t.cached.Some? ==> t.cached.value.generation <= t.generation)
  }

  lemma OnwardKeepsSound(y: System, t: Slot)
    requires Sound(y) && Onward(y.slot, t)
    ensures Sound(System(t, y.callers))
  {
    forall i | 0 <= i < |t.probes| ensures ProbeHolds(t, i) { assert ProbeHolds(y.slot, i); }
    forall c | c in y.callers ensures StageHolds(t, c, y.callers[c]) { assert StageHolds(y.slot, c, y.callers[c]); }
  }

  lemma OutsideIsOnward(y: System, e: Event)
    requires Sound(y) && !OfCaller(e) && !OfWorker(e)
    ensures After(y, e).callers == y.callers && Onward(y.slot, After(y, e).slot)
  {
    forall i | 0 <= i < |y.slot.probes| ensures y.slot.probes[i].returned ==> y.slot.probes[i].result.Some? { assert ProbeHolds(y.slot, i); }
  }

  lemma WorkerIsOnward(y: System, e: Event)
    requires Sound(y) && OfWorker(e)
    ensures After(y, e).callers == y.callers && Onward(y.slot, After(y, e).slot)
  {
    hide After, Onward, Sound, SlotHolds;
    AfterWorker(y, e);
    SoundSlot(y);
    SlotIsOnward(y.slot);
    match e
    case Reports(p, ok, latency) => if MayReport(y.slot, p) { ReportIsOnward(y.slot, p, ok, latency); }
    case Confirms => if y.slot.owner.Wrote? { ConfirmIsOnward(y.slot); }
    case Assembles => if y.slot.owner.Wrote? { ConfirmIsOnward(y.slot); }
    case Stores => if MayStore(y.slot) { StoreIsOnward(y.slot); }
    case Returns(p) => if MayReturn(y.slot, p) { ReturnIsOnward(y.slot, p); }
  }

  lemma SoundSlot(y: System)
    requires Sound(y)
    ensures SlotHolds(y.slot)
  {
  }

  lemma SlotIsOnward(s: Slot)
    requires SlotHolds(s)
    ensures Onward(s, s)
  {
    forall i | 0 <= i < |s.probes| ensures s.probes[i].returned ==> s.probes[i].result.Some? { assert ProbeHolds(s, i); }
  }

  lemma ReportIsOnward(s: Slot, p: nat, ok: bool, latency: Option<nat>)
    requires Onward(s, s) && MayReport(s, p)
    ensures Onward(s, Report(s, p, ok, latency))
  {
  }

  lemma ConfirmIsOnward(s: Slot)
    requires Onward(s, s) && s.owner.Wrote?
    ensures Onward(s, ConfirmLogin(s)) && Onward(s, Assemble(s))
  {
  }

  lemma StoreIsOnward(s: Slot)
    requires Onward(s, s) && MayStore(s)
    ensures Onward(s, Store(s))
  {
    hide Delay;
  }

  lemma ReturnIsOnward(s: Slot, p: nat)
    requires Onward(s, s) && MayReturn(s, p)
    ensures Onward(s, Return(s, p))
  {
  }

  lemma SlotStepKeepsSound(y: System, e: Event)
    requires Sound(y) && !OfCaller(e)
    ensures Sound(After(y, e))
  {
    hide After, Sound, Onward;
    if OfWorker(e) { WorkerIsOnward(y, e); } else { OutsideIsOnward(y, e); }
    OnwardKeepsSound(y, After(y, e).slot);
  }

  lemma LooksKeepsSound(y: System, c: nat, anew: bool)
    requires Sound(y)
    ensures Sound(After(y, Looks(c, anew)))
  {
    var z := After(y, Looks(c, anew));
    hide SlotHolds;
    forall d | d in z.callers ensures StageHolds(z.slot, d, z.callers[d]) { }
  }

  lemma ChecksKeepsSound(y: System, c: nat)
    requires Sound(y)
    ensures Sound(After(y, Checks(c)))
  {
    var z := After(y, Checks(c));
    if MayCheck(y, c) {
      forall d | d in z.callers ensures StageHolds(z.slot, d, z.callers[d]) {
        assert StageHolds(y.slot, d, y.callers[d]);
        if d == c { forall i | 0 <= i < |y.slot.probes| ensures y.slot.probes[i].generation <= y.slot.generation { assert ProbeHolds(y.slot, i); } }
      }
      forall i | 0 <= i < |z.slot.probes| ensures ProbeHolds(z.slot, i) { assert ProbeHolds(y.slot, i); }
    }
  }

  lemma ActingShape(s: Slot, seen: nat, anew: bool, refused: bool)
    ensures var (t, stage) := Acting(s, seen, anew, refused);
      && t == s.(holder := None, probes := t.probes, pending := t.pending)
      && ((t.probes == s.probes && t.pending == s.pending)
          || (!Occupied(s) && t.probes == s.probes + [Probe(seen, None, false)] && t.pending == Some(|s.probes|)))
      && (stage.Ended? || (stage.Waiting? && stage.seen == seen && t.pending == Some(stage.probe) && stage.probe < |t.probes|))
  {
  }

  lemma ActsKeepsSound(y: System, c: nat, refused: bool)
    requires Sound(y)
    ensures Sound(After(y, Acts(c, refused)))
  {
    if MayAct(y, c) {
      var (t, stage) := Acting(y.slot, y.callers[c].seen, y.callers[c].anew, refused);
      ActingShape(y.slot, y.callers[c].seen, y.callers[c].anew, refused);
      assert StageHolds(y.slot, c, y.callers[c]);
      hide Acting, StageHolds;
      ActedSlot(y.slot, t, c, y.callers[c]);
      ActedStages(y, t, c, stage, y.callers[c := stage]);
      hide SlotHolds;
    }
  }

  /** The slot after caller c has acted. */
  predicate Acted(s: Slot, t: Slot, seen: nat) {
    && t == s.(holder := None, probes := t.probes, pending := t.pending)
    && ((t.probes == s.probes && t.pending == s.pending)
        || (!Occupied(s) && t.probes == s.probes + [Probe(seen, None, false)] && t.pending == Some(|s.probes|)))
  }

  lemma ActedSlot(s: Slot, t: Slot, c: nat, stage: Stage)
    requires SlotHolds(s) && stage.Checked? && StageHolds(s, c, stage) && Acted(s, t, stage.seen)
    ensures SlotHolds(t) && forall i | 0 <= i < |t.probes| :: t.probes[i].generation <= stage.seen
  {
    forall i | 0 <= i < |t.probes| ensures ProbeHolds(t, i) {
      if i < |s.probes| { assert ProbeHolds(s, i); }
    }
  }

  lemma ActedStages(y: System, t: Slot, c: nat, stage: Stage, after: map<nat, Stage>)
    requires Sound(y) && MayAct(y, c) && Acted(y.slot, t, y.callers[c].seen)
    requires forall i | 0 <= i < |t.probes| :: t.probes[i].generation <= y.callers[c].seen
    requires stage.Ended? || (stage.Waiting? && stage.seen == y.callers[c].seen && stage.probe < |t.probes|)
    requires after == y.callers[c := stage]
    ensures forall d | d in after :: StageHolds(t, d, after[d])
  {
    assert StageHolds(y.slot, c, y.callers[c]);
    hide SlotHolds, Occupied;
    forall d | d in after ensures StageHolds(t, d, after[d]) {
      if d != c { assert StageHolds(y.slot, d, y.callers[d]); }
    }
  }

  lemma CollectsKeepsSound(y: System, e: Event)
    requires Sound(y) && (e.Collects? || e.TimesOut?)
    ensures Sound(After(y, e))
  {
    var z := After(y, e);
    hide SlotHolds;
    forall d | d in z.callers ensures StageHolds(z.slot, d, z.callers[d]) { assert StageHolds(y.slot, d, y.callers[d]); }
  }

  lemma {:induction false} AlwaysSound(events: seq<Event>, n: nat)
    requires n <= |events|
    ensures Sound(At(events, n))
  {
    if n > 0 {
      AlwaysSound(events, n - 1);
      var y := At(events, n - 1);
      hide Sound, After;
      match events[n - 1]
      case Looks(c, anew) => LooksKeepsSound(y, c, anew);
      case Checks(c) => ChecksKeepsSound(y, c);
      case Acts(c, refused) => ActsKeepsSound(y, c, refused);
      case Collects(_) => CollectsKeepsSound(y, events[n - 1]);
      case TimesOut(_) => CollectsKeepsSound(y, events[n - 1]);
      case _ => SlotStepKeepsSound(y, events[n - 1]);
    }
  }

  /** At most one probe of a slot is ever out, and it is the pending one. */
  lemma OneProbeOut(events: seq<Event>, n: nat, i: nat)
    requires n <= |events| && i < |At(events, n).slot.probes| && !At(events, n).slot.probes[i].returned
    ensures At(events, n).slot.pending == Some(i)
  {
    AlwaysSound(events, n);
    assert ProbeHolds(At(events, n).slot, i);
  }

  // ---------------------------------------------------------------- where things come from

  predicate InRound(stage: Stage) {
    stage.Looked? || stage.Checked? || stage.Waiting?
  }

  /** Event a is caller c's look, which saw this generation. */
  predicate IsLook(events: seq<Event>, a: nat, c: nat, seen: nat)
    requires a < |events|
  {
    events[a].Looks? && events[a].c == c && MayLook(At(events, a), c) && Snapshot(At(events, a).slot) == Look(seen) && At(events, a).slot.generation == seen
  }

  lemma RoundStep(y: System, e: Event, c: nat)
    requires c in After(y, e).callers && InRound(After(y, e).callers[c])
    ensures
      || (c in y.callers && InRound(y.callers[c]) && y.callers[c].seen == After(y, e).callers[c].seen)
      || (e.Looks? && e.c == c && MayLook(y, c) && Snapshot(y.slot) == Look(After(y, e).callers[c].seen) && y.slot.generation == After(y, e).callers[c].seen)
  {
    hide Delay, Pow2;
  }

  /** Whoever is in the middle of a round has begun it with a look. */
  lemma {:induction false} LookOf(events: seq<Event>, n: nat, c: nat) returns (a: nat)
    requires n <= |events| && c in At(events, n).callers && InRound(At(events, n).callers[c])
    ensures a < n && IsLook(events, a, c, At(events, n).callers[c].seen)
    ensures forall k | a < k <= n :: c in At(events, k).callers && InRound(At(events, k).callers[c])
  {
    var y := At(events, n - 1);
    RoundStep(y, events[n - 1], c);
    hide After;
    if c in y.callers && InRound(y.callers[c]) { a := LookOf(events, n - 1, c); } else { a := n - 1; }
  }

  /** Event b is the section in which caller c sends probe p out. */
  predicate Submits(events: seq<Event>, b: nat, c: nat, p: nat)
    requires b < |events|
  {
    events[b].Acts? && events[b].c == c && MayAct(At(events, b), c)
    && p == |At(events, b).slot.probes| && |At(events, b + 1).slot.probes| == p + 1
  }

  lemma SubmitStep(y: System, e: Event, p: nat)
    requires p < |After(y, e).slot.probes|
    ensures
      || (p < |y.slot.probes| && y.slot.probes[p].generation == After(y, e).slot.probes[p].generation)
      || (e.Acts? && MayAct(y, e.c) && p == |y.slot.probes| && |After(y, e).slot.probes| == p + 1
          && y.callers[e.c].seen == After(y, e).slot.probes[p].generation)
  {
    if OfWorker(e) {
      AfterWorker(y, e);
      hide After, Delay;
    } else if !e.Acts? {
      StaysOpen(y, e);
      hide After;
    }
    hide Snapshot;
  }

  /** Every probe was sent out by a caller that was acting on what it had seen. */
  lemma {:induction false} SubmitOf(events: seq<Event>, n: nat, p: nat) returns (b: nat, c: nat)
    requires n <= |events| && p < |At(events, n).slot.probes|
    ensures b < n && Submits(events, b, c, p) && At(events, b).callers[c].seen == At(events, n).slot.probes[p].generation
  {
    var y := At(events, n - 1);
    SubmitStep(y, events[n - 1], p);
    hide After;
    if p < |y.slot.probes| { b, c := SubmitOf(events, n - 1, p); } else { b, c := n - 1, events[n - 1].c; }
  }

  /** What a worker may change besides its own probe. */
  predicate Writes(s: Slot, t: Slot) {
    || (t.owner.Wrote? && !s.owner.Wrote?)
    || t.status != s.status || t.phase != s.phase || t.cached != s.cached || t.failures != s.failures
  }

  /** The event is a worker's and concerns probe p. */
  predicate ActsFor(s: Slot, e: Event, p: nat) {
    (e.Reports? && e.p == p) || ((e.Confirms? || e.Stores?) && Reporting(s.owner) && s.owner.p == p)
  }

  /** The probe whose result an event writes. */
  predicate WritesProbe(events: seq<Event>, n: nat, p: nat)
    requires n < |events|
  {
    var y := At(events, n);
    Writes(y.slot, At(events, n + 1).slot)
    && ActsFor(y.slot, events[n], p)
  }

  lemma WriteIsCurrent(y: System, e: Event, p: nat)
    requires Sound(y) && Writes(y.slot, After(y, e).slot) && ActsFor(y.slot, e, p)
    ensures p < |y.slot.probes| && y.slot.probes[p].generation == y.slot.generation
    ensures e.Reports? ==> !y.slot.closing && y.slot.present && y.slot.status in {Up, LoggedIn}
  {
    hide Delay, Pow2;
  }

  /** A probe's result is written, to the row or to the cache, only if no operation has started since its caller looked. */
  lemma NoStaleWrite(events: seq<Event>, n: nat, p: nat) returns (a: nat, b: nat, c: nat)
    requires n < |events| && WritesProbe(events, n, p)
    ensures a < b < n && Submits(events, b, c, p) && IsLook(events, a, c, At(events, b).callers[c].seen)
    ensures forall k | a <= k < n :: !Starts(events, k)
  {
    AlwaysSound(events, n);
    WriteIsCurrent(At(events, n), events[n], p);
    hide After, Starts, Writes, Sound;
    b, c := SubmitOf(events, n, p);
    a := LookOf(events, b, c);
    GenerationCountsStarts(events, a, n);
  }

  // ---------------------------------------------------------------- answers

  /** The event is a worker's report of this result, measured in this generation, and it counts. */
  predicate JustMeasured(s: Slot, e: Event, generation: nat, ok: bool, latency: Option<nat>) {
    e.Reports? && MayReport(s, e.p) && s.probes[e.p].generation == s.generation == generation
    && !s.closing && s.present && s.status in {Up, LoggedIn} && e.ok == ok && e.latency == latency
  }

  predicate Measures(events: seq<Event>, m: nat, generation: nat, value: Value)
    requires m < |events|
  {
    JustMeasured(At(events, m).slot, events[m], generation, value.connected, value.latency)
  }

  /** The event puts this answer together, with the phase as it is. */
  predicate JustAssembled(s: Slot, e: Event, generation: nat, value: Value) {
    e.Assembles? && s.owner.Wrote? && s.owner.p < |s.probes| && s.probes[s.owner.p].generation == generation
    && value == Value(s.owner.ok, s.owner.latency, s.phase)
  }

  /** Where an answer can be met: with the worker that has put it together, in its probe, or in the cache. */
  ghost predicate Held(s: Slot, generation: nat, value: Value) {
    || (s.owner.Worker? && s.owner.p < |s.probes| && s.probes[s.owner.p].generation == generation && s.owner.value == value)
    || (exists p: nat :: HeldBy(s, p, generation, value))
    || (s.cached.Some? && s.cached.value.generation == generation && s.cached.value.value == value)
  }

  predicate HeldBy(s: Slot, p: nat, generation: nat, value: Value) {
    p < |s.probes| && s.probes[p].generation == generation && s.probes[p].result == Some(Got(value))
  }

  lemma HeldStep(y: System, e: Event, generation: nat, value: Value)
    requires Sound(y) && Held(After(y, e).slot, generation, value)
    ensures Held(y.slot, generation, value) || JustAssembled(y.slot, e, generation, value)
  {
    if OfWorker(e) {
      AfterWorker(y, e);
      hide After, Sound, Held, ByWorker;
      HeldByWorker(y.slot, e, generation, value) by { SoundSlot(y); }
    } else {
      StaysOpen(y, e);
      SoundSlot(y);
      if e.Acts? { ActsAdds(y, e); }
      hide After, Sound, SlotHolds, JustAssembled;
      HeldElsewhere(y.slot, After(y, e).slot, generation, value);
    }
  }

  lemma ActsAdds(y: System, e: Event)
    requires e.Acts? && Sound(y)
    ensures |y.slot.probes| <= |After(y, e).slot.probes| && After(y, e).slot.probes[..|y.slot.probes|] == y.slot.probes
    ensures forall i | |y.slot.probes| <= i < |After(y, e).slot.probes| :: After(y, e).slot.probes[i].result.None?
    ensures y.slot.owner.Worker? ==> y.slot.owner.p < |y.slot.probes|
  {
  }

  lemma HeldElsewhere(s: Slot, t: Slot, generation: nat, value: Value)
    requires |s.probes| <= |t.probes| && t.probes[..|s.probes|] == s.probes
    requires forall i | |s.probes| <= i < |t.probes| :: t.probes[i].result.None?
    requires t.cached == s.cached && (t.owner.Worker? ==> t.owner == s.owner && s.owner.p < |s.probes|)
    requires Held(t, generation, value)
    ensures Held(s, generation, value)
  {
    forall i | 0 <= i < |s.probes| ensures t.probes[i] == s.probes[i] { assert t.probes[..|s.probes|][i] == s.probes[i]; }
    if p: nat :| HeldBy(t, p, generation, value) { assert HeldBy(s, p, generation, value); }
  }

  lemma HeldByWorker(s: Slot, e: Event, generation: nat, value: Value)
    requires SlotHolds(s) && OfWorker(e) && Held(ByWorker(s, e), generation, value)
    ensures Held(s, generation, value) || JustAssembled(s, e, generation, value)
  {
    hide Delay;
    if p: nat :| HeldBy(ByWorker(s, e), p, generation, value) {
      if !(e.Stores? && MayStore(s) && p == s.owner.p) { assert HeldBy(s, p, generation, value); }
    }
  }

  lemma {:induction false} AssembledSomewhere(events: seq<Event>, n: nat, generation: nat, value: Value) returns (q: nat)
    requires n <= |events| && Held(At(events, n).slot, generation, value)
    ensures q < n && JustAssembled(At(events, q).slot, events[q], generation, value)
  {
    var y := At(events, n - 1);
    AlwaysSound(events, n - 1);
    HeldStep(y, events[n - 1], generation, value);
    hide After, Sound, Held, JustAssembled;
    if Held(y.slot, generation, value) { q := AssembledSomewhere(events, n - 1, generation, value); } else { q := n - 1; }
  }

  lemma WroteStep(y: System, e: Event)
    requires Sound(y) && After(y, e).slot.owner.Wrote?
    ensures
      || y.slot.owner == After(y, e).slot.owner
      || (var o := After(y, e).slot.owner; e == Reports(o.p, o.ok, o.latency) && JustMeasured(y.slot, e, y.slot.generation, o.ok, o.latency))
    ensures After(y, e).slot.generation == y.slot.generation
  {
    if OfWorker(e) {
      AfterWorker(y, e);
      hide After, Delay;
    } else {
      StaysOpen(y, e);
      StartsCount(y, e);
      hide After, Sound;
    }
  }

  /** From m to q the operation lock stays in one worker's hands. */
  predicate KeepsLock(events: seq<Event>, m: nat, q: nat)
    requires q <= |events|
  {
    forall j | m < j <= q :: At(events, j).slot.owner == At(events, q).slot.owner
  }

  lemma NobodyAtStart(events: seq<Event>)
    ensures At(events, 0) == Start
  {
  }

  /** The worker that is about to go on has written the status, and has kept the lock since. */
  lemma {:induction false} WroteOf(events: seq<Event>, q: nat) returns (m: nat)
    requires q <= |events| && At(events, q).slot.owner.Wrote?
    ensures m < q && KeepsLock(events, m, q)
    ensures events[m] == Reports(At(events, q).slot.owner.p, At(events, q).slot.owner.ok, At(events, q).slot.owner.latency)
    ensures JustMeasured(At(events, m).slot, events[m], At(events, q).slot.generation, At(events, q).slot.owner.ok, At(events, q).slot.owner.latency)
  {
    hide At, After, Sound, JustMeasured;
    assert q > 0 by { NobodyAtStart(events); }
    var y := At(events, q - 1);
    OneMore(events, q);
    AlwaysSound(events, q - 1);
    WroteStep(y, events[q - 1]);
    if y.slot.owner == At(events, q).slot.owner { m := WroteOf(events, q - 1); } else { m := q - 1; }
  }

  /** Every answer goes back to a measurement at m and was put together at q, under one hold of the operation lock. */
  lemma MeasuredSomewhere(events: seq<Event>, n: nat, generation: nat, value: Value) returns (m: nat, q: nat)
    requires n <= |events| && Held(At(events, n).slot, generation, value)
    ensures m < q < n && Measures(events, m, generation, value) && KeepsLock(events, m, q)
    ensures JustAssembled(At(events, q).slot, events[q], generation, value)
  {
    hide At, Held, JustMeasured, Sound;
    q := AssembledSomewhere(events, n, generation, value);
    m := WroteOf(events, q);
    AlwaysSound(events, q);
    AssembledIsCurrent(At(events, q), events[q], generation, value);
  }

  lemma AssembledIsCurrent(y: System, e: Event, generation: nat, value: Value)
    requires Sound(y) && JustAssembled(y.slot, e, generation, value)
    ensures y.slot.generation == generation
  {
  }

  /** Event n answers caller c. */
  predicate Answers(events: seq<Event>, n: nat, c: nat)
    requires n < |events|
  {
    var y, z := At(events, n), At(events, n + 1);
    && ((events[n].Acts? && events[n].c == c && MayAct(y, c)) || (events[n].Collects? && events[n].c == c && MayCollect(y, c)))
    && c in z.callers && z.callers[c].Ended? && z.callers[c].reply.Answer?
  }

  function AnswerAt(events: seq<Event>, n: nat, c: nat): Reply
    requires n < |events| && Answers(events, n, c)
  {
    At(events, n + 1).callers[c].reply
  }

  /** What an answer holds was there, in the generation seen; one that was waited for belongs to the present generation. */
  lemma AnswerIsHeld(y: System, e: Event, c: nat)
    requires Sound(y) && ((e.Acts? && e.c == c && MayAct(y, c)) || (e == Collects(c) && MayCollect(y, c)))
    requires c in After(y, e).callers && After(y, e).callers[c].Ended? && After(y, e).callers[c].reply.Answer?
    ensures Held(y.slot, y.callers[c].seen, After(y, e).callers[c].reply.value)
    ensures e.Collects? ==> y.callers[c].seen == y.slot.generation && !After(y, e).callers[c].reply.stale
    ensures e.Acts? ==> y.slot.cached.Some? && (!After(y, e).callers[c].reply.stale ==> y.slot.clock < y.slot.cached.value.until)
  {
    assert StageHolds(y.slot, c, y.callers[c]);
    if e.Collects? {
      var p := y.callers[c].probe;
      assert ProbeHolds(y.slot, p);
      assert HeldBy(y.slot, p, y.slot.probes[p].generation, After(y, e).callers[c].reply.value);
    }
  }

  lemma CheckStep(y: System, e: Event, c: nat)
    requires c in After(y, e).callers && After(y, e).callers[c].Checked?
    ensures
      || (c in y.callers && y.callers[c] == After(y, e).callers[c])
      || (e == Checks(c) && MayCheck(y, c) && y.slot.generation == After(y, e).callers[c].seen)
  {
    hide Delay, Pow2, Snapshot;
  }

  /** A caller that acts had found the generation it saw still current when it took the probe lock. */
  lemma {:induction false} CheckOf(events: seq<Event>, n: nat, c: nat) returns (k: nat)
    requires n <= |events| && c in At(events, n).callers && At(events, n).callers[c].Checked?
    ensures k < n && events[k] == Checks(c) && At(events, k).slot.generation == At(events, n).callers[c].seen
    ensures forall j | k < j <= n :: c in At(events, j).callers && At(events, j).callers[c].Checked?
  {
    var y := At(events, n - 1);
    CheckStep(y, events[n - 1], c);
    hide After;
    if c in y.callers && y.callers[c] == At(events, n).callers[c] { k := CheckOf(events, n - 1, c); } else { k := n - 1; }
  }

  /** No operation starts between the two moments. */
  predicate Steady(events: seq<Event>, a: nat, b: nat)
    requires a <= |events| && b <= |events|
  {
    forall j | 0 <= j < |events| && (a <= j < b || b <= j < a) :: !Starts(events, j)
  }

  lemma SameGenerationIsSteady(events: seq<Event>, a: nat, b: nat)
    requires a <= |events| && b <= |events| && At(events, a).slot.generation == At(events, b).slot.generation
    ensures Steady(events, a, b)
  {
    hide Starts;
    if a <= b { GenerationCountsStarts(events, a, b); } else { GenerationCountsStarts(events, b, a); }
  }

  /**
   Whether it was waited for or taken from the cache, stale or not: an answer was measured in the generation that its caller
   saw, and that generation is the current one at a moment k of the caller's round. For an answer that was waited for k is the
   moment at which it is handed out; for one from the cache it is the moment at which the caller took the probe lock. The phase
   beside it was read at q, before the worker that had measured it let go of the operation lock.
   */
  lemma AnswersAreCurrent(events: seq<Event>, n: nat, c: nat) returns (a: nat, k: nat, m: nat, q: nat)
    requires n < |events| && Answers(events, n, c)
    ensures a < k <= n && IsLook(events, a, c, At(events, n).callers[c].seen)
    ensures m < q < n && Measures(events, m, At(events, n).callers[c].seen, AnswerAt(events, n, c).value)
    ensures KeepsLock(events, m, q) && events[q] == Assembles && At(events, q).slot.phase == AnswerAt(events, n, c).value.replacement
    ensures Steady(events, a, k) && Steady(events, m, k)
    ensures events[n].Collects? ==> k == n && !AnswerAt(events, n, c).stale
    ensures events[n].Acts? ==> events[k] == Checks(c) && HoldsLock(events, k, n, c)
  {
    var y := At(events, n);
    AlwaysSound(events, n);
    AnswerIsHeld(y, events[n], c);
    hide After, Sound, Held, JustMeasured, Starts, Snapshot;
    m, q := MeasuredSomewhere(events, n, y.callers[c].seen, AnswerAt(events, n, c).value);
    a := LookOf(events, n, c);
    if events[n].Collects? { k := n; } else {
      k := CheckOf(events, n, c);
      CheckAfterLook(events, a, k, n, c);
    }
    SameGenerationIsSteady(events, a, k);
    assert At(events, m).slot.generation == y.callers[c].seen by { MeasuresGeneration(events, m, y.callers[c].seen, AnswerAt(events, n, c).value); }
    SameGenerationIsSteady(events, m, k);
  }

  lemma MeasuresGeneration(events: seq<Event>, m: nat, generation: nat, value: Value)
    requires m < |events| && Measures(events, m, generation, value)
    ensures At(events, m).slot.generation == generation
  {
  }

  /** From event k on caller c holds the probe lock. */
  predicate HoldsLock(events: seq<Event>, k: nat, n: nat, c: nat)
    requires n <= |events|
  {
    forall j | k < j <= n :: c in At(events, j).callers && At(events, j).callers[c].Checked?
  }

  /** The check comes after the look of the same round. */
  lemma CheckAfterLook(events: seq<Event>, a: nat, k: nat, n: nat, c: nat)
    requires a < n <= |events| && k < n && events[k] == Checks(c) && events[a].Looks? && MayLook(At(events, a), c)
    requires forall j | k < j <= n :: c in At(events, j).callers && At(events, j).callers[c].Checked?
    ensures a < k
  {
  }

  // ---------------------------------------------------------------- two rounds

  /** Event n turns caller c back. */
  predicate TurnsBack(events: seq<Event>, n: nat, c: nat)
    requires n < |events|
  {
    && ((events[n] == Checks(c) && MayCheck(At(events, n), c)) || (events[n] == Collects(c) && MayCollect(At(events, n), c)))
    && c in At(events, n + 1).callers && At(events, n + 1).callers[c].Turned?
  }

  /** No operation starts from a to b, and no shutdown begins. */
  predicate Calm(events: seq<Event>, a: nat, b: nat)
    requires a <= b <= |events|
  {
    forall k | a <= k < b :: !Starts(events, k) && !events[k].Shut?
  }

  /** In this generation, open, and with nobody in the locked section on an older one. */
  ghost predicate Settled(y: System, generation: nat) {
    && Sound(y) && y.slot.generation == generation && !y.slot.closing
    && (forall c | c in y.callers && y.callers[c].Checked? :: y.callers[c].seen == generation)
  }

  /** Every probe from number count on belongs to this generation and has not been dropped. */
  predicate Recent(s: Slot, generation: nat, p: nat, count: nat) {
    && p < count <= |s.probes| && s.pending.Some? && (s.pending.value == p || count <= s.pending.value < |s.probes|)
    && (forall q | count <= q < |s.probes| :: s.probes[q].generation == generation && s.probes[q].result != Some(Dropped))
  }

  lemma SettledStep(y: System, e: Event, generation: nat, p: nat, count: nat)
    requires Settled(y, generation) && Recent(y.slot, generation, p, count) && !StartsNow(y.slot, e) && !e.Shut?
    ensures Settled(After(y, e), generation) && Recent(After(y, e).slot, generation, p, count)
  {
    StartsCount(y, e);
    AlwaysSoundStep(y, e);
    StaysOpen(y, e);
    RecentStep(y, e, generation, p, count);
    CheckedStep(y, e, generation);
    hide Sound, StartsNow, After, Recent;
  }

  lemma RecentStep(y: System, e: Event, generation: nat, p: nat, count: nat)
    requires Settled(y, generation) && Recent(y.slot, generation, p, count)
    ensures Recent(After(y, e).slot, generation, p, count)
  {
    StaysOpen(y, e);
    match e
    case Acts(c, refused) => ActsRecent(y, c, refused, generation, p, count);
    case Reports(q, ok, latency) => if MayReport(y.slot, q) { ReportRecent(y.slot, q, ok, latency, generation, p, count); }
    case Stores => if MayStore(y.slot) { StoreRecent(y.slot, generation, p, count); }
    case Returns(q) => if MayReturn(y.slot, q) { ReturnRecent(y.slot, q, generation, p, count); }
    case _ => hide After;
  }

  lemma CheckedStep(y: System, e: Event, generation: nat)
    requires Settled(y, generation)
    ensures forall d | d in After(y, e).callers && After(y, e).callers[d].Checked? :: After(y, e).callers[d].seen == generation
  {
    if !OfCaller(e) { StaysOpen(y, e); hide After; }
    hide Sound, Snapshot;
  }

  lemma StaysOpen(y: System, e: Event)
    ensures !e.Shut? ==> After(y, e).slot.closing == y.slot.closing
    ensures !OfCaller(e) ==> After(y, e).callers == y.callers
    ensures !OfWorker(e) && !e.Acts? ==> After(y, e).slot.probes == y.slot.probes && After(y, e).slot.pending == y.slot.pending
    ensures !OfWorker(e) ==> After(y, e).slot.cached == y.slot.cached
    ensures !OfWorker(e) && Reporting(After(y, e).slot.owner) ==> After(y, e).slot.owner == y.slot.owner
    ensures !OfWorker(e) && StartsNow(y.slot, e) ==> !Reporting(After(y, e).slot.owner)
  {
    hide Delay, Pow2, Snapshot, Hit, Occupied;
  }

  lemma ActsRecent(y: System, c: nat, refused: bool, generation: nat, p: nat, count: nat)
    requires Settled(y, generation) && Recent(y.slot, generation, p, count)
    ensures Recent(After(y, Acts(c, refused)).slot, generation, p, count)
  {
    hide Sound;
  }

  lemma ReportRecent(s: Slot, q: nat, ok: bool, latency: Option<nat>, generation: nat, p: nat, count: nat)
    requires q < |s.probes| && s.generation == generation && !s.closing && Recent(s, generation, p, count)
    ensures Recent(Report(s, q, ok, latency), generation, p, count)
  {
  }

  lemma StoreRecent(s: Slot, generation: nat, p: nat, count: nat)
    requires MayStore(s) && Recent(s, generation, p, count)
    ensures Recent(Store(s), generation, p, count)
  {
    hide Delay;
  }

  lemma ReturnRecent(s: Slot, q: nat, generation: nat, p: nat, count: nat)
    requires q < |s.probes| && Recent(s, generation, p, count)
    ensures Recent(Return(s, q), generation, p, count)
  {
  }

  lemma AlwaysSoundStep(y: System, e: Event)
    requires Sound(y)
    ensures Sound(After(y, e))
  {
    hide Sound, After;
    match e
    case Looks(c, anew) => LooksKeepsSound(y, c, anew);
    case Checks(c) => ChecksKeepsSound(y, c);
    case Acts(c, refused) => ActsKeepsSound(y, c, refused);
    case Collects(_) => CollectsKeepsSound(y, e);
    case TimesOut(_) => CollectsKeepsSound(y, e);
    case _ => SlotStepKeepsSound(y, e);
  }

  lemma {:induction false} StaysSettled(events: seq<Event>, b: nat, n: nat, generation: nat, p: nat, count: nat)
    requires b <= n <= |events| && Calm(events, b, n)
    requires Settled(At(events, b), generation) && Recent(At(events, b).slot, generation, p, count)
    ensures Settled(At(events, n), generation) && Recent(At(events, n).slot, generation, p, count)
  {
    if b < n {
      hide After, Settled, Recent;
      StaysSettled(events, b, n - 1, generation, p, count);
      assert !Starts(events, n - 1);
      SettledStep(At(events, n - 1), events[n - 1], generation, p, count);
    }
  }

  /** Event b is the section in which caller c finds that it has to wait for probe p. */
  lemma WaitStep(y: System, e: Event, c: nat)
    requires c in After(y, e).callers && After(y, e).callers[c].Waiting?
    ensures
      || (c in y.callers && y.callers[c] == After(y, e).callers[c])
      || (e.Acts? && e.c == c && MayAct(y, c) && y.callers[c].seen == After(y, e).callers[c].seen)
  {
    hide Delay, Pow2, Snapshot;
  }

  lemma {:induction false} WaitOf(events: seq<Event>, n: nat, c: nat) returns (b: nat)
    requires n <= |events| && c in At(events, n).callers && At(events, n).callers[c].Waiting?
    ensures b < n && events[b].Acts? && events[b].c == c && MayAct(At(events, b), c)
    ensures c in At(events, b + 1).callers && At(events, b + 1).callers[c] == At(events, n).callers[c]
    ensures At(events, b).callers[c].seen == At(events, n).callers[c].seen
    ensures forall k | b < k <= n :: c in At(events, k).callers && At(events, k).callers[c] == At(events, n).callers[c]
  {
    hide At, After, MayAct;
    assert n > 0 by { NobodyAtStart(events); }
    var y := At(events, n - 1);
    OneMore(events, n);
    WaitStep(y, events[n - 1], c);
    if c in y.callers && y.callers[c] == At(events, n).callers[c] { b := WaitOf(events, n - 1, c); } else { b := n - 1; }
  }

  /** Right after a caller that waits has acted, the probes sent out from then on are the recent ones. */
  lemma WaitIsRecent(y: System, c: nat, refused: bool)
    requires Sound(y) && MayAct(y, c) && After(y, Acts(c, refused)).callers[c].Waiting?
    ensures var z := After(y, Acts(c, refused));
      && Recent(z.slot, z.slot.generation, z.callers[c].probe, |z.slot.probes|)
      && (forall d | d in z.callers :: !z.callers[d].Checked?)
  {
    assert StageHolds(y.slot, c, y.callers[c]);
    forall d | d in y.callers && d != c ensures !y.callers[d].Checked? { assert StageHolds(y.slot, d, y.callers[d]); }
    hide Sound;
  }

  /** Whom a wait sends on: the probe it waits for, if that has been returned, or one that is sent out or was sent out later. */
  lemma WaitsForRecent(y: System, c: nat, refused: bool, generation: nat, p: nat, count: nat)
    requires MayAct(y, c) && After(y, Acts(c, refused)).callers[c].Waiting?
    requires Recent(y.slot, generation, p, count) && y.slot.probes[p].returned
    ensures count <= After(y, Acts(c, refused)).callers[c].probe
  {
  }

  /** A returned probe stays returned. */
  lemma ReturnedStep(y: System, e: Event, p: nat)
    requires p < |y.slot.probes| && y.slot.probes[p].returned
    ensures p < |After(y, e).slot.probes| && After(y, e).slot.probes[p].returned
  {
    if OfWorker(e) {
      AfterWorker(y, e);
      hide After, Delay;
    } else {
      hide Delay, Snapshot;
      if !e.Acts? { StaysOpen(y, e); hide After; }
    }
  }

  lemma {:induction false} ReturnedStays(events: seq<Event>, a: nat, b: nat, p: nat)
    requires a <= b <= |events| && p < |At(events, a).slot.probes| && At(events, a).slot.probes[p].returned
    ensures p < |At(events, b).slot.probes| && At(events, b).slot.probes[p].returned
  {
    if a < b {
      ReturnedStays(events, a, b - 1, p);
      ReturnedStep(At(events, b - 1), events[b - 1], p);
      hide After;
    }
  }

  lemma {:induction false} CalmKeeps(events: seq<Event>, a: nat, b: nat)
    requires a <= b <= |events| && Calm(events, a, b)
    ensures At(events, b).slot.generation == At(events, a).slot.generation && At(events, b).slot.closing == At(events, a).slot.closing
  {
    if a < b {
      hide After, StartsNow;
      CalmKeeps(events, a, b - 1);
      assert !Starts(events, b - 1);
      StartsCount(At(events, b - 1), events[b - 1]);
      StaysOpen(At(events, b - 1), events[b - 1]);
    }
  }

  /** With no operation since its look a caller is not turned back at the probe lock, and only by an old probe after it. */
  lemma TurnedByOldProbe(y: System, e: Event, c: nat, generation: nat)
    requires (e == Checks(c) && MayCheck(y, c)) || (e == Collects(c) && MayCollect(y, c))
    requires c in y.callers && InRound(y.callers[c]) && y.callers[c].seen == generation == y.slot.generation && !y.slot.closing
    requires c in After(y, e).callers && After(y, e).callers[c].Turned?
    ensures e == Collects(c) && y.callers[c].Waiting?
    ensures Sound(y) ==> y.slot.probes[y.callers[c].probe].generation != generation || y.slot.probes[y.callers[c].probe].result == Some(Dropped)
  {
    if e.Collects? && Sound(y) { assert ProbeHolds(y.slot, y.callers[c].probe); }
  }

  /**
   A caller is turned back a second time only if an operation has started since the look of its first round, or the shutdown
   has begun: once operations stop, two rounds are enough.
   */
  lemma TwoRoundsAreEnough(events: seq<Event>, a: nat, n1: nat, n2: nat, c: nat)
    requires a < n1 < n2 < |events| && TurnsBack(events, n1, c) && TurnsBack(events, n2, c)
    requires IsLook(events, a, c, At(events, n1).callers[c].seen)
    ensures !Calm(events, a, n2)
  {
    if Calm(events, a, n2) {
      hide After, Sound, Recent, StartsNow, Starts, Snapshot, TurnsBack;
      var g := At(events, a).slot.generation;
      var b, p := FirstRound(events, a, n1, n2, c);
      var a2 := SecondLook(events, a, n1, n2, c);
      CalmKeeps(events, a, n2);
      SecondRound(events, b, n1, a2, n2, c, g, p);
      TurnedByOld(events, n2, c, g);
    }
  }

  /** The first round ended with an old probe; those sent out after the caller had joined it are recent. */
  lemma FirstRound(events: seq<Event>, a: nat, n1: nat, n2: nat, c: nat) returns (b: nat, p: nat)
    requires a < n1 < n2 < |events| && TurnsBack(events, n1, c) && Calm(events, a, n2)
    requires IsLook(events, a, c, At(events, n1).callers[c].seen)
    ensures a < b <= n1 && events[n1] == Collects(c) && MayCollect(At(events, n1), c) && At(events, n1).callers[c].probe == p
    ensures Settled(At(events, b), At(events, a).slot.generation)
    ensures Recent(At(events, b).slot, At(events, a).slot.generation, p, |At(events, b).slot.probes|)
  {
    hide Recent, Settled, Starts, Snapshot, TurnsBack, At;
    FirstCollects(events, a, n1, n2, c);
    p := At(events, n1).callers[c].probe;
    b := WaitOf(events, n1, c);
    WaitAfterLook(events, a, b, n1, c);
    CalmPart(events, a, n2, b + 1);
    CalmKeeps(events, a, b + 1);
    OpenAtLook(events, a, c);
    NowSettled(events, b, c);
    b := b + 1;
  }

  lemma FirstCollects(events: seq<Event>, a: nat, n1: nat, n2: nat, c: nat)
    requires a < n1 < n2 < |events| && TurnsBack(events, n1, c) && Calm(events, a, n2)
    requires IsLook(events, a, c, At(events, n1).callers[c].seen)
    ensures events[n1] == Collects(c) && MayCollect(At(events, n1), c)
  {
    OpenAtLook(events, a, c);
    TurnedIsInRound(events, n1, c);
    hide Snapshot, TurnsBack, After;
    CalmPart(events, a, n2, n1);
    CalmKeeps(events, a, n1);
    TurnedByOld(events, n1, c, At(events, a).slot.generation);
  }

  lemma NowSettled(events: seq<Event>, b: nat, c: nat)
    requires b < |events| && events[b].Acts? && events[b].c == c && MayAct(At(events, b), c)
    requires c in At(events, b + 1).callers && At(events, b + 1).callers[c].Waiting? && !At(events, b + 1).slot.closing
    ensures var z := At(events, b + 1);
      Settled(z, z.slot.generation) && Recent(z.slot, z.slot.generation, z.callers[c].probe, |z.slot.probes|)
  {
    AlwaysSound(events, b);
    AlwaysSound(events, b + 1);
    hide Sound, Recent, After;
    WaitIsRecent(At(events, b), c, events[b].refused);
  }

  lemma SecondLook(events: seq<Event>, a: nat, n1: nat, n2: nat, c: nat) returns (a2: nat)
    requires a < n1 < n2 < |events| && TurnsBack(events, n1, c) && TurnsBack(events, n2, c) && Calm(events, a, n2)
    ensures n1 < a2 < n2 && c in At(events, n2).callers && InRound(At(events, n2).callers[c])
    ensures IsLook(events, a2, c, At(events, n2).callers[c].seen) && At(events, n2).callers[c].seen == At(events, a).slot.generation
  {
    TurnedIsInRound(events, n2, c);
    hide After, StartsNow, Starts, Snapshot;
    a2 := LookOf(events, n2, c);
    assert !InRound(At(events, n1 + 1).callers[c]);
    CalmKeeps(events, a, a2);
  }

  lemma TurnedByOld(events: seq<Event>, n: nat, c: nat, g: nat)
    requires n < |events| && TurnsBack(events, n, c) && c in At(events, n).callers && InRound(At(events, n).callers[c])
    requires At(events, n).callers[c].seen == g == At(events, n).slot.generation && !At(events, n).slot.closing
    ensures events[n] == Collects(c) && MayCollect(At(events, n), c)
    ensures var q := At(events, n).slot.probes[At(events, n).callers[c].probe]; q.generation != g || q.result == Some(Dropped)
  {
    AlwaysSound(events, n);
    hide Sound;
    TurnedByOldProbe(At(events, n), events[n], c, g);
  }

  /** In the second round the caller waits for a recent probe. */
  lemma SecondRound(events: seq<Event>, b: nat, n1: nat, a2: nat, n2: nat, c: nat, g: nat, p: nat)
    requires b <= n1 < a2 < n2 < |events| && Calm(events, b, n2)
    requires Settled(At(events, b), g) && Recent(At(events, b).slot, g, p, |At(events, b).slot.probes|)
    requires events[n1] == Collects(c) && MayCollect(At(events, n1), c) && At(events, n1).callers[c].probe == p
    requires IsLook(events, a2, c, g)
    ensures MayCollect(At(events, n2), c) ==>
      var q := At(events, n2).slot.probes[At(events, n2).callers[c].probe]; q.generation == g && q.result != Some(Dropped)
  {
    if MayCollect(At(events, n2), c) {
      hide After, Sound, Recent, StartsNow, Starts, Snapshot;
      var count := |At(events, b).slot.probes|;
      var b2 := WaitOf(events, n2, c);
      WaitAfterLook(events, a2, b2, n2, c);
      CalmPart(events, b, n2, b2);
      StaysSettled(events, b, b2, g, p, count);
      StaysSettled(events, b, n2, g, p, count);
      ReturnedStays(events, n1, b2, p);
      WaitsForRecent(At(events, b2), c, events[b2].refused, g, p, count);
      RecentProbe(At(events, n2).slot, g, p, count, At(events, n2).callers[c].probe);
    }
  }

  lemma OpenAtLook(events: seq<Event>, a: nat, c: nat)
    requires a < |events| && Snapshot(At(events, a).slot).Look?
    ensures !At(events, a).slot.closing
  {
  }

  /** The wait comes after the look of the same round. */
  lemma WaitAfterLook(events: seq<Event>, a: nat, b: nat, n: nat, c: nat)
    requires a < n < |events| && b < n && events[a].Looks? && MayLook(At(events, a), c) && events[b].Acts?
    requires forall k | b < k <= n :: c in At(events, k).callers && At(events, k).callers[c].Waiting?
    ensures a < b
  {
  }

  lemma CalmPart(events: seq<Event>, a: nat, b: nat, n: nat)
    requires a <= n <= b <= |events| && Calm(events, a, b)
    ensures Calm(events, a, n)
  {
  }

  lemma TurnedIsInRound(events: seq<Event>, n: nat, c: nat)
    requires n < |events| && TurnsBack(events, n, c)
    ensures c in At(events, n).callers && InRound(At(events, n).callers[c])
  {
  }

  lemma RecentProbe(s: Slot, generation: nat, p: nat, count: nat, q: nat)
    requires Recent(s, generation, p, count) && count <= q < |s.probes|
    ensures s.probes[q].generation == generation && s.probes[q].result != Some(Dropped)
  {
  }

  // ---------------------------------------------------------------- a requested stop

  /** Whatever else the operations write, nobody takes the wish to stop back before it is confirmed, or the channel away. */
  predicate WishStays(events: seq<Event>, a: nat, b: nat)
    requires a <= b <= |events|
  {
    forall k | a <= k < b :: events[k].Changes? ==> events[k].present && events[k].intent
  }

  /** The first generation of which nobody can have seen anything before the wish. */
  function Barrier(s: Slot): nat {
    if s.owner == Mutation then s.generation else s.generation + 1
  }

  /** Only earlier generations have been seen, and until the barrier is reached nobody has touched the status. */
  predicate Wished(y: System, barrier: nat) {
    && y.slot.present && y.slot.intent
    && (forall c | c in y.callers && InRound(y.callers[c]) :: y.callers[c].seen < barrier)
    && (forall i | 0 <= i < |y.slot.probes| :: y.slot.probes[i].generation < barrier)
    && (y.slot.generation < barrier ==> y.slot.status == Stopped && y.slot.owner != Mutation)
    && barrier <= y.slot.generation + 1
  }

  lemma NowWished(y: System)
    requires Sound(y) && y.slot.present && y.slot.intent && y.slot.status == Stopped
    ensures Wished(y, Barrier(y.slot))
  {
    forall c | c in y.callers && InRound(y.callers[c]) ensures y.callers[c].seen < Barrier(y.slot) { assert StageHolds(y.slot, c, y.callers[c]); }
    forall i | 0 <= i < |y.slot.probes| ensures y.slot.probes[i].generation < Barrier(y.slot) { assert ProbeHolds(y.slot, i); }
  }

  lemma WishedCallerStep(y: System, e: Event, barrier: nat)
    requires Wished(y, barrier) && OfCaller(e)
    ensures Wished(After(y, e), barrier)
  {
  }

  /** The event confirms a login that is awaited. */
  predicate ConfirmsNow(s: Slot, e: Event) {
    e.Confirms? && s.owner.Wrote? && s.owner.ok && s.phase == Some(AwaitingLogin)
  }

  lemma WishedWorkerStep(y: System, e: Event, barrier: nat)
    requires Wished(y, barrier) && OfWorker(e)
    ensures Wished(After(y, e), barrier)
    ensures After(y, e).slot.status == y.slot.status
    ensures After(y, e).slot.owner.Wrote? ==> y.slot.owner.Wrote?
    ensures After(y, e).slot.phase == if ConfirmsNow(y.slot, e) then Some(Committed) else y.slot.phase
  {
    AfterWorker(y, e);
    hide After, Delay;
  }

  lemma WishedOutsideStep(y: System, e: Event, barrier: nat)
    requires Wished(y, barrier) && !OfCaller(e) && !OfWorker(e) && (e.Changes? ==> e.present && e.intent)
    ensures Wished(After(y, e), barrier)
  {
  }

  lemma {:induction false} StaysWished(events: seq<Event>, a: nat, b: nat, barrier: nat)
    requires a <= b <= |events| && WishStays(events, a, b) && Wished(At(events, a), barrier)
    ensures Wished(At(events, b), barrier)
  {
    if a < b {
      StaysWished(events, a, b - 1, barrier);
      var y, e := At(events, b - 1), events[b - 1];
      assert At(events, b) == After(y, e);
      hide At, After, Wished;
      if OfCaller(e) { WishedCallerStep(y, e, barrier); } else if OfWorker(e) { WishedWorkerStep(y, e, barrier); } else { WishedOutsideStep(y, e, barrier); }
    }
  }

  /** From a on there is a wish to stop, saved with the status; until b it has not been confirmed. */
  predicate WishOpen(events: seq<Event>, a: nat, b: nat) {
    a <= b <= |events| && WishStays(events, a, b)
    && At(events, a).slot.present && At(events, a).slot.intent && At(events, a).slot.status == Stopped
  }

  /** Whoever looks while the wish is open is told that the channel is stopped, whatever recovery has written in the meantime. */
  lemma StopWins(events: seq<Event>, a: nat, b: nat)
    requires WishOpen(events, a, b)
    ensures Snapshot(At(events, b).slot) in {Raised, Told(Stopped, false, false, true)}
  {
    AlwaysSound(events, a);
    NowWished(At(events, a));
    StaysWished(events, a, b, Barrier(At(events, a).slot));
    hide At, Sound;
  }

  /**
   While the wish is open no worker writes a status, and none measures anything that counts: its probe is either outdated, or no
   operation has touched the status that came with the wish. The phase it changes exactly where it confirms a login.
   */
  lemma NothingIsMeasured(events: seq<Event>, a: nat, n: nat)
    requires n < |events| && WishOpen(events, a, n) && OfWorker(events[n])
    ensures At(events, n + 1).slot.status == At(events, n).slot.status
    ensures At(events, n + 1).slot.phase == if ConfirmsNow(At(events, n).slot, events[n]) then Some(Committed) else At(events, n).slot.phase
    ensures forall generation, ok, latency :: !JustMeasured(At(events, n).slot, events[n], generation, ok, latency)
  {
    assert At(events, n + 1) == After(At(events, n), events[n]);
    hide At, Sound, After;
    AlwaysSound(events, a);
    NowWished(At(events, a));
    StaysWished(events, a, n, Barrier(At(events, a).slot));
    WishedWorkerStep(At(events, n), events[n], Barrier(At(events, a).slot));
  }

  /** A worker that confirms a login while the wish is open had written the status before the wish, and has kept the lock since. */
  lemma OnlyOldConfirms(events: seq<Event>, a: nat, n: nat) returns (m: nat)
    requires n < |events| && WishOpen(events, a, n) && ConfirmsNow(At(events, n).slot, events[n])
    ensures m < a && events[m].Reports? && events[m].ok && KeepsLock(events, m, n)
    ensures JustMeasured(At(events, m).slot, events[m], At(events, n).slot.generation, true, events[m].latency)
  {
    hide At, JustMeasured, KeepsLock;
    m := WroteOf(events, n);
    if a <= m { NothingIsMeasured(events, a, m); }
  }

  /** It does happen: the wish lands between the two transactions of a worker, and the second commits a login all the same. */
  lemma LoginConfirmedAfterWish()
    ensures var events := [Begin, Changes(true, Up, false, Some(AwaitingLogin)), End, Looks(0, true), Checks(0), Acts(0, false),
                           Reports(0, true, None), Wishes(true), Confirms];
      WishOpen(events, 8, 8) && At(events, 8).slot.phase == Some(AwaitingLogin) && At(events, 9).slot.phase == Some(Committed)
  {
    var events := [Begin, Changes(true, Up, false, Some(AwaitingLogin)), End, Looks(0, true), Checks(0), Acts(0, false),
                   Reports(0, true, None), Wishes(true), Confirms];
    var s1 := Empty.(generation := 1, owner := Mutation);
    var s3 := Empty.(generation := 1, phase := Some(AwaitingLogin));
    var s6 := s3.(probes := [Probe(1, None, false)], pending := Some(0));
    assert At(events, 0) == Start;
    assert At(events, 1) == System(s1, map[]);
    assert At(events, 2) == System(s1.(phase := Some(AwaitingLogin)), map[]);
    assert At(events, 3) == System(s3, map[]);
    assert At(events, 4) == System(s3, map[0 := Looked(1, true)]);
    assert At(events, 5) == System(s3.(holder := Some(0)), map[0 := Checked(1, true)]);
    assert At(events, 6) == System(s6, map[0 := Waiting(0, 1)]);
    assert At(events, 7) == System(s6.(status := LoggedIn, owner := Wrote(0, true, None)), map[0 := Waiting(0, 1)]);
    assert At(events, 8) == System(s6.(status := Stopped, intent := true, owner := Wrote(0, true, None)), map[0 := Waiting(0, 1)]);
  }

  /** Whoever is answered while the wish is open had looked before it, and gets what was measured before it. */
  lemma OnlyOldAnswers(events: seq<Event>, a: nat, n: nat, c: nat) returns (l: nat, m: nat)
    requires n < |events| && WishOpen(events, a, n) && Answers(events, n, c)
    ensures l < a && IsLook(events, l, c, At(events, n).callers[c].seen)
    ensures m < a && Measures(events, m, At(events, n).callers[c].seen, AnswerAt(events, n, c).value)
  {
    hide At, Snapshot, JustMeasured, KeepsLock;
    var k, q;
    l, k, m, q := AnswersAreCurrent(events, n, c);
    if a <= l { StopWins(events, a, l); }
    if a <= m {
      MeasuresIsReport(events, m, At(events, n).callers[c].seen, AnswerAt(events, n, c).value);
      NothingIsMeasured(events, a, m);
    }
  }

  lemma MeasuresIsReport(events: seq<Event>, m: nat, generation: nat, value: Value)
    requires m < |events| && Measures(events, m, generation, value)
    ensures OfWorker(events[m])
  {
  }

  /**
   Once an operation has started while the wish was open, or if one was under way when it was saved, whoever had looked before
   is turned back or gets an error, at the probe lock and with a probe in hand. Only a caller that held the lock at that
   moment can still be answered, from the cache.
   */
  lemma OldCallersAreTurned(events: seq<Event>, a: nat, k: nat, n: nat, c: nat)
    requires a <= k <= n < |events| && WishOpen(events, a, n)
    requires (k < n && Starts(events, k)) || At(events, a).slot.owner == Mutation
    requires (events[n] == Checks(c) && MayCheck(At(events, n), c)) || (events[n] == Collects(c) && MayCollect(At(events, n), c))
    ensures At(events, n + 1).callers[c] in {Turned, Ended(Raised)}
  {
    AlwaysSound(events, a);
    AlwaysSound(events, n);
    NowWished(At(events, a));
    var barrier := Barrier(At(events, a).slot);
    StaysWished(events, a, n, barrier);
    GenerationCountsStarts(events, a, n);
    assert At(events, n + 1) == After(At(events, n), events[n]);
    hide At, Starts, Sound;
    TurnedBeyond(At(events, n), events[n], c, barrier);
  }

  lemma TurnedBeyond(y: System, e: Event, c: nat, barrier: nat)
    requires Sound(y) && Wished(y, barrier) && barrier <= y.slot.generation
    requires (e == Checks(c) && MayCheck(y, c)) || (e == Collects(c) && MayCollect(y, c))
    ensures c in After(y, e).callers && After(y, e).callers[c] in {Turned, Ended(Raised)}
  {
  }

  /** Who waits is answered exactly if its probe has brought an answer, in the generation seen, and no operation has started since the look. */
  lemma CollectAnswers(events: seq<Event>, l: nat, n: nat, c: nat)
    requires l < n < |events| && events[n] == Collects(c) && MayCollect(At(events, n), c)
    requires IsLook(events, l, c, At(events, n).callers[c].seen)
    ensures var p := At(events, n).slot.probes[At(events, n).callers[c].probe];
      Answers(events, n, c) <==>
        p.result.Some? && p.result.value.Got? && p.generation == At(events, n).callers[c].seen && forall k | l <= k < n :: !Starts(events, k)
  {
    assert At(events, n + 1) == After(At(events, n), events[n]);
    hide At, Starts, Snapshot, Sound;
    AlwaysSound(events, n);
    GenerationCountsStarts(events, l, n);
    WaitsForNoLater(At(events, n), c);
  }

  lemma WaitsForNoLater(y: System, c: nat)
    requires Sound(y) && MayCollect(y, c)
    ensures y.slot.probes[y.callers[c].probe].generation <= y.callers[c].seen <= y.slot.generation
  {
    assert StageHolds(y.slot, c, y.callers[c]);
  }

  /** Who holds the probe lock is answered exactly from a cache of the generation seen, unless it has run out and the pool refuses a new probe. */
  lemma ActAnswers(events: seq<Event>, n: nat, c: nat, refused: bool)
    requires n < |events| && events[n] == Acts(c, refused) && MayAct(At(events, n), c)
    ensures var s, stage := At(events, n).slot, At(events, n).callers[c];
      Answers(events, n, c) <==>
        Hit(s, stage.seen, stage.anew) && (s.clock < s.cached.value.until || !(refused && s.closing) || Occupied(s))
  {
    assert At(events, n + 1) == After(At(events, n), events[n]);
    hide At;
  }

  /** A caller that had looked before a wish saved from outside is still told what was measured before it, with its probe back and no operation started. */
  lemma OldCallerCanBeAnswered(latency: Option<nat>)
    ensures var events := [Looks(0, true), Checks(0), Acts(0, false), Reports(0, true, latency), Assembles, Stores, Returns(0), Wishes(true), Collects(0)];
      WishOpen(events, 8, 8) && Answers(events, 8, 0) && AnswerAt(events, 8, 0) == Answer(Value(true, latency, None), false)
  {
    var events := [Looks(0, true), Checks(0), Acts(0, false), Reports(0, true, latency), Assembles, Stores, Returns(0), Wishes(true), Collects(0)];
    AnswerStored(events, latency);
    var value := Value(true, latency, None);
    var s := Answered(latency);
    assert At(events, 7) == System(s, map[0 := Waiting(0, 0)]);
    assert At(events, 8) == System(s.(status := Stopped, intent := true), map[0 := Waiting(0, 0)]);
    assert At(events, 9) == System(s.(status := Stopped, intent := true), map[0 := Ended(Answer(value, false))]);
  }

  /** The slot after a first good probe. */
  function Answered(latency: Option<nat>): Slot {
    var value := Value(true, latency, None);
    Empty.(probes := [Probe(0, Some(Got(value)), true)], pending := Some(0), cached := Some(Cached(0, 30, value)), status := LoggedIn)
  }

  lemma AnswerStored(events: seq<Event>, latency: Option<nat>)
    requires |events| >= 7 && events[0] == Looks(0, true) && events[1] == Checks(0) && events[2] == Acts(0, false)
    requires events[3] == Reports(0, true, latency) && events[4] == Assembles && events[5] == Stores && events[6] == Returns(0)
    ensures At(events, 7) == System(Answered(latency), map[0 := Waiting(0, 0)])
  {
    hide At, After;
    ProbeSentOut(events);
    OneMore(events, 4);
    OneMore(events, 5);
    OneMore(events, 6);
    OneMore(events, 7);
    ResultWritten(latency, map[0 := Waiting(0, 0)]);
    ResultStored(latency, map[0 := Waiting(0, 0)]);
  }

  /** The first probe is out. */
  const FirstOut: Slot := Empty.(probes := [Probe(0, None, false)], pending := Some(0))

  lemma ResultWritten(latency: Option<nat>, callers: map<nat, Stage>)
    ensures var s1 := System(FirstOut.(status := LoggedIn, owner := Wrote(0, true, latency)), callers);
      && After(System(FirstOut, callers), Reports(0, true, latency)) == s1
      && After(s1, Assembles) == System(FirstOut.(status := LoggedIn, owner := Worker(0, Value(true, latency, None))), callers)
  {
  }

  lemma ResultStored(latency: Option<nat>, callers: map<nat, Stage>)
    ensures var value := Value(true, latency, None);
      var s2 := System(FirstOut.(status := LoggedIn, owner := Worker(0, value)), callers);
      var s3 := System(Answered(latency).(probes := [Probe(0, Some(Got(value)), false)]), callers);
      After(s2, Stores) == s3 && After(s3, Returns(0)) == System(Answered(latency), callers)
  {
  }

  lemma ProbeSentOut(events: seq<Event>)
    requires |events| >= 3 && events[0] == Looks(0, true) && events[1] == Checks(0) && events[2] == Acts(0, false)
    ensures At(events, 3) == System(FirstOut, map[0 := Waiting(0, 0)])
  {
    hide At;
    NobodyAtStart(events);
    OneMore(events, 1);
    assert At(events, 1) == System(Empty, map[0 := Looked(0, true)]);
    OneMore(events, 2);
    assert At(events, 2) == System(Empty.(holder := Some(0)), map[0 := Checked(0, true)]);
    OneMore(events, 3);
  }

  /** And one that held the probe lock when the wish came is, from the cache, even after an operation has started. */
  lemma LockHolderCanBeAnswered(latency: Option<nat>)
    ensures var events := [Looks(0, true), Checks(0), Acts(0, false), Reports(0, true, latency), Assembles, Stores, Returns(0),
                           Looks(1, false), Checks(1), Wishes(true), Begin, Acts(1, false)];
      WishOpen(events, 10, 11) && Starts(events, 10)
      && Answers(events, 11, 1) && AnswerAt(events, 11, 1) == Answer(Value(true, latency, None), false)
  {
    var events := [Looks(0, true), Checks(0), Acts(0, false), Reports(0, true, latency), Assembles, Stores, Returns(0),
                   Looks(1, false), Checks(1), Wishes(true), Begin, Acts(1, false)];
    hide At, Answered;
    AnswerStored(events, latency);
    AnsweredSlot(latency);
    LockTaken(events, latency);
    WishUnderLock(events, latency);
    var w := Answered(latency).(holder := Some(1), status := Stopped, intent := true);
    OneMore(events, 12);
    CachedAnswer(w.(generation := 1, owner := Mutation), Value(true, latency, None), map[0 := Waiting(0, 0), 1 := Checked(0, false)]);
  }

  lemma AnsweredSlot(latency: Option<nat>)
    ensures var s := Answered(latency);
      && s.owner == Free && s.holder.None? && s.generation == 0 && !s.closing && s.clock == 0 && s.present && !s.intent
      && s.phase.None? && s.status == LoggedIn && s.cached == Some(Cached(0, 30, Value(true, latency, None)))
  {
  }

  lemma LockTaken(events: seq<Event>, latency: Option<nat>)
    requires |events| >= 9 && events[7] == Looks(1, false) && events[8] == Checks(1)
    requires At(events, 7) == System(Answered(latency), map[0 := Waiting(0, 0)])
    ensures At(events, 9) == System(Answered(latency).(holder := Some(1)), map[0 := Waiting(0, 0), 1 := Checked(0, false)])
  {
    hide At, Answered;
    AnsweredSlot(latency);
    OneMore(events, 8);
    assert At(events, 8) == System(Answered(latency), map[0 := Waiting(0, 0), 1 := Looked(0, false)]);
    OneMore(events, 9);
  }

  lemma WishUnderLock(events: seq<Event>, latency: Option<nat>)
    requires |events| >= 11 && events[9] == Wishes(true) && events[10] == Begin
    requires At(events, 9) == System(Answered(latency).(holder := Some(1)), map[0 := Waiting(0, 0), 1 := Checked(0, false)])
    ensures var w := Answered(latency).(holder := Some(1), status := Stopped, intent := true);
      && At(events, 10) == System(w, map[0 := Waiting(0, 0), 1 := Checked(0, false)])
      && At(events, 11) == System(w.(generation := 1, owner := Mutation), map[0 := Waiting(0, 0), 1 := Checked(0, false)])
  {
    hide At, Answered;
    AnsweredSlot(latency);
    OneMore(events, 10);
    OneMore(events, 11);
  }

  lemma CachedAnswer(s: Slot, value: Value, callers: map<nat, Stage>)
    requires 1 in callers && callers[1] == Checked(0, false) && s.cached == Some(Cached(0, 30, value)) && s.clock == 0
    ensures MayAct(System(s, callers), 1)
    ensures After(System(s, callers), Acts(1, false)).callers == callers[1 := Ended(Answer(value, false))]
  {
  }

  // ---------------------------------------------------------------- the slot object

  /** The slot of one channel, updated in place by its critical sections. */
  class SlotObject {
    var generation: nat
    var closing: bool
    var owner: Owner
    var holder: Option<nat>
    var probes: seq<Probe>
    var pending: Option<nat>
    var cached: Option<Cached>
    var failures: nat
    var clock: nat
    var present: bool
    var status: Status
    var intent: bool
    var phase: Option<Phase>

    ghost function State(): Slot
      reads this
    {
      Slot(generation, closing, owner, holder, probes, pending, cached, failures, clock, present, status, intent, phase)
    }

    constructor ()
      ensures State() == Empty
    {
      generation, closing, owner, holder, probes, pending, cached, failures, clock := 0, false, Free, None, [], None, None, 0, 0;
      present, status, intent, phase := true, Up, false, None;
    }

    /** An operation takes the lock; from here on nothing that was seen before counts. */
    method StartMutation() returns (ok: bool)
      requires owner == Free
      modifies this
      ensures State() == Mutate(old(State()))
      ensures ok == !old(closing)
      ensures ok ==> owner == Mutation && generation > old(generation)
      ensures probes == old(probes) && cached == old(cached)
    {
      ok := !closing;
      if ok { generation, owner := generation + 1, Mutation; }
    }

    method EndMutation()
      requires owner == Mutation
      modifies this`owner
      ensures State() == Unlock(old(State())) && owner == Free
    {
      owner := Free;
    }

    method WriteRow(present: bool, status: Status, intent: bool, phase: Option<Phase>)
      requires owner == Mutation
      modifies this`present, this`status, this`intent, this`phase
      ensures State() == Change(old(State()), present, status, intent, phase)
      ensures this.present == present && this.status == status && this.intent == intent && this.phase == phase
    {
      this.present, this.status, this.intent, this.phase := present, status, intent, phase;
    }

    /** A wish needs no lock, and shows in the status at once. */
    method SaveWish(waits: bool)
      modifies this`intent, this`status
      ensures State() == Wish(old(State()), waits)
      ensures intent <==> old(intent) || (waits && present && phase != Some(Deleting))
      ensures status == if present && phase != Some(Deleting) then Stopped else old(status)
    {
      if present && phase != Some(Deleting) { intent, status := intent || waits, Stopped; }
    }

    method TidyUp()
      modifies this`phase
      ensures State() == Tidy(old(State()))
      ensures phase.None? <==> old(phase).None? || (owner == Free && !closing && old(phase) in {Some(Committed), Some(RolledBack)})
      ensures phase in {old(phase), None}
    {
      if owner == Free && !closing && phase in {Some(Committed), Some(RolledBack)} { phase := None; }
    }

    method RetireAll()
      modifies this`generation
      ensures State() == Retire(old(State()))
      ensures generation > old(generation) <==> closing && owner == Free
    {
      if closing && owner == Free { generation := generation + 1; }
    }

    /** A wish to stop comes first, then an unfinished operation, then the stored status; nobody else is told to look. */
    method Peek() returns (r: Reply)
      requires owner == Free
      ensures r == Snapshot(State())
      ensures (r == Raised <==> closing) && (r == Gone <==> !closing && !present)
      ensures !closing && present && intent ==> r == Told(Stopped, false, false, true)
      ensures !closing && present && !intent ==>
                r == if phase !in {None, Some(AwaitingLogin), Some(Committed), Some(RolledBack)} then Told(Failed, false, true, false)
                     else if status in {Up, LoggedIn} then Look(generation) else Told(status, false, false, false)
    {
      if closing { return Raised; }
      if !present { return Gone; }
      if intent { return Told(Stopped, false, false, true); }
      if phase.Some? && phase.value != AwaitingLogin && phase.value != Committed && phase.value != RolledBack {
        return Told(Failed, false, true, false);
      }
      if status != Up && status != LoggedIn { return Told(status, false, false, false); }
      r := Look(generation);
    }

    /** The probe lock is taken, and kept only by a caller whose generation is still the current one. */
    method TakeLock(c: nat, seen: nat, anew: bool) returns (stage: Stage)
      requires holder.None?
      modifies this`holder
      ensures stage == Checking(old(State()), seen, anew)
      ensures State() == old(State()).(holder := if stage.Checked? then Some(c) else None)
      ensures stage.Checked? <==> seen == generation && !closing
      ensures stage.Checked? ==> stage == Checked(seen, anew)
      ensures (stage == Ended(Raised) <==> closing) && (stage == Turned <==> !closing && seen != generation)
    {
      if closing { return Ended(Raised); }
      if seen != generation { return Turned; }
      holder := Some(c);
      stage := Checked(seen, anew);
    }

    /** A new probe goes out only when none is out. */
    method SendOut(seen: nat)
      requires !Occupied(State())
      modifies this`probes, this`pending
      ensures State() == Submitted(old(State()), seen)
      ensures probes == old(probes) + [Probe(seen, None, false)] && pending == Some(|old(probes)|) && pending == Submitted(old(State()), seen).pending
    {
      pending := Some(|probes|);
      probes := probes + [Probe(seen, None, false)];
    }

    /** An answer of the generation seen, or the one probe that is out. */
    method Ask(seen: nat, anew: bool, refused: bool) returns (stage: Stage)
      modifies this`holder, this`probes, this`pending
      ensures (State(), stage) == Acting(old(State()), seen, anew, refused)
      ensures holder.None?
      ensures probes == old(probes) || (!Occupied(old(State())) && probes == old(probes) + [Probe(seen, None, false)])
      ensures stage.Ended? && stage.reply.Answer? ==>
                !anew && cached.Some? && cached.value.generation == seen && stage.reply.value == cached.value.value
                && (!stage.reply.stale <==> clock < cached.value.until)
      ensures !anew && cached.Some? && cached.value.generation == seen && clock < cached.value.until ==> stage.Ended? && probes == old(probes)
      ensures stage.Waiting? || (stage.Ended? && stage.reply.Answer? && stage.reply.stale) ==> pending.Some? && Occupied(State())
      ensures stage.Waiting? ==> stage == Waiting(pending.value, seen) && !(!anew && cached.Some? && cached.value.generation == seen)
      ensures stage.Waiting? || (stage.Ended? && (stage.reply.Answer? || (stage.reply == Raised && refused && closing)))
    {
      hide Acting, Submitted, Occupied;
      ActingMeans(State(), seen, anew, refused);
      ActingCases(State(), seen, anew, refused);
      var hit := !anew && cached.Some? && cached.value.generation == seen;
      if hit && clock < cached.value.until {
        stage := Ended(Answer(cached.value.value, false));
      } else {
        var free := pending.None? || pending.value >= |probes| || probes[pending.value].returned;
        if free && refused && closing {
          stage := Ended(Raised);
        } else {
          if free { SendOut(seen); }
          stage := if hit then Ended(Answer(cached.value.value, true)) else Waiting(pending.value, seen);
        }
      }
      holder := None;
    }

    /** A probe's result touches the row only in its own generation, with the channel up and the service open, and then only the status. */
    method Execute(p: nat, ok: bool, latency: Option<nat>)
      requires owner == Free && p < |probes| && probes[p].result.None?
      modifies this
      ensures State() == Report(old(State()), p, ok, latency)
      ensures cached == old(cached) && failures == old(failures) && generation == old(generation) && phase == old(phase) && intent == old(intent)
      ensures forall i | 0 <= i < |probes| && i != p :: |probes| == |old(probes)| && probes[i] == old(probes)[i]
      ensures owner.Wrote? <==> old(probes)[p].generation == generation && !closing && present && old(status) in {Up, LoggedIn}
      ensures !owner.Wrote? ==> status == old(status) && owner == Free
      ensures !owner.Wrote? ==> probes[p].result == Some(if old(probes)[p].generation != generation || closing then Dropped else Error)
      ensures owner.Wrote? ==> probes == old(probes) && owner == Wrote(p, ok, latency) && status == (if ok then LoggedIn else Up)
    {
      if probes[p].generation != generation || closing {
        probes := probes[p := probes[p].(result := Some(Dropped))];
        return;
      }
      if !present || (status != Up && status != LoggedIn) {
        probes := probes[p := probes[p].(result := Some(Error))];
        return;
      }
      status := if ok then LoggedIn else Up;
      owner := Wrote(p, ok, latency);
    }

    /** Only a good probe confirms, and only a login that is awaited; nothing but the phase changes. */
    method Confirm()
      requires owner.Wrote?
      modifies this`phase
      ensures State() == ConfirmLogin(old(State()))
      ensures phase != old(phase) <==> owner.ok && old(phase) == Some(AwaitingLogin)
      ensures phase != old(phase) ==> phase == Some(Committed)
    {
      if owner.ok && phase == Some(AwaitingLogin) { phase := Some(Committed); }
    }

    /** The answer holds what was measured and the phase of this moment. */
    method PutTogether()
      requires owner.Wrote?
      modifies this`owner
      ensures State() == Assemble(old(State()))
      ensures owner.Worker? && owner.p == old(owner).p
      ensures owner.value.connected == old(owner).ok && owner.value.latency == old(owner).latency && owner.value.replacement == phase
    {
      owner := Worker(owner.p, Value(owner.ok, owner.latency, phase));
    }

    /** The answer goes into the cache, for a shorter time the more often in a row the channel has failed. */
    method Remember()
      requires MayStore(State())
      modifies this
      ensures State() == Store(old(State()))
      ensures owner == Free && status == old(status) && generation == old(generation)
      ensures cached.Some? && cached.value.value == old(owner).value && cached.value.generation == probes[old(owner).p].generation
      ensures probes == old(probes)[old(owner).p := old(probes)[old(owner).p].(result := Some(Got(cached.value.value)))]
      ensures failures == if cached.value.value.connected then 0 else old(failures) + 1
      ensures cached.value.until == clock + (if failures == 1 then 5 else if failures == 2 then 10 else if failures == 3 then 20 else 30)
    {
      var p, value := owner.p, owner.value;
      failures := if value.connected then 0 else failures + 1;
      DelayTable(value.connected, failures);
      cached := Some(Cached(probes[p].generation, clock + Delay(value.connected, failures), value));
      probes := probes[p := probes[p].(result := Some(Got(value)))];
      owner := Free;
    }
  }

  lemma ActingCases(s: Slot, seen: nat, anew: bool, refused: bool)
    ensures Acting(s, seen, anew, refused) ==
      if Hit(s, seen, anew) && s.clock < s.cached.value.until then (s.(holder := None), Ended(Answer(s.cached.value.value, false)))
      else if refused && s.closing && !Occupied(s) then (s.(holder := None), Ended(Raised))
      else
        (Submitted(s, seen).(holder := None),
         if Hit(s, seen, anew) then Ended(Answer(s.cached.value.value, true)) else Waiting(Submitted(s, seen).pending.value, seen))
    ensures Occupied(s) <==> !(s.pending.None? || s.pending.value >= |s.probes| || s.probes[s.pending.value].returned)
    ensures if Occupied(s) then Submitted(s, seen) == s else Submitted(s, seen).pending == Some(|s.probes|)
  {
  }

  lemma ActingMeans(s: Slot, seen: nat, anew: bool, refused: bool)
    ensures var (t, stage) := Acting(s, seen, anew, refused);
      && (t.probes == s.probes || (!Occupied(s) && t.probes == s.probes + [Probe(seen, None, false)]))
      && (stage.Waiting? ==> t.pending == Some(stage.probe) && Occupied(t))
      && (stage.Ended? && stage.reply.Answer? && stage.reply.stale ==> Occupied(t))
      && (stage.Ended? && stage.reply.Answer? ==>
            Hit(s, seen, anew) && stage.reply.value == s.cached.value.value && (!stage.reply.stale <==> s.clock < s.cached.value.until))
  {
  }

  /** Good answers count for thirty seconds, and after failures in a row five, ten, twenty and then thirty. */
  lemma DelayTable(ok: bool, failures: nat)
    requires !ok ==> failures > 0
    ensures Delay(ok, failures) == if ok then 30 else if failures == 1 then 5 else if failures == 2 then 10 else if failures == 3 then 20 else 30
  {
    assert Pow2(0) == 1 && Pow2(1) == 2 && Pow2(2) == 4 && Pow2(3) == 8;
  }

  /** One event, carried out on the object and on the callers' own state. */
  method Carry(slot: SlotObject, callers: map<nat, Stage>, e: Event) returns (after: map<nat, Stage>)
    modifies slot
    ensures System(slot.State(), after) == After(System(old(slot.State()), callers), e)
  {
    hide After;
    after := callers;
    if e.Looks? || e.Checks? || e.Acts? { after := CarryCaller(slot, callers, e); }
    else if OfWorker(e) || e.Collects? || e.TimesOut? { after := CarryOn(slot, callers, e); }
    else { CarryOutside(slot, e, callers); }
  }

  method CarryOutside(slot: SlotObject, e: Event, ghost callers: map<nat, Stage>)
    requires !OfCaller(e) && !OfWorker(e)
    modifies slot
    ensures System(slot.State(), callers) == After(System(old(slot.State()), callers), e)
  {
    hide Mutate, Unlock, Change, Wish, Tidy, Retire;
    match e
    case Begin => if slot.owner == Free { var ok := slot.StartMutation(); } else { BusyStays(slot.State()); }
    case End => if slot.owner == Mutation { slot.EndMutation(); } else { BusyStays(slot.State()); }
    case Changes(present, status, intent, phase) =>
      BusyStays(slot.State());
      if slot.owner == Mutation { slot.WriteRow(present, status, intent, phase); }
    case Wishes(waits) => slot.SaveWish(waits);
    case Tidies => slot.TidyUp();
    case Tick(seconds) => slot.clock := slot.clock + seconds;
    case Shut => slot.closing := true;
    case Retires => slot.RetireAll();
  }

  lemma BusyStays(s: Slot)
    ensures s.owner != Free ==> Mutate(s) == s
    ensures s.owner != Mutation ==> Unlock(s) == s
    ensures forall present, status, intent, phase | s.owner != Mutation :: Change(s, present, status, intent, phase) == s
  {
  }

  method CarryCaller(slot: SlotObject, callers: map<nat, Stage>, e: Event) returns (after: map<nat, Stage>)
    requires e.Looks? || e.Checks? || e.Acts?
    modifies slot
    ensures System(slot.State(), after) == After(System(old(slot.State()), callers), e)
  {
    hide Snapshot, Acting;
    after := callers;
    match e
    case Looks(c, anew) =>
      if slot.owner == Free && (c in callers ==> callers[c].Turned? || callers[c].Ended?) {
        var r := slot.Peek();
        after := callers[c := Seen(r, anew)];
      }
    case Checks(c) =>
      if c in callers && callers[c].Looked? && slot.holder.None? {
        var stage := slot.TakeLock(c, callers[c].seen, callers[c].anew);
        after := callers[c := stage];
      }
    case Acts(c, refused) =>
      if c in callers && callers[c].Checked? {
        var stage := slot.Ask(callers[c].seen, callers[c].anew, refused);
        after := callers[c := stage];
      }
  }

  method CarryOn(slot: SlotObject, callers: map<nat, Stage>, e: Event) returns (after: map<nat, Stage>)
    requires OfWorker(e) || e.Collects? || e.TimesOut?
    modifies slot
    ensures System(slot.State(), after) == After(System(old(slot.State()), callers), e)
  {
    hide Report, Store, Assemble, ConfirmLogin;
    after := callers;
    match e
    case Collects(c) =>
      if c in callers && callers[c].Waiting? && callers[c].probe < |slot.probes| && slot.probes[callers[c].probe].returned {
        var p := callers[c].probe;
        match slot.probes[p].result {
          case Some(Error) => after := callers[c := Ended(Raised)];
          case Some(Got(value)) => after := callers[c := if slot.probes[p].generation == slot.generation then Ended(Answer(value, false)) else Turned];
          case _ => after := callers[c := Turned];
        }
      }
    case TimesOut(c) => if c in callers && callers[c].Waiting? { after := callers[c := Ended(Raised)]; }
    case Reports(p, ok, latency) =>
      if slot.owner == Free && p < |slot.probes| && slot.probes[p].result.None? { slot.Execute(p, ok, latency); }
    case Confirms => if slot.owner.Wrote? { slot.Confirm(); }
    case Assembles => if slot.owner.Wrote? { slot.PutTogether(); }
    case Stores => if slot.owner.Worker? && slot.owner.p < |slot.probes| && slot.holder.None? { slot.Remember(); }
    case Returns(p) =>
      if p < |slot.probes| && slot.probes[p].result.Some? { slot.probes := slot.probes[p := slot.probes[p].(returned := true)]; }
    case _ =>
  }

  /** Any interleaving of the object's sections is one of the runs above. */
  method Interleave(events: seq<Event>) returns (slot: SlotObject, callers: map<nat, Stage>)
    ensures System(slot.State(), callers) == At(events, |events|)
  {
    slot := new SlotObject();
    callers := map[];
    for n := 0 to |events|
      invariant System(slot.State(), callers) == At(events, n)
      invariant fresh(slot)
    {
      callers := Carry(slot, callers, events[n]);
    }
  }
}
