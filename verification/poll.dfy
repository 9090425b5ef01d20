/**
 The browser's polling loop: timers, visibility events, kicks and stop in any order.
 A callback runs from the moment it is started to the moment its promise settles.
 */
module Poll {
  import opened Common

  /**
   The closure's variables, the page's visibility, and the book-keeping of runs and of the promises
   that kicks have handed out. due: the page has changed its visibility and the event is still to come.
   */
  datatype Loop = Loop(
    stopped: bool, hidden: bool, due: bool, timer: bool, running: bool, again: bool,
    begun: nat, finished: nat, active: nat,
    onRun: set<nat>, onNext: set<nat>, resolved: set<nat>, asked: map<nat, nat>, freed: set<nat>)

  function Clear(s: Loop): Loop { s.(timer := false) }

  function Schedule(s: Loop): Loop {
    var c := Clear(s);
    if !c.stopped && !c.hidden then c.(timer := true) else c
  }

  /** A run starts for the promises given. */
  function StartRun(s: Loop, promises: set<nat>): Loop {
    Clear(s).(running := true, begun := s.begun + 1, active := s.active + 1, onRun := promises)
  }

  /** A tick that nobody waits for. */
  function Tick(s: Loop): Loop {
    if s.stopped || s.running || s.hidden then s else StartRun(s, {})
  }

  /** The timer goes off. */
  function Fire(s: Loop): Loop {
    if s.timer then Tick(s.(timer := false)) else s
  }

  /** A kick with promise k: runs at once, or right after the run under way. */
  function Kick(s: Loop, k: nat): Loop {
    var t := s.(asked := s.asked[k := s.begun]);
    if t.stopped then t.(resolved := t.resolved + {k}, freed := t.freed + {k})
    else if t.running then t.(again := true, onNext := t.onNext + {k})
    else StartRun(t, {k})
  }

  /** The run under way is over, and its promises resolve. */
  function Settle(s: Loop): Loop {
    s.(running := false, finished := s.begun, active := if s.active > 0 then s.active - 1 else 0,
       resolved := s.resolved + s.onRun, onRun := {}, again := false, onNext := {})
  }

  /** A run was asked for while another was under way. */
  function Follow(s: Loop, promises: set<nat>): Loop {
    if s.stopped then s.(resolved := s.resolved + promises, freed := s.freed + promises) else StartRun(s, promises)
  }

  /** The run under way settles, with or without an error. */
  function Finish(s: Loop): Loop {
    if !s.running then s
    else if s.again then Follow(Settle(s), s.onNext)
    else Schedule(Settle(s))
  }

  /** The page is shown or hidden; its event follows later. */
  function Flip(s: Loop, hidden: bool): Loop {
    s.(hidden := hidden, due := s.due || hidden != s.hidden)
  }

  /** The visibility event arrives, and finds the page as it is by then. */
  function Visibility(s: Loop): Loop {
    var t := s.(due := false);
    if t.stopped then t else if t.hidden then Clear(t) else Tick(t)
  }

  function Stop(s: Loop): Loop { Clear(s.(stopped := true)) }

  function Initial(hidden: bool, aborted: bool, immediate: bool): Loop {
    var s := Loop(aborted, hidden, false, false, false, false, 0, 0, 0, {}, {}, {}, map[], {});
    if aborted then s else if immediate then Tick(s) else Schedule(s)
  }

  // ---------------------------------------------------------------- the closure, as an object

  class Poller {
    var stopped: bool
    var hidden: bool
    var timer: bool
    var running: bool
    var again: bool
    var onRun: set<nat>
    var onNext: set<nat>
    var resolved: set<nat>
    ghost var due: bool
    ghost var begun: nat
    ghost var finished: nat
    ghost var active: nat
    ghost var asked: map<nat, nat>
    ghost var freed: set<nat>

    ghost function State(): Loop
      reads this
    {
      Loop(stopped, hidden, due, timer, running, again, begun, finished, active, onRun, onNext, resolved, asked, freed)
    }

    constructor (hidden: bool, aborted: bool, immediate: bool)
      ensures State() == Initial(hidden, aborted, immediate)
    {
      stopped, this.hidden, timer, running, again := aborted, hidden, false, false, false;
      onRun, onNext, resolved := {}, {}, {};
      due, begun, finished, active, asked, freed := false, 0, 0, 0, map[], {};
      new;
      if !stopped {
        if immediate { DoTick(); } else { DoSchedule(); }
      }
    }

    method DoClear()
      modifies this`timer
      ensures State() == Clear(old(State()))
    {
      timer := false;
    }

    method DoSchedule()
      modifies this`timer
      ensures State() == Schedule(old(State()))
    {
      DoClear();
      if !stopped && !hidden { timer := true; }
    }

    method DoStart(promises: set<nat>)
      modifies this
      ensures State() == StartRun(old(State()), promises)
    {
      DoClear();
      running, onRun := true, promises;
      begun, active := begun + 1, active + 1;
    }

    method DoTick()
      modifies this
      ensures State() == Tick(old(State()))
    {
      if stopped || running || hidden { return; }
      DoStart({});
    }

    /** The promise is placed at once: with a run of its own, with the run after the present one, or, once stopped, among the resolved. */
    method DoKick(k: nat)
      modifies this
      ensures State() == Kick(old(State()), k)
      ensures if old(stopped) then k in resolved else if old(running) then k in onNext && again else k in onRun && running && begun == old(begun) + 1
      ensures Sound(old(State())) ==> Sound(State())
      ensures Sound(old(State())) && Kept(old(State())) && k !in old(asked) ==> Kept(State())
    {
      hide Sound, Kept, StartRun;
      KickKeeps(State(), k);
      KickPlaces(State(), k);
      asked := asked[k := begun];
      if stopped { DoFree(k); }
      else if running { again, onNext := true, onNext + {k}; }
      else { DoStart({k}); }
    }

    method DoFree(k: nat)
      modifies this`resolved, this`freed
      ensures State() == old(State()).(resolved := old(resolved) + {k}, freed := old(freed) + {k})
    {
      resolved, freed := resolved + {k}, freed + {k};
    }

    method DoSettle()
      modifies this
      ensures State() == Settle(old(State()))
    {
      running, again := false, false;
      finished, active := begun, if active > 0 then active - 1 else 0;
      resolved, onRun, onNext := resolved + onRun, {}, {};
    }

    method DoFollow(promises: set<nat>)
      modifies this
      ensures State() == Follow(old(State()), promises)
    {
      if stopped {
        resolved, freed := resolved + promises, freed + promises;
        return;
      }
      DoStart(promises);
    }

    /** The run's promises resolve, those waiting for the next run get it at once, and a visible page goes on. */
    method DoFinish()
      requires running
      modifies this
      ensures State() == Finish(old(State()))
      ensures finished == old(begun) && old(onRun) <= resolved && old(resolved) <= resolved
      ensures old(again) ==> old(onNext) <= (if old(stopped) then resolved else onRun)
      ensures !old(stopped) && !old(hidden) ==> running || timer
      ensures Sound(old(State())) ==> Sound(State())
      ensures Sound(old(State())) && Kept(old(State())) ==> Kept(State())
    {
      hide Sound, Kept;
      FinishKeeps(State());
      FinishPlaces(State());
      var follow, waiting := again, onNext;
      DoSettle();
      if follow { DoFollow(waiting); } else { DoSchedule(); }
    }

    method DoFire()
      requires timer
      modifies this
      ensures State() == Fire(old(State()))
    {
      timer := false;
      DoTick();
    }

    method OnVisible()
      modifies this
      ensures State() == Visibility(old(State()))
    {
      due := false;
      if stopped { return; }
      if hidden { DoClear(); } else { DoTick(); }
    }

    method DoStop()
      modifies this`stopped, this`timer
      ensures State() == Stop(old(State()))
    {
      stopped := true;
      DoClear();
    }
  }

  // ---------------------------------------------------------------- runs

  datatype Event = Fires | Kicks(k: nat) | Finishes | Flips(hidden: bool) | Sees | Stops

  function After(s: Loop, e: Event): Loop {
    match e
    case Fires => Fire(s)
    case Kicks(k) => Kick(s, k)
    case Finishes => Finish(s)
    case Flips(hidden) => Flip(s, hidden)
    case Sees => Visibility(s)
    case Stops => Stop(s)
  }

  function At(s: Loop, events: seq<Event>, n: nat): Loop
    requires n <= |events|
  {
    if n == 0 then s else After(At(s, events, n - 1), events[n - 1])
  }

  /** The object's handlers, called in any order, go through exactly these states. */
  method Play(hidden: bool, aborted: bool, immediate: bool, events: seq<Event>) returns (poller: Poller)
    ensures poller.State() == At(Initial(hidden, aborted, immediate), events, |events|)
  {
    poller := new Poller(hidden, aborted, immediate);
    for n := 0 to |events|
      invariant poller.State() == At(Initial(hidden, aborted, immediate), events, n)
      invariant fresh(poller)
    {
      Handle(poller, events[n]);
    }
  }

  method Handle(poller: Poller, e: Event)
    modifies poller
    ensures poller.State() == After(old(poller.State()), e)
  {
    hide Tick, Kick, Finish, Schedule, Clear, Sound, Kept;
    match e
    case Fires => if poller.timer { poller.DoFire(); }
    case Kicks(k) => poller.DoKick(k);
    case Finishes => if poller.running { poller.DoFinish(); } else { FinishIdle(poller.State()); }
    case Flips(hidden) =>
      poller.due := poller.due || hidden != poller.hidden;
      poller.hidden := hidden;
    case Sees => poller.OnVisible();
    case Stops => poller.DoStop();
  }

  lemma FinishIdle(s: Loop)
    requires !s.running
    ensures Finish(s) == s
  {
  }

  /** Every kick has a promise of its own. */
  ghost predicate OwnPromises(events: seq<Event>) {
    forall i, j | 0 <= i < j < |events| && events[i].Kicks? && events[j].Kicks? :: events[i].k != events[j].k
  }

  /** One run at a time; a visible page that is not stopped has a run or a timer, a hidden one no timer; no timer beside a run. */
  predicate Sound(s: Loop) {
    && s.active == (if s.running then 1 else 0)
    && (!s.stopped && !s.hidden && !s.due ==> s.running || s.timer)
    && (s.hidden && !s.due ==> !s.timer)
    && !(s.running && s.timer)
    && (s.stopped ==> !s.timer)
    && (s.again ==> s.running) && (!s.again ==> s.onNext == {}) && (!s.running ==> s.onRun == {})
    && (if s.running then s.begun == s.finished + 1 else s.begun == s.finished)
  }

  /** Where promises stand: resolved ones have seen a later run through or were freed by the stop. */
  ghost predicate Kept(s: Loop) {
    && (forall k | k in s.resolved :: k in s.asked && (s.finished > s.asked[k] || k in s.freed))
    && (forall k | k in s.onRun :: k in s.asked && s.begun > s.asked[k])
    && (forall k | k in s.onNext :: k in s.asked && s.begun >= s.asked[k])
    && (forall k | k in s.asked :: k in s.resolved || k in s.onRun || k in s.onNext)
    && (s.freed != {} ==> s.stopped)
  }

  lemma StepKeepsSound(s: Loop, e: Event)
    requires Sound(s)
    ensures Sound(After(s, e))
  {
  }

  lemma StepKeepsPromises(s: Loop, e: Event)
    requires Sound(s) && Kept(s) && (e.Kicks? ==> e.k !in s.asked)
    ensures Kept(After(s, e))
  {
  }

  lemma KickKeeps(s: Loop, k: nat)
    ensures Sound(s) ==> Sound(Kick(s, k))
    ensures Sound(s) && Kept(s) && k !in s.asked ==> Kept(Kick(s, k))
  {
    if Sound(s) {
      StepKeepsSound(s, Kicks(k));
      if Kept(s) && k !in s.asked { StepKeepsPromises(s, Kicks(k)); }
    }
  }

  lemma KickPlaces(s: Loop, k: nat)
    ensures var t := Kick(s, k);
      if s.stopped then k in t.resolved else if s.running then k in t.onNext && t.again else k in t.onRun && t.running && t.begun == s.begun + 1
  {
  }

  lemma FinishKeeps(s: Loop)
    ensures Sound(s) ==> Sound(Finish(s))
    ensures Sound(s) && Kept(s) ==> Kept(Finish(s))
  {
    if Sound(s) {
      StepKeepsSound(s, Finishes);
      if Kept(s) { StepKeepsPromises(s, Finishes); }
    }
  }

  lemma FinishPlaces(s: Loop)
    requires s.running
    ensures var t := Finish(s);
      && t.finished == s.begun && s.onRun <= t.resolved && s.resolved <= t.resolved
      && (s.again ==> s.onNext <= if s.stopped then t.resolved else t.onRun)
      && (!s.stopped && !s.hidden ==> t.running || t.timer)
  {
  }

  lemma StepAsks(s: Loop, e: Event, k: nat)
    ensures k in After(s, e).asked ==> k in s.asked || e == Kicks(k)
  {
  }

  lemma {:induction false} AskedByKicks(s: Loop, events: seq<Event>, n: nat, k: nat)
    requires n <= |events| && k in At(s, events, n).asked && k !in s.asked
    ensures exists i | 0 <= i < n :: events[i] == Kicks(k)
  {
    if n > 0 {
      StepAsks(At(s, events, n - 1), events[n - 1], k);
      hide After;
      if k in At(s, events, n - 1).asked { AskedByKicks(s, events, n - 1, k); }
    }
  }

  /** Never two runs at once, never a visible page without a run or a timer, whatever the order of events. */
  lemma {:induction false} NeverOverlapsNorStalls(hidden: bool, aborted: bool, immediate: bool, events: seq<Event>, n: nat)
    requires n <= |events|
    ensures var s := At(Initial(hidden, aborted, immediate), events, n);
      Sound(s) && s.active <= 1 && (!s.stopped && !s.hidden && !s.due ==> s.running || s.timer)
  {
    if n > 0 {
      NeverOverlapsNorStalls(hidden, aborted, immediate, events, n - 1);
      StepKeepsSound(At(Initial(hidden, aborted, immediate), events, n - 1), events[n - 1]);
    }
  }

  /** After a stop no run begins any more, and a hidden page begins none but for a kick. */
  lemma {:induction false} StopIsFinal(s: Loop, events: seq<Event>, m: nat, n: nat)
    requires m <= n <= |events| && At(s, events, m).stopped
    ensures At(s, events, n).stopped && At(s, events, n).begun == At(s, events, m).begun
  {
    if m < n {
      StopIsFinal(s, events, m, n - 1);
      NothingBegins(At(s, events, n - 1), events[n - 1]);
    }
  }

  lemma NothingBegins(s: Loop, e: Event)
    ensures s.stopped ==> After(s, e).stopped && After(s, e).begun == s.begun
    ensures s.hidden && !e.Kicks? && !(e.Finishes? && s.running && s.again) ==> After(s, e).begun == s.begun
  {
  }

  /** A kick's promise resolves only after a run that began after the kick, or because of the stop. */
  lemma {:induction false} KicksSeeALaterRun(hidden: bool, aborted: bool, immediate: bool, events: seq<Event>, n: nat)
    requires n <= |events| && OwnPromises(events)
    ensures Kept(At(Initial(hidden, aborted, immediate), events, n))
  {
    if n > 0 {
      var s := Initial(hidden, aborted, immediate);
      KicksSeeALaterRun(hidden, aborted, immediate, events, n - 1);
      NeverOverlapsNorStalls(hidden, aborted, immediate, events, n - 1);
      if events[n - 1].Kicks? && events[n - 1].k in At(s, events, n - 1).asked {
        AskedByKicks(s, events, n - 1, events[n - 1].k);
      }
      StepKeepsPromises(At(s, events, n - 1), events[n - 1]);
    }
  }

  predicate Moving(s: Loop, k: nat) { k in s.resolved || k in s.onRun }

  lemma StepKeepsPlace(s: Loop, e: Event, k: nat)
    requires Sound(s) && (e.Kicks? ==> e.k != k)
    ensures k in s.resolved ==> k in After(s, e).resolved
    ensures k in s.onRun && !e.Finishes? ==> k in After(s, e).onRun
    ensures k in s.onNext && !e.Finishes? ==> k in After(s, e).onNext
    ensures k in s.onRun && e.Finishes? ==> k in After(s, e).resolved
    ensures k in s.onNext && e.Finishes? ==> Moving(After(s, e), k)
  {
  }

  /** No kick waits for ever: by the second time that a run ends after it, its promise has resolved. */
  lemma {:induction false} TwoEndsSettleAKick(s: Loop, events: seq<Event>, k: nat, n: nat)
    requires Sound(s) && n <= |events| && (k in s.onRun || k in s.onNext || k in s.resolved)
    requires forall i | 0 <= i < n :: events[i] != Kicks(k)
    ensures Sound(At(s, events, n))
    ensures var t := At(s, events, n); k in t.resolved || k in t.onRun || k in t.onNext
    ensures Ends(events, n) >= 1 ==> Moving(At(s, events, n), k)
    ensures Ends(events, n) >= 2 ==> k in At(s, events, n).resolved
  {
    if n > 0 {
      TwoEndsSettleAKick(s, events, k, n - 1);
      StepKeepsSound(At(s, events, n - 1), events[n - 1]);
      StepKeepsPlace(At(s, events, n - 1), events[n - 1], k);
      assert events[n - 1] != Kicks(k);
    }
  }

  function Ends(events: seq<Event>, n: nat): nat
    requires n <= |events|
  {
    if n == 0 then 0 else Ends(events, n - 1) + (if events[n - 1].Finishes? then 1 else 0)
  }

  /** The proviso about kicks from inside the callback's first, synchronous part is needed: the run is not yet on record. */
  lemma KickFromInsideOverlaps(s: Loop, k: nat)
    requires Sound(s) && !s.stopped && !s.running && !s.hidden
    ensures var starting := Clear(s).(begun := s.begun + 1, active := s.active + 1);
      !Sound(starting) && Kick(starting, k).active == 2
  {
  }
}
