/** The channel on which create threads wait for nodes and which the first update thread closes: a protocol between any
    number of threads, one step of one thread at a time. */
module WakeUp {

  // ---------------------------------------------------------------- threads and their shared state

  /** Where an update thread is. `Holds` has the mutex and has not read the channel variable yet; `Read` remembers
      what it read; `Closed` has closed the channel but not yet cleared the variable. */
  datatype Updater = Start | WantsLock | Holds | Read(open: bool) | Closed | Cleared | Finished
  {
    predicate InCritical() { Holds? || Read? || Closed? || Cleared? }

    function StepsLeft(): nat {
      match this
      case Start => 6
      case WantsLock => 5
      case Holds => 4
      case Read(open) => if open then 3 else 1
      case Closed => 2
      case Cleared => 1
      case Finished => 0
    }
  }

  datatype Outcome = NoChannel | Woken | TimedOut

  /** Where a create thread without nodes is. `Waiting` has captured the channel and counts the minutes. */
  datatype Waiter = Arrived | Waiting(minutes: nat) | Gone(outcome: Outcome)
  {
    function StepsLeft(): nat {
      match this
      case Arrived => MAX_WAIT + 1
      case Waiting(m) => if m < MAX_WAIT then MAX_WAIT - m else 0
      case Gone(_) => 0
    }
  }

  const MAX_WAIT: nat := 10

  /** `live` says whether the channel variable is not nil, `closes` how often the channel has been closed. */
  datatype State = State(live: bool, closes: nat, holder: int, updaters: seq<Updater>, waiters: seq<Waiter>)

  const NOBODY := -1

  datatype Step = UpdaterStep(i: nat) | Wake(i: nat) | Minute(i: nat) | Capture(i: nat)

  predicate Initial(s: State) {
    && s.live && s.closes == 0 && s.holder == NOBODY
    && (forall i :: 0 <= i < |s.updaters| ==> s.updaters[i] == Start)
    && (forall i :: 0 <= i < |s.waiters| ==> s.waiters[i] == Arrived)
  }

  /** A step a thread can take. A thread that wants the mutex waits for it; a create thread is woken by a closed
      channel. */
  predicate Enabled(s: State, step: Step) {
    match step
    case UpdaterStep(i) =>
      i < |s.updaters| && !s.updaters[i].Finished? && (s.updaters[i].WantsLock? ==> s.holder == NOBODY)
    case Capture(i) => i < |s.waiters| && s.waiters[i].Arrived?
    case Wake(i) => i < |s.waiters| && s.waiters[i].Waiting? && s.closes > 0
    case Minute(i) => i < |s.waiters| && s.waiters[i].Waiting?
  }

  function Take(s: State, step: Step): State
    requires Enabled(s, step)
  {
    match step
    case UpdaterStep(i) => UpdaterTakes(s, i)
    case Capture(i) => s.(waiters := s.waiters[i := if s.live then Waiting(0) else Gone(NoChannel)])
    case Wake(i) => s.(waiters := s.waiters[i := Gone(Woken)])
    case Minute(i) =>
      var minutes := s.waiters[i].minutes + 1;
      s.(waiters := s.waiters[i := if minutes < MAX_WAIT then Waiting(minutes) else Gone(TimedOut)])
  }

  /** The lines of `VpcUpdateLoadBalancer` between the node check and the unlock. */
  function UpdaterTakes(s: State, i: nat): State
    requires Enabled(s, UpdaterStep(i))
  {
    match s.updaters[i]
    case Start => s.(updaters := s.updaters[i := if s.live then WantsLock else Finished])
    case WantsLock => s.(updaters := s.updaters[i := Holds], holder := i)
    case Holds => s.(updaters := s.updaters[i := Read(s.live)])
    case Read(open) =>
      if open then s.(updaters := s.updaters[i := Closed], closes := s.closes + 1)
      else s.(updaters := s.updaters[i := Finished], holder := NOBODY)
    case Closed => s.(updaters := s.updaters[i := Cleared], live := false)
    case Cleared => s.(updaters := s.updaters[i := Finished], holder := NOBODY)
  }

  predicate Possible(s: State, steps: seq<Step>)
    decreases |steps|
  {
    steps == [] || (Enabled(s, steps[0]) && Possible(Take(s, steps[0]), steps[1..]))
  }

  function After(s: State, steps: seq<Step>): State
    requires Possible(s, steps)
    decreases |steps|
  {
    if steps == [] then s else After(Take(s, steps[0]), steps[1..])
  }

  // ---------------------------------------------------------------- the invariant

  predicate UpdaterOk(s: State, i: nat)
    requires i < |s.updaters|
  {
    && (s.updaters[i].InCritical() <==> s.holder == i)
    && (s.updaters[i] == Read(true) ==> s.live && s.closes == 0)
    && (s.updaters[i] == Closed ==> s.live && s.closes == 1)
    && (s.updaters[i] == Cleared || s.updaters[i] == Read(false) || s.updaters[i] == Finished ==> !s.live)
  }

  predicate WaiterOk(s: State, w: Waiter) {
    && (w == Gone(Woken) ==> s.closes == 1)
    && (w == Gone(NoChannel) ==> !s.live)
    && (w.Waiting? ==> w.minutes < MAX_WAIT)
  }

  predicate Invariant(s: State) {
    && s.closes <= 1
    && (s.holder == NOBODY || 0 <= s.holder < |s.updaters|)
    && (forall i :: 0 <= i < |s.updaters| ==> UpdaterOk(s, i))
    && (forall i :: 0 <= i < |s.waiters| ==> WaiterOk(s, s.waiters[i]))
    && (!s.live ==> s.closes == 1)
    && (s.live && s.closes == 1 ==> s.holder != NOBODY && s.updaters[s.holder] == Closed)
  }

  lemma UpdaterStepKeepsInvariant(s: State, i: nat)
    requires Invariant(s) && Enabled(s, UpdaterStep(i))
    ensures Invariant(UpdaterTakes(s, i))
  {
    var t := UpdaterTakes(s, i);
    assert UpdaterOk(s, i);
    forall j | 0 <= j < |t.updaters| ensures UpdaterOk(t, j) {
      assert UpdaterOk(s, j);
    }
    forall j | 0 <= j < |t.waiters| ensures WaiterOk(t, t.waiters[j]) {
      assert WaiterOk(s, s.waiters[j]);
    }
  }

  lemma WaiterStepKeepsInvariant(s: State, step: Step)
    requires Invariant(s) && Enabled(s, step) && !step.UpdaterStep?
    ensures Invariant(Take(s, step))
  {
    var t := Take(s, step);
    forall j | 0 <= j < |t.updaters| ensures UpdaterOk(t, j) {
      assert UpdaterOk(s, j);
    }
    forall j | 0 <= j < |t.waiters| ensures WaiterOk(t, t.waiters[j]) {
      assert WaiterOk(s, s.waiters[j]);
    }
  }

  lemma StepKeepsInvariant(s: State, step: Step)
    requires Invariant(s) && Enabled(s, step)
    ensures Invariant(Take(s, step))
  {
    if step.UpdaterStep? {
      UpdaterStepKeepsInvariant(s, step.i);
    } else {
      WaiterStepKeepsInvariant(s, step);
    }
  }

  lemma {:induction false} RunKeepsInvariant(s: State, steps: seq<Step>)
    requires Invariant(s) && Possible(s, steps)
    ensures Invariant(After(s, steps))
    decreases |steps|
  {
    hide Invariant;
    if steps == [] {
    } else {
      StepKeepsInvariant(s, steps[0]);
      RunKeepsInvariant(Take(s, steps[0]), steps[1..]);
    }
  }

  lemma InitialInvariant(s: State)
    requires Initial(s)
    ensures Invariant(s)
  {
  }

  // ---------------------------------------------------------------- safety over every run

  /** However the threads interleave: the channel is closed at most once, and closing it never panics, since a thread
      about to close finds it open; a closed channel that is still in the variable means that the closing thread holds
      the mutex; and the variable is cleared only after the channel was closed. */
  lemma ClosedAtMostOnce(s: State, steps: seq<Step>)
    requires Initial(s) && Possible(s, steps)
    ensures var t := After(s, steps);
      && t.closes <= 1
      && (forall i :: 0 <= i < |t.updaters| && t.updaters[i] == Read(true) ==> t.closes == 0 && t.live)
      && (t.live && t.closes == 1 ==> 0 <= t.holder < |t.updaters| && t.updaters[t.holder] == Closed)
      && (!t.live ==> t.closes == 1)
  {
    InitialInvariant(s);
    RunKeepsInvariant(s, steps);
    var t := After(s, steps);
    forall i | 0 <= i < |t.updaters| && t.updaters[i] == Read(true) ensures t.closes == 0 && t.live {
      assert UpdaterOk(t, i);
    }
  }

  /** At most one thread is between the lock and the unlock. */
  lemma MutualExclusion(s: State, steps: seq<Step>, i: nat, j: nat)
    requires Initial(s) && Possible(s, steps)
    requires i < |After(s, steps).updaters| && j < |After(s, steps).updaters|
    requires After(s, steps).updaters[i].InCritical() && After(s, steps).updaters[j].InCritical()
    ensures i == j
  {
    InitialInvariant(s);
    RunKeepsInvariant(s, steps);
    assert UpdaterOk(After(s, steps), i) && UpdaterOk(After(s, steps), j);
  }

  /** Nil is permanent, and so is a close. */
  lemma {:induction false} NilIsPermanent(s: State, steps: seq<Step>)
    requires Possible(s, steps)
    ensures !s.live ==> !After(s, steps).live
    ensures s.closes <= After(s, steps).closes
    decreases |steps|
  {
    if steps == [] {
    } else {
      NilIsPermanent(Take(s, steps[0]), steps[1..]);
    }
  }

  /** A create thread that captured the channel can go on from the moment the channel is closed, and so from the moment
      the variable is nil, whatever the others do afterwards; and nobody is woken by an open channel. */
  lemma WaitersCanProceed(s: State, before: seq<Step>, after: seq<Step>, i: nat)
    requires Initial(s) && Possible(s, before) && Possible(After(s, before), after)
    requires i < |After(After(s, before), after).waiters|
    ensures var t, u := After(s, before), After(After(s, before), after);
      && ((t.closes > 0 || !t.live) && u.waiters[i].Waiting? ==> Enabled(u, Wake(i)))
      && (u.waiters[i] == Gone(Woken) ==> u.closes == 1)
      && (u.waiters[i] == Gone(NoChannel) ==> !u.live)
  {
    hide Possible, After;
    InitialInvariant(s);
    RunKeepsInvariant(s, before);
    RunKeepsInvariant(After(s, before), after);
    NilIsPermanent(After(s, before), after);
    assert WaiterOk(After(After(s, before), after), After(After(s, before), after).waiters[i]);
  }

  /** Once any update thread has got through, the channel is closed and gone, and every create thread that waits can go
      on. */
  lemma AnUpdateWakesEveryone(s: State, steps: seq<Step>, i: nat)
    requires Initial(s) && Possible(s, steps) && i < |After(s, steps).updaters| && After(s, steps).updaters[i].Finished?
    ensures var t := After(s, steps);
      && !t.live && t.closes == 1
      && forall j :: 0 <= j < |t.waiters| && t.waiters[j].Waiting? ==> Enabled(t, Wake(j))
  {
    hide Possible, After;
    InitialInvariant(s);
    RunKeepsInvariant(s, steps);
    assert UpdaterOk(After(s, steps), i);
  }

  /** Once the variable is nil, an update thread that starts passes without the mutex. */
  lemma {:induction false} NoMutexOnceGone(s: State, steps: seq<Step>, i: nat)
    requires Possible(s, steps) && i < |s.updaters| && s.updaters[i] == Start && !s.live
    ensures var t := After(s, steps);
      && |t.updaters| == |s.updaters| && !t.live
      && (t.updaters[i] == if UpdaterStep(i) in steps then Finished else Start)
    decreases |steps|
  {
    if steps == [] {
    } else if steps[0] == UpdaterStep(i) {
      FinishedStays(Take(s, steps[0]), steps[1..], i);
    } else {
      assert steps == [steps[0]] + steps[1..];
      NoMutexOnceGone(Take(s, steps[0]), steps[1..], i);
    }
  }

  lemma {:induction false} FinishedStays(s: State, steps: seq<Step>, i: nat)
    requires Possible(s, steps) && i < |s.updaters| && s.updaters[i] == Finished && !s.live
    ensures var t := After(s, steps); |t.updaters| == |s.updaters| && !t.live && t.updaters[i] == Finished
    decreases |steps|
  {
    if steps == [] {
    } else {
      FinishedStays(Take(s, steps[0]), steps[1..], i);
    }
  }

  // ---------------------------------------------------------------- what a create thread goes through

  lemma {:induction false} OneStepMore(s: State, steps: seq<Step>, step: Step)
    requires Possible(s, steps + [step])
    ensures Possible(s, steps) && Enabled(After(s, steps), step)
    ensures After(s, steps + [step]) == Take(After(s, steps), step)
    decreases |steps|
  {
    hide Enabled, Take;
    var all := steps + [step];
    if steps == [] {
      assert all[0] == step && all[1..] == [];
    } else {
      assert all[0] == steps[0] && all[1..] == steps[1..] + [step];
      OneStepMore(Take(s, steps[0]), steps[1..], step);
    }
  }

  /** How many minutes create thread `i` has waited. */
  function Minutes(steps: seq<Step>, i: nat): nat {
    if steps == [] then 0
    else Minutes(steps[..|steps| - 1], i) + if steps[|steps| - 1] == Minute(i) then 1 else 0
  }

  /** Create thread `i` has looked for the channel when the variable was nil (`live` false) or not. */
  predicate Captured(s: State, steps: seq<Step>, i: nat, live: bool) {
    exists k :: 0 <= k < |steps| && steps[k] == Capture(i)
      && Possible(s, steps[..k]) && After(s, steps[..k]).live == live
  }

  lemma CapturedStep(s: State, steps: seq<Step>, step: Step, i: nat, live: bool)
    requires Possible(s, steps)
    ensures Captured(s, steps + [step], i, live) <==>
      Captured(s, steps, i, live) || (step == Capture(i) && After(s, steps).live == live)
  {
    hide Possible, After;
    var all := steps + [step];
    forall k | 0 <= k <= |steps| ensures all[..k] == steps[..k] { }
    assert steps[..|steps|] == steps && all[|steps|] == step;
    if Captured(s, steps, i, live) {
      var k :| 0 <= k < |steps| && steps[k] == Capture(i) && Possible(s, steps[..k])
               && After(s, steps[..k]).live == live;
      assert all[k] == steps[k];
    }
  }

  /** The states of a create thread in terms of what has happened, over every run: it waits from the moment it has
      found the channel, until it is woken or ten minutes have passed, and does not wait at all exactly if it has
      found none. */
  lemma {:induction false} WaiterHistory(s: State, steps: seq<Step>, i: nat)
    requires Initial(s) && Possible(s, steps) && i < |s.waiters|
    ensures |After(s, steps).waiters| == |s.waiters|
    ensures var w := After(s, steps).waiters[i];
      && (w == Arrived <==> !Captured(s, steps, i, true) && !Captured(s, steps, i, false))
      && (w == Gone(NoChannel) <==> Captured(s, steps, i, false))
      && (w == Gone(Woken) <==> Wake(i) in steps)
      && (w == Gone(TimedOut) <==> Minutes(steps, i) == 10)
      && (w.Waiting? <==> Captured(s, steps, i, true) && Wake(i) !in steps && Minutes(steps, i) < 10)
      && (w.Waiting? ==> w.minutes == Minutes(steps, i))
      && (w == Arrived || w == Gone(NoChannel) ==> Minutes(steps, i) == 0)
    decreases |steps|
  {
    if steps == [] {
    } else {
      var front, step := steps[..|steps| - 1], steps[|steps| - 1];
      assert steps == front + [step];
      OneStepMore(s, front, step);
      WaiterHistory(s, front, i);
      CapturedStep(s, front, step, i, true);
      CapturedStep(s, front, step, i, false);
      InitialInvariant(s);
      RunKeepsInvariant(s, front);
      hide Possible, After, Captured, Initial;
      assert WaiterOk(After(s, front), After(s, front).waiters[i]);
      hide Invariant;
      WaiterOfStep(After(s, front), step, i);
    }
  }

  /** Who moves in one step. */
  lemma WaiterOfStep(s: State, step: Step, i: nat)
    requires Enabled(s, step) && i < |s.waiters|
    ensures |Take(s, step).waiters| == |s.waiters|
    ensures step !in {Capture(i), Wake(i), Minute(i)} ==> Take(s, step).waiters[i] == s.waiters[i]
  {
  }

  // ---------------------------------------------------------------- progress

  function UpdaterSteps(us: seq<Updater>): nat {
    if us == [] then 0 else us[0].StepsLeft() + UpdaterSteps(us[1..])
  }

  function WaiterSteps(ws: seq<Waiter>): nat {
    if ws == [] then 0 else ws[0].StepsLeft() + WaiterSteps(ws[1..])
  }

  function StepsLeft(s: State): nat {
    UpdaterSteps(s.updaters) + WaiterSteps(s.waiters)
  }

  lemma {:induction false} UpdaterStepsChange(us: seq<Updater>, i: nat, u: Updater)
    requires i < |us|
    ensures UpdaterSteps(us[i := u]) == UpdaterSteps(us) - us[i].StepsLeft() + u.StepsLeft()
  {
    if i == 0 {
      assert us[i := u][1..] == us[1..];
    } else {
      assert us[i := u][1..] == us[1..][i - 1 := u];
      UpdaterStepsChange(us[1..], i - 1, u);
    }
  }

  lemma {:induction false} WaiterStepsChange(ws: seq<Waiter>, i: nat, w: Waiter)
    requires i < |ws|
    ensures WaiterSteps(ws[i := w]) == WaiterSteps(ws) - ws[i].StepsLeft() + w.StepsLeft()
  {
    if i == 0 {
      assert ws[i := w][1..] == ws[1..];
    } else {
      assert ws[i := w][1..] == ws[1..][i - 1 := w];
      WaiterStepsChange(ws[1..], i - 1, w);
    }
  }

  lemma StepIsProgress(s: State, step: Step)
    requires Invariant(s) && Enabled(s, step)
    ensures StepsLeft(Take(s, step)) < StepsLeft(s)
  {
    hide UpdaterSteps, WaiterSteps;
    var t := Take(s, step);
    match step
    case UpdaterStep(i) => UpdaterStepsChange(s.updaters, i, t.updaters[i]);
    case Capture(i) => WaiterStepsChange(s.waiters, i, t.waiters[i]);
    case Wake(i) =>
      assert WaiterOk(s, s.waiters[i]);
      WaiterStepsChange(s.waiters, i, t.waiters[i]);
    case Minute(i) =>
      assert WaiterOk(s, s.waiters[i]);
      WaiterStepsChange(s.waiters, i, t.waiters[i]);
  }

  lemma {:induction false} InitialStepsLeft(us: seq<Updater>, ws: seq<Waiter>)
    requires forall i :: 0 <= i < |us| ==> us[i] == Start
    requires forall i :: 0 <= i < |ws| ==> ws[i] == Arrived
    ensures UpdaterSteps(us) == 6 * |us| && WaiterSteps(ws) == (MAX_WAIT + 1) * |ws|
    decreases |us| + |ws|
  {
    if us != [] {
      InitialStepsLeft(us[1..], ws);
    } else if ws != [] {
      InitialStepsLeft(us, ws[1..]);
    }
  }

  lemma {:induction false} RunLength(s: State, steps: seq<Step>)
    requires Invariant(s) && Possible(s, steps)
    ensures |steps| + StepsLeft(After(s, steps)) <= StepsLeft(s)
    decreases |steps|
  {
    hide Invariant, StepsLeft;
    if steps == [] {
    } else {
      StepKeepsInvariant(s, steps[0]);
      StepIsProgress(s, steps[0]);
      RunLength(Take(s, steps[0]), steps[1..]);
    }
  }

  /** No run goes on forever: six steps for an update thread, eleven for a create thread. */
  lemma RunsEnd(s: State, steps: seq<Step>)
    requires Initial(s) && Possible(s, steps)
    ensures |steps| <= 6 * |s.updaters| + 11 * |s.waiters|
  {
    InitialInvariant(s);
    InitialStepsLeft(s.updaters, s.waiters);
    RunLength(s, steps);
  }

  predicate AllDone(s: State) {
    && (forall i :: 0 <= i < |s.updaters| ==> s.updaters[i].Finished?)
    && (forall i :: 0 <= i < |s.waiters| ==> s.waiters[i].Gone?)
  }

  /** No deadlock: as long as some thread is not done, some thread can take a step; the mutex is never left locked. */
  lemma SomeoneCanMove(s: State, steps: seq<Step>)
    requires Initial(s) && Possible(s, steps)
    ensures AllDone(After(s, steps)) <==> forall step :: !Enabled(After(s, steps), step)
    ensures AllDone(After(s, steps)) ==> After(s, steps).holder == NOBODY
  {
    hide Possible, After;
    InitialInvariant(s);
    RunKeepsInvariant(s, steps);
    var t := After(s, steps);
    if t.holder != NOBODY {
      assert UpdaterOk(t, t.holder);
      assert Enabled(t, UpdaterStep(t.holder)) && !AllDone(t);
    } else if !AllDone(t) {
      if i :| 0 <= i < |t.updaters| && !t.updaters[i].Finished? {
        assert Enabled(t, UpdaterStep(i));
      } else {
        var i :| 0 <= i < |t.waiters| && !t.waiters[i].Gone?;
        if t.waiters[i].Arrived? {
          assert Enabled(t, Capture(i));
        } else {
          assert Enabled(t, Minute(i));
        }
      }
    }
  }
}
