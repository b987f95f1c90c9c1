/** The debounced reload of the blueprint watcher and its Close
    (internal/blueprint/watch.go:241-302). Every schedule creates a timer; the latest is the
    one the watcher keeps. */
module ReloadWatcher {
  import opened Prelude

  /** Fired has gone off but does not have the mutex yet; Superseded was stopped by a later
      schedule and CutOff by Close, or found it closed. */
  datatype Timer = Armed | Fired | Running | Done | Superseded | CutOff

  datatype State = State(timers: seq<Timer>, closed: bool, returned: bool)

  datatype Step = Schedule | Fire(i: nat) | Enter(i: nat) | Finish(i: nat) | CloseBegin | CloseEnd

  datatype Run = Run(states: seq<State>, steps: seq<Step>)

  function StopLast(timers: seq<Timer>, reason: Timer): (r: seq<Timer>)
    ensures |r| == |timers|
  {
    if timers != [] && timers[|timers| - 1] == Armed then timers[|timers| - 1 := reason] else timers
  }

  predicate NoneRunning(s: State) {
    Running !in s.timers
  }

  predicate Enabled(s: State, a: Step) {
    match a
    case Schedule => true
    case Fire(i) => i < |s.timers| && s.timers[i] == Armed
    case Enter(i) => i < |s.timers| && s.timers[i] == Fired
    case Finish(i) => i < |s.timers| && s.timers[i] == Running
    case CloseBegin => !s.closed
    case CloseEnd => s.closed && NoneRunning(s)
  }

  function Next(s: State, a: Step): State
    requires Enabled(s, a)
  {
    match a
    case Schedule => s.(timers := StopLast(s.timers, Superseded) + [Armed])
    case Fire(i) => s.(timers := s.timers[i := Fired])
    case Enter(i) => s.(timers := s.timers[i := if s.closed then CutOff else Running])
    case Finish(i) => s.(timers := s.timers[i := Done])
    case CloseBegin => s.(timers := StopLast(s.timers, CutOff), closed := true)
    case CloseEnd => s.(returned := true)
  }

  ghost predicate Legal(run: Run) {
    && |run.states| == |run.steps| + 1
    && run.states[0] == State([], false, false)
    && forall k :: 0 <= k < |run.steps| ==> LegalAt(run, k)
  }

  ghost predicate LegalAt(run: Run, k: nat)
    requires k + 1 < |run.states| && k < |run.steps|
  {
    Enabled(run.states[k], run.steps[k]) && run.states[k + 1] == Next(run.states[k], run.steps[k])
  }

  /** A reload callback starts at step e. */
  ghost predicate StartsAt(run: Run, e: nat) {
    e < |run.steps| && e < |run.states| && run.steps[e].Enter? && !run.states[e].closed
  }

  // ---- after Close has returned

  lemma {:induction false} CloseIsForGood(run: Run, k: nat, j: nat)
    requires Legal(run) && k <= j < |run.states|
    ensures run.states[k].closed ==> run.states[j].closed
    ensures run.states[k].returned ==> run.states[j].returned
    ensures |run.states[k].timers| <= |run.states[j].timers|
    ensures run.states[j].returned ==> run.states[j].closed
    decreases j
  {
    if k < j {
      CloseIsForGood(run, k, j - 1);
      assert LegalAt(run, j - 1);
    } else if j > 0 {
      CloseIsForGood(run, j - 1, j - 1);
      assert LegalAt(run, j - 1);
    }
  }

  /** Once Close has returned no callback is running and none will ever start. */
  lemma {:induction false} NothingAfterClose(run: Run, k: nat, j: nat)
    requires Legal(run) && k <= j < |run.states| && run.states[k].returned
    ensures NoneRunning(run.states[j]) && !StartsAt(run, j)
    decreases j
  {
    CloseIsForGood(run, k, j);
    if j > 0 {
      assert LegalAt(run, j - 1);
      CloseIsForGood(run, j - 1, j - 1);
      if run.states[j - 1].returned {
        if k < j {
          NothingAfterClose(run, k, j - 1);
        } else {
          NothingAfterClose(run, j - 1, j - 1);
        }
        assert run.states[j - 1].closed;
      }
    }
  }

  // ---- every schedule is answered

  /** Only a later schedule stops a timer without an answer. */
  predicate Answering(t: Timer) {
    t != Superseded
  }

  ghost predicate AnsweringFrom(s: State, n: nat) {
    exists m :: n <= m < |s.timers| && Answering(s.timers[m])
  }

  /** At any moment after a schedule some timer from then on is pending, has started its
      callback or was cut off. */
  lemma {:induction false} ScheduleStaysAnswered(run: Run, k: nat, j: nat)
    requires Legal(run) && k < j < |run.states| && run.steps[k].Schedule?
    ensures AnsweringFrom(run.states[j], |run.states[k].timers|)
    decreases j
  {
    var n := |run.states[k].timers|;
    assert LegalAt(run, j - 1);
    var s, t := run.states[j - 1], run.states[j];
    if k < j - 1 {
      ScheduleStaysAnswered(run, k, j - 1);
      var m :| n <= m < |s.timers| && Answering(s.timers[m]);
      if run.steps[j - 1].Schedule? {
        assert Answering(t.timers[|s.timers|]);
      } else {
        assert Answering(t.timers[m]);
      }
    } else {
      assert Answering(t.timers[n]);
    }
  }

  /** The timer was scheduled at step k or later, while the watcher was open. */
  ghost predicate ScheduledOpen(run: Run, k: nat, j: nat, m: nat) {
    exists c :: k < c <= j < |run.states| && !run.states[c].closed && m < |run.states[c].timers|
  }

  /** The timer that answers a schedule before Close was itself scheduled before Close, so
      Close leaves it no longer armed. */
  lemma {:induction false} AnsweredBeforeClose(run: Run, k: nat, j: nat) returns (m: nat)
    requires Legal(run) && k < j < |run.states| && run.steps[k].Schedule? && !run.states[k].closed
    ensures |run.states[k].timers| <= m < |run.states[j].timers| && ScheduledOpen(run, k, j, m)
    ensures Answering(run.states[j].timers[m]) && (run.states[j].closed ==> run.states[j].timers[m] != Armed)
    decreases j
  {
    var n := |run.states[k].timers|;
    assert LegalAt(run, j - 1);
    var s, t := run.states[j - 1], run.states[j];
    if k < j - 1 {
      m := AnsweredBeforeClose(run, k, j - 1);
      OneArmed(run, j - 1);
      ghost var c :| k < c <= j - 1 && !run.states[c].closed && m < |run.states[c].timers|;
      if run.steps[j - 1].Schedule? && s.timers[m] == Armed {
        m := |s.timers|;
        c := j;
      }
      assert !run.states[c].closed && m < |run.states[c].timers|;
    } else {
      m := n;
      assert !run.states[j].closed && m < |run.states[j].timers|;
    }
  }

  /** A callback that has started did so after its timer was scheduled. */
  lemma {:induction false} StartedBefore(run: Run, k: nat, j: nat, m: nat) returns (e: nat)
    requires Legal(run) && k <= j < |run.states| && |run.states[k].timers| <= m < |run.states[j].timers|
    requires run.states[j].timers[m] == Running || run.states[j].timers[m] == Done
    ensures k < e < j && StartsAt(run, e) && run.steps[e] == Enter(m)
    decreases j
  {
    assert j > k;
    assert LegalAt(run, j - 1);
    var s, a := run.states[j - 1], run.steps[j - 1];
    if m < |s.timers| && (s.timers[m] == Running || s.timers[m] == Done) {
      e := StartedBefore(run, k, j - 1, m);
    } else {
      assert a == Enter(m);
      e := j - 1;
      if e == k {
        assert false;
      }
    }
  }

  predicate Settled(s: State) {
    Armed !in s.timers && Fired !in s.timers
  }

  /** Once no timer is pending, every schedule has been followed by a callback that started
      after it or by a timer of its own or a later one that was cut off. */
  lemma ReloadFollowsSchedule(run: Run, k: nat, j: nat)
    requires Legal(run) && k < j < |run.states| && run.steps[k].Schedule? && Settled(run.states[j])
    ensures (exists e :: k < e < j && StartsAt(run, e))
            || exists m :: |run.states[k].timers| <= m < |run.states[j].timers| && run.states[j].timers[m] == CutOff
  {
    ScheduleStaysAnswered(run, k, j);
    var s := run.states[j];
    var m :| |run.states[k].timers| <= m < |s.timers| && Answering(s.timers[m]);
    assert s.timers[m] in s.timers;
    if s.timers[m] != CutOff {
      var e := StartedBefore(run, k, j, m);
    }
  }

  /** A reload scheduled before Close is followed by a callback that starts after it, or Close
      cuts off a timer scheduled then or later and before Close; it is cut off only if there
      was a Close. */
  lemma ReloadBeforeClose(run: Run, k: nat, j: nat)
    requires Legal(run) && k < j < |run.states| && run.steps[k].Schedule? && Settled(run.states[j])
    requires !run.states[k].closed
    ensures (exists e :: k < e < j && StartsAt(run, e))
            || (run.states[j].closed
                && exists m :: |run.states[k].timers| <= m < |run.states[j].timers|
                               && ScheduledOpen(run, k, j, m) && run.states[j].timers[m] == CutOff)
  {
    var m := AnsweredBeforeClose(run, k, j);
    var s := run.states[j];
    assert s.timers[m] in s.timers;
    CutOffMeansClosed(run, j);
    if s.timers[m] != CutOff {
      var e := StartedBefore(run, k, j, m);
    }
  }

  lemma {:induction false} CutOffMeansClosed(run: Run, j: nat)
    requires Legal(run) && j < |run.states|
    ensures CutOff in run.states[j].timers ==> run.states[j].closed
    decreases j
  {
    if j > 0 {
      CutOffMeansClosed(run, j - 1);
      assert LegalAt(run, j - 1);
    }
  }

  /** Only the latest timer is ever armed: a burst of events leads to one callback. */
  lemma {:induction false} OneArmed(run: Run, j: nat)
    requires Legal(run) && j < |run.states|
    ensures forall m :: 0 <= m < |run.states[j].timers| - 1 ==> run.states[j].timers[m] != Armed
    decreases j
  {
    if j > 0 {
      OneArmed(run, j - 1);
      assert LegalAt(run, j - 1);
    }
  }

  // ---- the code

  function CountRunning(timers: seq<Timer>): nat {
    if timers == [] then 0 else (if timers[0] == Running then 1 else 0) + CountRunning(timers[1..])
  }

  lemma {:induction false} CountUpdate(timers: seq<Timer>, i: nat, t: Timer)
    requires i < |timers|
    ensures CountRunning(timers[i := t]) ==
            CountRunning(timers) - (if timers[i] == Running then 1 else 0) + (if t == Running then 1 else 0)
  {
    if i == 0 {
      assert timers[0 := t][1..] == timers[1..];
    } else {
      CountUpdate(timers[1..], i - 1, t);
      assert timers[i := t][1..] == timers[1..][i - 1 := t];
    }
  }

  lemma {:induction false} CountAppend(timers: seq<Timer>, t: Timer)
    ensures CountRunning(timers + [t]) == CountRunning(timers) + if t == Running then 1 else 0
  {
    if timers == [] {
      assert timers + [t] == [t];
    } else {
      CountAppend(timers[1..], t);
      assert (timers + [t])[1..] == timers[1..] + [t];
    }
  }

  lemma {:induction false} CountZero(timers: seq<Timer>)
    ensures CountRunning(timers) == 0 <==> Running !in timers
  {
    if timers != [] {
      CountZero(timers[1..]);
      assert timers == [timers[0]] + timers[1..];
    }
  }

  /** inFlight is the wait group. Each method is what happens under one hold of the mutex. */
  class Watcher {
    var closed: bool
    var inFlight: nat
    var timers: seq<Timer>
    ghost var returned: bool

    ghost predicate Valid()
      reads this
    {
      inFlight == CountRunning(timers)
    }

    ghost function Abs(): State
      reads this
    {
      State(timers, closed, returned)
    }

    constructor ()
      ensures Valid() && Abs() == State([], false, false)
    {
      closed, inFlight, timers, returned := false, 0, [], false;
    }

    method ScheduleReload()
      requires Valid()
      modifies this
      ensures Valid() && Abs() == Next(old(Abs()), Schedule)
    {
      if |timers| > 0 {
        StopTimer(Superseded);
      }
      CountAppend(timers, Armed);
      timers := timers + [Armed];
    }

    /** Stops the latest timer, if it has not gone off. */
    method StopTimer(reason: Timer)
      requires Valid() && |timers| > 0 && reason != Running
      modifies `timers
      ensures Valid() && timers == StopLast(old(timers), reason)
    {
      var last := |timers| - 1;
      if timers[last] == Armed {
        CountUpdate(timers, last, reason);
        timers := timers[last := reason];
      }
    }

    method TimerFires(i: nat)
      requires Valid() && Enabled(Abs(), Fire(i))
      modifies `timers
      ensures Valid() && Abs() == Next(old(Abs()), Fire(i))
    {
      CountUpdate(timers, i, Fired);
      timers := timers[i := Fired];
    }

    /** The timer's function up to the call of the callback. */
    method CallbackEnters(i: nat) returns (starts: bool)
      requires Valid() && Enabled(Abs(), Enter(i))
      modifies this
      ensures Valid() && Abs() == Next(old(Abs()), Enter(i)) && (starts <==> !old(closed))
    {
      if closed {
        CountUpdate(timers, i, CutOff);
        timers := timers[i := CutOff];
        return false;
      }
      inFlight := inFlight + 1;
      CountUpdate(timers, i, Running);
      timers := timers[i := Running];
      starts := true;
    }

    method CallbackFinishes(i: nat)
      requires Valid() && Enabled(Abs(), Finish(i))
      modifies this
      ensures Valid() && Abs() == Next(old(Abs()), Finish(i))
    {
      CountUpdate(timers, i, Done);
      timers := timers[i := Done];
      inFlight := inFlight - 1;
    }

    method BeginClose()
      requires Valid() && Enabled(Abs(), CloseBegin)
      modifies this
      ensures Valid() && Abs() == Next(old(Abs()), CloseBegin)
    {
      closed := true;
      if |timers| > 0 {
        StopTimer(CutOff);
      }
    }

    /** Close comes back from waiting only when the wait group is empty. */
    method EndClose() returns (done: bool)
      requires Valid() && closed
      modifies this
      ensures Valid() && (done <==> NoneRunning(old(Abs())))
      ensures Abs() == if done then Next(old(Abs()), CloseEnd) else old(Abs())
    {
      CountZero(timers);
      done := inFlight == 0;
      if done {
        returned := true;
      }
    }
  }
}
