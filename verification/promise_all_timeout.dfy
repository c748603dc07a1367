/**
 * `promiseAllTimeout` (local/app-slave-provisioner/index.js, lines 14-50): wait for N
 * already-running operations, or for a one-shot timer, whichever comes first.
 *
 * The JavaScript runs on one thread and reacts to three kinds of callbacks: operation i
 * fulfilled with a value, some operation rejected, and the timer fired. They are modelled
 * as discrete events applied in any order. `State` with `Step` is the reference
 * definition; the class `Aggregate` holds the same variables as the closure in the source
 * (`results`, `finished`, the `onFinish` latch, the outer promise) and each of its event
 * methods is proved to perform exactly one `Step`.
 */
module PromiseAllTimeout {
  import opened Wrappers

  /** What has happened to the outer promise that `promiseAllTimeout` returns. */
  datatype Outcome<T, E> =
    | Pending
      /** The timer callback threw (no partial resolution allowed); the outer promise is still pending. */
    | TimerThrew
    | Resolved(values: seq<Option<T>>)
    | Rejected(error: E)
  {
    /** A JavaScript promise settles once: resolve and reject are no-ops afterwards. */
    predicate Settled() { Resolved? || Rejected? }
  }

  /** The callbacks that the event loop may run, in any order. */
  datatype Event<T, E> =
    | Succeeded(index: nat, value: T)  // promises[index] fulfilled (lines 33-38)
    | Failed(error: E)                 // some promise rejected (line 40)
    | TimerFired                       // the setTimeout callback (line 49)

  /**
   * The closure's variables: `n` is `numPromises`, `partial` is `resolvePartial`,
   * `armed` says whether `onFinish` is still non-null, and `timerFired` records that the
   * one-shot timer has already run.
   */
  datatype State<T, E> = State(
    n: nat,
    partial: bool,
    results: seq<Option<T>>,
    finished: nat,
    armed: bool,
    timerFired: bool,
    outcome: Outcome<T, E>)

  /** The number of slots that hold a value. */
  function Filled<T>(r: seq<Option<T>>): (k: nat)
    ensures k <= |r|
  {
    if r == [] then 0 else (if r[0].Some? then 1 else 0) + Filled(r[1..])
  }

  lemma {:induction false} FilledNone<T>(r: seq<Option<T>>)
    requires forall j :: 0 <= j < |r| ==> r[j].None?
    ensures Filled(r) == 0
  {
    if r != [] {
      FilledNone(r[1..]);
    }
  }

  /** Filling one empty slot adds exactly one to the count. */
  lemma {:induction false} FilledUpdate<T>(r: seq<Option<T>>, i: nat, v: T)
    requires i < |r| && r[i].None?
    ensures Filled(r[i := Some(v)]) == Filled(r) + 1
  {
    if i == 0 {
      assert r[i := Some(v)][1..] == r[1..];
    } else {
      assert r[i := Some(v)][1..] == r[1..][i - 1 := Some(v)];
      FilledUpdate(r[1..], i - 1, v);
    }
  }

  /** The count reaches the length exactly when every slot is filled. */
  lemma {:induction false} FilledAllIff<T>(r: seq<Option<T>>)
    ensures Filled(r) == |r| <==> forall j :: 0 <= j < |r| ==> r[j].Some?
  {
    if r != [] {
      FilledAllIff(r[1..]);
      assert forall j :: 1 <= j < |r| ==> r[j] == r[1..][j - 1];
    }
  }

  /** The state right after lines 15-17 and the loop of lines 44-47. */
  function Init<T, E>(n: nat, partial: bool): (s: State<T, E>)
    ensures Inv(s)
    ensures s.n == n && s.partial == partial
    ensures |s.results| == n && forall j :: 0 <= j < n ==> s.results[j].None?
    ensures s.finished == 0 && s.armed && !s.timerFired && s.outcome.Pending?
  {
    var slots := seq(n, _ => None);
    FilledNone(slots);
    State(n, partial, slots, 0, true, false, Pending)
  }

  /** Every value the caller received is still in `results` (the array is shared). */
  ghost predicate Agrees<T>(values: seq<Option<T>>, results: seq<Option<T>>)
  {
    |values| == |results| &&
    forall j :: 0 <= j < |values| && values[j].Some? ==> results[j] == values[j]
  }

  /** What holds between any two events. */
  ghost predicate Inv<T, E>(s: State<T, E>)
  {
    && |s.results| == s.n
    && s.finished == Filled(s.results)
    && (s.outcome.TimerThrew? ==> s.timerFired && !s.partial && s.armed)
    && (s.outcome.Resolved? ==>
          !s.armed && Agrees(s.outcome.values, s.results) &&
          (Filled(s.outcome.values) == s.n || (s.timerFired && s.partial)))
    && (!s.armed ==> s.outcome.Settled() && (s.finished == s.n || (s.timerFired && s.partial)))
  }

  /** The events the event loop can still deliver: each promise fulfils at most once, the timer fires once. */
  predicate Enabled<T, E>(s: State<T, E>, ev: Event<T, E>)
  {
    match ev
    case Succeeded(i, _) => i < |s.results| && s.results[i].None?
    case Failed(_) => true
    case TimerFired => !s.timerFired
  }

  /** Calling resolve or reject: only the first call settles the promise. */
  function Settle<T, E>(o: Outcome<T, E>, next: Outcome<T, E>): Outcome<T, E>
  {
    if o.Settled() then o else next
  }

  /** The body of `onFinish` (lines 18-29), run only while the latch is armed. */
  function Finish<T, E>(s: State<T, E>): State<T, E>
    requires s.armed
  {
    if s.finished < s.n && !s.partial then
      // line 23 throws, so line 28 is not reached and the latch stays armed
      s.(outcome := if s.outcome.Pending? then TimerThrew else s.outcome)
    else
      s.(outcome := Settle(s.outcome, Resolved(s.results)), armed := false)
  }

  /** One callback of the event loop. */
  function Step<T, E>(s: State<T, E>, ev: Event<T, E>): State<T, E>
    requires Enabled(s, ev)
  {
    match ev
    case Succeeded(i, v) =>
      var s' := s.(results := s.results[i := Some(v)], finished := s.finished + 1);
      if s'.finished == s'.n && s'.armed then Finish(s') else s'
    case Failed(e) =>
      s.(outcome := Settle(s.outcome, Rejected(e)))
    case TimerFired =>
      var s' := s.(timerFired := true);
      if s'.armed then Finish(s') else s'
  }

  /** A sequence of events the event loop can deliver one after another from `s`. */
  predicate Admissible<T, E>(s: State<T, E>, evs: seq<Event<T, E>>)
    decreases |evs|
  {
    evs == [] || (Enabled(s, evs[0]) && Admissible(Step(s, evs[0]), evs[1..]))
  }

  function Run<T, E>(s: State<T, E>, evs: seq<Event<T, E>>): State<T, E>
    requires Admissible(s, evs)
    decreases |evs|
  {
    if evs == [] then s else Run(Step(s, evs[0]), evs[1..])
  }

  /** No operation fails, and, when partial resolution is on, the timer does not fire. */
  predicate Quiet<T, E>(partial: bool, evs: seq<Event<T, E>>)
  {
    forall k :: 0 <= k < |evs| ==> !evs[k].Failed? && (partial ==> !evs[k].TimerFired?)
  }

  lemma StepPreservesInv<T, E>(s: State<T, E>, ev: Event<T, E>)
    requires Inv(s) && Enabled(s, ev)
    ensures Inv(Step(s, ev))
    ensures Step(s, ev).n == s.n && Step(s, ev).partial == s.partial
  {
    if ev.Succeeded? {
      FilledUpdate(s.results, ev.index, ev.value);
    }
  }

  lemma {:induction false} RunPreservesInv<T, E>(s: State<T, E>, evs: seq<Event<T, E>>)
    requires Inv(s) && Admissible(s, evs)
    ensures Inv(Run(s, evs))
    ensures Run(s, evs).n == s.n && Run(s, evs).partial == s.partial
    decreases |evs|
  {
    if evs != [] {
      StepPreservesInv(s, evs[0]);
      RunPreservesInv(Step(s, evs[0]), evs[1..]);
    }
  }

  /**
   * Lines 33-35: a fulfilment writes its own slot and no other, and counts once,
   * whether or not the outer promise has already settled.
   */
  lemma SuccessWritesOnlyItsSlot<T, E>(s: State<T, E>, i: nat, v: T)
    requires Inv(s) && Enabled(s, Succeeded(i, v))
    ensures var s' := Step(s, Succeeded(i, v));
      && |s'.results| == |s.results|
      && s'.results[i] == Some(v)
      && (forall j :: 0 <= j < |s.results| && j != i ==> s'.results[j] == s.results[j])
      && s'.finished == s.finished + 1
      && s'.finished == Filled(s'.results)
  {
    StepPreservesInv(s, Succeeded(i, v));
  }

  /** Lines 36-37 and 25-26: the last fulfilment, while armed, resolves with every slot filled. */
  lemma FullCompletionResolves<T, E>(s: State<T, E>, i: nat, v: T)
    requires Inv(s) && Enabled(s, Succeeded(i, v)) && s.armed && s.finished + 1 == s.n
    ensures var s' := Step(s, Succeeded(i, v));
      && !s'.armed
      && (forall j :: 0 <= j < s.n ==> s'.results[j].Some?)
      && s'.outcome == if s.outcome.Rejected? then s.outcome else Resolved(s'.results)
  {
    FilledUpdate(s.results, i, v);
    FilledAllIff(s.results[i := Some(v)]);
  }

  /** Lines 19-21: with partial resolution on, the timer resolves with what has completed so far. */
  lemma PartialTimeoutResolves<T, E>(s: State<T, E>)
    requires Inv(s) && s.partial && s.armed && !s.timerFired && s.finished < s.n
    ensures var s' := Step(s, TimerFired);
      && !s'.armed
      && s'.results == s.results
      && s'.outcome == (if s.outcome.Rejected? then s.outcome else Resolved(s.results))
      && Filled(s.results) == s.finished < s.n
  {
  }

  /**
   * Lines 22-23 and 28: with partial resolution off, the timer throws before the latch is
   * cleared. The outer promise is neither resolved nor rejected by it and the latch stays armed.
   */
  lemma NonPartialTimerKeepsLatch<T, E>(s: State<T, E>)
    requires Inv(s) && !s.partial && s.armed && !s.timerFired && s.finished < s.n
    ensures var s' := Step(s, TimerFired);
      && s'.armed
      && s'.results == s.results && s'.finished == s.finished
      && (s'.outcome.Rejected? <==> s.outcome.Rejected?)
      && (s.outcome.Pending? ==> s'.outcome.TimerThrew?)
      && !s'.outcome.Resolved?
  {
  }

  /** Line 40: a rejection rejects the outer promise at once, unless it has already settled. */
  lemma FailureRejectsAtOnce<T, E>(s: State<T, E>, e: E)
    requires Inv(s)
    ensures var s' := Step(s, Failed(e));
      && s'.outcome == (if s.outcome.Settled() then s.outcome else Rejected(e))
      && s'.results == s.results && s'.armed == s.armed
      && Inv(s')
  {
  }

  /** A settled outer promise never changes, whatever events follow. */
  lemma {:induction false} SettledIsFinal<T, E>(s: State<T, E>, evs: seq<Event<T, E>>)
    requires Admissible(s, evs) && s.outcome.Settled()
    ensures Run(s, evs).outcome == s.outcome
    decreases |evs|
  {
    if evs != [] {
      SettledIsFinal(Step(s, evs[0]), evs[1..]);
    }
  }

  /**
   * Lines 28, 36 and 49: once `onFinish` has run to completion the latch is null for good,
   * so no later fulfilment or timer can resolve a second time.
   */
  lemma {:induction false} LatchStaysCleared<T, E>(s: State<T, E>, evs: seq<Event<T, E>>)
    requires Inv(s) && Admissible(s, evs) && !s.armed
    ensures !Run(s, evs).armed && Run(s, evs).outcome == s.outcome && s.outcome.Settled()
    decreases |evs|
  {
    if evs != [] {
      StepPreservesInv(s, evs[0]);
      LatchStaysCleared(Step(s, evs[0]), evs[1..]);
    }
  }

  /** Slots are positional: slot j holds v exactly when it did already, or operation j fulfilled with v. */
  lemma {:induction false} RunSlots<T, E>(s: State<T, E>, evs: seq<Event<T, E>>, j: nat, v: T)
    requires Inv(s) && Admissible(s, evs) && j < s.n
    ensures |Run(s, evs).results| == s.n
    ensures Run(s, evs).results[j] == Some(v) <==> s.results[j] == Some(v) || Succeeded(j, v) in evs
    decreases |evs|
  {
    RunPreservesInv(s, evs);
    if evs != [] {
      StepPreservesInv(s, evs[0]);
      RunSlots(Step(s, evs[0]), evs[1..], j, v);
      assert evs == [evs[0]] + evs[1..];
    }
  }

  /** The timer flag is set exactly when the timer event has been delivered. */
  lemma {:induction false} RunTimerFlag<T, E>(s: State<T, E>, evs: seq<Event<T, E>>)
    requires Admissible(s, evs)
    ensures Run(s, evs).timerFired <==> s.timerFired || exists k :: 0 <= k < |evs| && evs[k].TimerFired?
    decreases |evs|
  {
    if evs != [] {
      RunTimerFlag(Step(s, evs[0]), evs[1..]);
      assert forall k :: 1 <= k < |evs| ==> evs[k] == evs[1..][k - 1];
    }
  }

  /** The slots depend only on which operations fulfilled with which value, not on the order. */
  lemma CompletionOrderIrrelevant<T, E>(n: nat, partial: bool, evs1: seq<Event<T, E>>, evs2: seq<Event<T, E>>)
    requires Admissible(Init(n, partial), evs1) && Admissible(Init(n, partial), evs2)
    requires forall j, v :: Succeeded(j, v) in evs1 <==> Succeeded(j, v) in evs2
    ensures Run(Init(n, partial), evs1).results == Run(Init(n, partial), evs2).results
  {
    var s0: State<T, E> := Init(n, partial);
    var r1, r2 := Run(s0, evs1).results, Run(s0, evs2).results;
    RunPreservesInv(s0, evs1);
    RunPreservesInv(s0, evs2);
    forall j | 0 <= j < n
      ensures r1[j] == r2[j]
    {
      if r1[j].Some? {
        RunSlots(s0, evs1, j, r1[j].value);
        RunSlots(s0, evs2, j, r1[j].value);
      } else if r2[j].Some? {
        RunSlots(s0, evs2, j, r2[j].value);
        RunSlots(s0, evs1, j, r2[j].value);
      }
    }
  }

  /** No operation failed, and the outer promise is either still open with the latch armed, or resolved in full by the counter. */
  ghost predicate Racing<T, E>(s: State<T, E>)
  {
    && Inv(s) && s.n >= 1
    && (s.finished < s.n ==> s.armed && !s.outcome.Settled())
    && (s.finished == s.n ==> s.outcome == Resolved(s.results))
  }

  lemma RacingStep<T, E>(s: State<T, E>, ev: Event<T, E>)
    requires Racing(s) && Enabled(s, ev) && !ev.Failed? && !(ev.TimerFired? && s.partial)
    ensures Racing(Step(s, ev))
  {
    StepPreservesInv(s, ev);
    if ev.Succeeded? {
      assert s.finished < s.n by {
        FilledAllIff(s.results);
      }
      FilledUpdate(s.results, ev.index, ev.value);
    }
  }

  lemma {:induction false} RacingRun<T, E>(s: State<T, E>, evs: seq<Event<T, E>>)
    requires Racing(s) && Admissible(s, evs) && Quiet(s.partial, evs)
    ensures Racing(Run(s, evs))
    decreases |evs|
  {
    if evs != [] {
      RacingStep(s, evs[0]);
      StepPreservesInv(s, evs[0]);
      RacingRun(Step(s, evs[0]), evs[1..]);
    }
  }

  /**
   * Lines 25-26 and 36-37: if no operation fails and all N fulfil, the outer promise resolves
   * with every slot filled, slot j holding operation j's value whatever the completion order.
   * With partial resolution off this holds even when the timer fired first (lines 22-23, 28).
   */
  lemma AllSucceedResolvesInOrder<T, E>(n: nat, partial: bool, evs: seq<Event<T, E>>)
    requires n >= 1 && Admissible(Init(n, partial), evs) && Quiet(partial, evs)
    requires Run(Init(n, partial), evs).finished == n
    ensures var s := Run(Init(n, partial), evs);
      && |s.results| == n
      && s.outcome == Resolved(s.results)
      && (forall j :: 0 <= j < n ==> s.results[j].Some?)
      && (forall j, v :: 0 <= j < n ==> (s.results[j] == Some(v) <==> Succeeded(j, v) in evs))
  {
    var s0: State<T, E> := Init(n, partial);
    RunPreservesInv(s0, evs);
    RacingRun(s0, evs);
    var s := Run(s0, evs);
    FilledAllIff(s.results);
    forall j, v | 0 <= j < n
      ensures s.results[j] == Some(v) <==> Succeeded(j, v) in evs
    {
      RunSlots(s0, evs, j, v);
    }
  }

  /**
   * Lines 19-21 and 49: when the timer fires with k < N operations fulfilled and partial
   * resolution on, the outer promise resolves with exactly those k values at their own
   * positions and N - k empty slots.
   */
  lemma PartialTimeoutFromStart<T, E>(n: nat, evs: seq<Event<T, E>>)
    requires n >= 1 && Admissible(Init(n, true), evs) && Quiet(true, evs)
    requires Run(Init(n, true), evs).finished < n
    ensures var s := Run(Init(n, true), evs);
      && |s.results| == n
      && Enabled(s, TimerFired)
      && Step(s, TimerFired).outcome == Resolved(s.results)
      && Filled(s.results) == s.finished
      && (forall j, v :: 0 <= j < n ==> (s.results[j] == Some(v) <==> Succeeded(j, v) in evs))
  {
    var s0: State<T, E> := Init(n, true);
    RunPreservesInv(s0, evs);
    RacingRun(s0, evs);
    RunTimerFlag(s0, evs);
    var s := Run(s0, evs);
    forall j, v | 0 <= j < n
      ensures s.results[j] == Some(v) <==> Succeeded(j, v) in evs
    {
      RunSlots(s0, evs, j, v);
    }
  }

  /**
   * Lines 19, 26 and 49 with an empty promise list: no fulfilment can reach the counter, so
   * only the timer resolves, with the empty results, whatever the partial flag.
   */
  lemma EmptyListResolvesOnTimer<T, E>(partial: bool)
    ensures Enabled(Init<T, E>(0, partial), TimerFired)
    ensures Step(Init<T, E>(0, partial), TimerFired).outcome == Resolved([])
    ensures !Step(Init<T, E>(0, partial), TimerFired).armed
    ensures forall i: nat, v: T :: !Enabled(Init<T, E>(0, partial), Succeeded(i, v))
  {
  }

  /**
   * Three operations finishing at 10 ms, 500 ms and 20 ms against a 100 ms timer with
   * partial resolution on: the outer promise resolves with the first and third values and
   * the late second fulfilment changes nothing the caller was given.
   */
  lemma ThreeOperationsScenario<T, E>(a: T, b: T, c: T)
    ensures var evs: seq<Event<T, E>> := [Succeeded(0, a), Succeeded(2, c), TimerFired, Succeeded(1, b)];
      && Admissible(Init(3, true), evs)
      && Run(Init(3, true), evs).outcome == Resolved([Some(a), None, Some(c)])
  {
    var s0: State<T, E> := Init(3, true);
    var s1 := Step(s0, Succeeded(0, a));
    var s2 := Step(s1, Succeeded(2, c));
    var s3 := Step(s2, TimerFired);
    assert s3.outcome == Resolved([Some(a), None, Some(c)]);
    var s4 := Step(s3, Succeeded(1, b));
    var evs: seq<Event<T, E>> := [Succeeded(0, a), Succeeded(2, c), TimerFired, Succeeded(1, b)];
    assert Run(s4, []) == s4;
    assert Run(s3, evs[3..]) == s4;
    assert Run(s2, evs[2..]) == s4;
    assert Run(s1, evs[1..]) == s4;
  }

  /** The closure of lines 14-50 as an object; every event method performs one `Step`. */
  class Aggregate<T, E> {
    const n: nat
    const resolvePartial: bool
    var results: seq<Option<T>>
    var finished: nat
    /** `onFinish` is still non-null. */
    var armed: bool
    ghost var timerFired: bool
    var outcome: Outcome<T, E>

    ghost function View(): State<T, E>
      reads this
    {
      State(n, resolvePartial, results, finished, armed, timerFired, outcome)
    }

    ghost predicate Valid()
      reads this
    {
      Inv(View())
    }

    /** Lines 15-17 and 44-47: N empty slots, nothing counted, the latch armed. */
    constructor (n: nat, resolvePartial: bool)
      ensures Valid() && View() == Init(n, resolvePartial)
    {
      var slots: seq<Option<T>> := [];
      var i := 0;
      while i < n
        invariant i <= n && |slots| == i
        invariant forall j :: 0 <= j < i ==> slots[j].None?
      {
        slots := slots + [None];
        i := i + 1;
      }
      this.n := n;
      this.resolvePartial := resolvePartial;
      results := slots;
      finished := 0;
      armed := true;
      timerFired := false;
      outcome := Pending;
      new;
      FilledNone(slots);
      assert slots == seq(n, _ => None);
    }

    /** Lines 18-29. */
    method RunOnFinish()
      requires armed
      modifies this
      ensures View() == Finish(old(View()))
    {
      if finished < n && !resolvePartial {
        // the throw of line 23: the latch is not cleared
        if outcome.Pending? {
          outcome := TimerThrew;
        }
        return;
      }
      if !outcome.Settled() {
        outcome := Resolved(results);
      }
      armed := false;
    }

    /** Lines 33-38: promise i fulfilled with v. */
    method OnSuccess(i: nat, v: T)
      requires Valid() && i < n && results[i].None?
      modifies this
      ensures Valid() && View() == Step(old(View()), Succeeded(i, v))
      ensures results == old(results)[i := Some(v)] && finished == old(finished) + 1
    {
      StepPreservesInv(View(), Succeeded(i, v));
      results := results[i := Some(v)];
      finished := finished + 1;
      if finished == n && armed {
        RunOnFinish();
      }
    }

    /** Line 40: some promise rejected with e. */
    method OnFailure(e: E)
      requires Valid()
      modifies this
      ensures Valid() && View() == Step(old(View()), Failed(e))
    {
      StepPreservesInv(View(), Failed(e));
      if !outcome.Settled() {
        outcome := Rejected(e);
      }
    }

    /** Line 49: the timer fired. */
    method OnTimer()
      requires Valid() && !timerFired
      modifies this
      ensures Valid() && View() == Step(old(View()), TimerFired)
    {
      StepPreservesInv(View(), TimerFired);
      timerFired := true;
      if armed {
        RunOnFinish();
      }
    }
  }

  /** The three-operation scenario driven through the class. */
  method ThreeOperationsOnAggregate<T, E>(a: T, b: T, c: T) returns (o: Outcome<T, E>)
    ensures o == Resolved([Some(a), None, Some(c)])
  {
    var w := new Aggregate<T, E>(3, true);
    w.OnSuccess(0, a);
    w.OnSuccess(2, c);
    w.OnTimer();
    w.OnSuccess(1, b);
    o := w.outcome;
  }
}
