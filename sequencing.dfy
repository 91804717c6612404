/** Choosing the next stimulus and deciding that the session is over
    (`get_next_test`, `is_trial_done` and class `Test` in start_test.py),
    under the two strategies "random" and "staircase". */
module Sequencing {
  import opened Configuration

  /** One stimulus configuration and the responses recorded for it; volume
      and frequency never change, the history only grows. */
  class Test {
    const volume: real
    const frequency: int
    var sensedHistory: seq<int>

    constructor (volume: real, frequency: int)
      ensures this.volume == volume && this.frequency == frequency
      ensures sensedHistory == []
    {
      this.volume := volume;
      this.frequency := frequency;
      sensedHistory := [];
    }
  }

  /** No record occurs twice in the list. */
  ghost predicate Distinct(tests: seq<Test>)
  {
    forall a, b :: 0 <= a < b < |tests| ==> tests[a] != tests[b]
  }

  /** The histories of all records, in list order. */
  function Histories(tests: seq<Test>): seq<seq<int>>
    reads tests
  {
    seq(|tests|, i reads tests requires 0 <= i < |tests| => tests[i].sensedHistory)
  }

  /** `hs` lists the histories of the records, position by position. */
  ghost predicate HistoriesAre(tests: seq<Test>, hs: seq<seq<int>>)
    reads tests
  {
    |hs| == |tests| && forall i :: 0 <= i < |tests| ==> tests[i].sensedHistory == hs[i]
  }

  lemma HistoriesAreHistories(tests: seq<Test>, hs: seq<seq<int>>)
    ensures HistoriesAre(tests, hs) <==> hs == Histories(tests)
  {
  }

  // ---------------------------------------------------------------------------
  // Random strategy
  // ---------------------------------------------------------------------------

  /** Python's `sum` of a history. */
  function Sum(h: seq<int>): int
  {
    if h == [] then 0 else h[0] + Sum(h[1..])
  }

  /** Every recorded response is 0 (not sensed) or 1 (sensed). */
  predicate Binary(h: seq<int>)
  {
    forall i :: 0 <= i < |h| ==> h[i] == 0 || h[i] == 1
  }

  /** A history of 0/1 responses sums to its number of sensed responses,
      which lies between 0 and its length. */
  lemma {:induction false} SumBounds(h: seq<int>)
    requires Binary(h)
    ensures 0 <= Sum(h) <= |h|
  {
    if h != [] {
      SumBounds(h[1..]);
    }
  }

  lemma {:induction false} SumAppend(h: seq<int>, v: int)
    ensures Sum(h + [v]) == Sum(h) + v
  {
    if h != [] {
      assert (h + [v])[1..] == h[1..] + [v];
      SumAppend(h[1..], v);
    }
  }

  /** The test at start_test.py:20-21 that the rejection loop applies to a drawn record. */
  predicate Eligible(h: seq<int>, roundsMax: int, roundsMin: int)
  {
    |h| < roundsMax && (Sum(h) < roundsMin || |h| < roundsMin)
  }

  /** The test at start_test.py:57-58 that keeps `is_trial_done` false. */
  predicate Unfinished(h: seq<int>, roundsMax: int, roundsMin: int)
  {
    |h| < roundsMax && Sum(h) < roundsMin
  }

  /** The value `is_trial_done` computes in random mode. */
  predicate RandomDone(hs: seq<seq<int>>, roundsMax: int, roundsMin: int)
  {
    forall i :: 0 <= i < |hs| ==> !Unfinished(hs[i], roundsMax, roundsMin)
  }

  /** For 0/1 histories the selection test and the completion test agree:
      a record may be drawn exactly when it keeps the session unfinished. */
  lemma EligibleIffUnfinished(h: seq<int>, roundsMax: int, roundsMin: int)
    requires Binary(h)
    ensures Eligible(h, roundsMax, roundsMin) <==> Unfinished(h, roundsMax, roundsMin)
  {
    SumBounds(h);
  }

  /** The random session is unfinished exactly when some record can still be
      drawn, so the rejection loop is only entered when it has a valid choice. */
  lemma NotDoneIffSomeEligible(hs: seq<seq<int>>, roundsMax: int, roundsMin: int)
    requires forall i :: 0 <= i < |hs| ==> Binary(hs[i])
    ensures !RandomDone(hs, roundsMax, roundsMin) <==>
            exists i :: 0 <= i < |hs| && Eligible(hs[i], roundsMax, roundsMin)
  {
    forall i | 0 <= i < |hs|
      ensures Eligible(hs[i], roundsMax, roundsMin) <==> Unfinished(hs[i], roundsMax, roundsMin)
    {
      EligibleIffUnfinished(hs[i], roundsMax, roundsMin);
    }
  }

  /** `get_next_test` in random mode: some record that passes the test at
      :20-21. The draws of `random.randint` become a choice among the
      records that the loop could accept; nothing is changed. */
  method NextRandom(c: Config, tests: seq<Test>) returns (next: Test)
    requires exists i :: 0 <= i < |tests| && Eligible(tests[i].sensedHistory, c.roundsMax, c.roundsMin)
    ensures next in tests
    ensures Eligible(next.sensedHistory, c.roundsMax, c.roundsMin)
  {
    var i :| 0 <= i < |tests| && Eligible(tests[i].sensedHistory, c.roundsMax, c.roundsMin);
    next := tests[i];
  }

  /** `is_trial_done` in random mode: the loop clears DONE for every record
      that is still unfinished. */
  method IsRandomDone(c: Config, tests: seq<Test>) returns (done: bool)
    ensures done == RandomDone(Histories(tests), c.roundsMax, c.roundsMin)
  {
    done := true;
    for k := 0 to |tests|
      invariant done <==> forall i :: 0 <= i < k ==> !Unfinished(tests[i].sensedHistory, c.roundsMax, c.roundsMin)
    {
      var h := tests[k].sensedHistory;
      if |h| < c.roundsMax && Sum(h) < c.roundsMin {
        done := false;
      }
    }
    assert forall i :: 0 <= i < |tests| ==> Histories(tests)[i] == tests[i].sensedHistory;
  }

  // ---------------------------------------------------------------------------
  // Staircase strategy
  // ---------------------------------------------------------------------------

  function Abs(x: int): nat
  {
    if x < 0 then -x else x
  }

  /** `int(step - step/10)` with Python's true division and truncating
      `int`: the step is cut by a tenth, rounded toward zero. */
  function Shrink(step: int): (r: int)
    ensures r == if step >= 0 then 9 * step / 10 else -(9 * -step / 10)
    ensures 0 < step ==> 0 <= r < step
    ensures step < 0 ==> step < r <= 0
    ensures step == 0 ==> r == 0
  {
    var x := step as real - step as real / 10.0;
    assert step >= 0 ==> x == (9 * step / 10) as real + (9 * step % 10) as real / 10.0;
    assert step < 0 ==> -x == (9 * -step / 10) as real + (9 * -step % 10) as real / 10.0;
    Truncate(x)
  }

  /** The test at start_test.py:29-30: the step has fallen under the minimum
      while descending; the one-time switch to ascending is due. */
  predicate FlipDue(step: int, minStep: int, mode: Direction)
  {
    Abs(step) < Abs(minStep) && mode == TopToBottom
  }

  /** The test at start_test.py:63-64: the step has fallen under the
      minimum while ascending; the session is over. */
  predicate StaircaseDone(step: int, minStep: int, mode: Direction)
  {
    Abs(step) < Abs(minStep) && mode == BottomToTop
  }

  /** The controller state `get_next_test` updates: the current step and the mode. */
  datatype Controller = Controller(step: int, mode: Direction)

  /** What `get_next_test` reads of the last record: its frequency and history. */
  datatype Previous = Previous(frequency: int, history: seq<int>)

  function LastRecord(tests: seq<Test>): Option<Previous>
    reads tests
  {
    if tests == [] then None
    else Some(Previous(tests[|tests| - 1].frequency, tests[|tests| - 1].sensedHistory))
  }

  /** Whether the staircase rule reads the last response of the last record
      (start_test.py:36, :44): it does unless the list is empty or the flip is due. */
  predicate ReadsLastResponse(ctl: Controller, p: StairParams, prev: Option<Previous>)
  {
    prev.Some? && !FlipDue(ctl.step, p.minStep, ctl.mode)
  }

  /** The staircase rule of start_test.py:26-49 on values: the new controller
      state and the frequency of the record to append. */
  function Advance(p: StairParams, ctl: Controller, prev: Option<Previous>): (r: (Controller, int))
    requires ReadsLastResponse(ctl, p, prev) ==> |prev.value.history| > 0
    ensures r.0.mode == ctl.mode || (prev.Some? && FlipDue(ctl.step, p.minStep, ctl.mode) && r.0.mode == BottomToTop)
    ensures r.0.step == ctl.step || r.0.step == Shrink(ctl.step) || r.0.step == p.maxStep
    ensures prev.None? ==> r.1 == p.top
  {
    if prev.None? then (ctl, p.top)
    else if FlipDue(ctl.step, p.minStep, ctl.mode) then (Controller(p.maxStep, BottomToTop), p.bottom)
    else
      var f := prev.value.frequency;
      var sensed := prev.value.history[|prev.value.history| - 1] != 0;
      match ctl.mode
      case BottomToTop =>
        if !sensed then (ctl, f + ctl.step) else (Controller(Shrink(ctl.step), BottomToTop), f - ctl.step)
      case TopToBottom =>
        if !sensed then (ctl, f - ctl.step) else (Controller(Shrink(ctl.step), TopToBottom), f + ctl.step)
  }

  /** The step never grows beyond the largest step: the flip resets it to
      exactly that, and shrinking only makes it smaller in magnitude. */
  lemma AdvanceStepBound(p: StairParams, ctl: Controller, prev: Option<Previous>)
    requires ReadsLastResponse(ctl, p, prev) ==> |prev.value.history| > 0
    requires Abs(ctl.step) <= Abs(p.maxStep)
    ensures Abs(Advance(p, ctl, prev).0.step) <= Abs(p.maxStep)
  {
  }

  /** Once ascending, always ascending: the mode is never set back to top_to_bottom. */
  lemma AdvanceKeepsAscending(p: StairParams, ctl: Controller, prev: Option<Previous>)
    requires ReadsLastResponse(ctl, p, prev) ==> |prev.value.history| > 0
    requires ctl.mode == BottomToTop
    ensures Advance(p, ctl, prev).0.mode == BottomToTop
  {
  }

  /** The flip (start_test.py:29-33) restarts at the bottom anchor with the
      largest step, whatever the last record's frequency and responses were. */
  lemma AdvanceFlip(p: StairParams, ctl: Controller, prev: Previous)
    requires FlipDue(ctl.step, p.minStep, ctl.mode)
    ensures Advance(p, ctl, Some(prev)) == (Controller(p.maxStep, BottomToTop), p.bottom)
  {
  }

  /** Away from the flip, the new frequency is one step away from the last
      one; the direction of the move is reversed by a sensed response, and
      only a sensed response changes the step, shrinking it. */
  lemma AdvanceMove(p: StairParams, ctl: Controller, prev: Previous)
    requires !FlipDue(ctl.step, p.minStep, ctl.mode) && |prev.history| > 0
    ensures var (ctl', f) := Advance(p, ctl, Some(prev));
            var sensed := prev.history[|prev.history| - 1] != 0;
            var down := (ctl.mode == TopToBottom) != sensed;
            && ctl'.mode == ctl.mode
            && f == (if down then prev.frequency - ctl.step else prev.frequency + ctl.step)
            && (sensed ==> ctl'.step == Shrink(ctl.step))
            && (!sensed ==> ctl'.step == ctl.step)
  {
  }

  /** A measure of how far the staircase is from its end: the step's
      magnitude, plus more than any step while the flip is still ahead. */
  function Potential(p: StairParams, ctl: Controller): nat
  {
    Abs(ctl.step) + (if ctl.mode == TopToBottom then Abs(p.maxStep) + 1 else 0)
  }

  /** With a non-zero smallest step, a call made while the session is not
      over never raises the measure; the flip and every sensed response
      lower it strictly. So the number of sensed responses a staircase
      session can record is bounded. */
  lemma {:induction false} AdvanceProgress(p: StairParams, ctl: Controller, prev: Option<Previous>)
    requires ReadsLastResponse(ctl, p, prev) ==> |prev.value.history| > 0
    requires p.minStep != 0 && Abs(ctl.step) <= Abs(p.maxStep)
    requires !StaircaseDone(ctl.step, p.minStep, ctl.mode)
    ensures Potential(p, Advance(p, ctl, prev).0) <= Potential(p, ctl)
    ensures prev.Some? && FlipDue(ctl.step, p.minStep, ctl.mode) ==>
              Potential(p, Advance(p, ctl, prev).0) < Potential(p, ctl)
    ensures ReadsLastResponse(ctl, p, prev) && prev.value.history[|prev.value.history| - 1] != 0 ==>
              Potential(p, Advance(p, ctl, prev).0) < Potential(p, ctl)
  {
    if ReadsLastResponse(ctl, p, prev) {
      assert Abs(ctl.step) >= Abs(p.minStep) > 0;
      var s := ctl.step;
      assert Abs(Shrink(s)) < Abs(s);
    }
  }

  /** A worked example: top 100, bottom 0, steps from 50 down to 5. The
      first record is at 100; a miss moves down to 50; a hit there moves
      back up by the step still in force, to 100, and only then cuts the
      step to 45; a miss at 100 then moves down by 45, to 55. */
  lemma StaircaseExample()
    ensures Advance(StairParams(100, 0, 50, 5), Controller(50, TopToBottom), None)
            == (Controller(50, TopToBottom), 100)
    ensures Advance(StairParams(100, 0, 50, 5), Controller(50, TopToBottom), Some(Previous(100, [0])))
            == (Controller(50, TopToBottom), 50)
    ensures Advance(StairParams(100, 0, 50, 5), Controller(50, TopToBottom), Some(Previous(50, [1])))
            == (Controller(45, TopToBottom), 100)
    ensures Advance(StairParams(100, 0, 50, 5), Controller(45, TopToBottom), Some(Previous(100, [0])))
            == (Controller(45, TopToBottom), 55)
  {
    assert Shrink(50) == 45;
  }

  /** `get_next_test` in staircase mode: appends exactly one fresh record of
      volume 1.0 with an empty history, returns it, and leaves the controller
      in the state the staircase rule gives. */
  method NextStaircase(c: Config, tests: seq<Test>) returns (tests': seq<Test>, next: Test)
    requires c.staircaseMode.Some?
    requires ReadsLastResponse(Controller(c.currentStep, c.staircaseMode.value), c.Params(), LastRecord(tests)) ==>
               |tests[|tests| - 1].sensedHistory| > 0
    modifies c
    ensures fresh(next)
    ensures tests' == tests + [next]
    ensures next.volume == 1.0 && next.sensedHistory == []
    ensures c.staircaseMode.Some?
    ensures (Controller(c.currentStep, c.staircaseMode.value), next.frequency) ==
            Advance(c.Params(), old(Controller(c.currentStep, c.staircaseMode.value)), LastRecord(tests))
  {
    var mode := c.staircaseMode.value;
    if |tests| == 0 {
      next := new Test(1.0, c.staircaseTopFrequency);
    } else if Abs(c.currentStep) < Abs(c.staircaseMinStep) && mode == TopToBottom {
      c.staircaseMode := Some(BottomToTop);
      c.currentStep := c.staircaseMaxStep;
      next := new Test(1.0, c.staircaseBottomFrequency);
    } else {
      var last := tests[|tests| - 1];
      var response := last.sensedHistory[|last.sensedHistory| - 1];
      if mode == BottomToTop {
        if response == 0 {
          next := new Test(1.0, last.frequency + c.currentStep);
        } else {
          next := new Test(1.0, last.frequency - c.currentStep);
          c.currentStep := Shrink(c.currentStep);
        }
      } else {
        if response == 0 {
          next := new Test(1.0, last.frequency - c.currentStep);
        } else {
          next := new Test(1.0, last.frequency + c.currentStep);
          c.currentStep := Shrink(c.currentStep);
        }
      }
    }
    tests' := tests + [next];
  }

  // ---------------------------------------------------------------------------
  // Both strategies
  // ---------------------------------------------------------------------------

  /** `get_next_test`: dispatch on `test_mode`; for any other mode it returns None. */
  method NextTest(c: Config, tests: seq<Test>) returns (tests': seq<Test>, next: Test?)
    requires c.Valid()
    requires c.testMode == RandomMode ==>
               exists i :: 0 <= i < |tests| && Eligible(tests[i].sensedHistory, c.roundsMax, c.roundsMin)
    requires c.testMode == StaircaseMode &&
             ReadsLastResponse(Controller(c.currentStep, c.staircaseMode.value), c.Params(), LastRecord(tests)) ==>
               |tests[|tests| - 1].sensedHistory| > 0
    modifies c
    ensures c.Valid()
    ensures c.testMode != StaircaseMode ==> unchanged(c)
    ensures c.testMode == RandomMode ==>
              tests' == tests && next != null && next in tests &&
              Eligible(next.sensedHistory, c.roundsMax, c.roundsMin)
    ensures c.testMode == StaircaseMode ==>
              next != null && fresh(next) && tests' == tests + [next] &&
              next.volume == 1.0 && next.sensedHistory == [] &&
              (Controller(c.currentStep, c.staircaseMode.value), next.frequency) ==
              Advance(c.Params(), old(Controller(c.currentStep, c.staircaseMode.value)), LastRecord(tests))
    ensures c.testMode != RandomMode && c.testMode != StaircaseMode ==> tests' == tests && next == null
  {
    if c.testMode == RandomMode {
      next := NextRandom(c, tests);
      tests' := tests;
    } else if c.testMode == StaircaseMode {
      tests', next := NextStaircase(c, tests);
    } else {
      tests', next := tests, null;
    }
  }

  /** The value `is_trial_done` returns when the records hold the histories
      `hs`; for a mode other than the two it returns None, which its caller
      reads as false. */
  predicate Finished(c: Config, hs: seq<seq<int>>)
    reads c
    ensures Finished(c, hs) ==> c.testMode == RandomMode || c.testMode == StaircaseMode
    ensures c.testMode == RandomMode ==>
              (Finished(c, hs) <==> forall i :: 0 <= i < |hs| ==> |hs[i]| >= c.roundsMax || Sum(hs[i]) >= c.roundsMin)
    ensures c.testMode == StaircaseMode && Finished(c, hs) ==>
              c.staircaseMode == Some(BottomToTop) && Abs(c.currentStep) < Abs(c.staircaseMinStep)
  {
    if c.testMode == RandomMode then RandomDone(hs, c.roundsMax, c.roundsMin)
    else if c.testMode == StaircaseMode then
      c.staircaseMode.Some? && StaircaseDone(c.currentStep, c.staircaseMinStep, c.staircaseMode.value)
    else false
  }

  /** `is_trial_done`: reads the records and the controller state, changes nothing. */
  method IsTrialDone(c: Config, tests: seq<Test>) returns (done: bool)
    requires c.Valid()
    ensures done == Finished(c, Histories(tests))
  {
    if c.testMode == RandomMode {
      done := IsRandomDone(c, tests);
    } else if c.testMode == StaircaseMode {
      var mode := c.staircaseMode.value;
      done := Abs(c.currentStep) < Abs(c.staircaseMinStep) && mode == BottomToTop;
    } else {
      done := false;
    }
  }
}
