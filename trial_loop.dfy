/** The presentation loop of `main` (start_test.py:106-213): the per-trial
    state machine driven by elapsed time, the recording of each response on
    the active record, and the hand-over to the sequencing strategy. */
module TrialLoop {
  import opened Configuration
  import opened Sequencing

  /** `State`: NO_TEST, OUTPUT_BEEP, OUTPUT_STIMULI. */
  datatype State = NoTest | OutputBeep | OutputStimuli

  /** The part of the loop state that the elapsed-time tests read and write. */
  datatype Phase = Phase(state: State, lastTestStart: real)

  /** start_test.py:147: a new trial starts with the beep. */
  predicate BeepDue(ph: Phase, now: real, t: Timing)
  {
    now - ph.lastTestStart > t.testDuration && ph.state == NoTest
  }

  /** start_test.py:170: the stimulus follows the beep and its pause. */
  predicate StimuliDue(ph: Phase, now: real, t: Timing)
  {
    now - ph.lastTestStart > t.beepDuration + t.pauseBeepStimuli && ph.state == OutputBeep
  }

  /** start_test.py:176: the trial is over and its response is recorded. */
  predicate ResolutionDue(ph: Phase, now: real, t: Timing)
  {
    now - ph.lastTestStart >= t.testDuration && ph.state == OutputStimuli
  }

  /** The order of the three states within one trial. */
  function Stage(s: State): nat
  {
    match s
    case NoTest => 0
    case OutputBeep => 1
    case OutputStimuli => 2
  }

  /** The first two tests of one loop iteration (start_test.py:147-174),
      applied one after the other, as the code does. The clock never moves
      a trial backwards; the start time changes only when a trial starts,
      and then to the clock reading; the stimulus starts only once the beep
      and its pause are over. */
  function Clock(ph: Phase, now: real, t: Timing): (r: Phase)
    ensures Stage(ph.state) <= Stage(r.state)
    ensures r.lastTestStart == ph.lastTestStart ||
            (ph.state == NoTest && r.state != NoTest && r.lastTestStart == now)
    ensures r.state == OutputStimuli && ph.state != OutputStimuli ==>
              now - r.lastTestStart > t.beepDuration + t.pauseBeepStimuli
  {
    var ph1 := if BeepDue(ph, now, t) then Phase(OutputBeep, now) else ph;
    if StimuliDue(ph1, now, t) then Phase(OutputStimuli, ph1.lastTestStart) else ph1
  }

  /** The trial state after one loop iteration: the clock, then the
      resolution test (start_test.py:147-179). The resolution keeps the
      start time and only ever returns to NO_TEST; a trial that was under
      way ends only once a whole trial's length has passed since its start. */
  function TickPhase(ph: Phase, now: real, t: Timing): (r: Phase)
    ensures r.lastTestStart == Clock(ph, now, t).lastTestStart
    ensures r.state != NoTest ==> r == Clock(ph, now, t)
    ensures r.state == NoTest && ph.state != NoTest ==> now - r.lastTestStart >= t.testDuration
  {
    var ph1 := Clock(ph, now, t);
    if ResolutionDue(ph1, now, t) then Phase(NoTest, ph1.lastTestStart) else ph1
  }

  /** One tick's inputs: the clock reading (seconds), whether the "Stimuli
      sensed" button was pressed, and whether the window was closed. */
  datatype Input = Input(now: real, pressed: bool, quit: bool)

  /** The trial state after one loop iteration per clock reading of the
      first `n` inputs, in order. */
  function Phases(ph: Phase, ins: seq<Input>, n: nat, t: Timing): Phase
    requires n <= |ins|
  {
    if n == 0 then ph else TickPhase(Phases(ph, ins, n - 1, t), ins[n - 1].now, t)
  }

  /** How many of the iterations driven by the first `n` inputs resolve a
      trial: those whose clock leaves the trial in OUTPUT_STIMULI with its
      time up (start_test.py:176). */
  function Resolutions(ph: Phase, ins: seq<Input>, n: nat, t: Timing): nat
    requires n <= |ins|
  {
    if n == 0 then 0
    else
      var now := ins[n - 1].now;
      Resolutions(ph, ins, n - 1, t) + (if ResolutionDue(Clock(Phases(ph, ins, n - 1, t), now, t), now, t) then 1 else 0)
  }

  /** Whether one of the first `n` inputs closes the window (start_test.py:197). */
  predicate Quits(ins: seq<Input>, n: nat)
    requires n <= |ins|
  {
    n > 0 && (ins[n - 1].quit || Quits(ins, n - 1))
  }

  /** `Quits` holds exactly when some input before position `n` is a quit. */
  lemma {:induction false} QuitsSome(ins: seq<Input>, n: nat)
    requires n <= |ins|
    ensures Quits(ins, n) <==> exists k :: 0 <= k < n && ins[k].quit
  {
    if n > 0 {
      QuitsSome(ins, n - 1);
      if ins[n - 1].quit {
        assert 0 <= n - 1 < n && ins[n - 1].quit;
      }
    }
  }

  /** From NO_TEST the only move is to OUTPUT_BEEP, taken exactly when more
      than a trial's duration has passed since the last start; it restarts
      the clock, and nothing is resolved in the same iteration. */
  lemma ClockFromNoTest(ph: Phase, now: real, t: Timing)
    requires ph.state == NoTest && t.beepDuration + t.pauseBeepStimuli >= 0.0
    ensures Clock(ph, now, t) ==
            if now - ph.lastTestStart > t.testDuration then Phase(OutputBeep, now) else ph
    ensures !ResolutionDue(Clock(ph, now, t), now, t)
  {
  }

  /** From OUTPUT_BEEP the only move is to OUTPUT_STIMULI, taken exactly when
      more than the beep and the pause after it have passed; the start time is kept. */
  lemma ClockFromBeep(ph: Phase, now: real, t: Timing)
    requires ph.state == OutputBeep
    ensures Clock(ph, now, t) ==
            if now - ph.lastTestStart > t.beepDuration + t.pauseBeepStimuli
            then Phase(OutputStimuli, ph.lastTestStart) else ph
  {
  }

  /** In OUTPUT_STIMULI the clock changes nothing, and the trial is resolved
      from the moment a whole trial's duration has passed since its start, not before. */
  lemma ClockFromStimuli(ph: Phase, now: real, t: Timing)
    requires ph.state == OutputStimuli
    ensures Clock(ph, now, t) == ph
    ensures ResolutionDue(ph, now, t) <==> now >= ph.lastTestStart + t.testDuration
  {
  }

  /** With beep 0.1 s, pause 0.05 s, stimulus 0.2 s and end pause 0.1 s,
      the trial started at `t0` resolves at `t0 + 0.45` and not before. */
  lemma TimingExample(t0: real, now: real)
    ensures var t := Timing(0.05 + 0.1 + 0.2 + 0.1, 0.1, 0.05);
            ResolutionDue(Phase(OutputStimuli, t0), now, t) <==> now >= t0 + 0.45
  {
  }

  /** The number of responses recorded over all histories. */
  function Responses(hs: seq<seq<int>>): nat
  {
    if hs == [] then 0 else |hs[0]| + Responses(hs[1..])
  }

  /** Appending one response to one history adds one to the count. */
  lemma {:induction false} ResponsesUpdate(hs: seq<seq<int>>, i: nat, v: int)
    requires i < |hs|
    ensures Responses(hs[i := hs[i] + [v]]) == Responses(hs) + 1
    decreases |hs|
  {
    if i == 0 {
      assert hs[i := hs[i] + [v]][1..] == hs[1..];
    } else {
      assert hs[i := hs[i] + [v]][1..] == hs[1..][i - 1 := hs[i] + [v]];
      ResponsesUpdate(hs[1..], i - 1, v);
    }
  }

  /** Appending a record with an empty history leaves the count unchanged. */
  lemma {:induction false} ResponsesSnoc(hs: seq<seq<int>>)
    ensures Responses(hs + [[]]) == Responses(hs)
    decreases |hs|
  {
    if hs != [] {
      assert (hs + [[]])[1..] == hs[1..] + [[]];
      ResponsesSnoc(hs[1..]);
    }
  }

  /** A fresh list of records holds no responses. */
  lemma {:induction false} ResponsesZero(n: nat)
    ensures Responses(seq(n, _ => [])) == 0
  {
    if n > 0 {
      var empty: seq<seq<int>> := seq(n, _ => []);
      assert empty[1..] == seq(n - 1, _ => []);
      ResponsesZero(n - 1);
    }
  }

  /** `main`'s records in random mode (start_test.py:109-114): one fresh
      record per grid position, in position order. */
  method GridTests(c: Config) returns (tests: seq<Test>)
    requires |c.volumes| == |c.frequencies|
    ensures |tests| == |c.volumes|
    ensures Distinct(tests)
    ensures forall i :: 0 <= i < |tests| ==>
              fresh(tests[i]) && tests[i].volume == c.volumes[i] &&
              tests[i].frequency == c.frequencies[i] && tests[i].sensedHistory == []
  {
    tests := [];
    for i := 0 to |c.volumes|
      invariant |tests| == i
      invariant Distinct(tests)
      invariant forall k :: 0 <= k < i ==>
                  fresh(tests[k]) && tests[k].volume == c.volumes[k] &&
                  tests[k].frequency == c.frequencies[k] && tests[k].sensedHistory == []
    {
      var t := new Test(c.volumes[i], c.frequencies[i]);
      tests := tests + [t];
    }
  }

  /** start_test.py:178: append one response to the history of `t`, found at
      position `i` of the records; the other records keep theirs. */
  method Record(t: Test, v: int, ghost tests: seq<Test>, ghost i: nat, ghost hs: seq<seq<int>>)
    requires i < |tests| && tests[i] == t && Distinct(tests) && HistoriesAre(tests, hs)
    modifies t
    ensures t.sensedHistory == old(t.sensedHistory) + [v]
    ensures HistoriesAre(tests, hs[i := hs[i] + [v]])
  {
    t.sensedHistory := t.sensedHistory + [v];
  }

  /** Every history holds only 0/1 responses. */
  predicate AllBinary(hs: seq<seq<int>>)
  {
    forall i :: 0 <= i < |hs| ==> Binary(hs[i])
  }

  /** Random mode: no record holds more than `rounds_max` responses. */
  predicate RandomHistories(hs: seq<seq<int>>, roundsMax: int)
  {
    forall i :: 0 <= i < |hs| ==> |hs[i]| <= roundsMax
  }

  /** Staircase mode: every record but the last holds exactly one response,
      the last holds `last` of them. */
  predicate StaircaseHistories(hs: seq<seq<int>>, last: nat)
  {
    && |hs| >= 1
    && (forall i :: 0 <= i < |hs| - 1 ==> |hs[i]| == 1)
    && |hs[|hs| - 1]| == last
  }

  /** Random mode: the records are the grid positions, in order. */
  predicate GridRecords(tests: seq<Test>, c: Config)
  {
    && |tests| == |c.volumes| && |tests| == |c.frequencies|
    && forall i :: 0 <= i < |tests| ==>
         tests[i].volume == c.volumes[i] && tests[i].frequency == c.frequencies[i]
  }

  /** Recording a 0/1 response on a record that may be drawn keeps every
      history binary and within `rounds_max`. */
  lemma RecordRandom(hs: seq<seq<int>>, i: nat, v: int, roundsMax: int, roundsMin: int)
    requires AllBinary(hs) && RandomHistories(hs, roundsMax)
    requires i < |hs| && Eligible(hs[i], roundsMax, roundsMin) && (v == 0 || v == 1)
    ensures AllBinary(hs[i := hs[i] + [v]]) && RandomHistories(hs[i := hs[i] + [v]], roundsMax)
  {
    assert Binary(hs[i] + [v]);
  }

  /** Recording the response on the last staircase record completes it. */
  lemma RecordStaircase(hs: seq<seq<int>>, v: int)
    requires AllBinary(hs) && StaircaseHistories(hs, 0) && (v == 0 || v == 1)
    ensures AllBinary(hs[|hs| - 1 := hs[|hs| - 1] + [v]])
    ensures StaircaseHistories(hs[|hs| - 1 := hs[|hs| - 1] + [v]], 1)
  {
    assert Binary(hs[|hs| - 1] + [v]);
  }

  /** A fresh staircase record after a completed one. */
  lemma ExtendStaircase(hs: seq<seq<int>>)
    requires AllBinary(hs) && StaircaseHistories(hs, 1)
    ensures AllBinary(hs + [[]]) && StaircaseHistories(hs + [[]], 0)
  {
    assert Binary([]);
  }

  /** Every history of `a` is a prefix of the history at the same position
      in `b`, which may hold more records. */
  predicate Extends(a: seq<seq<int>>, b: seq<seq<int>>)
  {
    |a| <= |b| && forall i :: 0 <= i < |a| ==> a[i] <= b[i]
  }

  /** The part of a session that only moves forward: the records, their
      histories, the count of resolved trials and the staircase mode. */
  datatype Snapshot = Snapshot(tests: seq<Test>, hist: seq<seq<int>>, count: nat, mode: Option<Direction>)

  /** `b` comes no earlier than `a`: the records and every history only
      grow, the count never falls, and an ascending staircase stays
      ascending. */
  predicate Later(a: Snapshot, b: Snapshot)
  {
    && a.tests <= b.tests
    && Extends(a.hist, b.hist)
    && a.count <= b.count
    && (a.mode == Some(BottomToTop) ==> b.mode == Some(BottomToTop))
  }

  /** Coming later is transitive. */
  lemma LaterTrans(a: Snapshot, b: Snapshot, c: Snapshot)
    requires Later(a, b) && Later(b, c)
    ensures Later(a, c)
  {
    forall i | 0 <= i < |a.hist|
      ensures a.hist[i] <= c.hist[i]
    {
      assert a.hist[i] <= b.hist[i] && b.hist[i] <= c.hist[i];
    }
  }

  /** The local state of `main`: the records, the trial state machine, the
      active record (`next_test`, an alias of one of the records, found at
      position `cur`) and the count of resolved trials. `exited` stands for
      the `exit()` call. */
  class Session {
    const config: Config
    var tests: seq<Test>
    var state: State
    var lastTestStart: real
    var stimuliSensed: bool
    var nextTest: Test?
    var testCount: nat
    var running: bool
    var exited: bool
    /** The histories of the records, in list order. */
    ghost var hist: seq<seq<int>>
    /** The position of the active record among the records. */
    ghost var cur: nat

    /** The invariant the records keep; `resolved` says whether the active
        record's response has been recorded yet. */
    ghost predicate Records(resolved: bool)
      reads this`tests, this`testCount, this`hist, config, tests
    {
      && config.Valid()
      && (config.testMode == RandomMode || config.testMode == StaircaseMode)
      && Distinct(tests)
      && HistoriesAre(tests, hist)
      && AllBinary(hist)
      && Responses(hist) == testCount + (if resolved then 1 else 0)
      && (config.testMode == RandomMode ==> GridRecords(tests, config) && RandomHistories(hist, config.roundsMax))
      && (config.testMode == StaircaseMode ==>
            StaircaseHistories(hist, if resolved then 1 else 0) &&
            Abs(config.currentStep) <= Abs(config.staircaseMaxStep))
    }

    /** Between trials: either a record is active, and it is one the
        strategy may present, or the session is over because `is_trial_done`
        said so after the last recorded response. */
    ghost predicate Valid()
      reads this`tests, this`nextTest, this`testCount, this`exited, this`hist, this`cur, config, tests
    {
      && Records(exited)
      && (exited <==> nextTest == null)
      && (exited ==> Finished(config, hist))
      && (!exited ==>
            && cur < |tests| && tests[cur] == nextTest
            && (config.testMode == RandomMode ==> Eligible(hist[cur], config.roundsMax, config.roundsMin))
            && (config.testMode == StaircaseMode ==> cur == |tests| - 1))
    }

    /** The forward-moving part of the session now. */
    ghost function Snap(): Snapshot
      reads this`tests, this`hist, this`testCount, config
    {
      Snapshot(tests, hist, testCount, config.staircaseMode)
    }

    /** start_test.py:108-142. In random mode the first draw needs a record
        that can be drawn; with an empty history that is the case exactly
        when both round bounds are positive. */
    constructor (c: Config)
      requires c.Valid()
      requires c.testMode == RandomMode || c.testMode == StaircaseMode
      requires c.testMode == RandomMode ==> c.roundsMax > 0 && c.roundsMin > 0
      requires Abs(c.currentStep) <= Abs(c.staircaseMaxStep)
      modifies c
      ensures Valid()
      ensures config == c && running && !exited
      ensures state == NoTest && lastTestStart == -8.0 && !stimuliSensed && testCount == 0
      ensures c.currentStep == old(c.currentStep) && c.staircaseMode == old(c.staircaseMode)
      ensures forall i :: 0 <= i < |tests| ==> fresh(tests[i]) && tests[i].sensedHistory == []
      ensures c.testMode == StaircaseMode ==>
                |tests| == 1 && tests[0].volume == 1.0 && tests[0].frequency == c.staircaseTopFrequency
    {
      config := c;
      var ts: seq<Test> := [];
      if c.testMode == RandomMode {
        ts := GridTests(c);
      }
      tests := ts;
      state := NoTest;
      lastTestStart := -8.0;
      stimuliSensed := false;
      testCount := 0;
      running := true;
      exited := false;
      new;
      hist := seq(|tests|, _ => []);
      ResponsesZero(|tests|);
      Begin();
    }

    /** start_test.py:142: the first call of `get_next_test`, before any
        response: every record is untouched. */
    method Begin()
      requires config.Valid() && (config.testMode == RandomMode || config.testMode == StaircaseMode)
      requires Distinct(tests) && HistoriesAre(tests, hist)
      requires forall i :: 0 <= i < |tests| ==> tests[i].sensedHistory == []
      requires Responses(hist) == 0 && testCount == 0 && !exited
      requires config.testMode == RandomMode ==>
                 GridRecords(tests, config) && |tests| >= 1 && config.roundsMax > 0 && config.roundsMin > 0
      requires config.testMode == StaircaseMode ==>
                 tests == [] && Abs(config.currentStep) <= Abs(config.staircaseMaxStep)
      modifies this`tests, this`nextTest, this`hist, this`cur, config
      ensures Valid() && !exited
      ensures config.currentStep == old(config.currentStep) && config.staircaseMode == old(config.staircaseMode)
      ensures forall i :: 0 <= i < |tests| ==>
                tests[i].sensedHistory == [] && (tests[i] in old(tests) || fresh(tests[i]))
      ensures config.testMode == RandomMode ==> tests == old(tests)
      ensures config.testMode == StaircaseMode ==>
                |tests| == 1 && tests[0].volume == 1.0 && tests[0].frequency == config.staircaseTopFrequency
    {
      if config.testMode == RandomMode {
        assert Eligible(tests[0].sensedHistory, config.roundsMax, config.roundsMin);
      }
      var ts', n := NextTest(config, tests);
      if config.testMode == RandomMode {
        ghost var k :| 0 <= k < |tests| && tests[k] == n;
        cur := k;
      } else {
        ResponsesSnoc(hist);
        hist := hist + [[]];
        assert HistoriesAre(ts', hist);
        cur := |tests|;
      }
      tests := ts';
      nextTest := n;
    }

    /** start_test.py:178-179: append the response to the active record and
        return to NO_TEST. */
    method RecordResponse()
      requires Valid() && !exited
      modifies nextTest, this`hist, this`state
      ensures Records(true) && !exited && nextTest == old(nextTest)
      ensures cur < |tests| && tests[cur] == nextTest
      ensures config.testMode == StaircaseMode ==> cur == |tests| - 1
      ensures state == NoTest
      ensures nextTest.sensedHistory == old(nextTest.sensedHistory) + [if stimuliSensed then 1 else 0]
      ensures hist == old(hist[cur := hist[cur] + [if stimuliSensed then 1 else 0]])
    {
      var t := nextTest;
      var v := if stimuliSensed then 1 else 0;
      ghost var hs := hist;
      Record(t, v, tests, cur, hs);
      hist := hs[cur := hs[cur] + [v]];
      ResponsesUpdate(hs, cur, v);
      if config.testMode == RandomMode {
        RecordRandom(hs, cur, v, config.roundsMax, config.roundsMin);
      } else {
        RecordStaircase(hs, v);
      }
      state := NoTest;
    }

    /** start_test.py:181-193, after a response was recorded: end the session
        when `is_trial_done` says so, otherwise take the next record and
        count the trial. */
    method Continue()
      requires Records(true) && !exited
      modifies this`tests, this`nextTest, this`testCount, this`exited, this`hist, this`cur, config
      ensures Valid()
      ensures exited <==> old(Finished(config, hist))
      ensures exited ==> tests == old(tests) && testCount == old(testCount) && unchanged(config)
      ensures !exited ==> testCount == old(testCount) + 1
      ensures !exited && config.testMode == RandomMode ==> tests == old(tests) && unchanged(config)
      ensures !exited && config.testMode == StaircaseMode ==>
                fresh(nextTest) && tests == old(tests) + [nextTest] &&
                nextTest.volume == 1.0 && nextTest.sensedHistory == [] &&
                (Controller(config.currentStep, config.staircaseMode.value), nextTest.frequency) ==
                Advance(config.Params(), old(Controller(config.currentStep, config.staircaseMode.value)),
                        LastRecord(old(tests)))
    {
      HistoriesAreHistories(tests, hist);
      var done := IsTrialDone(config, tests);
      if done {
        nextTest := null;
        exited := true;
      } else if config.testMode == RandomMode {
        DrawRandom();
      } else {
        DrawStaircase();
      }
    }

    /** start_test.py:188-193 in random mode: some record may still be drawn,
        because the session is not over; draw it. */
    method DrawRandom()
      requires Records(true) && !exited && config.testMode == RandomMode
      requires !RandomDone(hist, config.roundsMax, config.roundsMin)
      modifies this`nextTest, this`testCount, this`cur
      ensures Valid() && !exited
      ensures testCount == old(testCount) + 1
    {
      NotDoneIffSomeEligible(hist, config.roundsMax, config.roundsMin);
      ghost var i :| 0 <= i < |tests| && Eligible(hist[i], config.roundsMax, config.roundsMin);
      assert Eligible(tests[i].sensedHistory, config.roundsMax, config.roundsMin);
      var n := NextRandom(config, tests);
      ghost var k :| 0 <= k < |tests| && tests[k] == n;
      cur := k;
      nextTest := n;
      testCount := testCount + 1;
    }

    /** start_test.py:188-193 in staircase mode: the controller is not done;
        append the record it asks for and make it the active one. */
    method DrawStaircase()
      requires Records(true) && !exited && config.testMode == StaircaseMode
      requires !StaircaseDone(config.currentStep, config.staircaseMinStep, config.staircaseMode.value)
      modifies this`tests, this`nextTest, this`testCount, this`hist, this`cur, config
      ensures Valid() && !exited
      ensures testCount == old(testCount) + 1
      ensures fresh(nextTest) && tests == old(tests) + [nextTest]
      ensures nextTest.volume == 1.0 && nextTest.sensedHistory == []
      ensures (Controller(config.currentStep, config.staircaseMode.value), nextTest.frequency) ==
              Advance(config.Params(), old(Controller(config.currentStep, config.staircaseMode.value)),
                      LastRecord(old(tests)))
    {
      ghost var ctl := Controller(config.currentStep, config.staircaseMode.value);
      var ts, n := NextTest(config, tests);
      AdvanceStepBound(config.Params(), ctl, LastRecord(tests));
      ResponsesSnoc(hist);
      ExtendStaircase(hist);
      hist := hist + [[]];
      assert HistoriesAre(ts, hist);
      cur := |tests|;
      tests := ts;
      nextTest := n;
      testCount := testCount + 1;
    }

    /** start_test.py:147-174: the first two elapsed-time tests. */
    method AdvanceClock(now: real)
      modifies this`state, this`lastTestStart, this`stimuliSensed
      ensures Phase(state, lastTestStart) == Clock(old(Phase(state, lastTestStart)), now, config.Durations())
      ensures stimuliSensed == (old(stimuliSensed) && !BeepDue(old(Phase(state, lastTestStart)), now, config.Durations()))
    {
      if now - lastTestStart > config.testDuration && state == NoTest {
        lastTestStart := now;
        stimuliSensed := false;
        state := OutputBeep;
      }
      if now - lastTestStart > config.beepDuration + config.pauseBeepStimuli && state == OutputBeep {
        state := OutputStimuli;
      }
    }

    /** start_test.py:195-204: closing the window stops the loop, a press of
        the button marks the stimulus as sensed. */
    method Events(pressed: bool, quit: bool)
      modifies this`running, this`stimuliSensed
      ensures running == (old(running) && !quit)
      ensures stimuliSensed == (old(stimuliSensed) || pressed)
    {
      if quit {
        running := false;
      }
      if pressed {
        stimuliSensed := true;
      }
    }

    /** start_test.py:176-193: resolve the trial whose time is up. */
    method Resolve()
      requires Valid() && !exited
      modifies this`tests, this`nextTest, this`testCount, this`exited, this`hist, this`cur, this`state,
               config, nextTest
      ensures Valid() && state == NoTest
      ensures old(nextTest).sensedHistory == old(nextTest.sensedHistory) + [if stimuliSensed then 1 else 0]
      ensures forall t :: t in old(tests) && t != old(nextTest) ==> t.sensedHistory == old(t.sensedHistory)
      ensures forall t :: t in tests ==> t in old(tests) || fresh(t)
      ensures old(tests) <= tests
      ensures exited <==> old(Finished(config, hist[cur := hist[cur] + [if stimuliSensed then 1 else 0]]))
      ensures exited ==> tests == old(tests) && testCount == old(testCount) && unchanged(config)
      ensures !exited ==> testCount == old(testCount) + 1
      ensures !exited && config.testMode == RandomMode ==> tests == old(tests) && unchanged(config)
      ensures !exited && config.testMode == StaircaseMode ==>
                fresh(nextTest) && tests == old(tests) + [nextTest] &&
                nextTest.volume == 1.0 && nextTest.sensedHistory == [] &&
                (Controller(config.currentStep, config.staircaseMode.value), nextTest.frequency) ==
                Advance(config.Params(), old(Controller(config.currentStep, config.staircaseMode.value)),
                        Some(Previous(old(nextTest.frequency),
                                      old(nextTest.sensedHistory) + [if old(stimuliSensed) then 1 else 0])))
    {
      RecordResponse();
      Continue();
    }

    /** start_test.py:176-193 as one step: the trial is resolved when its
        time is up, and nothing changes otherwise. */
    method Settle(now: real)
      requires Valid() && !exited
      modifies this`tests, this`nextTest, this`testCount, this`exited, this`hist, this`cur, this`state,
               config, nextTest
      ensures Valid()
      ensures var due := old(ResolutionDue(Phase(state, lastTestStart), now, config.Durations()));
              var bit := if stimuliSensed then 1 else 0;
              && state == (if due then NoTest else old(state))
              && (due ==>
                    old(nextTest).sensedHistory == old(nextTest.sensedHistory) + [bit] &&
                    (exited <==> old(Finished(config, hist[cur := hist[cur] + [bit]]))) &&
                    (!exited ==> testCount == old(testCount) + 1))
              && (!due ==>
                    !exited && tests == old(tests) && nextTest == old(nextTest) && testCount == old(testCount) &&
                    old(nextTest).sensedHistory == old(nextTest.sensedHistory) && unchanged(config))
      ensures Extends(old(hist), hist)
      ensures forall i :: 0 <= i < |old(hist)| && i != old(cur) ==> hist[i] == old(hist)[i]
      ensures forall t :: t in tests ==> t in old(tests) || fresh(t)
      ensures old(tests) <= tests
      ensures exited ==> tests == old(tests) && testCount == old(testCount)
      ensures testCount == old(testCount) || (!exited && testCount == old(testCount) + 1)
      ensures Responses(hist) ==
              old(Responses(hist)) + if old(ResolutionDue(Phase(state, lastTestStart), now, config.Durations())) then 1 else 0
      ensures config.testMode == RandomMode ==> unchanged(config)
      ensures old(ResolutionDue(Phase(state, lastTestStart), now, config.Durations())) && !exited &&
              config.testMode == StaircaseMode ==>
                fresh(nextTest) && tests == old(tests) + [nextTest] &&
                nextTest.volume == 1.0 && nextTest.sensedHistory == [] &&
                (Controller(config.currentStep, config.staircaseMode.value), nextTest.frequency) ==
                Advance(config.Params(), old(Controller(config.currentStep, config.staircaseMode.value)),
                        Some(Previous(old(nextTest.frequency),
                                      old(nextTest.sensedHistory) + [if old(stimuliSensed) then 1 else 0])))
    {
      if ResolutionDue(Phase(state, lastTestStart), now, config.Durations()) {
        Resolve();
      }
    }

    /** start_test.py:176-204: after the clock, resolve the trial if its
        time is up, then, unless the session is over, take the events. */
    method Respond(now: real, pressed: bool, quit: bool)
      requires Valid() && !exited
      modifies this`tests, this`nextTest, this`testCount, this`exited, this`hist, this`cur, this`state,
               this`running, this`stimuliSensed, config, nextTest
      ensures Valid()
      ensures var due := old(ResolutionDue(Phase(state, lastTestStart), now, config.Durations()));
              var bit := if old(stimuliSensed) then 1 else 0;
              && state == (if due then NoTest else old(state))
              && (due ==>
                    old(nextTest).sensedHistory == old(nextTest.sensedHistory) + [bit] &&
                    (exited <==> old(Finished(config, hist[cur := hist[cur] + [bit]]))) &&
                    (!exited ==> testCount == old(testCount) + 1))
              && (!due ==>
                    !exited && tests == old(tests) && nextTest == old(nextTest) && testCount == old(testCount) &&
                    old(nextTest).sensedHistory == old(nextTest.sensedHistory) && unchanged(config))
              && (!exited ==> stimuliSensed == (old(stimuliSensed) || pressed) && running == (old(running) && !quit))
              && (exited ==> running == old(running))
      ensures Extends(old(hist), hist)
      ensures forall i :: 0 <= i < |old(hist)| && i != old(cur) ==> hist[i] == old(hist)[i]
      ensures forall t :: t in tests ==> t in old(tests) || fresh(t)
      ensures old(tests) <= tests
      ensures exited ==> tests == old(tests) && testCount == old(testCount)
      ensures testCount == old(testCount) || (!exited && testCount == old(testCount) + 1)
      ensures Responses(hist) ==
              old(Responses(hist)) + if old(ResolutionDue(Phase(state, lastTestStart), now, config.Durations())) then 1 else 0
      ensures config.testMode == RandomMode ==> unchanged(config)
      ensures old(ResolutionDue(Phase(state, lastTestStart), now, config.Durations())) && !exited &&
              config.testMode == StaircaseMode ==>
                fresh(nextTest) && tests == old(tests) + [nextTest] &&
                nextTest.volume == 1.0 && nextTest.sensedHistory == [] &&
                (Controller(config.currentStep, config.staircaseMode.value), nextTest.frequency) ==
                Advance(config.Params(), old(Controller(config.currentStep, config.staircaseMode.value)),
                        Some(Previous(old(nextTest.frequency),
                                      old(nextTest.sensedHistory) + [if old(stimuliSensed) then 1 else 0])))
    {
      Settle(now);
      if !exited {
        Events(pressed, quit);
      }
    }

    /** One iteration of `main`'s loop (start_test.py:144-204): the three
        elapsed-time tests in order, then the button and quit events. */
    method Tick(now: real, pressed: bool, quit: bool)
      requires Valid() && running && !exited
      modifies this, config, nextTest
      ensures Valid()
      ensures Phase(state, lastTestStart) == TickPhase(old(Phase(state, lastTestStart)), now, config.Durations())
      ensures var resolved := ResolutionDue(Clock(old(Phase(state, lastTestStart)), now, config.Durations()),
                                            now, config.Durations());
              var sensed := old(stimuliSensed) && !BeepDue(old(Phase(state, lastTestStart)), now, config.Durations());
              var bit := if sensed then 1 else 0;
              && (resolved ==>
                    old(nextTest).sensedHistory == old(nextTest.sensedHistory) + [bit] &&
                    (exited <==> old(Finished(config, hist[cur := hist[cur] + [bit]]))) &&
                    (!exited ==> testCount == old(testCount) + 1))
              && (!resolved ==>
                    !exited && tests == old(tests) && nextTest == old(nextTest) && testCount == old(testCount) &&
                    old(nextTest).sensedHistory == old(nextTest.sensedHistory) && unchanged(config))
              && (!exited ==> stimuliSensed == (pressed || sensed) && running == !quit)
      ensures Extends(old(hist), hist)
      ensures forall i :: 0 <= i < |old(hist)| && i != old(cur) ==> hist[i] == old(hist)[i]
      ensures forall t :: t in tests ==> t in old(tests) || fresh(t)
      ensures old(tests) <= tests
      ensures exited ==> tests == old(tests) && testCount == old(testCount)
      ensures old(testCount) <= testCount
      ensures !exited ==> testCount <= old(testCount) + 1
      ensures config.testMode == RandomMode ==> unchanged(config)
      ensures var resolved := ResolutionDue(Clock(old(Phase(state, lastTestStart)), now, config.Durations()),
                                            now, config.Durations());
              var sensed := old(stimuliSensed) && !BeepDue(old(Phase(state, lastTestStart)), now, config.Durations());
              resolved && !exited && config.testMode == StaircaseMode ==>
                fresh(nextTest) && tests == old(tests) + [nextTest] &&
                nextTest.volume == 1.0 && nextTest.sensedHistory == [] &&
                (Controller(config.currentStep, config.staircaseMode.value), nextTest.frequency) ==
                Advance(config.Params(), old(Controller(config.currentStep, config.staircaseMode.value)),
                        Some(Previous(old(nextTest.frequency),
                                      old(nextTest.sensedHistory) + [if sensed then 1 else 0])))
      ensures old(config.staircaseMode) == Some(BottomToTop) ==> config.staircaseMode == Some(BottomToTop)
      ensures Responses(hist) ==
              old(Responses(hist)) + if ResolutionDue(Clock(old(Phase(state, lastTestStart)), now, config.Durations()),
                                                      now, config.Durations()) then 1 else 0
      ensures quit ==> !running || exited
      ensures !running ==> quit
    {
      AdvanceClock(now);
      Respond(now, pressed, quit);
    }

    /** `while is_running` over a finite run of ticks: it stops early only
        when the window is closed or the session is over, and it is over
        only when `is_trial_done` says so. */
    method Run(inputs: seq<Input>) returns (ticks: nat)
      requires Valid() && running && !exited
      modifies this, config, tests
      ensures Valid()
      ensures ticks <= |inputs|
      ensures ticks < |inputs| ==> !running || exited
      ensures exited ==> Finished(config, Histories(tests))
      ensures Phase(state, lastTestStart) == Phases(old(Phase(state, lastTestStart)), inputs, ticks, config.Durations())
      ensures old(tests) <= tests
      ensures Extends(old(hist), hist)
      ensures old(testCount) <= testCount
      ensures config.testMode == RandomMode ==> unchanged(config)
      ensures old(config.staircaseMode) == Some(BottomToTop) ==> config.staircaseMode == Some(BottomToTop)
      ensures Responses(hist) == old(Responses(hist)) + Resolutions(old(Phase(state, lastTestStart)), inputs, ticks, config.Durations())
      ensures 0 < ticks ==> !Quits(inputs, ticks - 1)
      ensures ticks < |inputs| ==> exited || (0 < ticks && inputs[ticks - 1].quit)
    {
      ticks := 0;
      ghost var ph0, responses0, s0 := Phase(state, lastTestStart), Responses(hist), Snap();
      while ticks < |inputs| && running && !exited
        invariant Valid()
        invariant ticks <= |inputs|
        invariant Phase(state, lastTestStart) == Phases(ph0, inputs, ticks, config.Durations())
        invariant forall t :: t in tests ==> t in old(tests) || fresh(t)
        invariant Later(s0, Snap())
        invariant config.testMode == RandomMode ==> unchanged(config)
        invariant Responses(hist) == responses0 + Resolutions(ph0, inputs, ticks, config.Durations())
        invariant 0 < ticks ==> !Quits(inputs, ticks - 1)
        invariant 0 < ticks && inputs[ticks - 1].quit ==> !running || exited
        invariant !running ==> 0 < ticks && inputs[ticks - 1].quit
        decreases |inputs| - ticks
      {
        assert tests[cur] in tests;
        var input := inputs[ticks];
        ghost var s := Snap();
        Tick(input.now, input.pressed, input.quit);
        assert Later(s, Snap());
        LaterTrans(s0, s, Snap());
        ticks := ticks + 1;
      }
      HistoriesAreHistories(tests, hist);
    }
  }
}
