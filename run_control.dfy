/**
 * Run control of the simulation: the command handler that moves the run
 * state between running, paused, stepping and stopped, the loop that drains
 * the command queue, and the step-mode driver that advances simulated time
 * by one clamped quantum for each `step` command.
 *
 * `Apply` and `CommandMessages` say what one command does, as values;
 * `Drain` does the same for a whole queue. The class `Simulation` holds the
 * run-control fields and updates them in place, and each method is proved to
 * agree with those functions.
 */
module RunControl {
  import opened Wrappers
  import opened Messages

  datatype RunState = Running | Paused | Stepping | Stopped {
    /** The state's name on the wire. */
    function Value(): string {
      match this
      case Running => "running"
      case Paused => "paused"
      case Stepping => "stepping"
      case Stopped => "stopped"
    }
  }

  /** Distinct states have distinct wire names, so a state-change message names both ends. */
  lemma ValueInjective(a: RunState, b: RunState)
    ensures a.Value() == b.Value() <==> a == b
  {
    if a != b {
      assert a.Value()[..2] != b.Value()[..2] || a.Value()[2] != b.Value()[2];
    }
  }

  const SimulationEndTime: real := 1800.0
  const StepSize: real := 1.0
  const RealTimeRatio: real := 5.0

  function RMin(a: real, b: real): real { if a <= b then a else b }


  /** The fields `process_command` reads and writes. */
  datatype Control = Control(state: RunState, stepContinue: bool, timeRatio: real)

  /** The run-control fields as the simulation's constructor sets them. */
  const InitialControl: Control := Control(Stepping, false, RealTimeRatio)

  /** The commands `process_command` recognises, and `Unrecognised` for any other `type`. */
  datatype CommandKind = Pause | Resume | Step | Run | ChangeSpeed | Stop | Unrecognised

  /** The command a dictionary's `type` entry (absent, or not a string: `None`) selects. */
  function KindOf(kind: Option<string>): (k: CommandKind)
    ensures k == Unrecognised <==> kind !in {Some("pause"), Some("resume"), Some("step"),
                                             Some("run"), Some("change_speed"), Some("stop")}
  {
    if kind == Some("pause") then Pause
    else if kind == Some("resume") then Resume
    else if kind == Some("step") then Step
    else if kind == Some("run") then Run
    else if kind == Some("change_speed") then ChangeSpeed
    else if kind == Some("stop") then Stop
    else Unrecognised
  }

  /**
   * A queued command. Anything that is not a dictionary (`None`, a bare
   * string) is `Malformed`; a dictionary contributes the command its `type`
   * entry selects and its `speed_ratio` entry, if that is a number.
   */
  datatype Command = Malformed | Dict(kind: CommandKind, speedRatio: Option<real>)

  /** What `process_command` does to the run-control fields. */
  function Apply(c: Control, kind: CommandKind, speedRatio: Option<real>): Control {
    match kind
    case Pause => c.(state := Paused)
    case Resume => if c.state == Paused then c.(state := Running) else c
    case Step => c.(state := Stepping, stepContinue := true)
    case Run => c.(state := Running)
    case ChangeSpeed => c.(timeRatio := speedRatio.GetOr(1.0))
    case Stop => c.(state := Stopped)
    case Unrecognised => c
  }

  /** The log line `process_command` emits, if any. */
  function CommandNote(c: Control, kind: CommandKind, speedRatio: Option<real>): Option<Note> {
    match kind
    case Pause => Some(SimulationPaused)
    case Resume => if c.state == Paused then Some(SimulationResumed) else None
    case Step => if c.state != Stepping then Some(SwitchedToStepping) else None
    case Run => Some(SwitchedToRunning)
    case ChangeSpeed => Some(SpeedChanged(speedRatio.GetOr(1.0)))
    case Stop => Some(SimulationStopped)
    case Unrecognised => None
  }

  function StateChangedMessage(from: RunState, to: RunState, clock: int): SimMessage {
    SimMessage(SimulationStateChanged, StateChange(from.Value(), to.Value()), clock, None, 0)
  }

  /** Every message `process_command` posts, in order. */
  function CommandMessages(c: Control, kind: CommandKind, speedRatio: Option<real>, clock: int)
    : seq<SimMessage>
  {
    NoteMessages(CommandNote(c, kind, speedRatio), clock)
    + StateChangeMessages(c.state, Apply(c, kind, speedRatio).state, clock)
  }

  function NoteMessages(note: Option<Note>, clock: int): seq<SimMessage> {
    if note.Some? then [Logged("INFO", note.value, None, LogMessage, clock)] else []
  }

  function StateChangeMessages(from: RunState, to: RunState, clock: int): seq<SimMessage> {
    if from != to then [StateChangedMessage(from, to, clock)] else []
  }

  predicate IsStateChange(m: SimMessage) {
    m.kind == SimulationStateChanged
  }

  /** `resume` leaves `PAUSED` for `RUNNING` and is ignored in every other state. */
  lemma ResumeOnlyFromPaused(c: Control, s: Option<real>)
    ensures var r := Apply(c, Resume, s);
      && (c.state == Paused ==> r == c.(state := Running))
      && (c.state != Paused ==> r == c && CommandMessages(c, Resume, s, 0) == [])
  {
  }

  /** `pause`, `run` and `stop` set their state whatever the state was, `STOPPED` included. */
  lemma UnconditionalCommands(c: Control, s: Option<real>)
    ensures Apply(c, Pause, s) == c.(state := Paused)
    ensures Apply(c, Run, s) == c.(state := Running)
    ensures Apply(c, Stop, s) == c.(state := Stopped)
  {
  }

  /** `step` always ends in `STEPPING` with the continue flag raised. */
  lemma StepArmsContinue(c: Control, s: Option<real>)
    ensures var r := Apply(c, Step, s);
      r.state == Stepping && r.stepContinue && r.timeRatio == c.timeRatio
  {
  }

  /** `change_speed` changes only the ratio, to the given one or to 1.0, and never the state. */
  lemma ChangeSpeedOnlyRatio(c: Control, s: Option<real>)
    ensures var r := Apply(c, ChangeSpeed, s);
      && r.state == c.state && r.stepContinue == c.stepContinue
      && r.timeRatio == (if s.Some? then s.value else 1.0)
  {
  }

  /** An unrecognised or missing `type` changes nothing and posts nothing. */
  lemma UnknownCommandIgnored(c: Control, k: Option<string>, s: Option<real>, clock: int)
    requires k !in {Some("pause"), Some("resume"), Some("step"), Some("run"),
                    Some("change_speed"), Some("stop")}
    ensures Apply(c, KindOf(k), s) == c && CommandMessages(c, KindOf(k), s, clock) == []
  {
  }

  /**
   * A state-change message is posted exactly when the state differs before
   * and after the command, at most one is posted, and it names both states.
   */
  lemma {:induction false} StateChangeIffChanged(
    c: Control, k: CommandKind, s: Option<real>, clock: int)
    ensures var ms := CommandMessages(c, k, s, clock);
      var after := Apply(c, k, s).state;
      && ((exists i :: 0 <= i < |ms| && IsStateChange(ms[i])) <==> after != c.state)
      && (forall i :: 0 <= i < |ms| && IsStateChange(ms[i]) ==>
            i == |ms| - 1 && ms[i].data == StateChange(c.state.Value(), after.Value()))
  {
    var ms := CommandMessages(c, k, s, clock);
    var after := Apply(c, k, s).state;
    if after != c.state {
      assert IsStateChange(ms[|ms| - 1]);
    }
  }

  /**
   * Pausing and resuming lands in `RUNNING` from any state: a paused
   * stepping simulation resumes in continuous mode, not in step mode.
   */
  lemma PauseThenResume(c: Control, s: Option<real>)
    ensures Apply(Apply(c, Pause, s), Resume, s) == c.(state := Running)
  {
  }

  /** What draining the queue leaves: the control fields, the unprocessed rest, the posts, success. */
  datatype Drained = Drained(control: Control, rest: seq<Command>, sent: seq<SimMessage>, ok: bool)

  /**
   * `process_commands`: every queued command in order; a malformed one
   * raises, which ends the draining with that command already dequeued.
   */
  function Drain(c: Control, queue: seq<Command>, clock: int): (r: Drained)
    ensures r.ok ==> r.rest == []
    ensures !r.ok ==> |r.rest| < |queue|
    decreases |queue|
  {
    if queue == [] then Drained(c, [], [], true)
    else match queue[0]
      case Malformed => Drained(c, queue[1..], [], false)
      case Dict(k, s) =>
        var r := Drain(Apply(c, k, s), queue[1..], clock);
        r.(sent := CommandMessages(c, k, s, clock) + r.sent)
  }

  predicate WellFormed(queue: seq<Command>) {
    forall i :: 0 <= i < |queue| ==> queue[i].Dict?
  }

  /** Draining a queue that starts with a well-formed command: that command, then the rest. */
  lemma DrainCons(c: Control, cmd: Command, rest: seq<Command>, clock: int)
    requires cmd.Dict?
    ensures var r := Drain(Apply(c, cmd.kind, cmd.speedRatio), rest, clock);
      Drain(c, [cmd] + rest, clock)
      == r.(sent := CommandMessages(c, cmd.kind, cmd.speedRatio, clock) + r.sent)
  {
    assert ([cmd] + rest)[0] == cmd && ([cmd] + rest)[1..] == rest;
  }

  /** A non-empty well-formed queue is a dictionary command followed by a well-formed queue. */
  lemma WellFormedTail(a: seq<Command>)
    requires WellFormed(a) && a != []
    ensures a[0].Dict? && WellFormed(a[1..]) && a == [a[0]] + a[1..]
  {
    forall i | 0 <= i < |a[1..]| ensures a[1..][i].Dict? {
      assert a[1..][i] == a[i + 1];
    }
  }

  /** The inductive step of `DrainConcat`: one well-formed command in front of the first batch. */
  lemma DrainConcatStep(c: Control, cmd: Command, rest: seq<Command>, b: seq<Command>, clock: int)
    requires cmd.Dict?
    requires var r := Drain(Apply(c, cmd.kind, cmd.speedRatio), rest, clock);
      var rb := Drain(r.control, b, clock);
      r.ok && Drain(Apply(c, cmd.kind, cmd.speedRatio), rest + b, clock) == rb.(sent := r.sent + rb.sent)
    ensures var ra := Drain(c, [cmd] + rest, clock);
      var rb := Drain(ra.control, b, clock);
      && ra.ok
      && Drain(c, [cmd] + (rest + b), clock) == rb.(sent := ra.sent + rb.sent)
  {
    var sent1 := CommandMessages(c, cmd.kind, cmd.speedRatio, clock);
    var r := Drain(Apply(c, cmd.kind, cmd.speedRatio), rest, clock);
    var rb := Drain(r.control, b, clock);
    var rab := Drain(Apply(c, cmd.kind, cmd.speedRatio), rest + b, clock);
    DrainCons(c, cmd, rest, clock);
    assert Drain(c, [cmd] + rest, clock) == r.(sent := sent1 + r.sent);
    DrainCons(c, cmd, rest + b, clock);
    assert Drain(c, [cmd] + (rest + b), clock) == rab.(sent := sent1 + rab.sent);
    assert rab == rb.(sent := r.sent + rb.sent);
    ConcatAssoc(sent1, r.sent, rb.sent);
  }

  /**
   * Draining two well-formed batches one after the other is draining them as
   * one queue: when the commands arrive makes no difference to the result.
   */
  lemma {:induction false} DrainConcat(c: Control, a: seq<Command>, b: seq<Command>, clock: int)
    requires WellFormed(a)
    ensures var ra := Drain(c, a, clock);
      var rb := Drain(ra.control, b, clock);
      && ra.ok
      && Drain(c, a + b, clock) == rb.(sent := ra.sent + rb.sent)
    decreases |a|
  {
    if a == [] {
      assert a + b == b;
    } else {
      var cmd, rest := a[0], a[1..];
      WellFormedTail(a);
      DrainConcat(Apply(c, cmd.kind, cmd.speedRatio), rest, b, clock);
      DrainConcatStep(c, cmd, rest, b, clock);
      ConcatAssoc([cmd], rest, b);
    }
  }

  /** A well-formed queue is drained completely. */
  lemma {:induction false} DrainWellFormed(c: Control, queue: seq<Command>, clock: int)
    requires WellFormed(queue)
    ensures Drain(c, queue, clock).ok && Drain(c, queue, clock).rest == []
  {
    DrainConcat(c, queue, [], clock);
    assert queue + [] == queue;
  }

  /** A queue that ends with `stop` leaves the simulation stopped. */
  lemma {:induction false} DrainEndingInStop(c: Control, queue: seq<Command>, clock: int)
    requires WellFormed(queue) && queue != [] && queue[|queue| - 1].kind == Stop
    ensures Drain(c, queue, clock).control.state == Stopped
  {
    var init := queue[..|queue| - 1];
    assert queue == init + [queue[|queue| - 1]];
    DrainConcat(c, init, [queue[|queue| - 1]], clock);
  }

  /**
   * A malformed command behind a well-formed batch ends the draining right
   * after it: the batch has been applied and posted, and every command behind
   * the malformed one is still queued.
   */
  lemma {:induction false} DrainMalformed(c: Control, a: seq<Command>, b: seq<Command>, clock: int)
    requires WellFormed(a)
    ensures var ra := Drain(c, a, clock);
      Drain(c, a + [Malformed] + b, clock) == Drained(ra.control, b, ra.sent, false)
    decreases |a|
  {
    if a == [] {
      assert a + [Malformed] + b == [Malformed] + b;
      assert ([Malformed] + b)[1..] == b;
    } else {
      var cmd, rest := a[0], a[1..];
      WellFormedTail(a);
      DrainMalformed(Apply(c, cmd.kind, cmd.speedRatio), rest, b, clock);
      assert a + [Malformed] + b == [cmd] + (rest + [Malformed] + b) by {
        ConcatAssoc([cmd], rest, [Malformed]);
        ConcatAssoc([cmd], rest + [Malformed], b);
      }
      DrainCons(c, cmd, rest + [Malformed] + b, clock);
      DrainCons(c, cmd, rest, clock);
    }
  }

  /** Draining succeeds exactly when no queued command is malformed. */
  lemma {:induction false} DrainOkIff(c: Control, queue: seq<Command>, clock: int)
    ensures Drain(c, queue, clock).ok <==> WellFormed(queue)
    decreases |queue|
  {
    if queue != [] && queue[0].Dict? {
      var cmd := queue[0];
      DrainOkIff(Apply(c, cmd.kind, cmd.speedRatio), queue[1..], clock);
      assert WellFormed(queue) <==> WellFormed(queue[1..]) by {
        if WellFormed(queue[1..]) {
          forall i | 0 <= i < |queue| ensures queue[i].Dict? {
            if i > 0 {
              assert queue[i] == queue[1..][i - 1];
            }
          }
        }
        if WellFormed(queue) {
          WellFormedTail(queue);
        }
      }
    } else if queue != [] {
      assert !WellFormed(queue) by {
        assert !queue[0].Dict?;
      }
    }
  }

  /** The time `run_step_mode` runs the kernel to: one step on, but never past the end. */
  function StepTarget(now: real): (t: real)
    requires now < SimulationEndTime
    ensures now < t <= SimulationEndTime && t <= now + StepSize
    ensures t == now + StepSize || t == SimulationEndTime
  {
    RMin(now + StepSize, SimulationEndTime)
  }

  /** The `STEP_COMPLETED` message of one step. */
  function StepMessage(start: real, end: real, points: seq<StepPoint>, clock: int): SimMessage {
    SimMessage(StepCompleted, StepSummary(start, end, points, end < SimulationEndTime), clock, None, 0)
  }

  /**
   * Two steps posted in a row keep their own points in the STEP_COMPLETED
   * buffer: the older entry has the first step's points, the newer the
   * second's.
   */
  lemma StepEntriesKeepPoints(c: Collector, t0: real, t1: real, t2: real,
                              p1: seq<StepPoint>, p2: seq<StepPoint>, clock: int)
    requires Inv(c)
    ensures var c2 := Add(Add(c, StepMessage(t0, t1, p1, clock)), StepMessage(t1, t2, p2, clock));
      var q := c2.byType[StepCompleted];
      && |q| >= 2
      && q[|q| - 2] == StepMessage(t0, t1, p1, clock)
      && q[|q| - 1] == StepMessage(t1, t2, p2, clock)
  {
    var c1 := Add(c, StepMessage(t0, t1, p1, clock));
    var q1 := c1.byType[StepCompleted];
    var q := Add(c1, StepMessage(t1, t2, p2, clock)).byType[StepCompleted];
    assert q1 == Pushed(c.byType[StepCompleted], StepMessage(t0, t1, p1, clock), MaxPerType);
    assert q == Pushed(q1, StepMessage(t1, t2, p2, clock), MaxPerType);
    PushedAt(q1, StepMessage(t1, t2, p2, clock), MaxPerType, |q| - 2);
  }

  /** `self.step_points`: the one list object the simulation creates at start-up and keeps. */
  class PointList {
    var items: seq<StepPoint>

    constructor ()
      ensures items == []
    {
      items := [];
    }

    /** `clear()`, at the start of every step. */
    method Clear()
      modifies this
      ensures items == []
    {
      items := [];
    }

    /** `append(point)`, as `check_pause` does for an entity reaching a pause check. */
    method Append(p: StepPoint)
      modifies this
      ensures items == old(items) + [p]
    {
      items := items + [p];
    }
  }

  /** A STEP_COMPLETED summary as written: it holds the list object, not its contents. */
  datatype SharedSummary = SharedSummary(stepStart: real, stepEnd: real, points: PointList)

  /**
   * The step branch of `run_step_mode` as written, reduced to what the
   * summaries share: the clock, the one points list, and the summaries posted.
   */
  class SharedStepper {
    var now: real
    const points: PointList
    var summaries: seq<SharedSummary>

    constructor (start: real)
      ensures now == start && summaries == [] && fresh(points) && points.items == []
    {
      now := start;
      points := new PointList();
      summaries := [];
    }

    /**
     * One step: the list is cleared, the kernel runs to the step target while
     * the entities append `reached` one point at a time, and the summary
     * posted refers to the list itself.
     */
    method Step(reached: seq<StepPoint>)
      requires now < SimulationEndTime
      modifies this, points
      ensures now == StepTarget(old(now))
      ensures points.items == reached
      ensures summaries == old(summaries) + [SharedSummary(old(now), now, points)]
    {
      var stepStart := now;
      points.Clear();
      now := StepTarget(now);
      var i := 0;
      while i < |reached|
        invariant 0 <= i <= |reached| && points.items == reached[..i]
        modifies points
      {
        points.Append(reached[i]);
        assert reached[..i + 1] == reached[..i] + [reached[i]];
        i := i + 1;
      }
      assert reached[..|reached|] == reached;
      summaries := summaries + [SharedSummary(stepStart, now, points)];
    }
  }

  /**
   * Two steps as written: both summaries refer to the same list, so the older
   * one reads the second step's points, and when the steps reached different
   * points the first step's are lost.
   */
  method SharedStepsLosePoints(s: SharedStepper, p1: seq<StepPoint>, p2: seq<StepPoint>)
    requires s.now + StepSize < SimulationEndTime
    modifies s, s.points
    ensures |s.summaries| >= 2
    ensures s.summaries[|s.summaries| - 2].points == s.summaries[|s.summaries| - 1].points
    ensures s.summaries[|s.summaries| - 2].points.items == p2
    ensures p1 != p2 ==> s.summaries[|s.summaries| - 2].points.items != p1
  {
    s.Step(p1);
    s.Step(p2);
  }

  /** What the step-mode driver hears between two passes of its loop. */
  datatype Round = Round(arrivals: seq<Command>, points: seq<StepPoint>, clock: int)

  /**
   * How `run_step_mode` returns: simulated time reached the end, a `stop`
   * was processed, a `run` handed over to the continuous driver, a malformed
   * command raised, or the rounds given to the model ran out while the loop
   * was still waiting.
   */
  datatype Outcome = Finished | Halted | HandedToContinuous | Crashed | ScheduleExhausted

  class Simulation {
    var runState: RunState
    var stepContinue: bool
    var timeRatio: real
    /** `env.now`: the kernel's simulated clock. */
    var now: real
    var stepPoints: seq<StepPoint>
    var commandQueue: seq<Command>
    const collector: MessageCollector

    function ControlState(): Control
      reads this
    {
      Control(runState, stepContinue, timeRatio)
    }

    ghost predicate Valid()
      reads this, collector
    {
      collector.Valid() && 0.0 <= now <= SimulationEndTime
    }

    /** The run-control part of the simulation's constructor, in step mode. */
    constructor (collector: MessageCollector)
      requires collector.Valid()
      ensures Valid() && this.collector == collector
      ensures ControlState() == InitialControl
      ensures now == 0.0 && stepPoints == [] && commandQueue == []
    {
      runState, stepContinue, timeRatio := Stepping, false, RealTimeRatio;
      now, stepPoints, commandQueue := 0.0, [], [];
      this.collector := collector;
    }

    /**
     * The branches of `process_command`: the run-control fields are updated
     * and the log line posted by the branch taken is returned.
     */
    method Dispatch(kind: CommandKind, speedRatio: Option<real>, clock: int)
      returns (posts: seq<SimMessage>)
      modifies this
      ensures ControlState() == Apply(old(ControlState()), kind, speedRatio)
      ensures posts == NoteMessages(CommandNote(old(ControlState()), kind, speedRatio), clock)
      ensures now == old(now) && stepPoints == old(stepPoints) && commandQueue == old(commandQueue)
    {
      posts := [];
      match kind {
        case Pause =>
          runState := Paused;
          posts := [Logged("INFO", SimulationPaused, None, LogMessage, clock)];
        case Resume =>
          if runState == Paused {
            runState := Running;
            posts := [Logged("INFO", SimulationResumed, None, LogMessage, clock)];
          }
        case Step =>
          if runState != Stepping {
            runState := Stepping;
            posts := [Logged("INFO", SwitchedToStepping, None, LogMessage, clock)];
          }
          stepContinue := true;
        case Run =>
          runState := Running;
          posts := [Logged("INFO", SwitchedToRunning, None, LogMessage, clock)];
        case ChangeSpeed =>
          timeRatio := speedRatio.GetOr(1.0);
          posts := [Logged("INFO", SpeedChanged(timeRatio), None, LogMessage, clock)];
        case Stop =>
          runState := Stopped;
          posts := [Logged("INFO", SimulationStopped, None, LogMessage, clock)];
        case Unrecognised =>
      }
    }

    /**
     * `process_command`. A malformed command raises before anything is
     * changed; `ok` is false then.
     */
    method ProcessCommand(cmd: Command, clock: int) returns (ok: bool)
      requires Valid()
      modifies this, collector
      ensures Valid() && ok == cmd.Dict?
      ensures ok ==> ControlState() == Apply(old(ControlState()), cmd.kind, cmd.speedRatio)
      ensures !ok ==> ControlState() == old(ControlState())
      ensures collector.Model() == AddAll(old(collector.Model()),
        if ok then CommandMessages(old(ControlState()), cmd.kind, cmd.speedRatio, clock) else [])
      ensures now == old(now) && stepPoints == old(stepPoints) && commandQueue == old(commandQueue)
    {
      if cmd.Malformed? {
        return false;
      }
      var oldState := runState;
      var posts := Dispatch(cmd.kind, cmd.speedRatio, clock);
      if oldState != runState {
        posts := posts + [StateChangedMessage(oldState, runState, clock)];
      }
      collector.AddMessages(posts);
      return true;
    }

    /** `process_commands`: dequeues and handles commands until the queue is empty. */
    method ProcessCommands(clock: int) returns (ok: bool)
      requires Valid()
      modifies this, collector
      ensures Valid()
      ensures var r := Drain(old(ControlState()), old(commandQueue), clock);
        && ControlState() == r.control && commandQueue == r.rest && ok == r.ok
        && collector.Model() == AddAll(old(collector.Model()), r.sent)
      ensures now == old(now) && stepPoints == old(stepPoints)
    {
      ghost var total := Drain(ControlState(), commandQueue, clock);
      ok := true;
      while commandQueue != []
        invariant Valid() && now == old(now) && stepPoints == old(stepPoints)
        invariant var r := Drain(ControlState(), commandQueue, clock);
          && total.control == r.control && total.rest == r.rest && total.ok == r.ok
          && AddAll(old(collector.Model()), total.sent) == AddAll(collector.Model(), r.sent)
        decreases |commandQueue|
      {
        var command := commandQueue[0];
        ghost var c := ControlState();
        ghost var before := collector.Model();
        commandQueue := commandQueue[1..];
        ok := ProcessCommand(command, clock);
        if !ok {
          return;
        }
        AddAllConcat(before, CommandMessages(c, command.kind, command.speedRatio, clock),
                     Drain(ControlState(), commandQueue, clock).sent);
      }
    }

    /**
     * One executed step of `run_step_mode`: the step points are cleared, the
     * kernel runs to the step target (`points` are those its processes record
     * meanwhile), the step is reported and the continue flag is lowered.
     */
    method ExecuteStep(points: seq<StepPoint>, clock: int)
      requires Valid() && now < SimulationEndTime
      modifies this, collector
      ensures Valid()
      ensures now == StepTarget(old(now)) && old(now) < now
      ensures stepPoints == points && !stepContinue
      ensures runState == old(runState) && timeRatio == old(timeRatio)
      ensures commandQueue == old(commandQueue)
      ensures collector.Model() == Add(old(collector.Model()), StepMessage(old(now), now, points, clock))
    {
      var stepStart := now;
      stepPoints := [];
      var nextTime := StepTarget(now);
      now := nextTime;
      stepPoints := stepPoints + points;
      assert stepPoints == points;
      ghost var posted := Add(collector.Model(), StepMessage(stepStart, nextTime, points, clock));
      collector.AddMessage(StepMessage(stepStart, now, stepPoints, clock));
      assert collector.Model() == posted;
      stepContinue := false;
    }

    /**
     * `run_step_mode`, fed with the commands that arrive between passes of
     * its loop and the step points recorded during each step.
     */
    method RunStepMode(schedule: seq<Round>, clock: int) returns (outcome: Outcome)
      requires Valid()
      modifies this, collector
      ensures Valid()
      ensures old(now) <= now <= SimulationEndTime
      ensures outcome == Finished ==> now == SimulationEndTime
      ensures outcome == Halted ==> runState == Stopped && now < SimulationEndTime
      ensures outcome == HandedToContinuous ==> runState == Running
      ensures outcome == ScheduleExhausted ==> now < SimulationEndTime && runState != Stopped
    {
      collector.AddMessage(Logged("INFO", EnteringStepMode, None, LogMessage, clock));
      var i := 0;
      while now < SimulationEndTime && runState != Stopped
        invariant Valid() && 0 <= i <= |schedule| && old(now) <= now
        decreases |schedule| - i
      {
        if i == |schedule| {
          return ScheduleExhausted;
        }
        var round := schedule[i];
        i := i + 1;
        commandQueue := commandQueue + round.arrivals;
        var ok := ProcessCommands(round.clock);
        if !ok {
          return Crashed;
        }
        if runState == Running {
          return HandedToContinuous;
        } else if runState == Stepping {
          if stepContinue {
            ExecuteStep(round.points, round.clock);
          }
        }
      }
      if now >= SimulationEndTime {
        return Finished;
      }
      return Halted;
    }
  }
}
