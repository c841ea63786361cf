/** The rising lava (Assets/Enviorenment/Lava/LavaScripts/RisingLava.cs). `StartLava`
    plays the lava sound and, the first time only, starts `RiseWithSinglePause`: the lava
    rises for `moveDuration`, stops for `pauseDuration`, and then rises for good. Each
    frame it moves up by `riseSpeed * dt` while it is moving. */
module RisingLava {
  import opened Common

  /** `LavaSound` is the sound played by every `StartLava`; the other three mark the steps
      of the rise routine. */
  datatype Event = LavaSound | RiseStarted | Paused | RiseResumed

  datatype Config = Config(riseSpeed: real)

  /** Where the rise routine is suspended: in its first rise, or in its pause. */
  datatype Wait = MoveWait | PauseWait

  /** `routine` is `None` both before the start and once the routine has finished;
      `height` is the lava's vertical position. */
  datatype Lava = Lava(hasStarted: bool, isMoving: bool, routine: Option<Wait>, height: real, log: seq<Event>)

  function Initial(height: real): Lava
  {
    Lava(false, false, None, height, [])
  }

  /** The routine's steps seen so far, in the log. */
  function Phases(log: seq<Event>): (r: seq<Event>)
    ensures LavaSound !in r
    decreases |log|
  {
    if log == [] then []
    else (if log[0] == LavaSound then [] else [log[0]]) + Phases(log[1..])
  }

  lemma {:induction false} PhasesAppend(log: seq<Event>, e: Event)
    ensures Phases(log + [e]) == Phases(log) + (if e == LavaSound then [] else [e])
    decreases |log|
  {
    if log == [] {
      assert [] + [e] == [e];
      assert [e][1..] == [];
    } else {
      var head := if log[0] == LavaSound then [] else [log[0]];
      var tail := if e == LavaSound then [] else [e];
      assert (log + [e])[0] == log[0];
      assert (log + [e])[1..] == log[1..] + [e];
      assert Phases(log + [e]) == head + Phases(log[1..] + [e]);
      PhasesAppend(log[1..], e);
      assert head + (Phases(log[1..]) + tail) == (head + Phases(log[1..])) + tail;
    }
  }

  /** The steps the routine has taken, by where it stands. */
  function Progress(s: Lava): seq<Event>
  {
    if !s.hasStarted then []
    else match s.routine
      case Some(MoveWait) => [RiseStarted]
      case Some(PauseWait) => [RiseStarted, Paused]
      case None => [RiseStarted, Paused, RiseResumed]
  }

  /** The lava moves exactly in the two rises, and the log shows the routine's steps in
      order. */
  predicate Valid(s: Lava)
  {
    (!s.hasStarted ==> s.routine.None?) &&
    (s.isMoving <==> s.hasStarted && s.routine != Some(PauseWait)) &&
    Phases(s.log) == Progress(s)
  }

  lemma InitialValid(height: real)
    ensures Valid(Initial(height))
  {
  }

  /** `StartLava`: the sound every time; the routine's start, to its first wait, only the
      first time. */
  function Start(s: Lava): (r: Lava)
    ensures s.hasStarted ==> r == s.(log := s.log + [LavaSound])
    ensures !s.hasStarted ==>
      r == s.(hasStarted := true, isMoving := true, routine := Some(MoveWait), log := s.log + [LavaSound, RiseStarted])
  {
    var s1 := s.(log := s.log + [LavaSound]);
    if s.hasStarted then s1
    else s1.(hasStarted := true, isMoving := true, routine := Some(MoveWait), log := s1.log + [RiseStarted])
  }

  /** The routine after its wait `w`: the first rise ends in the pause, the pause in the
      final rise. */
  function Resume(s: Lava, w: Wait): (r: Lava)
    requires s.routine == Some(w)
    ensures w == MoveWait ==> !r.isMoving && r.routine == Some(PauseWait) && r.log == s.log + [Paused]
    ensures w == PauseWait ==> r.isMoving && r.routine.None? && r.log == s.log + [RiseResumed]
    ensures r.hasStarted == s.hasStarted && r.height == s.height
  {
    match w
    case MoveWait => s.(isMoving := false, routine := Some(PauseWait), log := s.log + [Paused])
    case PauseWait => s.(isMoving := true, routine := None, log := s.log + [RiseResumed])
  }

  /** `Update`: move up by `riseSpeed * dt` while moving. */
  function Tick(c: Config, s: Lava, dt: real): (r: Lava)
    ensures !s.isMoving ==> r == s
    ensures s.isMoving ==> r == s.(height := s.height + c.riseSpeed * dt)
    ensures c.riseSpeed >= 0.0 && dt >= 0.0 ==> r.height >= s.height
  {
    if s.isMoving then s.(height := s.height + c.riseSpeed * dt) else s
  }

  datatype Input = StartLava | Frame(dt: real) | WaitOver

  function Step(c: Config, s: Lava, i: Input): Lava
  {
    match i
    case StartLava => Start(s)
    case Frame(dt) => Tick(c, s, dt)
    case WaitOver => if s.routine.Some? then Resume(s, s.routine.value) else s
  }

  function Run(c: Config, s: Lava, inputs: seq<Input>): Lava
    decreases |inputs|
  {
    if inputs == [] then s else Run(c, Step(c, s, inputs[0]), inputs[1..])
  }

  lemma StepKeepsValid(c: Config, s: Lava, i: Input)
    requires Valid(s)
    ensures Valid(Step(c, s, i))
  {
    match i {
      case StartLava =>
        PhasesAppend(s.log, LavaSound);
        if !s.hasStarted {
          assert s.log + [LavaSound, RiseStarted] == s.log + [LavaSound] + [RiseStarted];
          PhasesAppend(s.log + [LavaSound], RiseStarted);
        }
      case Frame(dt) =>
      case WaitOver =>
        if s.routine == Some(MoveWait) {
          PhasesAppend(s.log, Paused);
        } else if s.routine == Some(PauseWait) {
          PhasesAppend(s.log, RiseResumed);
        }
    }
  }

  /** Over any run the routine's steps are a prefix of rise, pause, rise: it starts at most
      once and pauses at most once, and the final rise is never followed by another pause. */
  lemma {:induction false} RiseWithSinglePauseOnce(c: Config, s: Lava, inputs: seq<Input>)
    requires Valid(s)
    ensures Valid(Run(c, s, inputs))
    ensures Phases(Run(c, s, inputs).log) <= [RiseStarted, Paused, RiseResumed]
    decreases |inputs|
  {
    if inputs != [] {
      StepKeepsValid(c, s, inputs[0]);
      RiseWithSinglePauseOnce(c, Step(c, s, inputs[0]), inputs[1..]);
    }
  }

  /** Frames alone never lower the lava when `riseSpeed` and every `dt` are non-negative,
      and never move it before `StartLava`. */
  lemma {:induction false} FramesOnlyRaise(c: Config, s: Lava, inputs: seq<Input>)
    requires forall i :: 0 <= i < |inputs| ==> inputs[i].Frame? && inputs[i].dt >= 0.0
    requires c.riseSpeed >= 0.0
    ensures Run(c, s, inputs).height >= s.height
    ensures !s.isMoving ==> Run(c, s, inputs) == s
    decreases |inputs|
  {
    if inputs != [] {
      assert forall i :: 0 <= i < |inputs[1..]| ==> inputs[1..][i] == inputs[i + 1];
      FramesOnlyRaise(c, Step(c, s, inputs[0]), inputs[1..]);
    }
  }

  class Controller {
    const cfg: Config
    var isMoving: bool
    var hasStarted: bool
    var routine: Option<Wait>
    var height: real
    ghost var log: seq<Event>

    ghost function Snapshot(): Lava
      reads this
    {
      Lava(hasStarted, isMoving, routine, height, log)
    }

    constructor (cfg: Config, height: real)
      ensures this.cfg == cfg && Snapshot() == Initial(height)
    {
      this.cfg := cfg;
      isMoving := false;
      hasStarted := false;
      routine := None;
      this.height := height;
      log := [];
    }

    method StartLava()
      modifies this
      ensures Snapshot() == Start(old(Snapshot()))
    {
      log := log + [LavaSound];
      if !hasStarted {
        hasStarted := true;
        RiseWithSinglePause();
      }
    }

    /** `RiseWithSinglePause` up to its first wait. */
    method RiseWithSinglePause()
      modifies this
      ensures Snapshot() == old(Snapshot()).(isMoving := true, routine := Some(MoveWait),
                                             log := old(log) + [RiseStarted])
    {
      isMoving := true;
      log := log + [RiseStarted];
      routine := Some(MoveWait);
    }

    /** The routine after `moveDuration`: pause. */
    method ResumeAfterMove()
      requires routine == Some(MoveWait)
      modifies this
      ensures Snapshot() == Resume(old(Snapshot()), MoveWait)
    {
      isMoving := false;
      log := log + [Paused];
      routine := Some(PauseWait);
    }

    /** The routine after `pauseDuration`: rise for good; the routine ends. */
    method ResumeAfterPause()
      requires routine == Some(PauseWait)
      modifies this
      ensures Snapshot() == Resume(old(Snapshot()), PauseWait)
    {
      isMoving := true;
      log := log + [RiseResumed];
      routine := None;
    }

    method Update(dt: real)
      modifies this
      ensures Snapshot() == Tick(cfg, old(Snapshot()), dt)
    {
      if isMoving {
        height := height + cfg.riseSpeed * dt;
      }
    }
  }
}
