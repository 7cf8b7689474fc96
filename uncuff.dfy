/**
  The uncuff countdown of RestraintOverlay as values: the invalidation
  predicate CanUncuff, one iteration of the UncuffCountDown loop (Tick), a run
  of iterations over successive frames (RunFrames), and what a run guarantees.
  The imperative countdown in restraint_overlay.dfy is proved against Tick.
 */
module Uncuff {
  import opened Wrappers

  /** A tile position (Unity's Vector3Int). */
  datatype Cell = Cell(x: int, y: int, z: int)

  /** The values of ConsciousState that CanUncuff tests; Awake stands for every other value. */
  datatype ConsciousState = Awake | Unconscious | Dead

  /** The player's health component: conscious state and overall health. */
  datatype Health = Health(conscious: ConsciousState, overall: int)

  /** What the checks read from the player at one moment; health is None when the component is missing. */
  datatype LiveState = LiveState(health: Option<Health>, slipping: bool, position: Cell)

  /**
    The player may go on with (or start) uncuffing: the health component exists,
    the player is neither dead nor unconscious, overall health and tile position
    equal the cached values, and the player is not slipping.
   */
  function CanUncuff(live: LiveState, healthCache: int, positionCache: Cell): (ok: bool)
    ensures !ok <==>
      || live.health.None?
      || live.health.value.conscious == Dead
      || live.health.value.conscious == Unconscious
      || live.health.value.overall != healthCache
      || live.slipping
      || live.position != positionCache
  {
    match live.health
    case None => false
    case Some(h) =>
      h.conscious == Awake && h.overall == healthCache && !live.slipping && positionCache == live.position
  }

  /**
    Right after the snapshot is taken, the health and position comparisons pass,
    so eligibility depends only on the health component, consciousness and slipping.
   */
  lemma CanUncuffAtCapture(live: LiveState)
    requires live.health.Some?
    ensures CanUncuff(live, live.health.value.overall, live.position) <==>
      live.health.value.conscious == Awake && !live.slipping
  {}

  /** Where a countdown is: Running, or one of the three terminal ways the loop ends. */
  datatype Phase = Running | Completed | Interrupted | Cancelled

  /** The coroutine's own state: accumulated time, the restraint's resist time, and its phase. */
  datatype Countdown = Countdown(waitTime: int, resistTime: int, phase: Phase)

  /** The engine calls the countdown makes, as abstract events. */
  datatype Effect =
    | ProgressStarted(duration: int)   // progress bar created for resistTime
    | ProgressInterrupted              // progressBar.ServerInterruptProgress()
    | Uncuffed                         // playerMove.Uncuff()
    | AttemptMessage                   // chat: attempting to remove the cuffs
    | SuccessMessage                   // chat: cuffs removed
    | CuffsSound                       // the "Handcuffs" sound at the player

  /**
    What one loop-head visit observes: whether the token has been cancelled,
    the value CanUncuff has at that moment, and the frame's delta time.
   */
  datatype Frame = Frame(cancelled: bool, canUncuff: bool, dt: nat)

  /** The countdown after a loop iteration, the component's isUnCuffing flag, and the effects emitted. */
  datatype TickResult = TickResult(countdown: Countdown, isUnCuffing: bool, effects: seq<Effect>)

  /**
    One visit of the loop head of UncuffCountDown and, if the loop goes on, one
    iteration of its body: cancellation first, then time is added, then the
    invalidation check, then the completion check.
   */
  function Tick(c: Countdown, f: Frame, isUnCuffing: bool): (r: TickResult)
    ensures r.countdown.resistTime == c.resistTime
    ensures r.countdown.waitTime >= c.waitTime
    // a terminal countdown never changes again and emits nothing
    ensures c.phase != Running ==> r == TickResult(c, isUnCuffing, [])
    // the cancelled exit: silent, time frozen, isUnCuffing left as it was
    ensures c.phase == Running && f.cancelled ==> r == TickResult(c.(phase := Cancelled), isUnCuffing, [])
    // otherwise the frame's delta is added exactly once
    ensures c.phase == Running && !f.cancelled ==> r.countdown.waitTime == c.waitTime + f.dt
    // an invalid frame never completes: it interrupts the progress bar and clears the flag
    ensures c.phase == Running && !f.cancelled && !f.canUncuff ==>
      r.countdown.phase == Interrupted && !r.isUnCuffing && r.effects == [ProgressInterrupted]
    // completion needs a valid frame and strictly more time than resistTime
    ensures c.phase == Running && r.countdown.phase == Completed ==>
      !f.cancelled && f.canUncuff && r.countdown.waitTime > c.resistTime
    // completion clears the flag
    ensures c.phase == Running && r.countdown.phase == Completed ==> !r.isUnCuffing
    ensures (Uncuffed in r.effects) <==> c.phase == Running && r.countdown.phase == Completed
    ensures r.countdown.phase == Running ==> r.isUnCuffing && r.effects == []
    // a clean frame completes exactly when the time passes resistTime, with the message and the sound
    ensures c.phase == Running && Clean(f) ==>
      if c.waitTime + f.dt > c.resistTime then
        r.countdown.phase == Completed && r.effects == [Uncuffed, SuccessMessage, CuffsSound]
      else
        r.countdown.phase == Running
    // the other two ends come only from their own cause
    ensures c.phase == Running ==>
      && (r.countdown.phase == Interrupted ==> !f.cancelled && !f.canUncuff)
      && (r.countdown.phase == Cancelled ==> f.cancelled)
  {
    match c.phase
    case Running =>
      if f.cancelled then
        TickResult(c.(phase := Cancelled), isUnCuffing, [])
      else
        var waitTime := c.waitTime + f.dt;
        if !f.canUncuff then
          TickResult(Countdown(waitTime, c.resistTime, Interrupted), false, [ProgressInterrupted])
        else if waitTime > c.resistTime then
          TickResult(Countdown(waitTime, c.resistTime, Completed), false, [Uncuffed, SuccessMessage, CuffsSound])
        else
          TickResult(Countdown(waitTime, c.resistTime, Running), true, [])
    case _ =>
      TickResult(c, isUnCuffing, [])
  }

  /** The countdown driven over successive frames, effects in the order they are emitted. */
  function RunFrames(c: Countdown, frames: seq<Frame>, isUnCuffing: bool): (r: TickResult)
    ensures r.countdown.resistTime == c.resistTime
    ensures r.countdown.waitTime >= c.waitTime
    ensures c.phase != Running ==> r == TickResult(c, isUnCuffing, [])
    ensures r.countdown.phase == Running ==> r.effects == [] && (frames != [] ==> r.isUnCuffing)
    // while still running, every frame's time has been counted
    ensures r.countdown.phase == Running ==> r.countdown.waitTime == c.waitTime + Elapsed(frames)
    // a run that ends by completion or interruption leaves the flag cleared
    ensures c.phase == Running && (r.countdown.phase == Completed || r.countdown.phase == Interrupted) ==>
      !r.isUnCuffing
    decreases |frames|
  {
    if frames == [] then
      TickResult(c, isUnCuffing, [])
    else
      var first := Tick(c, frames[0], isUnCuffing);
      var rest := RunFrames(first.countdown, frames[1..], first.isUnCuffing);
      TickResult(rest.countdown, rest.isUnCuffing, first.effects + rest.effects)
  }

  /** Time the frames contribute when each of them is counted. */
  function Elapsed(frames: seq<Frame>): nat
  {
    if frames == [] then 0 else frames[0].dt + Elapsed(frames[1..])
  }

  /** Neither cancelled nor invalid. */
  predicate Clean(f: Frame)
  {
    !f.cancelled && f.canUncuff
  }

  /**
    The first n frames are all clean and, counted from c, their time exceeds
    the resist time.
   */
  predicate CompletesWithin(c: Countdown, frames: seq<Frame>, n: nat)
  {
    && 1 <= n <= |frames|
    && (forall i :: 0 <= i < n ==> Clean(frames[i]))
    && c.waitTime + Elapsed(frames[..n]) > c.resistTime
  }

  /** Running frames one batch after another is the same as running them together. */
  lemma {:induction false} RunFramesAppend(c: Countdown, a: seq<Frame>, b: seq<Frame>, u: bool)
    ensures var r1 := RunFrames(c, a, u);
            var r2 := RunFrames(r1.countdown, b, r1.isUnCuffing);
            RunFrames(c, a + b, u) == TickResult(r2.countdown, r2.isUnCuffing, r1.effects + r2.effects)
    decreases |a|
  {
    if a == [] {
      assert a + b == b;
    } else {
      var first := Tick(c, a[0], u);
      assert (a + b)[0] == a[0];
      assert (a + b)[1..] == a[1..] + b;
      RunFramesAppend(first.countdown, a[1..], b, first.isUnCuffing);
    }
  }

  /** Uncuff is called at most once per countdown, and exactly once when it completes. */
  lemma {:induction false} UncuffedExactlyOnceIfCompleted(c: Countdown, frames: seq<Frame>, u: bool)
    requires c.phase == Running
    ensures var r := RunFrames(c, frames, u);
            multiset(r.effects)[Uncuffed] == if r.countdown.phase == Completed then 1 else 0
    decreases |frames|
  {
    if frames != [] {
      var first := Tick(c, frames[0], u);
      var rest := RunFrames(first.countdown, frames[1..], first.isUnCuffing);
      if first.countdown.phase == Running {
        UncuffedExactlyOnceIfCompleted(first.countdown, frames[1..], first.isUnCuffing);
      } else {
        assert rest.effects == [];
        assert first.effects + rest.effects == first.effects;
        match first.countdown.phase
        case Completed =>
          assert first.effects == [Uncuffed, SuccessMessage, CuffsSound];
        case Interrupted =>
          assert first.effects == [ProgressInterrupted];
        case Cancelled =>
          assert first.effects == [];
      }
    }
  }

  /**
    A running countdown completes if and only if, for some number of frames,
    every one of them was clean and together they exceeded the resist time.
   */
  lemma {:induction false} CompletesIff(c: Countdown, frames: seq<Frame>, u: bool)
    requires c.phase == Running
    ensures RunFrames(c, frames, u).countdown.phase == Completed <==>
      exists n: nat :: CompletesWithin(c, frames, n)
    decreases |frames|
  {
    if frames == [] {
      forall n: nat ensures !CompletesWithin(c, frames, n) {}
    } else {
      var f := frames[0];
      var first := Tick(c, f, u);
      assert frames[..1] == [f];
      assert Elapsed([f]) == f.dt;
      if !Clean(f) {
        forall n: nat ensures !CompletesWithin(c, frames, n) {
          if 1 <= n { assert !Clean(frames[0]); }
        }
      } else if c.waitTime + f.dt > c.resistTime {
        assert CompletesWithin(c, frames, 1);
      } else {
        var c' := first.countdown;
        var rest := frames[1..];
        CompletesIff(c', rest, first.isUnCuffing);
        forall m | 1 <= m <= |rest|
          ensures CompletesWithin(c', rest, m) <==> CompletesWithin(c, frames, m + 1)
        {
          assert frames[..m + 1][1..] == rest[..m];
          assert Elapsed(frames[..m + 1]) == f.dt + Elapsed(rest[..m]);
          assert forall i :: 0 <= i < m ==> rest[i] == frames[i + 1];
        }
        if exists n: nat :: CompletesWithin(c, frames, n) {
          var n: nat :| CompletesWithin(c, frames, n);
          assert n != 1;
          assert CompletesWithin(c', rest, n - 1);
        }
        if exists m: nat :: CompletesWithin(c', rest, m) {
          var m: nat :| CompletesWithin(c', rest, m);
          assert CompletesWithin(c, frames, m + 1);
        }
      }
    }
  }

  /**
    A frame that finds the countdown still running and is invalid ends it as
    Interrupted right there: time is frozen at that frame, the flag is cleared,
    and Uncuff is never called.
   */
  lemma InterruptedAtFirstInvalidFrame(c: Countdown, frames: seq<Frame>, k: nat, u: bool)
    requires c.phase == Running && k < |frames|
    requires RunFrames(c, frames[..k], u).countdown.phase == Running
    requires !frames[k].cancelled && !frames[k].canUncuff
    ensures var before := RunFrames(c, frames[..k], u).countdown;
            var r := RunFrames(c, frames, u);
            && r.countdown == Countdown(before.waitTime + frames[k].dt, c.resistTime, Interrupted)
            && !r.isUnCuffing
            && Uncuffed !in r.effects
  {
    SplitAt(c, frames, k, u);
    UncuffedExactlyOnceIfCompleted(c, frames, u);
  }

  /**
    A cancellation seen at a loop head while the countdown is running ends it
    as Cancelled right there: time and the isUnCuffing flag stay as they were,
    and no effect follows.
   */
  lemma CancelledAtLoopHead(c: Countdown, frames: seq<Frame>, k: nat, u: bool)
    requires c.phase == Running && k < |frames|
    requires RunFrames(c, frames[..k], u).countdown.phase == Running
    requires frames[k].cancelled
    ensures var before := RunFrames(c, frames[..k], u);
            var r := RunFrames(c, frames, u);
            && r.countdown == before.countdown.(phase := Cancelled)
            && r.isUnCuffing == before.isUnCuffing
            && r.effects == before.effects
  {
    SplitAt(c, frames, k, u);
  }

  /** Runs frames as the prefix, then frame k, then the rest, which finds a terminal countdown if frame k ends it. */
  lemma SplitAt(c: Countdown, frames: seq<Frame>, k: nat, u: bool)
    requires k < |frames|
    ensures var before := RunFrames(c, frames[..k], u);
            var at := Tick(before.countdown, frames[k], before.isUnCuffing);
            var after := RunFrames(at.countdown, frames[k + 1..], at.isUnCuffing);
            RunFrames(c, frames, u) == TickResult(after.countdown, after.isUnCuffing, before.effects + (at.effects + after.effects))
  {
    assert frames == frames[..k] + frames[k..];
    RunFramesAppend(c, frames[..k], frames[k..], u);
    var before := RunFrames(c, frames[..k], u);
    assert frames[k..][0] == frames[k];
    assert frames[k..][1..] == frames[k + 1..];
  }
}
