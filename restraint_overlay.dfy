/**
  RestraintOverlay's server-side uncuff attempt as objects: the component with
  its cached snapshot, the cancellation token sources it hands out, and the
  countdown that replaces the coroutine, advanced one frame per Step call.
 */
module Restraint {
  import opened Uncuff

  /** A cancellation token source; the countdown holds the same object as its token. */
  class CancellationTokenSource {
    var requested: bool

    constructor ()
      ensures !requested
    {
      requested := false;
    }

    /** Requesting cancellation is idempotent. */
    method Cancel()
      modifies this
      ensures requested
    {
      requested := true;
    }
  }

  /** How ServerBeginUnCuffAttempt ends. NoPlayerHealth is the null dereference of a missing health component. */
  datatype BeginResult = Started | NotEligible | NoPlayerHealth

  class RestraintOverlay {
    var cancelSource: CancellationTokenSource?
    var healthCache: int
    var positionCache: Cell
    var isUnCuffing: bool
    /** The engine calls made so far, in order. */
    var log: seq<Effect>
    /** Every token source this component has created, oldest first. */
    ghost var tokens: seq<CancellationTokenSource>

    /** Only the newest token source can still be uncancelled, and it is the one in cancelSource. */
    ghost predicate Valid()
      reads this, tokens
    {
      && (cancelSource == null <==> tokens == [])
      && (tokens != [] ==> cancelSource == tokens[|tokens| - 1])
      && (forall i :: 0 <= i < |tokens| - 1 ==> tokens[i].requested)
    }

    /** A component as Unity creates it: no token source, fields at their defaults. */
    constructor ()
      ensures Valid()
      ensures cancelSource == null && tokens == [] && !isUnCuffing && log == []
    {
      cancelSource := null;
      healthCache := 0;
      positionCache := Cell(0, 0, 0);
      isUnCuffing := false;
      log := [];
      tokens := [];
    }

    /** At most one token source this component created is uncancelled, and it is the one in cancelSource. */
    lemma AtMostOneLiveToken()
      requires Valid()
      ensures forall i, j :: 0 <= i < |tokens| && 0 <= j < |tokens| && !tokens[i].requested && !tokens[j].requested ==> i == j
      ensures forall i :: 0 <= i < |tokens| && !tokens[i].requested ==> tokens[i] == cancelSource
    {}

    /**
      Cancels the previous attempt's token, snapshots health and position into
      the shared cache fields, and, if the player can uncuff, starts a fresh
      countdown. Unity runs a new coroutine up to its first yield at once, so the
      first loop iteration (with frame delta dt) happens inside this call,
      before the start message is sent.
     */
    method ServerBeginUnCuffAttempt(live: LiveState, resistTime: int, dt: nat)
      returns (result: BeginResult, countdown: UncuffCountdown?)
      requires Valid()
      modifies this, cancelSource
      ensures Valid()
      ensures old(cancelSource) != null ==> old(cancelSource).requested
      ensures result == NoPlayerHealth <==> live.health.None?
      ensures result == Started <==>
        live.health.Some? && CanUncuff(live, live.health.value.overall, live.position)
      ensures result == NoPlayerHealth ==>
        healthCache == old(healthCache) && positionCache == old(positionCache)
      ensures result != NoPlayerHealth ==>
        healthCache == live.health.value.overall && positionCache == live.position
      ensures result != Started ==>
        && countdown == null && cancelSource == old(cancelSource) && tokens == old(tokens)
        && isUnCuffing == old(isUnCuffing) && log == old(log)
      ensures result == Started ==>
        && countdown != null && fresh(countdown) && fresh(cancelSource)
        && countdown.owner == this && countdown.token == cancelSource && !cancelSource.requested
        && tokens == old(tokens) + [cancelSource]
        && var first := Tick(Countdown(0, resistTime, Running), Frame(false, true, dt), old(isUnCuffing));
           && countdown.State() == first.countdown
           && isUnCuffing == first.isUnCuffing
           && log == old(log) + [ProgressStarted(resistTime)] + first.effects + [AttemptMessage]
    {
      if cancelSource != null {
        cancelSource.Cancel();
      }
      if live.health.None? {
        return NoPlayerHealth, null;
      }
      healthCache := live.health.value.overall;
      positionCache := live.position;
      if !CanUncuff(live, healthCache, positionCache) {
        return NotEligible, null;
      }
      var token := new CancellationTokenSource();
      cancelSource := token;
      tokens := tokens + [token];
      countdown := new UncuffCountdown(this, token, resistTime);
      countdown.Step(live, dt);
      log := log + [AttemptMessage];
      result := Started;
    }
  }

  /** The UncuffCountDown coroutine: its locals become fields, each resumption a call to Step. */
  class UncuffCountdown {
    const owner: RestraintOverlay
    const token: CancellationTokenSource
    const resistTime: int
    var waitTime: int
    var phase: Phase

    function State(): Countdown
      reads this
    {
      Countdown(waitTime, resistTime, phase)
    }

    /** The coroutine's start: creates the progress bar and enters the loop with no time accumulated. */
    constructor (owner: RestraintOverlay, token: CancellationTokenSource, resistTime: int)
      modifies owner`log
      ensures this.owner == owner && this.token == token
      ensures State() == Countdown(0, resistTime, Running)
      ensures owner.log == old(owner.log) + [ProgressStarted(resistTime)]
    {
      this.owner := owner;
      this.token := token;
      this.resistTime := resistTime;
      waitTime := 0;
      phase := Running;
      new;
      owner.log := owner.log + [ProgressStarted(resistTime)];
    }

    /**
      One resumption of the coroutine in a frame with delta dt, the player's
      state then being live: exactly one Tick, with the token's state and
      CanUncuff against the component's current cache.
     */
    method Step(live: LiveState, dt: nat)
      modifies this`waitTime, this`phase, owner`isUnCuffing, owner`log
      ensures var r := Tick(old(State()),
                            Frame(token.requested, CanUncuff(live, owner.healthCache, owner.positionCache), dt),
                            old(owner.isUnCuffing));
              && State() == r.countdown
              && owner.isUnCuffing == r.isUnCuffing
              && owner.log == old(owner.log) + r.effects
    {
      if phase != Running {
        return;
      }
      if token.requested {
        phase := Cancelled;
        return;
      }
      owner.isUnCuffing := true;
      waitTime := waitTime + dt;
      if !CanUncuff(live, owner.healthCache, owner.positionCache) {
        owner.isUnCuffing := false;
        owner.log := owner.log + [ProgressInterrupted];
        phase := Interrupted;
        return;
      }
      if waitTime > resistTime {
        phase := Completed;
        owner.isUnCuffing := false;
        owner.log := owner.log + [Uncuffed, SuccessMessage, CuffsSound];
      }
    }
  }

  /**
    A second attempt before the first completes: the first countdown ends as
    Cancelled at its next resumption, the second has started afresh.
   */
  method PreemptionExample(live: LiveState)
    requires live.health.Some? && live.health.value.conscious == Awake && !live.slipping
  {
    var overlay := new RestraintOverlay();
    CanUncuffAtCapture(live);
    var r1, first := overlay.ServerBeginUnCuffAttempt(live, 30, 0);
    assert r1 == Started;
    var r2, second := overlay.ServerBeginUnCuffAttempt(live, 30, 0);
    assert r2 == Started;
    first.Step(live, 1);
    assert first.phase == Cancelled && first.waitTime == 0;
    assert second.phase == Running && second.waitTime == 0;
  }

  /**
    A running attempt preempted by a request from a dead player: the new
    request is not eligible, the old countdown ends Cancelled at its next
    resumption, and isUnCuffing stays true with no countdown running.
   */
  method StaleFlagExample(live: LiveState, dead: LiveState)
    requires live.health.Some? && live.health.value.conscious == Awake && !live.slipping
    requires dead.health.Some? && dead.health.value.conscious == Dead
  {
    var overlay := new RestraintOverlay();
    CanUncuffAtCapture(live);
    var r1, first := overlay.ServerBeginUnCuffAttempt(live, 30, 0);
    assert r1 == Started && overlay.isUnCuffing;
    var r2, second := overlay.ServerBeginUnCuffAttempt(dead, 30, 0);
    assert r2 == NotEligible && second == null;
    first.Step(live, 1);
    assert first.phase == Cancelled;
    assert overlay.isUnCuffing;
  }

  /** An unconscious player: no countdown and no token, though the snapshot is still taken. */
  method NotEligibleExample(live: LiveState)
    requires live.health.Some? && live.health.value.conscious == Unconscious
  {
    var overlay := new RestraintOverlay();
    var r, countdown := overlay.ServerBeginUnCuffAttempt(live, 30, 0);
    assert r == NotEligible && countdown == null;
    assert overlay.cancelSource == null && overlay.log == [];
    assert overlay.healthCache == live.health.value.overall;
  }
}
