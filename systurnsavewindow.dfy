/**
 * The turn window of client/systems/systurnsavewindow.cpp: a speed selector, a play/pause
 * toggle and the time-gated call that lets the universe advance one tick. Button presses
 * and the Space key release are parameters of the handlers, GetTime() readings are real
 * arguments, and EnableTick() is counted in a ghost field.
 */
module TurnWindow {
  /** std::size_t arithmetic is modulo 2^64. */
  const SIZE_MOD: int := 0x1_0000_0000_0000_0000
  const SIZE_MAX: int := SIZE_MOD - 1

  /** `n - 1` on an unsigned size: 0 - 1 wraps around to SIZE_MAX. */
  function SizeMinusOne(n: nat): (r: nat)
    requires n < SIZE_MOD
    ensures r < SIZE_MOD && (r + 1) % SIZE_MOD == n
  {
    if n == 0 then SIZE_MAX else n - 1
  }

  /** The fields of the window that the handlers change. */
  datatype Pace = Pace(tickSpeed: nat, toTick: bool, lastTick: real)

  /** `<<`: one step slower, unless already at the slowest speed 0; nothing else changes. */
  function SlowerPace(p: Pace): (r: Pace)
    ensures r.tickSpeed == if p.tickSpeed > 0 then p.tickSpeed - 1 else 0
    ensures r.toTick == p.toTick && r.lastTick == p.lastTick
  {
    if p.tickSpeed > 0 then p.(tickSpeed := p.tickSpeed - 1) else p
  }

  /**
   * `>>`: one step faster while tick_speed < tick_speeds.size() - 1, where an empty list
   * makes the bound SIZE_MAX; nothing else changes.
   */
  function FasterPace(p: Pace, speeds: nat): (r: Pace)
    requires speeds < SIZE_MOD
    ensures r.toTick == p.toTick && r.lastTick == p.lastTick
    ensures r.tickSpeed == p.tickSpeed || r.tickSpeed == p.tickSpeed + 1
    ensures r.tickSpeed == p.tickSpeed + 1
        <==> (if speeds == 0 then p.tickSpeed < SIZE_MAX else p.tickSpeed + 1 < speeds)
  {
    if p.tickSpeed < SizeMinusOne(speeds) then p.(tickSpeed := p.tickSpeed + 1) else p
  }

  /** TogglePlayState: the play state is negated and nothing else changes. */
  function TogglePace(p: Pace): (r: Pace)
    ensures r.toTick == !p.toTick
    ensures r.tickSpeed == p.tickSpeed && r.lastTick == p.lastTick
  {
    p.(toTick := !p.toTick)
  }

  /**
   * DoUI: the three buttons are handled in the order they are drawn. The play state flips
   * exactly when play/pause is clicked, the speed moves by at most one step, and only
   * `<<` or `>>` move it.
   */
  function UiPace(p: Pace, speeds: nat, slower: bool, toggle: bool, faster: bool): (r: Pace)
    requires speeds < SIZE_MOD
    ensures r.lastTick == p.lastTick
    ensures r.toTick == (p.toTick != toggle)
    ensures p.tickSpeed - 1 <= r.tickSpeed <= p.tickSpeed + 1
    ensures !slower && !faster ==> r.tickSpeed == p.tickSpeed
  {
    var p1 := if slower then SlowerPace(p) else p;
    var p2 := if toggle then TogglePace(p1) else p1;
    if faster then FasterPace(p2, speeds) else p2
  }

  /** The wait between ticks for speed index i: tick_speeds[i] milliseconds, in seconds. */
  function Delay(delays: seq<int>, i: nat): real
    requires i < |delays|
  {
    delays[i] as real / 1000.0
  }

  /**
   * The play state after the Space key handling of DoUpdate: a Space release toggles play
   * exactly when the keyboard is not captured by ImGui.
   */
  function KeyPace(p: Pace, keyboardCaptured: bool, spaceReleased: bool): (r: Pace)
    ensures (r.toTick != p.toTick) <==> (!keyboardCaptured && spaceReleased)
    ensures r.tickSpeed == p.tickSpeed && r.lastTick == p.lastTick
  {
    if !keyboardCaptured && spaceReleased then TogglePace(p) else p
  }

  /**
   * Whether DoUpdate calls EnableTick: running (after the key handling) and more than the
   * delay has passed since the last tick; `now` is the first GetTime() reading. With a
   * non-negative delay a tick never fires at or before the last one.
   */
  predicate Fires(p: Pace, delays: seq<int>, keyboardCaptured: bool, spaceReleased: bool, now: real)
    requires KeyPace(p, keyboardCaptured, spaceReleased).toTick ==> p.tickSpeed < |delays|
    ensures Fires(p, delays, keyboardCaptured, spaceReleased, now) ==>
      && KeyPace(p, keyboardCaptured, spaceReleased).toTick
      && (delays[p.tickSpeed] >= 0 ==> now > p.lastTick)
  {
    var k := KeyPace(p, keyboardCaptured, spaceReleased);
    k.toTick && now - k.lastTick > Delay(delays, k.tickSpeed)
  }

  /**
   * DoUpdate; `nowAgain` is the second GetTime() reading, which becomes last_tick when a tick
   * fires. The speed is never changed, and without a tick only the key handling applies.
   */
  function UpdatePace(p: Pace, delays: seq<int>, keyboardCaptured: bool, spaceReleased: bool,
                      now: real, nowAgain: real): (r: Pace)
    requires KeyPace(p, keyboardCaptured, spaceReleased).toTick ==> p.tickSpeed < |delays|
    ensures r.tickSpeed == p.tickSpeed && r.toTick == KeyPace(p, keyboardCaptured, spaceReleased).toTick
    ensures Fires(p, delays, keyboardCaptured, spaceReleased, now) ==> r.lastTick == nowAgain
    ensures !Fires(p, delays, keyboardCaptured, spaceReleased, now) ==> r == KeyPace(p, keyboardCaptured, spaceReleased)
  {
    var k := KeyPace(p, keyboardCaptured, spaceReleased);
    if Fires(p, delays, keyboardCaptured, spaceReleased, now) then k.(lastTick := nowAgain) else k
  }

  class SysTurnSaveWindow {
    var tickSpeed: nat
    var tickSpeeds: seq<int>
    var toTick: bool
    var lastTick: real
    /** How often EnableTick() has been called. */
    ghost var enabledTicks: nat

    function AsPace(): Pace
      reads this`tickSpeed, this`toTick, this`lastTick
    {
      Pace(tickSpeed, toTick, lastTick)
    }

    /** The window's initial fields come from its header, which is not part of this model. */
    constructor (speeds: seq<int>, speed: nat, running: bool, last: real)
      ensures tickSpeeds == speeds && AsPace() == Pace(speed, running, last) && enabledTicks == 0
    {
      tickSpeeds := speeds;
      tickSpeed := speed;
      toTick := running;
      lastTick := last;
      enabledTicks := 0;
    }

    method TogglePlayState()
      modifies this`toTick
      ensures AsPace() == TogglePace(old(AsPace()))
    {
      toTick := !toTick;
    }

    /** DoUI without the drawing: `slower`, `toggle` and `faster` say which buttons were clicked. */
    method DoUi(slower: bool, toggle: bool, faster: bool)
      requires |tickSpeeds| < SIZE_MOD
      modifies this`tickSpeed, this`toTick
      ensures AsPace() == UiPace(old(AsPace()), |tickSpeeds|, slower, toggle, faster)
    {
      if slower {
        if tickSpeed > 0 {
          tickSpeed := tickSpeed - 1;
        }
      }
      if toggle {
        TogglePlayState();
      }
      if faster {
        if tickSpeed < SizeMinusOne(|tickSpeeds|) {
          tickSpeed := tickSpeed + 1;
        }
      }
    }

    /**
     * DoUpdate: the Space key toggles play unless ImGui captures the keyboard; then, when
     * running and more than the delay has passed, one EnableTick() and a new last_tick.
     */
    method DoUpdate(keyboardCaptured: bool, spaceReleased: bool, now: real, nowAgain: real)
      requires KeyPace(AsPace(), keyboardCaptured, spaceReleased).toTick ==> tickSpeed < |tickSpeeds|
      modifies this`toTick, this`lastTick, this`enabledTicks
      ensures AsPace() == UpdatePace(old(AsPace()), tickSpeeds, keyboardCaptured, spaceReleased, now, nowAgain)
      ensures enabledTicks == old(enabledTicks)
                + if Fires(old(AsPace()), tickSpeeds, keyboardCaptured, spaceReleased, now) then 1 else 0
    {
      if !keyboardCaptured {
        if spaceReleased {
          TogglePlayState();
        }
      }
      if toTick && now - lastTick > tickSpeeds[tickSpeed] as real / 1000.0 {
        enabledTicks := enabledTicks + 1;
        lastTick := nowAgain;
      }
    }
  }

  // ---------------------------------------------------------------------------
  // Properties

  /** With a non-empty tick_speeds, `<<` and `>>` keep tick_speed a valid index. */
  lemma SpeedStaysValid(p: Pace, speeds: nat)
    requires p.tickSpeed < speeds < SIZE_MOD
    ensures SlowerPace(p).tickSpeed < speeds
    ensures FasterPace(p, speeds).tickSpeed < speeds
    ensures FasterPace(p, speeds).tickSpeed == if p.tickSpeed + 1 < speeds then p.tickSpeed + 1 else p.tickSpeed
  {
  }

  /** Whatever buttons are clicked, DoUI keeps tick_speed a valid index of a non-empty tick_speeds. */
  lemma UiKeepsSpeedValid(p: Pace, speeds: nat, slower: bool, toggle: bool, faster: bool)
    requires p.tickSpeed < speeds < SIZE_MOD
    ensures UiPace(p, speeds, slower, toggle, faster).tickSpeed < speeds
    ensures UiPace(p, speeds, slower, toggle, faster).lastTick == p.lastTick
  {
    var p1 := if slower then SlowerPace(p) else p;
    SpeedStaysValid(p, speeds);
    var p2 := if toggle then TogglePace(p1) else p1;
    SpeedStaysValid(p2, speeds);
  }

  /** Pressing `>>` n times from a valid index stops at the fastest speed, tick_speeds.size() - 1. */
  function FasterTimes(p: Pace, speeds: nat, n: nat): (r: Pace)
    requires speeds < SIZE_MOD
    decreases n
  {
    if n == 0 then p else FasterPace(FasterTimes(p, speeds, n - 1), speeds)
  }

  lemma {:induction false} FasterSaturates(p: Pace, speeds: nat, n: nat)
    requires p.tickSpeed < speeds < SIZE_MOD
    ensures FasterTimes(p, speeds, n).tickSpeed
              == if p.tickSpeed + n < speeds then p.tickSpeed + n else speeds - 1
    decreases n
  {
    if n > 0 {
      FasterSaturates(p, speeds, n - 1);
      SpeedStaysValid(FasterTimes(p, speeds, n - 1), speeds);
    }
  }

  /**
   * With an empty tick_speeds, size() - 1 wraps to SIZE_MAX, so `>>` keeps counting up and
   * tick_speed never names an entry.
   */
  lemma EmptySpeedsUnbounded(p: Pace, n: nat)
    requires p.tickSpeed + n <= SIZE_MAX
    ensures FasterTimes(p, 0, n).tickSpeed == p.tickSpeed + n
    decreases n
  {
    if n > 0 {
      EmptySpeedsUnbounded(p, n - 1);
    }
  }

  /** Toggling twice changes nothing. */
  lemma ToggleTwice(p: Pace)
    ensures TogglePace(TogglePace(p)) == p
  {
  }

  /** A paused window that stays paused through the key handling never ticks and keeps last_tick. */
  lemma PausedNeverTicks(p: Pace, delays: seq<int>, keyboardCaptured: bool, spaceReleased: bool, now: real, nowAgain: real)
    requires !p.toTick && (keyboardCaptured || !spaceReleased)
    ensures !Fires(p, delays, keyboardCaptured, spaceReleased, now)
    ensures UpdatePace(p, delays, keyboardCaptured, spaceReleased, now, nowAgain) == p
  {
  }

  /**
   * The key is handled before the time check: releasing Space on a paused window can
   * tick in the same call.
   */
  lemma ResumeTicksAtOnce(p: Pace, delays: seq<int>, now: real, nowAgain: real)
    requires !p.toTick && p.tickSpeed < |delays| && now - p.lastTick > Delay(delays, p.tickSpeed)
    ensures Fires(p, delays, false, true, now)
    ensures UpdatePace(p, delays, false, true, now, nowAgain) == Pace(p.tickSpeed, true, nowAgain)
  {
  }

  /**
   * A running window ticks exactly when strictly more than the delay has passed; then
   * last_tick becomes the second time reading, otherwise nothing changes.
   */
  lemma RunningTicksIff(p: Pace, delays: seq<int>, keyboardCaptured: bool, spaceReleased: bool, now: real, nowAgain: real)
    requires p.toTick && (keyboardCaptured || !spaceReleased) && p.tickSpeed < |delays|
    ensures Fires(p, delays, keyboardCaptured, spaceReleased, now) <==> now - p.lastTick > Delay(delays, p.tickSpeed)
    ensures UpdatePace(p, delays, keyboardCaptured, spaceReleased, now, nowAgain)
              == if now - p.lastTick > Delay(delays, p.tickSpeed) then p.(lastTick := nowAgain) else p
  {
  }

  /** The comparison is strict: exactly the delay after the last tick, nothing fires. */
  lemma ExactDelayDoesNotTick(p: Pace, delays: seq<int>, nowAgain: real)
    requires p.toTick && p.tickSpeed < |delays|
    ensures !Fires(p, delays, true, false, p.lastTick + Delay(delays, p.tickSpeed))
    ensures UpdatePace(p, delays, true, false, p.lastTick + Delay(delays, p.tickSpeed), nowAgain) == p
  {
  }
}
