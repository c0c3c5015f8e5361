/**
 * uvdriver.py: two push buttons step the UV lamp's brightness level up and down between
 * 0 and 8; each level drives the PWM pin with duty cycle 2^level - 1 out of 255.
 */
module UvDriver {

  /** GPIO pin numbers. */
  const PWM := 4
  const DECDUTY := 5
  const INCDUTY := 6

  const INITIAL_LVL := 4
  const DC_MAX_LVL := 8

  /** A button press, delivered as a rising edge on its pin. */
  datatype Press = Increase | Decrease

  function Pow2(n: nat): (p: nat)
    ensures p >= 1
  {
    if n == 0 then 1 else 2 * Pow2(n - 1)
  }

  /** The duty cycle for a level, (1 << lvl) - 1: off exactly at level 0, full on exactly at level 8. */
  function Duty(lvl: int): (dc: int)
    requires 0 <= lvl <= DC_MAX_LVL
    ensures 0 <= dc <= 255
    ensures dc == 0 <==> lvl == 0
    ensures dc == 255 <==> lvl == DC_MAX_LVL
  {
    Pow2Bounds(lvl);
    Pow2(lvl) - 1
  }

  /** Over the levels 0..8, `1 << lvl` runs from 1 to 256, taking each end only at its end level. */
  lemma Pow2Bounds(lvl: int)
    requires 0 <= lvl <= DC_MAX_LVL
    ensures 1 <= Pow2(lvl) <= 256
    ensures Pow2(lvl) == 1 <==> lvl == 0
    ensures Pow2(lvl) == 256 <==> lvl == DC_MAX_LVL
  {
    if 0 < lvl {
      Pow2Increasing(0, lvl);
    }
    if lvl < DC_MAX_LVL {
      Pow2Increasing(lvl, DC_MAX_LVL);
    }
  }

  lemma {:induction false} Pow2Increasing(a: nat, b: nat)
    requires a < b
    ensures Pow2(a) < Pow2(b)
  {
    if a < b - 1 {
      Pow2Increasing(a, b - 1);
    }
  }

  /** Duty cycles run from 0 (off) to 255 (full on), 15 at the initial level, strictly increasing. */
  lemma DutyRange(a: int, b: int)
    requires 0 <= a < b <= DC_MAX_LVL
    ensures 0 <= Duty(a) < Duty(b) <= 255
    ensures Duty(0) == 0 && Duty(INITIAL_LVL) == 15 && Duty(DC_MAX_LVL) == 255
  {
    Pow2Increasing(a, b);
    if b < DC_MAX_LVL {
      Pow2Increasing(b, DC_MAX_LVL);
    }
  }

  /** The level after one press: one step up or down, clamped to [0, DC_MAX_LVL]. */
  function NextLevel(lvl: int, p: Press): (next: int)
    requires 0 <= lvl <= DC_MAX_LVL
    ensures 0 <= next <= DC_MAX_LVL
    ensures p == Increase ==> next == if lvl == DC_MAX_LVL then lvl else lvl + 1
    ensures p == Decrease ==> next == if lvl == 0 then lvl else lvl - 1
  {
    match p
    case Increase => var up := lvl + 1; if up > DC_MAX_LVL then DC_MAX_LVL else up
    case Decrease => var down := lvl - 1; if down < 0 then 0 else down
  }

  /** The level after a run of presses: whatever the presses, it stays within [0, DC_MAX_LVL]. */
  function LevelAfter(lvl: int, presses: seq<Press>): (last: int)
    requires 0 <= lvl <= DC_MAX_LVL
    ensures 0 <= last <= DC_MAX_LVL
    decreases presses
  {
    if presses == [] then lvl else LevelAfter(NextLevel(lvl, presses[0]), presses[1..])
  }

  /** The duty cycles the callbacks write, one per press, each for the level after that press. */
  function DutiesAfter(lvl: int, presses: seq<Press>): seq<int>
    requires 0 <= lvl <= DC_MAX_LVL
    decreases presses
  {
    if presses == [] then []
    else var next := NextLevel(lvl, presses[0]); [Duty(next)] + DutiesAfter(next, presses[1..])
  }

  /** k presses of the increase button from level lvl reach min(lvl + k, DC_MAX_LVL). */
  lemma {:induction false} IncreasesSaturate(lvl: int, k: nat)
    requires 0 <= lvl <= DC_MAX_LVL
    ensures LevelAfter(lvl, seq(k, _ => Increase)) == if lvl + k > DC_MAX_LVL then DC_MAX_LVL else lvl + k
    decreases k
  {
    if k > 0 {
      assert seq(k, _ => Increase)[1..] == seq(k - 1, _ => Increase);
      IncreasesSaturate(NextLevel(lvl, Increase), k - 1);
    }
  }

  /** k presses of the decrease button from level lvl reach max(lvl - k, 0). */
  lemma {:induction false} DecreasesSaturate(lvl: int, k: nat)
    requires 0 <= lvl <= DC_MAX_LVL
    ensures LevelAfter(lvl, seq(k, _ => Decrease)) == if lvl - k < 0 then 0 else lvl - k
    decreases k
  {
    if k > 0 {
      assert seq(k, _ => Decrease)[1..] == seq(k - 1, _ => Decrease);
      DecreasesSaturate(NextLevel(lvl, Decrease), k - 1);
    }
  }

  /** Every duty cycle written in response to presses is one of 0, 1, 3, ..., 255 and ends on the final level's. */
  lemma {:induction false} DutiesFollowLevels(lvl: int, presses: seq<Press>)
    requires 0 <= lvl <= DC_MAX_LVL
    ensures |DutiesAfter(lvl, presses)| == |presses|
    ensures forall i :: 0 <= i < |presses| ==>
              exists l :: 0 <= l <= DC_MAX_LVL && DutiesAfter(lvl, presses)[i] == Duty(l)
    ensures presses != [] ==> DutiesAfter(lvl, presses)[|presses| - 1] == Duty(LevelAfter(lvl, presses))
    decreases presses
  {
    if presses != [] {
      var next := NextLevel(lvl, presses[0]);
      DutiesFollowLevels(next, presses[1..]);
      forall i | 0 <= i < |presses|
        ensures exists l :: 0 <= l <= DC_MAX_LVL && DutiesAfter(lvl, presses)[i] == Duty(l)
      {
        if i == 0 {
          assert DutiesAfter(lvl, presses)[0] == Duty(next);
        } else {
          assert DutiesAfter(lvl, presses)[i] == DutiesAfter(next, presses[1..])[i - 1];
        }
      }
    }
  }

  /** The driver's state: the global DC_LVL and the duty cycles written to the PWM pin, oldest first. */
  class Driver {
    var level: int
    var duties: seq<int>

    ghost predicate Valid()
      reads this
    {
      0 <= level <= DC_MAX_LVL
    }

    /** Module load: DC_LVL = 4, nothing written yet. */
    constructor ()
      ensures Valid() && level == INITIAL_LVL && duties == []
    {
      level := INITIAL_LVL;
      duties := [];
    }

    /** set_dutycycle: asserts 0 <= lvl <= 8 and writes (1 << lvl) - 1 to the PWM pin. */
    method SetDutyCycle(lvl: int)
      requires 0 <= lvl <= DC_MAX_LVL
      modifies this`duties
      ensures duties == old(duties) + [Duty(lvl)]
    {
      var dc := Pow2(lvl) - 1;
      duties := duties + [dc];
    }

    /** start_pwm: writes the duty cycle of the current level. */
    method StartPwm()
      requires Valid()
      modifies this`duties
      ensures duties == old(duties) + [Duty(level)]
    {
      SetDutyCycle(level);
    }

    /** stop_pwm: writes duty cycle 0 (level 0's) and leaves the level alone. */
    method StopPwm()
      modifies this`duties
      ensures duties == old(duties) + [0]
    {
      SetDutyCycle(0);
    }

    /** increase_dc_cbk: a rising edge on INCDUTY raises the level by one, at most to 8. */
    method IncreaseDcCallback(gpio: int, logicLevel: bool, tick: int)
      requires gpio == INCDUTY && logicLevel
      requires Valid()
      modifies this
      ensures Valid() && level == NextLevel(old(level), Increase)
      ensures duties == old(duties) + [Duty(level)]
    {
      level := level + 1;
      if level > DC_MAX_LVL {
        level := DC_MAX_LVL;
      }
      SetDutyCycle(level);
    }

    /** decrease_dc_cbk: a rising edge on DECDUTY lowers the level by one, at least to 0. */
    method DecreaseDcCallback(gpio: int, logicLevel: bool, tick: int)
      requires gpio == DECDUTY && logicLevel
      requires Valid()
      modifies this
      ensures Valid() && level == NextLevel(old(level), Decrease)
      ensures duties == old(duties) + [Duty(level)]
    {
      level := level - 1;
      if level < 0 {
        level := 0;
      }
      SetDutyCycle(level);
    }
  }

  /**
   * A whole session: start the PWM, deliver the presses one at a time through the button
   * callbacks, then stop the PWM as teardown does.
   */
  method Session(presses: seq<Press>) returns (d: Driver)
    ensures d.level == LevelAfter(INITIAL_LVL, presses)
    ensures d.duties == [Duty(INITIAL_LVL)] + DutiesAfter(INITIAL_LVL, presses) + [0]
  {
    d := new Driver();
    d.StartPwm();
    var i := 0;
    while i < |presses|
      invariant 0 <= i <= |presses|
      invariant d.Valid()
      invariant LevelAfter(d.level, presses[i..]) == LevelAfter(INITIAL_LVL, presses)
      invariant d.duties + DutiesAfter(d.level, presses[i..]) ==
                [Duty(INITIAL_LVL)] + DutiesAfter(INITIAL_LVL, presses)
    {
      assert presses[i..][1..] == presses[i + 1..];
      match presses[i] {
        case Increase => d.IncreaseDcCallback(INCDUTY, true, 0);
        case Decrease => d.DecreaseDcCallback(DECDUTY, true, 0);
      }
      i := i + 1;
    }
    d.StopPwm();
  }
}
