/**
 * The box-breathing page: four phases of four seconds each, a second-by-
 * second countdown while the exercise runs, and a count of completed
 * cycles.  The interval timer is not modelled: each call of `Tick` is
 * one firing of it.
 */
module Breathing {

  datatype Phase = Inhale | Hold | Exhale | Reset

  const PhaseSeconds := 4
  const CycleSeconds := 4 * PhaseSeconds

  /** The page's four state fields. */
  datatype Timer = Timer(isActive: bool, phase: Phase, timeLeft: int, cycleCount: nat)

  const Initial := Timer(false, Inhale, PhaseSeconds, 0)

  /** The phases come round in a fixed order of four. */
  function NextPhase(p: Phase): (q: Phase)
    ensures q != p
    ensures PhaseIndex(q) == (PhaseIndex(p) + 1) % 4
  {
    match p
    case Inhale => Hold
    case Hold => Exhale
    case Exhale => Reset
    case Reset => Inhale
  }

  /** The countdown always shows between 1 and 4 seconds. */
  predicate Valid(t: Timer) {
    1 <= t.timeLeft <= PhaseSeconds
  }

  /**
   * One second of the running exercise: count down, or at the last
   * second move to the next phase with a fresh countdown, counting a
   * cycle when Reset gives way to Inhale.  An inactive exercise has no
   * interval, so nothing changes.
   */
  function Step(t: Timer): (r: Timer)
    ensures !t.isActive ==> r == t
    ensures Valid(t) ==> Valid(r)
    ensures r.isActive == t.isActive
    ensures r.cycleCount == t.cycleCount || r.cycleCount == t.cycleCount + 1
    ensures r.cycleCount == t.cycleCount + 1 <==> t.isActive && t.timeLeft <= 1 && t.phase == Reset
    ensures t.isActive && t.timeLeft > 1 ==> r.phase == t.phase && r.timeLeft == t.timeLeft - 1
    ensures t.isActive && t.timeLeft <= 1 ==> r.phase == NextPhase(t.phase) && r.timeLeft == PhaseSeconds
  {
    if !t.isActive then t
    else if t.timeLeft <= 1 then
      t.(phase := NextPhase(t.phase), timeLeft := PhaseSeconds,
         cycleCount := if t.phase == Reset then t.cycleCount + 1 else t.cycleCount)
    else t.(timeLeft := t.timeLeft - 1)
  }

  function StepN(t: Timer, n: nat): Timer
    decreases n
  {
    if n == 0 then t else StepN(Step(t), n - 1)
  }

  function PhaseIndex(p: Phase): (i: nat)
    ensures i < 4
  {
    match p
    case Inhale => 0
    case Hold => 1
    case Exhale => 2
    case Reset => 3
  }

  /** Seconds elapsed since the start of the current cycle, 0 to 15. */
  function Position(t: Timer): (p: nat)
    requires Valid(t)
    ensures p < CycleSeconds
  {
    PhaseIndex(t.phase) * PhaseSeconds + (PhaseSeconds - t.timeLeft)
  }

  /** Each tick of a running exercise moves one second round the cycle. */
  lemma StepAdvances(t: Timer)
    requires Valid(t) && t.isActive
    ensures Position(Step(t)) == (Position(t) + 1) % CycleSeconds
    ensures Step(t).cycleCount == t.cycleCount + (Position(t) + 1) / CycleSeconds
  {
  }

  /** After `n` ticks the exercise is `n` seconds further round, with one cycle per 16 seconds. */
  lemma {:induction false} StepNAdvances(t: Timer, n: nat)
    requires Valid(t) && t.isActive
    ensures Valid(StepN(t, n)) && StepN(t, n).isActive
    ensures Position(StepN(t, n)) == (Position(t) + n) % CycleSeconds
    ensures StepN(t, n).cycleCount == t.cycleCount + (Position(t) + n) / CycleSeconds
    decreases n
  {
    if n > 0 {
      var a := Position(t) + 1;
      StepAdvances(t);
      StepNAdvances(Step(t), n - 1);
      assert a == CycleSeconds * (a / CycleSeconds) + a % CycleSeconds;
      assert a + n - 1 == CycleSeconds * (a / CycleSeconds) + (a % CycleSeconds + n - 1);
      ModAfterWholeCycles(a / CycleSeconds, a % CycleSeconds + n - 1);
    }
  }

  lemma ModAfterWholeCycles(q: nat, r: nat)
    ensures (CycleSeconds * q + r) % CycleSeconds == r % CycleSeconds
    ensures (CycleSeconds * q + r) / CycleSeconds == q + r / CycleSeconds
  {
    var x := CycleSeconds * q + r;
    assert x == CycleSeconds * (q + r / CycleSeconds) + r % CycleSeconds;
  }

  /** Two states at the same point of the cycle show the same phase and countdown. */
  lemma PositionDeterminesPhase(t: Timer, u: Timer)
    requires Valid(t) && Valid(u) && Position(t) == Position(u)
    ensures t.phase == u.phase && t.timeLeft == u.timeLeft
  {
  }

  /** Sixteen ticks bring a running exercise back to where it was, one cycle later. */
  lemma FullCycle(t: Timer)
    requires Valid(t) && t.isActive
    ensures StepN(t, CycleSeconds) == t.(cycleCount := t.cycleCount + 1)
  {
    AfterOneCycle(t, CycleSeconds);
  }

  lemma AfterOneCycle(t: Timer, n: nat)
    requires Valid(t) && t.isActive && n == CycleSeconds
    ensures StepN(t, n) == t.(cycleCount := t.cycleCount + 1)
  {
    var u := StepN(t, n);
    StepNAdvances(t, n);
    ModAfterWholeCycles(1, Position(t));
    assert Position(u) == Position(t) && u.cycleCount == t.cycleCount + 1;
    PositionDeterminesPhase(u, t);
  }

  /** From the start of Inhale, 16 ticks end at the start of Inhale with one more cycle. */
  lemma InhaleToInhale(c: nat)
    ensures StepN(Timer(true, Inhale, PhaseSeconds, c), CycleSeconds) == Timer(true, Inhale, PhaseSeconds, c + 1)
  {
    FullCycle(Timer(true, Inhale, PhaseSeconds, c));
  }

  // ---------------------------------------------------------------------
  // Display

  /** `getPhaseText()`: the Reset phase is shown as a second Hold. */
  function PhaseText(p: Phase): (s: string)
    ensures s == "Hold" <==> p == Hold || p == Reset
  {
    match p
    case Inhale => "Breathe In"
    case Hold => "Hold"
    case Exhale => "Breathe Out"
    case Reset => "Hold"
  }

  /** `getCircleScale()`: the circle is enlarged only while running and breathing in or holding. */
  function CircleScale(isActive: bool, p: Phase): (s: string)
    ensures s == "scale-150" <==> isActive && (p == Inhale || p == Hold)
    ensures s != "scale-150" ==> s == "scale-100"
  {
    if !isActive then "scale-100"
    else match p
      case Inhale => "scale-150"
      case Hold => "scale-150"
      case Exhale => "scale-100"
      case Reset => "scale-100"
  }

  // ---------------------------------------------------------------------
  // The page's state

  class BreathingPage {
    var isActive: bool
    var phase: Phase
    var timeLeft: int
    var cycleCount: nat

    function State(): Timer
      reads this
    {
      Timer(isActive, phase, timeLeft, cycleCount)
    }

    constructor ()
      ensures State() == Initial
    {
      isActive := false;
      phase := Inhale;
      timeLeft := PhaseSeconds;
      cycleCount := 0;
    }

    /** One firing of the one-second interval (there is none while paused). */
    method Tick()
      modifies this
      ensures State() == Step(old(State()))
    {
      if !isActive {
        return;
      }
      if timeLeft <= 1 {
        if phase == Reset {
          cycleCount := cycleCount + 1;
        }
        phase := NextPhase(phase);
        timeLeft := PhaseSeconds;
      } else {
        timeLeft := timeLeft - 1;
      }
    }

    /** `toggleTimer()`: pause or resume, nothing else. */
    method ToggleTimer()
      modifies this
      ensures State() == old(State()).(isActive := !old(isActive))
    {
      isActive := !isActive;
    }

    /** `resetTimer()`. */
    method ResetTimer()
      modifies this
      ensures State() == Initial
    {
      isActive := false;
      phase := Inhale;
      timeLeft := PhaseSeconds;
      cycleCount := 0;
    }
  }
}
