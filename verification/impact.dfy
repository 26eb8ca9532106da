/**
 * The impact dashboard's count-up: four counters start at zero and, on each
 * of 60 timer ticks, show their target scaled by the fraction of ticks done,
 * rounded down; on the 60th tick the timer is cleared and the counters are
 * set to the targets exactly.
 *
 * The browser computes `Math.floor(target * (step / 60))` in double
 * precision; this model computes the exact `floor(target * step / 60)`.
 */
module Impact {

  /** The four figures the dashboard animates. */
  datatype Counts = Counts(wasteDiverted: nat, emissions: nat, energy: nat, clients: nat)

  /** The figures the counters end on. */
  const Targets: Counts := Counts(45000, 12500, 8500, 150)

  /** The number of timer ticks the count-up takes. */
  const Steps: nat := 60

  const Zero: Counts := Counts(0, 0, 0, 0)

  /** One counter after `step` ticks: `target * step / Steps`, rounded down. */
  function Scaled(target: nat, step: nat): (r: nat)
    requires step <= Steps
    ensures r * Steps <= target * step < (r + 1) * Steps
    ensures r <= target
  {
    target * step / Steps
  }

  /** Every counter after `step` ticks. */
  function Scale(targets: Counts, step: nat): Counts
    requires step <= Steps
  {
    Counts(Scaled(targets.wasteDiverted, step), Scaled(targets.emissions, step),
           Scaled(targets.energy, step), Scaled(targets.clients, step))
  }

  /** Counter by counter, `a` shows no more than `b`. */
  predicate AtMost(a: Counts, b: Counts)
  {
    a.wasteDiverted <= b.wasteDiverted && a.emissions <= b.emissions
    && a.energy <= b.energy && a.clients <= b.clients
  }

  /** A counter never goes down from one tick to the next (nor over any span of ticks). */
  lemma ScaledMonotone(target: nat, k1: nat, k2: nat)
    requires k1 <= k2 <= Steps
    ensures Scaled(target, k1) <= Scaled(target, k2)
  {
  }

  /** Before any tick every counter reads 0, after the last every counter reads its target. */
  lemma ScaledEnds(target: nat)
    ensures Scaled(target, 0) == 0
    ensures Scaled(target, Steps) == target
  {
  }

  /** The four counters together: bounded by the targets, non-decreasing, exact at both ends. */
  lemma ScaleProperties(targets: Counts, k1: nat, k2: nat)
    requires k1 <= k2 <= Steps
    ensures AtMost(Scale(targets, k1), Scale(targets, k2))
    ensures AtMost(Scale(targets, k2), targets)
    ensures Scale(targets, 0) == Zero
    ensures Scale(targets, Steps) == targets
  {
    ScaledMonotone(targets.wasteDiverted, k1, k2);
    ScaledMonotone(targets.emissions, k1, k2);
    ScaledMonotone(targets.energy, k1, k2);
    ScaledMonotone(targets.clients, k1, k2);
    ScaledEnds(targets.wasteDiverted);
    ScaledEnds(targets.emissions);
    ScaledEnds(targets.energy);
    ScaledEnds(targets.clients);
  }

  /** The dashboard's own figures: halfway through, each counter shows exactly half its target. */
  lemma DashboardHalfway()
    ensures Scale(Targets, Steps / 2) == Counts(22500, 6250, 4250, 75)
    ensures Scale(Targets, Steps) == Targets
  {
  }

  /** The dashboard component: the `counts` state and the timer's closure variable `currentStep`. */
  class CountUp {
    const targets: Counts
    var counts: Counts
    var currentStep: nat
    var timerRunning: bool

    ghost predicate Valid()
      reads this
    {
      && currentStep <= Steps
      && (currentStep == Steps ==> !timerRunning)
      && counts == Scale(targets, currentStep)
    }

    /** Mounting: the counters read 0 and the effect starts the timer. */
    constructor (targets: Counts)
      ensures Valid() && this.targets == targets
      ensures counts == Zero && currentStep == 0 && timerRunning
    {
      this.targets := targets;
      counts := Zero;
      currentStep := 0;
      timerRunning := true;
      ScaleProperties(targets, 0, 0);
    }

    /** One timer callback. */
    method Tick()
      requires Valid() && timerRunning
      modifies this
      ensures Valid()
      ensures currentStep == old(currentStep) + 1
      ensures counts == Scale(targets, currentStep)
      ensures timerRunning <==> currentStep < Steps
      ensures currentStep == Steps ==> counts == targets
      ensures AtMost(old(counts), counts) && AtMost(counts, targets)
    {
      currentStep := currentStep + 1;
      counts := Scale(targets, currentStep);
      if currentStep >= Steps {
        timerRunning := false;
        counts := targets;
      }
      ScaleProperties(targets, currentStep - 1, currentStep);
    }

    /** Unmounting clears the timer and leaves the counters where they are. */
    method Unmount()
      requires Valid()
      modifies this
      ensures Valid() && !timerRunning
      ensures counts == old(counts) && currentStep == old(currentStep)
    {
      timerRunning := false;
    }

    /** Letting the timer fire until it clears itself. */
    method RunToEnd() returns (ticks: nat)
      requires Valid()
      modifies this
      ensures Valid() && !timerRunning
      ensures old(timerRunning) ==> ticks == Steps - old(currentStep) && currentStep == Steps && counts == targets
      ensures !old(timerRunning) ==> ticks == 0 && counts == old(counts) && currentStep == old(currentStep)
    {
      ticks := 0;
      while timerRunning
        invariant Valid()
        invariant currentStep == old(currentStep) + ticks
        invariant timerRunning ==> old(timerRunning)
        invariant !old(timerRunning) ==> ticks == 0 && counts == old(counts)
        invariant old(timerRunning) && !timerRunning ==> currentStep == Steps
        decreases Steps - currentStep
      {
        Tick();
        ticks := ticks + 1;
      }
      ScaleProperties(targets, currentStep, currentStep);
    }
  }
}
