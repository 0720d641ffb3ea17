/**
 * The order timeline (`OrderTimeline`): seven fixed milestones, the one the
 * order has reached, and how every milestone is flagged relative to it. The
 * drawing itself (icons, class names, CSS widths) is not modelled.
 */
module OrderTimeline {

  datatype Step = Step(id: string, name: string, shortName: string, progress: int)

  /** `STEPS`: the milestones and the progress at which each is reached. */
  const Steps: seq<Step> := [
    Step("reserved", "Reservado", "Reserv.", 10),
    Step("confirmed", "Confirmado", "Confirm.", 25),
    Step("production", "En Producción", "Produc.", 50),
    Step("vin_assigned", "VIN Asignado", "VIN", 65),
    Step("in_transit", "En Tránsito", "Tráns.", 80),
    Step("scheduled", "Programado", "Progr.", 90),
    Step("delivered", "Entregado", "Entreg.", 100)
  ]

  const LastStep: nat := |Steps| - 1

  /** There are seven steps and their thresholds strictly increase. */
  lemma StepsStrictlyIncrease()
    ensures |Steps| == 7 && LastStep == 6
    ensures Steps[0].progress == 10 && Steps[LastStep].progress == 100
    ensures forall i, j :: 0 <= i < j < |Steps| ==> Steps[i].progress < Steps[j].progress
  {
  }

  /**
   * The predicate handed to `findIndex`, evaluated at step `i`. Because the
   * thresholds increase, it holds exactly when the progress has not reached
   * the next step's threshold; at the last step it always holds.
   */
  predicate Selects(progress: int, i: nat)
    requires i < |Steps|
    ensures Selects(progress, i) <==> i == LastStep || progress < Steps[i + 1].progress
  {
    || progress < Steps[i].progress
    || (progress >= Steps[i].progress
        && (i == LastStep || progress < Steps[i + 1].progress))
  }

  /** `STEPS.findIndex(...)` started at `from`: the first step that satisfies the predicate, or -1. */
  function FindIndexFrom(progress: int, from: nat): (r: int)
    requires from <= |Steps|
    ensures r == -1 || (from <= r < |Steps| && Selects(progress, r))
    ensures r != -1 ==> forall j :: from <= j < r ==> !Selects(progress, j)
    ensures r == -1 ==> forall j :: from <= j < |Steps| ==> !Selects(progress, j)
    decreases |Steps| - from
  {
    if from == |Steps| then -1
    else if Selects(progress, from) then from
    else FindIndexFrom(progress, from + 1)
  }

  /**
   * `activeIndex`: the index `findIndex` returns, with the last step as the
   * fallback when it returns -1. For an integer progress the result is the
   * first step the predicate selects.
   */
  function ActiveIndex(progress: int): (r: nat)
    ensures r <= LastStep
    ensures Selects(progress, r)
    ensures forall j :: 0 <= j < r ==> !Selects(progress, j)
  {
    var found := FindIndexFrom(progress, 0);
    if found == -1 then LastStep else found
  }

  /**
   * For an integer progress the predicate always holds at the last step, so
   * `findIndex` never returns -1 and the fallback is dead.
   */
  lemma FindIndexNeverMisses(progress: int)
    ensures FindIndexFrom(progress, 0) != -1
    ensures ActiveIndex(progress) == FindIndexFrom(progress, 0)
  {
    assert Selects(progress, LastStep);
  }

  /**
   * Below the first threshold the first step is active (through the first
   * disjunct of the predicate); from it on the active step is the last one
   * whose threshold has been reached.
   */
  lemma ActiveIndexIsLastReached(progress: int)
    ensures progress < Steps[0].progress ==> ActiveIndex(progress) == 0
    ensures progress >= Steps[0].progress ==>
      && Steps[ActiveIndex(progress)].progress <= progress
      && forall j :: ActiveIndex(progress) < j < |Steps| ==> progress < Steps[j].progress
  {
    StepsStrictlyIncrease();
    FindIndexNeverMisses(progress);
    var a := ActiveIndex(progress);
    if progress >= Steps[0].progress {
      if progress < Steps[a].progress {
        // an earlier step would have been selected
        assert a > 0 && Selects(progress, a - 1);
        assert false;
      }
    }
  }

  /** A progress exactly at a threshold makes that step the active one. */
  lemma ThresholdSelectsItsStep(i: nat)
    requires i < |Steps|
    ensures ActiveIndex(Steps[i].progress) == i
  {
    StepsStrictlyIncrease();
    ActiveIndexIsLastReached(Steps[i].progress);
  }

  /** More progress never moves the timeline back. */
  lemma ActiveIndexMonotone(p1: int, p2: int)
    requires p1 <= p2
    ensures ActiveIndex(p1) <= ActiveIndex(p2)
  {
    StepsStrictlyIncrease();
    ActiveIndexIsLastReached(p1);
    ActiveIndexIsLastReached(p2);
  }

  /** From 100 on the last step, `delivered`, is active. */
  lemma FullProgressIsLastStep(progress: int)
    requires progress >= 100
    ensures ActiveIndex(progress) == LastStep
  {
    StepsStrictlyIncrease();
    ActiveIndexIsLastReached(progress);
  }

  // ------------------------------------------------------------- flags

  /** `isCompleted`, `isCurrent`, `isPending` of one rendered step. */
  datatype StepFlags = StepFlags(isCompleted: bool, isCurrent: bool, isPending: bool)

  /**
   * The flags of every step, in order, for a given progress: the steps
   * before the active one are completed, the active one is current, the
   * ones after it are pending.
   */
  function Flags(progress: int): (fs: seq<StepFlags>)
    ensures |fs| == |Steps|
    ensures forall i :: 0 <= i < |fs| ==>
      && (fs[i].isCompleted <==> i < ActiveIndex(progress))
      && (fs[i].isCurrent <==> i == ActiveIndex(progress))
      && (fs[i].isPending <==> i > ActiveIndex(progress))
  {
    var active := ActiveIndex(progress);
    seq(|Steps|, i => StepFlags(i < active, i == active, i > active))
  }

  /**
   * Every step carries exactly one flag, exactly one step is current and
   * the completed steps form a prefix of the timeline.
   */
  lemma FlagsPartitionSteps(progress: int)
    ensures forall i :: 0 <= i < |Steps| ==>
      var f := Flags(progress)[i];
      (f.isCompleted && !f.isCurrent && !f.isPending)
      || (!f.isCompleted && f.isCurrent && !f.isPending)
      || (!f.isCompleted && !f.isCurrent && f.isPending)
    ensures Flags(progress)[ActiveIndex(progress)].isCurrent
    ensures forall i, j ::
      (0 <= i < |Steps| && 0 <= j < |Steps| && Flags(progress)[i].isCurrent && Flags(progress)[j].isCurrent)
      ==> i == j
    ensures forall i, j :: 0 <= i < j < |Steps| && Flags(progress)[j].isCompleted ==> Flags(progress)[i].isCompleted
  {
  }

  /**
   * The share of the connecting line drawn, `activeIndex / (STEPS.length - 1)`,
   * as an exact ratio: between 0 and 1, and 1 exactly when the last step is active.
   */
  function FillRatio(progress: int): (r: real)
    ensures 0.0 <= r <= 1.0
    ensures r == 1.0 <==> ActiveIndex(progress) == LastStep
    ensures r == 0.0 <==> ActiveIndex(progress) == 0
  {
    ActiveIndex(progress) as real / LastStep as real
  }

  /** The drawn share of the line never shrinks as the progress grows. */
  lemma FillRatioMonotone(p: int, q: int)
    requires p <= q
    ensures FillRatio(p) <= FillRatio(q)
  {
    ActiveIndexMonotone(p, q);
  }
}
