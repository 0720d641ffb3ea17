/**
 * The one place where the status decoder meets the timeline: the dashboard
 * hands `decodeStatus(order.order_status).progress` to `OrderTimeline`
 * unchanged. No other input (VIN, delivery appointment, location) moves
 * the timeline.
 */
module Dashboard {
  import opened Wrappers
  import opened Statuses
  import opened OrderTimeline

  /** The timeline step shown for an order whose status code is `status`. */
  function TimelineIndex(status: Option<string>): (i: nat)
    ensures i <= LastStep
  {
    ActiveIndex(DecodeStatus(status).progress)
  }

  /**
   * The step each order state is expected to light up: the states with a
   * milestone of their own land on it; `Ordered` (between reserved and
   * confirmed) and `Cancelled` (progress 0) stay on the first step.
   */
  function StageOf(s: OrderState): nat
  {
    match s
    case Booked => 0
    case Ordered => 0
    case Confirmed => 1
    case InProduction => 2
    case VinAssigned => 3
    case InTransit => 4
    case Scheduled => 5
    case Delivered => 6
    case Cancelled => 0
  }

  /** Every spelling of every state lights up that state's step. */
  lemma AliasesLightTheirStage(s: OrderState, a: string)
    requires a in Aliases(s)
    ensures TimelineIndex(Some(a)) == StageOf(s)
  {
    AliasesDecodeAlike(s, a);
    StateStageIsItsIndex(s);
  }

  /** `DELIVERED` shows the last step. */
  lemma DeliveredIsLastStep()
    ensures TimelineIndex(Some("DELIVERED")) == LastStep
  {
    assert Aliases(Delivered)[0] == "DELIVERED";
    AliasesLightTheirStage(Delivered, "DELIVERED");
  }

  /** `ORDERED` (progress 15) still shows the first step. */
  lemma OrderedIsFirstStep()
    ensures TimelineIndex(Some("ORDERED")) == 0
  {
    assert Aliases(Ordered)[0] == "ORDERED";
    AliasesLightTheirStage(Ordered, "ORDERED");
  }

  /** `CANCELLED`, an absent code and any code not listed all sit on the first step. */
  lemma ProgressZeroIsFirstStep(status: Option<string>)
    requires Absent(status) || !Known(status.value) || DecodeStatus(status).progress == 0
    ensures TimelineIndex(status) == 0
  {
    StepsStrictlyIncrease();
    ActiveIndexIsLastReached(DecodeStatus(status).progress);
  }

  /** A state with more progress never shows an earlier step. */
  lemma LifeCycleNeverGoesBack(s: OrderState, t: OrderState)
    requires Info(s).progress <= Info(t).progress
    ensures StageOf(s) <= StageOf(t)
  {
    ActiveIndexMonotone(Info(s).progress, Info(t).progress);
    StateStageIsItsIndex(s);
    StateStageIsItsIndex(t);
  }

  /** The stage of a state is the active index of its progress. */
  lemma StateStageIsItsIndex(s: OrderState)
    ensures ActiveIndex(Info(s).progress) == StageOf(s)
  {
    StepsStrictlyIncrease();
    match s
    case Ordered =>
      ActiveIndexIsLastReached(15);
    case Cancelled =>
      ActiveIndexIsLastReached(0);
    case _ =>
      ThresholdSelectsItsStep(StageOf(s));
  }
}
