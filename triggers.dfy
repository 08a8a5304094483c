/** The trigger executors: each passes the context through one step unchanged.
    The manual trigger publishes nothing; the Google Form, payment and PayPal
    triggers publish "loading" before the step and "success" after it. */
module Triggers {
  import opened Values
  import opened Execution

  /** `manualTriggerExecutor`: node data is not read, so it is not a parameter. */
  function ManualTriggerRun(nodeID: string, ctx: Context): (t: Trace)
    ensures t.outcome == Done(ctx)
    ensures forall e :: e in t.log ==> e == EnterStep("manual-trigger")
    ensures |t.log| == 1
  {
    Trace([EnterStep("manual-trigger")], Done(ctx))
  }

  /** The three triggers that publish status events. */
  datatype PublishingTrigger = GoogleFormTrigger | PaymentTrigger | PaypalTrigger

  function TriggerChannel(kind: PublishingTrigger): Channel {
    match kind
    case GoogleFormTrigger => GoogleFormTriggerChannel
    case PaymentTrigger => PaymentTriggerChannel
    case PaypalTrigger => PaypalTriggerChannel
  }

  /** The `step.run` key of each trigger, as written: the payment trigger
      reuses the Google Form trigger's key. */
  function StepKey(kind: PublishingTrigger): string {
    match kind
    case GoogleFormTrigger => "google-form-trigger"
    case PaymentTrigger => "google-form-trigger"
    case PaypalTrigger => "paypal-trigger"
  }

  /** `googleFromTriggerExecutor`, `paymentTriggerExecutor` and `paypalTriggerExecutor`. */
  function TriggerRun(kind: PublishingTrigger, nodeID: string, ctx: Context): (t: Trace)
    ensures t.outcome == Done(ctx)
    ensures EventsFor(t.log, TriggerChannel(kind), nodeID)
    // "loading" first, then the step, "success" last; never "error".
    ensures |t.log| == 3 && t.log[0] == Publish(Event(TriggerChannel(kind), nodeID, Loading))
    ensures t.log[1] == EnterStep(StepKey(kind))
    ensures Last(t.log) == Publish(Event(TriggerChannel(kind), nodeID, Success))
    ensures Publish(Event(TriggerChannel(kind), nodeID, Error)) !in t.log
  {
    Trace([Publish(Event(TriggerChannel(kind), nodeID, Loading)),
           EnterStep(StepKey(kind)),
           Publish(Event(TriggerChannel(kind), nodeID, Success))],
          Done(ctx))
  }

  /** The payment and Google Form triggers publish on different channels but
      run a step under the same key; every other pair of triggers differs in both. */
  lemma StepKeyCollision(a: PublishingTrigger, b: PublishingTrigger)
    requires a != b
    ensures TriggerChannel(a) != TriggerChannel(b)
    ensures StepKey(a) == StepKey(b) <==> {a, b} == {GoogleFormTrigger, PaymentTrigger}
  {
    if StepKey(a) == StepKey(b) {
      assert a != PaypalTrigger && b != PaypalTrigger by {
        assert StepKey(PaypalTrigger) != "google-form-trigger";
      }
    }
  }

  /** A trigger against a runtime that records its effects. */
  method Execute(rt: Runtime, kind: PublishingTrigger, nodeID: string, ctx: Context) returns (r: Outcome)
    modifies rt
    ensures rt.log == old(rt.log) + TriggerRun(kind, nodeID, ctx).log
    ensures r == TriggerRun(kind, nodeID, ctx).outcome
  {
    rt.Publish(TriggerChannel(kind), nodeID, Loading);
    rt.EnterStep(StepKey(kind));
    var result := ctx;
    rt.Publish(TriggerChannel(kind), nodeID, Success);
    return Done(result);
  }
}
