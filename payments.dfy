/**
 * Payment processing helpers: the platform choices, what the Stripe call
 * reports, and the owner-or-admin permission on payments.
 */
module Payments {
  import opened Models

  /** The (value, label) pairs a payment platform must be one of. */
  const PAYMENT_PLATFORM_CHOICES: seq<(string, string)> := [("stripe", "Stripe")]

  /** The loop that collects the stored value of each platform choice. */
  method PlatformValues(choices: seq<(string, string)>) returns (values: seq<string>)
    ensures |values| == |choices|
    ensures forall i | 0 <= i < |choices| :: values[i] == choices[i].0
  {
    values := [];
    for i := 0 to |choices|
      invariant |values| == i
      invariant forall k | 0 <= k < i :: values[k] == choices[k].0
    {
      values := values + [choices[i].0];
    }
  }

  /** Whether a word is the stored value of one of the platform choices. */
  predicate IsPlatform(w: string)
  {
    exists i | 0 <= i < |PAYMENT_PLATFORM_CHOICES| :: PAYMENT_PLATFORM_CHOICES[i].0 == w
  }

  /** The values the loop collects are exactly the platform choices, that is, "stripe" alone. */
  lemma OnlyStripe(values: seq<string>)
    requires |values| == |PAYMENT_PLATFORM_CHOICES|
    requires forall i | 0 <= i < |PAYMENT_PLATFORM_CHOICES| :: values[i] == PAYMENT_PLATFORM_CHOICES[i].0
    ensures forall w :: w in values <==> IsPlatform(w)
    ensures forall w :: IsPlatform(w) <==> w == "stripe"
  {
    assert values == ["stripe"];
    assert IsPlatform("stripe") by {
      assert PAYMENT_PLATFORM_CHOICES[0].0 == "stripe";
    }
  }

  /** What creating a Stripe payment intent did: it returned an intent or raised a StripeError. */
  datatype StripeOutcome = IntentCreated | StripeError

  /** The status word the Stripe helper reports. */
  function ChargeStatus(o: StripeOutcome): (s: PaymentStatus)
    ensures s != PaymentPending
    ensures s == PaymentCompleted <==> o == IntentCreated
  {
    match o
    case IntentCreated => PaymentCompleted
    case StripeError => PaymentFailed
  }

  /** The object permission on a payment: staff, or the owner of the payment's order. */
  function IsOwnerOrAdmin(requester: nat, requesterIsStaff: bool, orderOwner: nat): (allowed: bool)
    ensures requesterIsStaff ==> allowed
    ensures !requesterIsStaff ==> (allowed <==> orderOwner == requester)
    ensures !allowed ==> !requesterIsStaff && orderOwner != requester
  {
    if requesterIsStaff then true else orderOwner == requester
  }
}
