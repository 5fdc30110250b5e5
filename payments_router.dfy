/** `POST /payments/verify-payment` (src/routers/payments.py:80-140): after the payment
    provider's signature check, the matching payment row is marked paid and the user's plan,
    subscription flag and expiry are set. The signature check is a call into the provider's
    SDK; its verdict is an input here. */
module PaymentsRouter {
  import opened Wrappers
  import opened Tables
  import ExportRouter

  /** 2125-01-01T00:00:00Z in seconds since the epoch (src/routers/payments.py:125). */
  const LifetimeExpiry: Time := 4891363200

  /** Thirty days in seconds (src/routers/payments.py:130). */
  const SubscriptionPeriod: int := 30 * 86400

  const PaidMessage: string := "Payment verified and subscription activated"

  /** The if/elif chain on `plan_type` (src/routers/payments.py:108-114). */
  function PlanAccountType(plan: string): (r: int)
    ensures r == 1 <==> plan == "plus" || plan == "lifetime"
    ensures r == 2 <==> plan == "pro"
    ensures r == 0 <==> plan != "plus" && plan != "pro" && plan != "lifetime"
  {
    if plan == "plus" then 1
    else if plan == "pro" then 2
    else if plan == "lifetime" then 1
    else 0
  }

  /** The expiry written for a plan bought at `now` (src/routers/payments.py:124-130). */
  function SubscriptionExpiry(plan: string, now: Time): (r: Time)
    ensures plan == "lifetime" ==> r == LifetimeExpiry
    ensures plan != "lifetime" ==> r == now + SubscriptionPeriod
  {
    if plan == "lifetime" then LifetimeExpiry else now + SubscriptionPeriod
  }

  /** The payment row `select(Payment).where(Payment.razorpay_order_id == ...).first()` finds. */
  function FindPayment(ps: seq<Payment>, orderId: string): (r: Option<nat>)
    ensures r.Some? ==> r.value < |ps| && ps[r.value].orderId == orderId
    ensures r.None? <==> forall i :: 0 <= i < |ps| ==> ps[i].orderId != orderId
  {
    if ps == [] then None
    else if ps[0].orderId == orderId then Some(0)
    else match FindPayment(ps[1..], orderId)
      case None => None
      case Some(i) => Some(i + 1)
  }

  datatype PaymentStep = PaymentStep(tables: Tables, reply: Reply<string>)

  /** The user after a verified payment for `plan`. */
  function Upgraded(u: User, plan: string, now: Time): User
  {
    u.(accountType := PlanAccountType(plan), subscriptionActive := true,
       subscriptionExpiresAt := Some(SubscriptionExpiry(plan, now)))
  }

  /** `verify_payment` for the user in row `u`. */
  function VerifyPaymentStep(t: Tables, u: nat, orderId: string, paymentId: string, plan: string,
                             signatureValid: bool, now: Time): (r: PaymentStep)
    requires u < |t.users|
    ensures !signatureValid ==> r == PaymentStep(t, HttpError(400, "Invalid signature"))
    ensures signatureValid ==>
              && r.reply == Ok(PaidMessage)
              && r.tables == t.(users := t.users[u := Upgraded(t.users[u], plan, now)],
                                payments := r.tables.payments)
    ensures signatureValid && FindPayment(t.payments, orderId).Some? ==>
              var i := FindPayment(t.payments, orderId).value;
              r.tables.payments == t.payments[i := t.payments[i].(paymentId := Some(paymentId), status := "paid")]
    ensures FindPayment(t.payments, orderId).None? ==> r.tables.payments == t.payments
  {
    if !signatureValid then PaymentStep(t, HttpError(400, "Invalid signature"))
    else
      var payments :=
        match FindPayment(t.payments, orderId)
        case None => t.payments
        case Some(i) => t.payments[i := t.payments[i].(paymentId := Some(paymentId), status := "paid")];
      PaymentStep(t.(payments := payments, users := t.users[u := Upgraded(t.users[u], plan, now)]), Ok(PaidMessage))
  }

  /** Every paid plan counts as an admin account for exports, so it exports without limit. */
  lemma PaidPlansExportWithoutLimit(t: Tables, u: nat, orderId: string, paymentId: string, plan: string,
                                    now: Time, later: Time)
    requires u < |t.users|
    requires plan == "plus" || plan == "pro" || plan == "lifetime"
    ensures var t' := VerifyPaymentStep(t, u, orderId, paymentId, plan, true, now).tables;
            ExportRouter.CheckEligibility(t'.users[u], later) == ExportRouter.Eligibility(true, -1, None)
  {
  }

  /** An unknown plan name still verifies, but sets the account to free: a user who had exports
      without limit and exported recently is then refused. */
  lemma UnknownPlanDowngrades(t: Tables, u: nat, orderId: string, paymentId: string, plan: string,
                              now: Time, at: Time)
    requires u < |t.users|
    requires plan != "plus" && plan != "pro" && plan != "lifetime"
    requires t.users[u].lastExportAt == Some(at) && now < at + ExportRouter.RateLimit
    ensures var t' := VerifyPaymentStep(t, u, orderId, paymentId, plan, true, now).tables;
            && t'.users[u].accountType == 0 && t'.users[u].subscriptionActive
            && !ExportRouter.CheckEligibility(t'.users[u], now).canExport
  {
  }

  /** The route against the database. */
  method VerifyPayment(db: Db, u: nat, orderId: string, paymentId: string, plan: string,
                       signatureValid: bool, now: Time) returns (reply: Reply<string>)
    requires u < |db.users|
    modifies db
    ensures PaymentStep(db.State(), reply) == VerifyPaymentStep(old(db.State()), u, orderId, paymentId, plan, signatureValid, now)
  {
    if !signatureValid {
      return HttpError(400, "Invalid signature");
    }
    var found := FindPayment(db.payments, orderId);
    if found.Some? {
      var i := found.value;
      db.payments := db.payments[i := db.payments[i].(paymentId := Some(paymentId), status := "paid")];
    }
    var newAccountType := 0;
    if plan == "plus" {
      newAccountType := 1;
    } else if plan == "pro" {
      newAccountType := 2;
    } else if plan == "lifetime" {
      newAccountType := 1;
    }
    var user := db.users[u].(accountType := newAccountType, subscriptionActive := true);
    if plan == "lifetime" {
      user := user.(subscriptionExpiresAt := Some(LifetimeExpiry));
    } else {
      user := user.(subscriptionExpiresAt := Some(now + SubscriptionPeriod));
    }
    db.users := db.users[u := user];
    reply := Ok(PaidMessage);
  }
}
