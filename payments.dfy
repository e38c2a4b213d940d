/** The payment records of apps/models/payments.py: a `Subscription` per user profile and the
    `Payment` rows that pay for it, with the two status updates a payment offers and the
    "days remaining" of a subscription. Datetimes are integer seconds, Decimals are exact reals. */
module Payments {
  import opened Common

  const SecondsPerDay: int := 86400
  /** `timedelta(days=30)`, the length of one paid month. */
  const Month: int := 30 * SecondsPerDay
  /** `Subscription.price` default, 67000.00. */
  const DefaultPrice: real := 67000.00

  datatype PaymentStatus = Pending | Completed | Failed | Refunded

  /** Everything about a subscription that can change after it is created. */
  datatype SubscriptionState = SubscriptionState(
    startDate: int, endDate: int, isActive: bool, autoRenew: bool, price: real)

  class Subscription {
    /** The owning profile (a OneToOneField, so also the table key). */
    const user: nat
    var startDate: int
    var endDate: int
    var isActive: bool
    var autoRenew: bool
    var price: real

    /** A new row: `start_date` is stamped on creation, the flags and the price take their
        declared defaults. */
    constructor (user: nat, endDate: int, now: int)
      ensures this.user == user
      ensures State() == SubscriptionState(now, endDate, true, true, DefaultPrice)
    {
      this.user := user;
      this.startDate := now;
      this.endDate := endDate;
      this.isActive := true;
      this.autoRenew := true;
      this.price := DefaultPrice;
    }

    ghost function State(): SubscriptionState
      reads this
    {
      SubscriptionState(startDate, endDate, isActive, autoRenew, price)
    }

    /** `days_remaining()`: whole days left until `end_date`, 0 once it has passed and 0 for an
        inactive subscription. `timedelta.days` rounds toward minus infinity. */
    function DaysRemaining(now: int): (d: nat)
      reads this
      ensures !isActive ==> d == 0
      ensures isActive ==> d * SecondsPerDay <= Max(0, endDate - now) < (d + 1) * SecondsPerDay
    {
      if !isActive then 0 else Max(0, (endDate - now) / SecondsPerDay)
    }
  }

  /** Everything about a payment that can change after it is created. */
  datatype PaymentState = PaymentState(
    subscription: Subscription?,
    status: PaymentStatus,
    clickTransId: Option<string>,
    transactionId: Option<string>,
    isAutoPayment: bool,
    autoPaymentAttempt: int,
    metadata: map<string, string>,
    completedAt: Option<int>)

  class Payment {
    const id: nat
    /** The paying profile. */
    const user: nat
    /** The amount charged. apps/models/payments.py declares no such field, but the merchant
        callbacks read `payment.amount`; the model gives the row one. */
    const amount: real
    const createdAt: int
    var subscription: Subscription?
    var status: PaymentStatus
    var clickTransId: Option<string>
    var transactionId: Option<string>
    var isAutoPayment: bool
    var autoPaymentAttempt: int
    var metadata: map<string, string>
    var completedAt: Option<int>

    /** A new row takes the declared defaults: pending, manual, attempt 0, empty metadata. */
    constructor (id: nat, user: nat, amount: real, now: int)
      ensures this.id == id && this.user == user && this.amount == amount && createdAt == now
      ensures State() == PaymentState(null, Pending, None, None, false, 0, map[], None)
    {
      this.id := id;
      this.user := user;
      this.amount := amount;
      this.createdAt := now;
      subscription := null;
      status := Pending;
      clickTransId := None;
      transactionId := None;
      isAutoPayment := false;
      autoPaymentAttempt := 0;
      metadata := map[];
      completedAt := None;
    }

    ghost function State(): PaymentState
      reads this
    {
      PaymentState(subscription, status, clickTransId, transactionId, isAutoPayment,
                   autoPaymentAttempt, metadata, completedAt)
    }

    /** `mark_as_completed()`: completed, stamped with the current time, nothing else touched. */
    method MarkAsCompleted(now: int)
      modifies this
      ensures State() == old(State()).(status := Completed, completedAt := Some(now))
    {
      status := Completed;
      completedAt := Some(now);
    }

    /** `mark_as_failed()`: failed; `completed_at` and everything else are left as they were. */
    method MarkAsFailed()
      modifies this
      ensures State() == old(State()).(status := Failed)
    {
      status := Failed;
    }
  }

  /** The two tables the merchant callbacks touch. */
  class PaymentDb {
    /** `Payment.objects`, keyed by primary key. */
    var payments: map<nat, Payment>
    /** `Subscription.objects`, keyed by the owning profile (OneToOneField). */
    var subscriptions: map<nat, Subscription>

    ghost predicate Valid()
      reads this, payments.Values
    {
      && (forall k :: k in payments ==> payments[k].id == k)
      && (forall u :: u in subscriptions ==> subscriptions[u].user == u)
      && UniqueTransactionIds(payments)
      // primary keys are 64-bit (`BigAutoField`)
      && (forall k :: k in payments ==> k <= MaxBigInt)
    }

    constructor ()
      ensures Valid() && payments == map[] && subscriptions == map[]
    {
      payments := map[];
      subscriptions := map[];
    }
  }

  /** `transaction_id` is `unique=True`; NULLs do not clash. */
  ghost predicate UniqueTransactionIds(payments: map<nat, Payment>)
    reads payments.Values
  {
    forall a, b :: a in payments && b in payments && a != b && payments[a].transactionId.Some? ==>
      payments[a].transactionId != payments[b].transactionId
  }

  /** No payment other than `except` holds transaction id `tid`, so `except` may take it. */
  predicate TransactionIdFree(payments: map<nat, Payment>, except: nat, tid: Option<string>)
    reads payments.Values
  {
    tid.None? || forall k :: k in payments && k != except ==> payments[k].transactionId != tid
  }
}
