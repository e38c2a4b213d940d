/** The Click merchant callbacks of apps/click_merchant.py: the signature over the callback
    fields, the read-only PREPARE check and the COMPLETE step that settles a payment and extends
    or opens the payer's subscription. The MD5 digest is an uninterpreted function carried by the
    merchant configuration; "now" is a parameter in seconds. */
module ClickMerchant {
  import opened Common
  import opened Payments

  /** The callback's POST parameters, as strings. */
  type Params = map<string, string>

  /** `params.get(key)`. */
  function Param(params: Params, key: string): (v: Option<string>)
    ensures v.Some? <==> key in params
    ensures v.Some? ==> v.value == params[key]
  {
    if key in params then Some(params[key]) else None
  }

  /** `params.get(key, '')`. */
  function ParamOrEmpty(params: Params, key: string): string
  {
    Param(params, key).GetOr("")
  }

  /** The merchant's settings: the shared secret and the digest function (MD5 rendered as hex). */
  datatype Merchant = Merchant(secretKey: string, md5: string -> string)

  /** The callback fields the signature covers, in signing order (the secret goes after the
      second one). */
  const SignedKeys: set<string> :=
    {"click_trans_id", "service_id", "merchant_trans_id", "amount", "action", "sign_time"}

  /** The text that `generate_sign_string` digests. */
  function SignInput(m: Merchant, params: Params): string
  {
    ParamOrEmpty(params, "click_trans_id")
    + ParamOrEmpty(params, "service_id")
    + m.secretKey
    + ParamOrEmpty(params, "merchant_trans_id")
    + ParamOrEmpty(params, "amount")
    + ParamOrEmpty(params, "action")
    + ParamOrEmpty(params, "sign_time")
  }

  /** `generate_sign_string`: the digest of the signed fields and the secret. */
  function SignString(m: Merchant, params: Params): string
  {
    m.md5(SignInput(m, params))
  }

  /** `verify_sign`: the supplied `sign_string` (empty when absent) equals the computed digest. */
  predicate VerifySign(m: Merchant, params: Params)
  {
    ParamOrEmpty(params, "sign_string") == SignString(m, params)
  }

  /** The secret sits between the first two fields and the last four, whatever they hold. */
  lemma SignInputLayout(m: Merchant, params: Params)
    ensures var head := ParamOrEmpty(params, "click_trans_id") + ParamOrEmpty(params, "service_id");
            var s := SignInput(m, params);
            && |s| >= |head| + |m.secretKey|
            && s[..|head|] == head
            && s[|head|..|head| + |m.secretKey|] == m.secretKey
  {
  }

  /** An absent field signs like an empty one. */
  lemma AbsentFieldSignsAsEmpty(m: Merchant, params: Params, key: string)
    requires key !in params
    ensures SignInput(m, params) == SignInput(m, params[key := ""])
  {
  }

  /** Only the six signed fields and `sign_string` decide the signature check: in particular the
      `error` field that COMPLETE acts on is not covered by the signature. */
  lemma VerifySignIgnoresUnsignedKeys(m: Merchant, p: Params, q: Params)
    requires forall k :: k in SignedKeys + {"sign_string"} ==> Param(p, k) == Param(q, k)
    ensures VerifySign(m, p) == VerifySign(m, q)
  {
    assert forall k :: k in SignedKeys + {"sign_string"} ==> ParamOrEmpty(p, k) == ParamOrEmpty(q, k);
  }

  /** What a callback handler answers. `Accepted` is the `error: 0` reply that echoes the two
      transaction ids and gives the payment id (`merchant_prepare_id` / `merchant_confirm_id`);
      `Raised` means the handler raised instead of answering. */
  datatype Reply =
    | Error(code: int, note: string)
    | Accepted(clickTransId: Option<string>, merchantTransId: Option<string>, merchantId: nat)
    | Raised(exception: string)

  const SignFailed := Error(-1, "Sign check failed")
  const PaymentNotFound := Error(-5, "Payment not found")
  const AlreadyPaid := Error(-4, "Already paid")
  const IncorrectAmount := Error(-2, "Incorrect amount")
  const TransactionCancelled := Error(-9, "Transaction cancelled")

  /** The result of `Payment.objects.get(id=merchant_trans_id)`. */
  datatype Lookup = Found(id: nat) | NotFound | BadId

  /** The id filter converts its value with `int()`: text that does not convert raises; a
      number that names no row (a negative one included) matches nothing, as does an absent
      `merchant_trans_id`. */
  function LookupPayment(payments: map<nat, Payment>, merchantTransId: Option<string>): (l: Lookup)
    ensures l.Found? <==>
      merchantTransId.Some? && PyInt(merchantTransId.value).Some? &&
      PyInt(merchantTransId.value).value >= 0 && PyInt(merchantTransId.value).value as nat in payments
    ensures l.Found? ==> merchantTransId.Some? && PyInt(merchantTransId.value) == Some(l.id as int)
    ensures l.BadId? <==> merchantTransId.Some? && PyInt(merchantTransId.value).None?
  {
    match merchantTransId
    case None => NotFound
    case Some(s) =>
      match PyInt(s)
      case None => BadId
      case Some(n) => if n >= 0 && n as nat in payments then Found(n as nat) else NotFound
  }

  /** A negative id names no payment. */
  lemma NegativeIdNotFound(payments: map<nat, Payment>, s: string)
    requires PyInt(s).Some? && PyInt(s).value < 0
    ensures LookupPayment(payments, Some(s)) == NotFound
  {
  }

  /** `Decimal(str(params.get('amount')))`: an absent amount is the text "None", which does not
      convert. */
  function CallbackAmount(params: Params): (d: Option<DecimalValue>)
    ensures "amount" !in params ==> d.None?
    ensures "amount" in params ==> d == PyDecimal(params["amount"])
  {
    match Param(params, "amount")
    case None => None
    case Some(s) => PyDecimal(s)
  }

  /** `amount != payment.amount` with a `Decimal` on the left: a signalling NaN makes the
      comparison raise (`None`); a quiet NaN and an infinity differ from every stored amount. */
  function Differs(d: DecimalValue, amount: real): (r: Option<bool>)
    ensures r.None? <==> d.SignalingNaN?
    ensures r == Some(false) <==> d == Finite(amount)
  {
    match d
    case Finite(v) => Some(v != amount)
    case Infinite(_) => Some(true)
    case QuietNaN => Some(true)
    case SignalingNaN => None
  }

  /** PREPARE: the checks run in a fixed order (signature, payment, status, amount) and the first
      one that fails decides the answer; the payment is only read. */
  function Prepare(m: Merchant, db: PaymentDb, params: Params): (r: Reply)
    reads db, db.payments.Values
    ensures r == SignFailed <==> !VerifySign(m, params)
    ensures r == PaymentNotFound <==>
      VerifySign(m, params) && LookupPayment(db.payments, Param(params, "merchant_trans_id")).NotFound?
    ensures r == Raised("ValueError") <==>
      VerifySign(m, params) && LookupPayment(db.payments, Param(params, "merchant_trans_id")).BadId?
    ensures r == AlreadyPaid <==>
      VerifySign(m, params) &&
      var l := LookupPayment(db.payments, Param(params, "merchant_trans_id"));
      l.Found? && db.payments[l.id].status == Completed
    ensures r == IncorrectAmount <==>
      VerifySign(m, params) &&
      var l := LookupPayment(db.payments, Param(params, "merchant_trans_id"));
      l.Found? && db.payments[l.id].status != Completed &&
      CallbackAmount(params).Some? && Differs(CallbackAmount(params).value, db.payments[l.id].amount) == Some(true)
    ensures r == Raised("InvalidOperation") <==>
      VerifySign(m, params) &&
      var l := LookupPayment(db.payments, Param(params, "merchant_trans_id"));
      l.Found? && db.payments[l.id].status != Completed &&
      (CallbackAmount(params).None? || CallbackAmount(params).value.SignalingNaN?)
    ensures r.Accepted? <==>
      VerifySign(m, params) &&
      var l := LookupPayment(db.payments, Param(params, "merchant_trans_id"));
      l.Found? && db.payments[l.id].status != Completed &&
      CallbackAmount(params) == Some(Finite(db.payments[l.id].amount))
    ensures r.Accepted? ==>
      && r.clickTransId == Param(params, "click_trans_id")
      && r.merchantTransId == Param(params, "merchant_trans_id")
      && r.merchantId in db.payments
      && PyInt(Param(params, "merchant_trans_id").value) == Some(r.merchantId as int)
    ensures r.Error? ==> r.code in {-1, -5, -4, -2}
  {
    if !VerifySign(m, params) then SignFailed
    else
      var merchantTransId := Param(params, "merchant_trans_id");
      match LookupPayment(db.payments, merchantTransId)
      case BadId => Raised("ValueError")
      case NotFound => PaymentNotFound
      case Found(id) =>
        var payment := db.payments[id];
        if payment.status == Completed then AlreadyPaid
        else
          match CallbackAmount(params)
          case None => Raised("InvalidOperation")
          case Some(amount) =>
            match Differs(amount, payment.amount)
            case None => Raised("InvalidOperation")
            case Some(true) => IncorrectAmount
            case Some(false) => Accepted(Param(params, "click_trans_id"), merchantTransId, id)
  }

  /** A pending payment of a whole amount is accepted when the callback carries that amount
      written out ("67000" for 67000.00) and refused with -2 for any other whole amount. */
  lemma PrepareWholeAmount(m: Merchant, db: PaymentDb, params: Params, id: nat, amount: nat, sent: nat)
    requires db.Valid() && id in db.payments
    requires db.payments[id].status == Pending && db.payments[id].amount == amount as real
    requires VerifySign(m, params)
    requires Param(params, "merchant_trans_id") == Some(NatToString(id))
    requires Param(params, "amount") == Some(NatToString(sent))
    ensures sent == amount ==> Prepare(m, db, params).Accepted?
    ensures sent != amount ==> Prepare(m, db, params) == IncorrectAmount
  {
    IdLooksUp(db.payments, id);
    PyDecimalOfNatToString(sent);
    assert CallbackAmount(params) == Some(Finite(sent as real));
  }

  /** The rendered id of a payment finds it; a 64-bit key has at most 19 digits. */
  lemma IdLooksUp(payments: map<nat, Payment>, id: nat)
    requires id in payments && id <= MaxBigInt
    ensures LookupPayment(payments, Some(NatToString(id))) == Found(id)
  {
    BigIntDigits(id);
    PyIntOfIntToString(id);
  }

  /** An amount written with an exponent is compared by value: "67e3" pays 67000.00. */
  lemma PrepareExponentAmount(m: Merchant, db: PaymentDb, params: Params, id: nat)
    requires db.Valid() && id in db.payments
    requires db.payments[id].status == Pending && db.payments[id].amount == 67000.0
    requires VerifySign(m, params)
    requires Param(params, "merchant_trans_id") == Some(NatToString(id))
    requires Param(params, "amount") == Some("67e3")
    ensures Prepare(m, db, params).Accepted?
  {
    IdLooksUp(db.payments, id);
    PyDecimalExponent();
  }

  /** "NaN" converts to a quiet NaN, which differs from every amount without raising, so the
      answer is -2. */
  lemma PrepareNaNAmount(m: Merchant, db: PaymentDb, params: Params, id: nat)
    requires db.Valid() && id in db.payments && db.payments[id].status == Pending
    requires VerifySign(m, params)
    requires Param(params, "merchant_trans_id") == Some(NatToString(id))
    requires Param(params, "amount") == Some("NaN")
    ensures Prepare(m, db, params) == IncorrectAmount
  {
    IdLooksUp(db.payments, id);
    PyDecimalNaN();
  }

  /** An amount with an underscore outside a space does not convert: `Decimal("_ 5")` raises
      InvalidOperation, even for a pending 5.00 payment. */
  lemma PrepareUnderscoreBeforeSpace(m: Merchant, db: PaymentDb, params: Params, id: nat)
    requires db.Valid() && id in db.payments && db.payments[id].status == Pending
    requires VerifySign(m, params)
    requires Param(params, "merchant_trans_id") == Some(NatToString(id))
    requires Param(params, "amount") == Some("_ 5")
    ensures Prepare(m, db, params) == Raised("InvalidOperation")
  {
    IdLooksUp(db.payments, id);
    PyDecimalRefusesUnderscoreBeforeSpace();
  }

  /** A separator character before the id is not whitespace to `int()`: ValueError. */
  lemma LookupSeparator(payments: map<nat, Payment>)
    ensures LookupPayment(payments, Some("\U{1c}5")) == BadId
  {
    PyIntRefusesSeparator();
  }

  /** An id with a space before it still finds its payment. */
  lemma LookupPadded(payments: map<nat, Payment>, id: nat)
    requires id in payments && id <= MaxBigInt
    ensures LookupPayment(payments, Some(" " + NatToString(id))) == Found(id)
  {
    BigIntDigits(id);
    DigitsValueOfNatToString(id);
    PyIntPadded(NatToString(id));
  }

  /** An id of more than 4300 digits raises ValueError in `int()` before any row is looked up. */
  lemma LookupLongDigits(payments: map<nat, Payment>, d: string)
    requires AllDigits(d) && |d| > MaxStrDigits
    ensures LookupPayment(payments, Some(d)) == BadId
  {
    PyIntRefusesLongDigits(d);
  }

  /** An id with a plus sign still finds its payment. */
  lemma LookupPlusSigned(payments: map<nat, Payment>)
    requires 5 in payments
    ensures LookupPayment(payments, Some("+5")) == Found(5)
  {
    PyIntPlus();
  }

  /** "-1" converts, to a number that names no payment. */
  lemma LookupMinusOne(payments: map<nat, Payment>)
    ensures LookupPayment(payments, Some("-1")) == NotFound
  {
    PyIntMinus();
  }

  /** The new end of a subscription that a completed payment renews: one month after the later
      of its current end and now. */
  function ExtendedEnd(end: int, now: int): (e: int)
    ensures e == Max(end, now) + Month
    ensures e > end && e >= now + Month
  {
    if end < now then now + Month else end + Month
  }

  /** COMPLETE does not look at the payment's status, so a second successful callback for the
      same payment renews the subscription by another month. */
  lemma ExtendTwice(end: int, now: int)
    ensures ExtendedEnd(ExtendedEnd(end, now), now) == Max(end, now) + 2 * Month
  {
  }

  /** The subscription part of a successful COMPLETE, for payer `user`: the payer's subscription
      `s` is extended by a month from the later of its end and now and reactivated, or, when the
      payer had none, `s` is a new one running for a month from now at the paid price. No other
      subscription changes. */
  twostate predicate Renewed(db: PaymentDb, user: nat, amount: real, now: int, new s: Subscription)
    reads db, db.subscriptions.Values, s
  {
    && user in db.subscriptions && db.subscriptions[user] == s
    && db.subscriptions.Keys == old(db.subscriptions.Keys) + {user}
    && (forall u :: u in old(db.subscriptions) && u != user ==>
          db.subscriptions[u] == old(db.subscriptions[u]) && unchanged(db.subscriptions[u]))
    && (user in old(db.subscriptions) ==>
          s == old(db.subscriptions[user]) &&
          s.State() == old(s.State()).(endDate := ExtendedEnd(old(s.endDate), now), isActive := true))
    && (user !in old(db.subscriptions) ==>
          fresh(s) && s.State() == SubscriptionState(now, now + Month, true, true, amount))
  }

  method RenewSubscription(db: PaymentDb, user: nat, amount: real, now: int) returns (s: Subscription)
    requires db.Valid()
    modifies db, db.subscriptions.Values
    ensures db.Valid()
    ensures db.payments == old(db.payments)
    ensures Renewed(db, user, amount, now, s)
  {
    if user in db.subscriptions {
      s := db.subscriptions[user];
      if s.endDate < now {
        s.endDate := now + Month;
      } else {
        s.endDate := s.endDate + Month;
      }
      s.isActive := true;
    } else {
      s := new Subscription(user, now + Month, now);
      s.price := amount;
      db.subscriptions := db.subscriptions[user := s];
    }
  }

  /** The four fields the successful COMPLETE writes on the payment row. */
  method StoreCompletion(payment: Payment, tid: Option<string>, params: Params, now: int)
    modifies payment
    ensures payment.State() == old(payment.State()).(
      status := Completed, transactionId := tid, completedAt := Some(now), metadata := params)
  {
    payment.status := Completed;
    payment.transactionId := tid;
    payment.completedAt := Some(now);
    payment.metadata := params;
  }

  /** The successful COMPLETE of payment `id` with a transaction id no other payment holds: the
      payment becomes completed, takes the transaction id, the time and the callback fields, and is
      linked to its renewed subscription. */
  method Settle(db: PaymentDb, id: nat, tid: Option<string>, params: Params, now: int)
    requires db.Valid() && id in db.payments && TransactionIdFree(db.payments, id, tid)
    modifies db, db.payments[id], db.subscriptions.Values
    ensures db.Valid()
    ensures db.payments == old(db.payments)
    ensures var p := db.payments[id];
      && p.subscription != null
      && Renewed(db, p.user, p.amount, now, p.subscription)
      && p.State() == old(p.State()).(
           status := Completed, transactionId := tid, completedAt := Some(now),
           metadata := params, subscription := p.subscription)
  {
    var payment := db.payments[id];
    StoreCompletion(payment, tid, params, now);
    var subscription := RenewSubscription(db, payment.user, payment.amount, now);
    payment.subscription := subscription;
  }

  /** Nothing in either table changed. */
  twostate predicate DbUnchanged(db: PaymentDb)
    reads db, db.payments.Values, db.subscriptions.Values
  {
    && unchanged(db)
    && (forall k :: k in db.payments ==> unchanged(db.payments[k]))
    && (forall u :: u in db.subscriptions ==> unchanged(db.subscriptions[u]))
  }

  /** COMPLETE: after the signature and the payment lookup, `error == "0"` settles the payment as
      completed and renews (or opens) the payer's subscription; any other value marks the
      payment failed and answers -9. Saving a `click_trans_id` that another payment already
      holds violates the unique `transaction_id` and raises before anything is stored. */
  method Complete(m: Merchant, db: PaymentDb, params: Params, now: int) returns (r: Reply)
    requires db.Valid()
    modifies db, db.payments.Values, db.subscriptions.Values
    ensures db.Valid()
    ensures db.payments == old(db.payments)
    ensures !VerifySign(m, params) ==> r == SignFailed && DbUnchanged(db)
    ensures VerifySign(m, params) ==>
      match LookupPayment(db.payments, Param(params, "merchant_trans_id"))
      case BadId => r == Raised("ValueError") && DbUnchanged(db)
      case NotFound => r == PaymentNotFound && DbUnchanged(db)
      case Found(id) =>
        var p := db.payments[id];
        var tid := Param(params, "click_trans_id");
        && (forall k :: k in db.payments && k != id ==> unchanged(db.payments[k]))
        && (Param(params, "error") != Some("0") ==>
              && r == TransactionCancelled
              && p.State() == old(p.State()).(status := Failed)
              && db.subscriptions == old(db.subscriptions)
              && (forall u :: u in db.subscriptions ==> unchanged(db.subscriptions[u])))
        && (Param(params, "error") == Some("0") && !old(TransactionIdFree(db.payments, id, tid)) ==>
              r == Raised("IntegrityError") && DbUnchanged(db))
        && (Param(params, "error") == Some("0") && old(TransactionIdFree(db.payments, id, tid)) ==>
              && r == Accepted(tid, Param(params, "merchant_trans_id"), id)
              && p.subscription != null
              && Renewed(db, p.user, p.amount, now, p.subscription)
              && p.State() == old(p.State()).(
                   status := Completed, transactionId := tid, completedAt := Some(now),
                   metadata := params, subscription := p.subscription))
  {
    if !VerifySign(m, params) {
      return SignFailed;
    }
    var merchantTransId := Param(params, "merchant_trans_id");
    match LookupPayment(db.payments, merchantTransId) {
      case BadId =>
        return Raised("ValueError");
      case NotFound =>
        return PaymentNotFound;
      case Found(id) =>
        var payment := db.payments[id];
        if Param(params, "error") == Some("0") {
          var tid := Param(params, "click_trans_id");
          if !TransactionIdFree(db.payments, id, tid) {
            return Raised("IntegrityError");
          }
          Settle(db, id, tid, params, now);
          r := Accepted(tid, merchantTransId, id);
        } else {
          payment.status := Failed;
          r := TransactionCancelled;
        }
    }
  }
}
