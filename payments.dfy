/**
 * The crypto-payment stub of payments.py. The random token that
 * `secrets.token_hex(8)` would draw is passed in; the creation time is not modelled.
 */
module Payments {
  import opened Wrappers

  datatype PaymentStatus = Pending | Paid | Expired | Failed

  function StatusName(s: PaymentStatus): string {
    match s
    case Pending => "pending"
    case Paid => "paid"
    case Expired => "expired"
    case Failed => "failed"
  }

  /** A frozen payment record; `amount` is a whole number of currency units. */
  datatype CryptoPayment = CryptoPayment(
    paymentId: string,
    userId: int,
    plan: string,
    amount: int,
    currency: string,
    status: PaymentStatus,
    payUrl: Option<string>)

  predicate IsHexDigit(c: char) { '0' <= c <= '9' || 'a' <= c <= 'f' }

  /** What `token_hex(8)` returns: 16 lower-case hexadecimal characters. */
  predicate IsHexToken(t: string) {
    |t| == 16 && forall i :: 0 <= i < |t| ==> IsHexDigit(t[i])
  }

  const PaymentIdPrefix := "cp_"
  const PayUrlBase := "https://crypto-payments.example/pay/"

  predicate IsPaymentId(id: string) {
    |id| == |PaymentIdPrefix| + 16 && id[..|PaymentIdPrefix|] == PaymentIdPrefix
    && IsHexToken(id[|PaymentIdPrefix|..])
  }

  function CreateCryptoPayment(userId: int, plan: string, amount: int, token: string,
                               currency: string := "USDT"): (p: CryptoPayment)
    requires IsHexToken(token)
    ensures p.status == Pending
    ensures IsPaymentId(p.paymentId) && p.paymentId[|PaymentIdPrefix|..] == token
    ensures p.payUrl.Some? && p.payUrl.value == PayUrlBase + p.paymentId
    ensures p.userId == userId && p.plan == plan && p.amount == amount && p.currency == currency
  {
    var id := PaymentIdPrefix + token;
    assert id[|PaymentIdPrefix|..] == token;
    CryptoPayment(id, userId, plan, amount, currency, Pending, Some(PayUrlBase + id))
  }

  /** The status check of the stub: every payment is still pending. */
  function CheckCryptoPaymentStatus(paymentId: string): (s: PaymentStatus)
    ensures s == Pending && StatusName(s) == "pending"
  {
    Pending
  }

  /** Distinct tokens give distinct payment ids. */
  lemma PaymentIdsDistinct(u1: int, u2: int, plan1: string, plan2: string, a1: int, a2: int,
                           t1: string, t2: string)
    requires IsHexToken(t1) && IsHexToken(t2) && t1 != t2
    ensures CreateCryptoPayment(u1, plan1, a1, t1).paymentId != CreateCryptoPayment(u2, plan2, a2, t2).paymentId
  {
    var p1 := CreateCryptoPayment(u1, plan1, a1, t1);
    var p2 := CreateCryptoPayment(u2, plan2, a2, t2);
    assert p1.paymentId[|PaymentIdPrefix|..] == t1;
    assert p2.paymentId[|PaymentIdPrefix|..] == t2;
  }
}
