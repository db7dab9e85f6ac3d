/** Money crosses the job record as a binary64 number of yuan, while orders and notifications
    count in fen.  Binary64 division and multiplication are modelled by their error bound:
    round-to-nearest is off by at most a 2^-53 part of the exact result
    (section 4.3.1 of IEEE 754-2019). */
module Amount {

  const TWO_TO_53: real := 9007199254740992.0

  const TWO_TO_51: int := 2251799813685248

  function Abs(x: real): real { if x < 0.0 then -x else x }

  /** `y` may be the binary64 result of an operation whose exact result is `x`. */
  predicate Rounds(x: real, y: real) {
    Abs(y - x) * TWO_TO_53 <= Abs(x)
  }

  /** The amount in yuan that the payment-worker may store for an order of `fee` fen. */
  predicate StoredAmount(fee: int, yuan: real) {
    fee < TWO_TO_51 ==> Rounds(fee as real / 100.0, yuan)
  }

  /** math.Round: to the nearest integer, halves away from zero. */
  function RoundHalfAway(x: real): int {
    if x < 0.0 then -(0.5 - x).Floor else (x + 0.5).Floor
  }

  /** The total the notification handler expects, from the product it computed. */
  function ExpectedFen(product: real): int {
    var n := RoundHalfAway(product);
    if n <= 0 then 1 else n
  }

  /** The notification handler's amount check, if `product` is what it got for yuan * 100. */
  predicate AcceptedAt(yuan: real, product: real, total: int) {
    Rounds(yuan * 100.0, product) && ExpectedFen(product) == total
  }

  ghost predicate AmountAccepted(yuan: real, total: int) {
    exists product: real :: AcceptedAt(yuan, product, total)
  }

  lemma DivisionError(fee: int, yuan: real)
    requires 0 < fee && Rounds(fee as real / 100.0, yuan)
    ensures Abs(100.0 * yuan - fee as real) * TWO_TO_53 <= fee as real
    ensures yuan > 0.0
  {
    var x := fee as real / 100.0;
    assert 100.0 * x == fee as real;
  }

  /** The bound of round-to-nearest in binary64, and the rounding of math.Round: to a nearest integer, and of
      two to the one further from zero. */
  lemma RoundingIs(x: real, y: real)
    ensures Rounds(x, y) <==> -Abs(x) <= (y - x) * 9007199254740992.0 <= Abs(x)
    ensures -0.5 <= RoundHalfAway(x) as real - x <= 0.5
    ensures RoundHalfAway(x) as real - x == 0.5 ==> x >= 0.0
    ensures RoundHalfAway(x) as real - x == -0.5 ==> x <= 0.0
    ensures ExpectedFen(x) == if RoundHalfAway(x) <= 0 then 1 else RoundHalfAway(x)
  {
  }

  /** The amount survives the division, the store and the multiplication exactly. */
  lemma AmountRoundTrip(fee: int, yuan: real, product: real)
    requires 0 < fee < 2_251_799_813_685_248
    requires Rounds(fee as real / 100.0, yuan)
    requires Rounds(yuan * 100.0, product)
    ensures RoundHalfAway(product) == fee == ExpectedFen(product)
  {
    DivisionError(fee, yuan);
    var n := fee as real;
    var h := 100.0 * yuan;
    assert h <= n + n / TWO_TO_53;
    assert Abs(product - h) <= h / TWO_TO_53;
    assert Abs(h - n) <= n / TWO_TO_53;
    assert n <= 2251799813685247.0;
    assert h / TWO_TO_53 <= 0.25;
    assert Abs(product - n) < 0.5;
  }

  /** Hence the notification check accepts the total of the order the record was written for,
      and no other. */
  lemma CheckAcceptsExactlyTheOrder(fee: int, yuan: real, total: int)
    requires 0 < fee < 2_251_799_813_685_248 && StoredAmount(fee, yuan)
    ensures AmountAccepted(yuan, total) <==> total == fee
  {
    if total == fee {
      var product := yuan * 100.0;
      DivisionError(fee, yuan);
      AmountRoundTrip(fee, yuan, product);
      assert AcceptedAt(yuan, product, total);
    }
    if AmountAccepted(yuan, total) {
      var product: real :| AcceptedAt(yuan, product, total);
      AmountRoundTrip(fee, yuan, product);
    }
  }
}
