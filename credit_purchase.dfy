/**
 * The credit purchase form (`components/payment/credit-purchase.tsx`): the
 * package catalogue and its lookup, the validation rules of the payment
 * schema, and the `onChange` sanitisers of the card fields.
 */
module CreditPurchase {
  import opened Wrappers
  import opened Text
  import opened Lists

  /** A package of credits; prices are in cents. */
  datatype CreditPackage = CreditPackage(id: string, name: string, credits: nat, priceCents: nat, popular: bool)

  const Packages: seq<CreditPackage> := [
    CreditPackage("basic", "Basic", 50, 999, false),
    CreditPackage("standard", "Standard", 150, 2499, true),
    CreditPackage("premium", "Premium", 500, 6999, false)
  ]

  /** The package the form starts on. */
  const DefaultPackage: string := "standard"

  /** The package with the watched id, or Standard when no package has that id. */
  function SelectedPackage(watched: string): (r: CreditPackage)
    ensures r in Packages
    ensures (exists i :: 0 <= i < |Packages| && Packages[i].id == watched) ==> r.id == watched
    ensures (forall i :: 0 <= i < |Packages| ==> Packages[i].id != watched) ==> r == Packages[1]
  {
    Find(Packages, (p: CreditPackage) => p.id == watched).GetOr(Packages[1])
  }

  /** The three ids differ, exactly one package is marked popular, and the form starts on it. */
  lemma PackageCatalogue()
    ensures Distinct(seq(|Packages|, i requires 0 <= i < |Packages| => Packages[i].id))
    ensures forall i :: 0 <= i < |Packages| ==> (Packages[i].popular <==> i == 1)
    ensures SelectedPackage(DefaultPackage) == Packages[1] && Packages[1].popular
  {
  }

  /** `cardName`: at least two characters. */
  predicate NameValid(s: string) {
    |s| >= 2
  }

  /** `cardNumber` against `^\d{16}$`. */
  predicate CardValid(s: string) {
    |s| == 16 && AllDigits(s)
  }

  /** `expiryDate` against `^\d{2}\/\d{2}$`. */
  predicate ExpiryValid(s: string) {
    |s| == 5 && IsDigit(s[0]) && IsDigit(s[1]) && s[2] == '/' && IsDigit(s[3]) && IsDigit(s[4])
  }

  /** `cvv` against `^\d{3,4}$`. */
  predicate CvvValid(s: string) {
    (|s| == 3 || |s| == 4) && AllDigits(s)
  }

  /** The form's values; `package` is any string. */
  datatype PaymentForm = PaymentForm(package: string, cardName: string, cardNumber: string, expiryDate: string, cvv: string)

  /** The whole schema. */
  predicate FormValid(f: PaymentForm) {
    NameValid(f.cardName) && CardValid(f.cardNumber) && ExpiryValid(f.expiryDate) && CvvValid(f.cvv)
  }

  /** The card number field keeps the first 16 digits typed. */
  function SanitizeCard(raw: string): (r: string)
    ensures AllDigits(r) && |r| <= 16
    ensures r <= DigitsOnly(raw)
    ensures |r| == Min(16, |DigitsOnly(raw)|)
  {
    Substring(DigitsOnly(raw), 0, 16)
  }

  /** The CVV field keeps the first 4 digits typed. */
  function SanitizeCvv(raw: string): (r: string)
    ensures AllDigits(r) && |r| <= 4
    ensures r <= DigitsOnly(raw)
    ensures |r| == Min(4, |DigitsOnly(raw)|)
  {
    Substring(DigitsOnly(raw), 0, 4)
  }

  /** The expiry field: the digits, with a slash after the second once there are more than two. */
  function FormatExpiry(raw: string): (r: string)
    ensures |DigitsOnly(raw)| <= 2 ==> r == DigitsOnly(raw)
    ensures |DigitsOnly(raw)| > 2 ==> r == DigitsOnly(raw)[..2] + "/" + DigitsOnly(raw)[2..Min(4, |DigitsOnly(raw)|)]
    ensures |r| <= 5
    ensures forall i :: 0 <= i < |r| && i != 2 ==> IsDigit(r[i])
  {
    var value := DigitsOnly(raw);
    if |value| > 2 then Substring(value, 0, 2) + "/" + Substring(value, 2, 4) else value
  }

  /** Sanitising an already sanitised card number or CVV changes nothing. */
  lemma SanitizeIdempotent(raw: string)
    ensures SanitizeCard(SanitizeCard(raw)) == SanitizeCard(raw)
    ensures SanitizeCvv(SanitizeCvv(raw)) == SanitizeCvv(raw)
  {
  }

  /** Formatting a formatted expiry date again changes nothing. */
  lemma FormatExpiryIdempotent(raw: string)
    ensures FormatExpiry(FormatExpiry(raw)) == FormatExpiry(raw)
  {
    var d := DigitsOnly(raw);
    if |d| > 2 {
      var head, tail := d[..2], d[2..Min(4, |d|)];
      SlashedDigits(head, tail);
      var d' := head + tail;
      assert d'[..2] == head && d'[2..Min(4, |d'|)] == tail;
    }
  }

  /** The digits of `head/tail` are `head` and `tail` run together. */
  lemma SlashedDigits(head: string, tail: string)
    requires AllDigits(head) && AllDigits(tail)
    ensures DigitsOnly(head + "/" + tail) == head + tail
  {
    var slashed := ['/'] + tail;
    assert head + "/" + tail == head + slashed;
    assert DigitsOnly(slashed) == DigitsOnly(tail) by {
      assert slashed[0] == '/' && slashed[1..] == tail;
    }
    DigitsOnlyConcat(head, slashed);
  }

  /** Stripping non-digits distributes over concatenation. */
  lemma {:induction false} DigitsOnlyConcat(a: string, b: string)
    ensures DigitsOnly(a + b) == DigitsOnly(a) + DigitsOnly(b)
  {
    if a == [] {
      assert a + b == b;
    } else {
      assert (a + b)[0] == a[0] && (a + b)[1..] == a[1..] + b;
      DigitsOnlyConcat(a[1..], b);
    }
  }

  /** A sanitised card number passes the schema exactly when at least 16 digits were typed. */
  lemma CardAccepted(raw: string)
    ensures CardValid(SanitizeCard(raw)) <==> |DigitsOnly(raw)| >= 16
  {
  }

  /** A sanitised CVV passes the schema exactly when at least 3 digits were typed. */
  lemma CvvAccepted(raw: string)
    ensures CvvValid(SanitizeCvv(raw)) <==> |DigitsOnly(raw)| >= 3
  {
  }

  /** A formatted expiry date passes the schema exactly when at least 4 digits were typed. */
  lemma ExpiryAccepted(raw: string)
    ensures ExpiryValid(FormatExpiry(raw)) <==> |DigitsOnly(raw)| >= 4
  {
  }
}
