/**
 * The credit meter (`components/credit-tracker.tsx`): credits left, a bar
 * coloured by the share already used, an upgrade button for free plans that
 * are running low, and the two navigation targets.
 */
module CreditTracker {
  import opened Types

  datatype CreditInfo = CreditInfo(used: int, total: int, plan: Plan)

  datatype BarColor = Green | Yellow | Red

  /** What a button press does: the caller's `onUpgrade`, or a navigation. */
  datatype Press = CallOnUpgrade | Navigate(path: string)

  function Remaining(c: CreditInfo): (r: int)
    ensures r + c.used == c.total
  {
    c.total - c.used
  }

  /**
   * `percentage >= k` for `percentage = used / total * 100`, stated without
   * division: a zero total gives `Infinity` for a positive use and `NaN` or
   * `-Infinity` otherwise, neither of which reaches any threshold.
   */
  predicate PercentAtLeast(used: int, total: int, k: nat) {
    if total > 0 then used * 100 >= k * total
    else if total < 0 then used * 100 <= k * total
    else used > 0
  }

  /** `getProgressColor` */
  function ProgressColor(c: CreditInfo): (r: BarColor)
    ensures r == Red <==> PercentAtLeast(c.used, c.total, 90)
    ensures r == Yellow <==> PercentAtLeast(c.used, c.total, 70) && !PercentAtLeast(c.used, c.total, 90)
    ensures r == Green <==> !PercentAtLeast(c.used, c.total, 70)
  {
    if PercentAtLeast(c.used, c.total, 90) then Red
    else if PercentAtLeast(c.used, c.total, 70) then Yellow
    else Green
  }

  function Severity(b: BarColor): nat {
    match b
    case Green => 0
    case Yellow => 1
    case Red => 2
  }

  /** For a positive total the bar only gets more alarming as more credits are used. */
  lemma ColorMonotone(a: CreditInfo, b: CreditInfo)
    requires a.total == b.total > 0 && a.used <= b.used
    ensures Severity(ProgressColor(a)) <= Severity(ProgressColor(b))
  {
  }

  /** For a positive total: red from nine tenths used, yellow from seven tenths, green below. */
  lemma ColorThresholds(c: CreditInfo)
    requires c.total > 0
    ensures ProgressColor(c) == Red <==> 10 * c.used >= 9 * c.total
    ensures ProgressColor(c) == Green <==> 10 * c.used < 7 * c.total
  {
  }

  /** The Upgrade button: free plans with fewer than five credits left. */
  predicate UpgradeShown(c: CreditInfo) {
    c.plan == Free && Remaining(c) < 5
  }

  /** `handleUpgrade`: the caller's handler when given, otherwise the upgrade page. */
  function HandleUpgrade(hasOnUpgrade: bool): (p: Press)
    ensures p == CallOnUpgrade <==> hasOnUpgrade
    ensures !hasOnUpgrade ==> p == Navigate("/billing/upgrade")
  {
    if hasOnUpgrade then CallOnUpgrade else Navigate("/billing/upgrade")
  }

  /** `handleBuyCredits` */
  function HandleBuyCredits(): (p: Press)
    ensures p.Navigate? && p.path == "/billing/purchase"
  {
    Navigate("/billing/purchase")
  }

  /** A free plan that can still see the upgrade button has used most of a small allowance, or is over it. */
  lemma UpgradeMeansLow(c: CreditInfo)
    requires UpgradeShown(c)
    ensures c.used > c.total - 5
    ensures c.plan == Free
  {
  }
}
