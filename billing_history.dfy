/**
 * The billing history table (`components/payment/billing-history.tsx`): a
 * fixed list of five transactions, searched case-insensitively by
 * description or invoice id.  Amounts are whole cents, shown with two
 * decimals.
 */
module BillingHistory {
  import opened Wrappers
  import opened Text
  import opened Lists

  datatype Status = Completed | Pending | Failed {
    function Name(): string {
      match this
      case Completed => "completed"
      case Pending => "pending"
      case Failed => "failed"
    }
  }

  /** `amountCents` is the amount in dollars times 100; `date` is milliseconds at midnight UTC. */
  datatype Transaction = Transaction(
    id: string, date: int, description: string, amountCents: nat, status: Status, invoice: Option<string>)

  const Transactions: seq<Transaction> := [
    Transaction("INV-001", 1684108800000, "Premium Credit Package", 6999, Completed, Some("INV-001.pdf")),
    Transaction("INV-002", 1680393600000, "Standard Credit Package", 2499, Completed, Some("INV-002.pdf")),
    Transaction("INV-003", 1679097600000, "Basic Credit Package", 999, Completed, Some("INV-003.pdf")),
    Transaction("INV-004", 1677456000000, "Standard Credit Package", 2499, Completed, Some("INV-004.pdf")),
    Transaction("INV-005", 1673740800000, "Basic Credit Package", 999, Completed, Some("INV-005.pdf"))
  ]

  /** The list is newest first, the invoice ids are unique, and every row has an invoice to download. */
  lemma TransactionsShape()
    ensures forall i, j :: 0 <= i < j < |Transactions| ==>
      Transactions[i].date > Transactions[j].date && Transactions[i].id != Transactions[j].id
    ensures forall i :: 0 <= i < |Transactions| ==> DownloadShown(Transactions[i])
  {
  }

  predicate TransactionMatches(t: Transaction, query: string) {
    MatchesQuery(t.description, query) || MatchesQuery(t.id, query)
  }

  /** `filteredTransactions`: the rows whose description or id contains the query, ignoring case. */
  function FilteredTransactions(ts: seq<Transaction>, query: string): (r: seq<Transaction>)
    ensures Sublist(r, ts)
    ensures forall i :: 0 <= i < |r| ==> TransactionMatches(r[i], query)
    ensures forall i :: 0 <= i < |ts| && TransactionMatches(ts[i], query) ==> ts[i] in r
  {
    Filter(ts, (t: Transaction) => TransactionMatches(t, query))
  }

  /** An empty search box shows the whole history. */
  lemma EmptySearchShowsAll(ts: seq<Transaction>)
    ensures FilteredTransactions(ts, "") == ts
  {
    forall i | 0 <= i < |ts|
      ensures TransactionMatches(ts[i], "")
    {
      IncludesEmpty(Lower(ts[i].description));
    }
    FilterAll(ts, (t: Transaction) => TransactionMatches(t, ""));
  }

  /** The row shows "No transactions found" exactly when the filter leaves nothing. */
  predicate NothingFound(ts: seq<Transaction>, query: string) {
    FilteredTransactions(ts, query) == []
  }

  /** The download button needs a non-empty invoice name. */
  predicate DownloadShown(t: Transaction) {
    Present(t.invoice)
  }

  function UpperChar(c: char): char {
    if 'a' <= c <= 'z' then (c as int - 32) as char else c
  }

  /** `s.charAt(0).toUpperCase() + s.slice(1)`, with ASCII case mapping. */
  function Capitalize(s: string): (r: string)
    ensures |r| == |s|
    ensures s != [] ==> r[0] == UpperChar(s[0]) && r[1..] == s[1..]
  {
    if s == [] then [] else [UpperChar(s[0])] + s[1..]
  }

  /** The status badge: the status name with its first letter capitalised. */
  function StatusLabel(s: Status): (r: string)
    ensures Lower(r) == s.Name()
    ensures r[0] == UpperChar(s.Name()[0])
  {
    Capitalize(s.Name())
  }

  /** Different statuses have different badges. */
  lemma StatusLabelInjective(a: Status, b: Status)
    ensures StatusLabel(a) == StatusLabel(b) ==> a == b
  {
    if StatusLabel(a) == StatusLabel(b) {
      assert Lower(StatusLabel(a)) == Lower(StatusLabel(b));
    }
  }

  /** `amount.toFixed(2)` behind a dollar sign, for an amount in cents. */
  function AmountText(cents: nat): (r: string)
    ensures |r| >= 5 && r[0] == '$' && r[|r| - 3] == '.'
    ensures r[1..|r| - 3] == NatToString(cents / 100)
    ensures IsDigit(r[|r| - 2]) && IsDigit(r[|r| - 1])
    ensures DigitValue(r[|r| - 2]) * 10 + DigitValue(r[|r| - 1]) == cents % 100
  {
    "$" + NatToString(cents / 100) + "." + [DigitChar(cents % 100 / 10), DigitChar(cents % 10)]
  }

  /** The displayed amount can be read back: different amounts never print alike. */
  lemma AmountTextInjective(a: nat, b: nat)
    requires AmountText(a) == AmountText(b)
    ensures a == b
  {
    var r := AmountText(a);
    NatToStringInjective(a / 100, b / 100);
    assert a / 100 == b / 100;
    assert a % 100 == b % 100;
  }
}
