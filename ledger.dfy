/** The general ledger view: a fixed list of entries, searched by description, with signed amounts. */
module Ledger {
  import opened Common
  import opened Types
  import opened Text
  import Seqs

  /** The ledger never changes: there is no operation that sets it. */
  const LedgerTransactions: seq<Transaction> := [
    Transaction("1", "2024-05-20", "Tech Export - Hamburg", 4500, "Revenue", Cleared, Bank, "a1", None, Debit),
    Transaction("2", "2024-05-21", "Server Maintenance", -250, "Expense", Cleared, Bank, "a1", None, Credit),
    Transaction("3", "2024-05-22", "Yoruba Merchant Payment", 1200, "Revenue", Pending, Bank, "a2", None, Debit),
    Transaction("4", "2024-05-23", "Investment - Gold Mining", -5000, "Investment", Cleared, Manual, "a1", None, Credit),
    Transaction("5", "2024-05-24", "Consultancy Fees", 850, "Revenue", Cleared, Bank, "a2", None, Debit)
  ]

  predicate DescriptionMatches(term: string, t: Transaction) {
    Contains(Lower(t.description), Lower(term))
  }

  /** The search: entries whose lower-cased description contains the lower-cased term. */
  function FilterLedger(transactions: seq<Transaction>, term: string): seq<Transaction> {
    Seqs.Filter(transactions, (t: Transaction) => DescriptionMatches(term, t))
  }

  /** The search keeps, in order, exactly the matching entries, and an empty term keeps them all. */
  lemma FilterLedgerSpec(transactions: seq<Transaction>, term: string, t: Transaction)
    ensures Seqs.IsSublist(FilterLedger(transactions, term), transactions)
    ensures t in FilterLedger(transactions, term) <==> t in transactions && DescriptionMatches(term, t)
    ensures multiset(FilterLedger(transactions, term))[t] ==
      if DescriptionMatches(term, t) then multiset(transactions)[t] else 0
    ensures term == "" ==> FilterLedger(transactions, term) == transactions
  {
    var p := (t: Transaction) => DescriptionMatches(term, t);
    Seqs.FilterIsSublist(transactions, p);
    Seqs.FilterMembership(transactions, p, t);
    Seqs.FilterCount(transactions, p, t);
    if term == "" {
      forall i | 0 <= i < |transactions|
        ensures p(transactions[i])
      {
        assert Lower(term) == "";
        assert StartsWith(Lower(transactions[i].description), "");
      }
      Seqs.FilterKeepsAll(transactions, p);
    }
  }

  function Abs(n: int): nat {
    if n < 0 then -n else n
  }

  /** The amount column: `-` for a negative amount, `+` otherwise, then `$` and the magnitude. */
  function AmountDisplay(amount: int): string {
    [if amount < 0 then '-' else '+'] + "$" + NatToString(Abs(amount))
  }

  /** Reads an amount back from its display, when it has that form. */
  function ParseAmountDisplay(s: string): Option<int> {
    if |s| >= 3 && (s[0] == '-' || s[0] == '+') && s[1] == '$'
       && forall i :: 2 <= i < |s| ==> IsDigit(s[i])
    then
      var magnitude: int := ParseNat(s[2..]);
      Some(if s[0] == '-' then -magnitude else magnitude)
    else None
  }

  /**
   * The sign is `-` exactly for negative amounts, the rest is `$` and the
   * absolute value in decimal, and the display determines the amount.
   */
  lemma AmountDisplaySpec(amount: int)
    ensures AmountDisplay(amount)[0] == '-' <==> amount < 0
    ensures AmountDisplay(amount)[0] == '+' <==> amount >= 0
    ensures AmountDisplay(amount)[1] == '$'
    ensures AmountDisplay(amount)[2..] == NatToString(Abs(amount))
    ensures ParseAmountDisplay(AmountDisplay(amount)) == Some(amount)
  {
    var s := AmountDisplay(amount);
    assert s[2..] == NatToString(Abs(amount));
    ParseNatToString(Abs(amount));
  }

  /** Different amounts are never displayed alike. */
  lemma AmountDisplayInjective(a: int, b: int)
    requires AmountDisplay(a) == AmountDisplay(b)
    ensures a == b
  {
    AmountDisplaySpec(a);
    AmountDisplaySpec(b);
  }
}
