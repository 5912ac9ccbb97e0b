/** The transaction table of frontend/src/pages/TransactionsPage.tsx: the
    case-insensitive search over descriptions and the message shown when the
    table is empty. The query is the debounced one; the 300 ms delay is not
    modelled. Dates are shown with the locale `Display.LocaleOrUkrainian`
    picks, and category labels come from `CategoryKeys.LegacyCategoryKey`. */
module TransactionsPage {
  import opened Common
  import opened Records
  import opened Text
  import Seqs

  /** `transaction.description || ''`. */
  function SearchedText(t: Transaction): (s: string)
    ensures t.description.Some? ==> s == t.description.value
    ensures t.description.None? ==> s == ""
  {
    match t.description
    case Some(d) => d
    case None => ""
  }

  /** The filter callback: an empty query keeps everything; otherwise the
      lower-cased description must contain the lower-cased query. */
  predicate MatchesSearch(query: string, t: Transaction) {
    query == "" || Contains(ToLower(SearchedText(t)), ToLower(query))
  }

  function Matcher(query: string): Transaction -> bool {
    (t: Transaction) => MatchesSearch(query, t)
  }

  /** `filteredTransactions`: the matching transactions, in the order loaded. */
  function Search(txs: seq<Transaction>, query: string): (r: seq<Transaction>)
    ensures Seqs.IsSubsequence(r, txs) && |r| <= |txs|
    ensures forall t :: t in r <==> t in txs && MatchesSearch(query, t)
  {
    Seqs.Filter(txs, Matcher(query))
  }

  /** An empty query keeps the whole list as it is. */
  lemma {:induction false} EmptyQueryKeepsAll(txs: seq<Transaction>)
    ensures Search(txs, "") == txs
  {
    if |txs| > 0 {
      EmptyQueryKeepsAll(txs[1..]);
      assert Search(txs, "") == [txs[0]] + Search(txs[1..], "");
    }
  }

  /** Letter case in the query does not matter. */
  lemma SearchIgnoresQueryCase(txs: seq<Transaction>, query: string)
    ensures Search(txs, query) == Search(txs, ToLower(query))
  {
    ToLowerIdempotent(query);
    Seqs.FilterCongruent(txs, Matcher(query), Matcher(ToLower(query)));
  }

  /** Typing more narrows the result: whatever a query finds, a query it
      occurs in (ignoring case) finds only among those. */
  lemma LongerQueryNarrows(txs: seq<Transaction>, short: string, long: string, t: Transaction)
    requires Contains(ToLower(long), ToLower(short))
    requires t in Search(txs, long)
    ensures t in Search(txs, short)
  {
    if short != "" && long != "" {
      ContainsTransitive(ToLower(SearchedText(t)), ToLower(long), ToLower(short));
    }
  }

  /** What the table body shows: the rows, or one of two messages. */
  datatype TableBody = Rows(rows: seq<Transaction>) | AddFirst | NoMatches

  function Body(all: seq<Transaction>, query: string): (b: TableBody)
    ensures b.Rows? <==> |Search(all, query)| > 0
    ensures b.Rows? ==> b.rows == Search(all, query)
    ensures b == AddFirst <==> |all| == 0
    ensures b == NoMatches <==> |all| > 0 && |Search(all, query)| == 0
  {
    var shown := Search(all, query);
    if |shown| > 0 then Rows(shown) else if |all| == 0 then AddFirst else NoMatches
  }

  /** Without a query the table never says that nothing matched. */
  lemma NoQueryNoMismatch(all: seq<Transaction>)
    ensures Body(all, "") != NoMatches
    ensures |all| > 0 ==> Body(all, "") == Rows(all)
  {
    EmptyQueryKeepsAll(all);
  }
}
