/**
 * The recent-search list (client/src/hooks/useSearchHistory.ts): the most
 * recent search first, at most ten entries, no two equal ignoring case.
 *
 * `Added` is the updater `addToHistory` hands to `setHistory`; the hook's
 * state is the object `History`. Persistence in `localStorage` is not
 * modelled: the list starts empty.
 */
module SearchHistory {
  import opened Text
  import opened Seqs

  /** `MAX_HISTORY_ITEMS` */
  const MaxHistoryItems: nat := 10

  /** The comparison key of a term: lower-cased, then trimmed, as the filter computes it. */
  function Key(term: string): string {
    Trim(Lower(term))
  }

  /** The filter's test: `item.toLowerCase() !== searchTerm.toLowerCase().trim()`. */
  function Differs(term: string): string -> bool {
    (item: string) => Lower(item) != Key(term)
  }

  /** No two entries are equal ignoring (ASCII) case. */
  predicate DistinctIgnoringCase(s: seq<string>) {
    forall i, j :: 0 <= i < j < |s| ==> Lower(s[i]) != Lower(s[j])
  }

  /** Lower-casing the trimmed term gives the comparison key. */
  lemma HeadKey(term: string)
    ensures Lower(Trim(term)) == Key(term)
  {
    TrimLower(term);
  }

  /** The state after `addToHistory(term)`, given the state before. */
  function Added(prev: seq<string>, term: string): seq<string> {
    if Trim(term) == "" then prev
    else Take([Trim(term)] + Filter(prev, Differs(term)), MaxHistoryItems)
  }

  /** Taking a prefix of a list with a known head. */
  lemma TakeCons(h: string, others: seq<string>, n: nat)
    requires n >= 1
    ensures Take([h] + others, n) == [h] + Take(others, n - 1)
  {
  }

  /**
   * The first `n` of `[h] + others`: `h`, then as many of `others` as fit,
   * so an element of `others` is missing only when the cut is full.
   */
  lemma TakeConsShape(h: string, others: seq<string>, n: nat)
    requires n >= 1
    ensures var r := Take([h] + others, n);
      r[1..] == Take(others, n - 1)
      && |r| == (if |others| < n - 1 then |others| + 1 else n)
      && forall x :: x in others && x !in r ==> |r| == n
  {
    TakeCons(h, others, n);
    var r := Take([h] + others, n);
    assert r[1..] == Take(others, n - 1);
    forall x | x in others && x !in r
      ensures |r| == n
    {
      assert x !in Take(others, n - 1);
    }
  }

  /** Every older entry that differs from the term survives the filter. */
  lemma DiffersKept(prev: seq<string>, term: string)
    ensures forall x :: x in prev && Lower(x) != Key(term) ==> x in Filter(prev, Differs(term))
  {
    forall x | x in prev && Lower(x) != Key(term)
      ensures x in Filter(prev, Differs(term))
    {
      var j :| 0 <= j < |prev| && prev[j] == x;
      assert Differs(term)(prev[j]);
    }
  }

  /**
   * A blank term changes nothing. Otherwise the trimmed term heads the
   * list, no later entry equals it ignoring case, the list holds at most
   * ten entries, and the older entries kept follow in their former order.
   */
  lemma AddedShape(prev: seq<string>, term: string)
    ensures Trim(term) == "" ==> Added(prev, term) == prev
    ensures Trim(term) != "" ==>
      var r := Added(prev, term);
      |r| <= MaxHistoryItems && r != [] && r[0] == Trim(term)
      && (forall i :: 1 <= i < |r| ==> Lower(r[i]) != Lower(r[0]))
      && IsSubsequence(r[1..], prev)
    ensures Trim(term) != "" ==>
      var r := Added(prev, term);
      var others := Filter(prev, Differs(term));
      r[1..] == Take(others, MaxHistoryItems - 1)
      && |r| == (if |others| < MaxHistoryItems - 1 then |others| + 1 else MaxHistoryItems)
      && forall x :: x in prev && Lower(x) != Key(term) && x !in r ==> |r| == MaxHistoryItems
  {
    if Trim(term) != "" {
      AddedHead(prev, term);
      AddedTail(prev, term);
    }
  }

  /** The trimmed term heads the list, unlike every later entry, which come from `prev` in order. */
  lemma AddedHead(prev: seq<string>, term: string)
    requires Trim(term) != ""
    ensures var r := Added(prev, term);
      |r| <= MaxHistoryItems && r != [] && r[0] == Trim(term)
      && (forall i :: 1 <= i < |r| ==> Lower(r[i]) != Lower(r[0]))
      && IsSubsequence(r[1..], prev)
  {
    var others := Filter(prev, Differs(term));
    var kept := Take(others, MaxHistoryItems - 1);
    var r := Added(prev, term);
    assert r == Take([Trim(term)] + others, MaxHistoryItems);
    TakeCons(Trim(term), others, MaxHistoryItems);
    assert r[1..] == kept;
    HeadKey(term);
    DiffersDropped(prev, term);
    forall i | 1 <= i < |r|
      ensures Lower(r[i]) != Lower(r[0])
    {
      assert r[i] == others[i - 1];
    }
    FilterIsSubsequence(prev, Differs(term));
    TakeIsSubsequence(others, MaxHistoryItems - 1);
    SubsequenceTransitive(kept, others, prev);
  }

  /** No entry left by the filter equals the term ignoring case. */
  lemma DiffersDropped(prev: seq<string>, term: string)
    ensures forall x :: x in Filter(prev, Differs(term)) ==> Lower(x) != Key(term)
  {
    var others := Filter(prev, Differs(term));
    forall x | x in others
      ensures Lower(x) != Key(term)
    {
      var j :| 0 <= j < |others| && others[j] == x;
      assert Differs(term)(others[j]);
    }
  }

  /** After the term come the first nine older entries that differ from it. */
  lemma AddedTail(prev: seq<string>, term: string)
    requires Trim(term) != ""
    ensures var r := Added(prev, term);
      var others := Filter(prev, Differs(term));
      r[1..] == Take(others, MaxHistoryItems - 1)
      && |r| == (if |others| < MaxHistoryItems - 1 then |others| + 1 else MaxHistoryItems)
      && forall x :: x in prev && Lower(x) != Key(term) && x !in r ==> |r| == MaxHistoryItems
  {
    var others := Filter(prev, Differs(term));
    assert Added(prev, term) == Take([Trim(term)] + others, MaxHistoryItems);
    TakeConsShape(Trim(term), others, MaxHistoryItems);
    DiffersKept(prev, term);
  }

  /** `filter` keeps entries distinct. */
  lemma {:induction false} FilterDistinctIgnoringCase(s: seq<string>, p: string -> bool)
    requires DistinctIgnoringCase(s)
    ensures DistinctIgnoringCase(Filter(s, p))
    decreases |s|
  {
    if s != [] {
      FilterDistinctIgnoringCase(s[1..], p);
      var r := Filter(s[1..], p);
      forall k | 0 <= k < |r|
        ensures Lower(r[k]) != Lower(s[0])
      {
        var m :| 0 <= m < |s[1..]| && s[1..][m] == r[k];
        assert s[m + 1] == r[k];
      }
    }
  }

  /** A head unlike every entry of a distinct list, in front of a prefix of it, gives a distinct list. */
  lemma ConsDistinct(h: string, others: seq<string>, n: nat)
    requires DistinctIgnoringCase(others)
    requires forall x :: x in others ==> Lower(x) != Lower(h)
    ensures DistinctIgnoringCase([h] + Take(others, n))
  {
    var r := [h] + Take(others, n);
    forall i, j | 0 <= i < j < |r|
      ensures Lower(r[i]) != Lower(r[j])
    {
      assert r[j] == others[j - 1];
      if i > 0 {
        assert r[i] == others[i - 1];
      }
    }
  }

  /** Adding keeps the entries distinct ignoring case. */
  lemma AddedKeepsDistinct(prev: seq<string>, term: string)
    requires DistinctIgnoringCase(prev)
    ensures DistinctIgnoringCase(Added(prev, term))
  {
    if Trim(term) != "" {
      var others := Filter(prev, Differs(term));
      assert Added(prev, term) == Take([Trim(term)] + others, MaxHistoryItems);
      FilterDistinctIgnoringCase(prev, Differs(term));
      OthersDiffer(prev, term);
      TakeCons(Trim(term), others, MaxHistoryItems);
      ConsDistinct(Trim(term), others, MaxHistoryItems - 1);
    }
  }

  /** The entries the filter keeps all differ from the trimmed term ignoring case. */
  lemma OthersDiffer(prev: seq<string>, term: string)
    ensures forall x :: x in Filter(prev, Differs(term)) ==> Lower(x) != Lower(Trim(term))
  {
    HeadKey(term);
    forall x | x in Filter(prev, Differs(term))
      ensures Lower(x) != Key(term)
    {
      var i :| 0 <= i < |Filter(prev, Differs(term))| && Filter(prev, Differs(term))[i] == x;
      assert Differs(term)(x);
    }
  }

  /** Filtering a list again by a test its head fails and its tail passes, then capping, gives it back. */
  lemma Refiltered(h: string, kept: seq<string>, keep: string -> bool, n: nat)
    requires n >= 1 && |kept| <= n - 1
    requires !keep(h) && forall x :: x in kept ==> keep(x)
    ensures Take([h] + Filter([h] + kept, keep), n) == [h] + kept
  {
    assert ([h] + kept)[1..] == kept;
    FilterAll(kept, keep);
  }

  /** Adding the same term twice gives the same list as adding it once. */
  lemma AddedIdempotent(prev: seq<string>, term: string)
    ensures Added(Added(prev, term), term) == Added(prev, term)
  {
    if Trim(term) != "" {
      var others := Filter(prev, Differs(term));
      var kept := Take(others, MaxHistoryItems - 1);
      TakeCons(Trim(term), others, MaxHistoryItems);
      assert Added(prev, term) == [Trim(term)] + kept;
      HeadKey(term);
      assert forall x :: x in kept ==> x in others;
      Refiltered(Trim(term), kept, Differs(term), MaxHistoryItems);
    }
  }

  /** Terms that differ only in surrounding white space give the same history. */
  lemma SameKeySameHistory(prev: seq<string>, a: string, b: string)
    requires Trim(a) == Trim(b)
    ensures Added(prev, a) == Added(prev, b)
  {
    HeadKey(a);
    HeadKey(b);
    assert Differs(a) == Differs(b);
  }

  // ---------------------------------------------------------------------
  // The hook's state

  class History {
    var history: seq<string>

    /** The list never outgrows the cap and holds no case-insensitive duplicates. */
    ghost predicate Valid()
      reads this
    {
      |history| <= MaxHistoryItems && DistinctIgnoringCase(history)
    }

    constructor()
      ensures Valid() && history == []
    {
      history := [];
    }

    /** `addToHistory(searchTerm)` */
    method AddToHistory(searchTerm: string)
      requires Valid()
      modifies this
      ensures Valid()
      ensures history == Added(old(history), searchTerm)
    {
      if Trim(searchTerm) == "" {
        return;
      }
      AddedKeepsDistinct(history, searchTerm);
      history := Take([Trim(searchTerm)] + Filter(history, Differs(searchTerm)), MaxHistoryItems);
    }

    /** `clearHistory()` */
    method ClearHistory()
      modifies this
      ensures Valid() && history == []
    {
      history := [];
    }
  }
}
