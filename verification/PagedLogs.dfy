// The registry's page-per-entry append logs: a campaign's activities and a
// farmer's campaign ids are both kept this way.

module PagedLogs {

  // MAX_ACTIVITIES_PER_PAGE and MAX_FARMER_CAMPAIGNS_PER_PAGE.
  const PAGE: nat := 100

  // The stored entries: a page count per key, and a page per key and page number.
  datatype Store<!K, V> = Store(counts: map<K, nat>, pages: map<(K, nat), seq<V>>)
  {
    function Count(k: K): nat {
      if k in counts then counts[k] else 0
    }

    function Page(k: K, i: nat): seq<V> {
      if (k, i) in pages then pages[(k, i)] else []
    }

    // The page that takes the next record: the last one while it has room.
    function Target(k: K): nat {
      if Count(k) == 0 then 0
      else if PAGE <= |Page(k, Count(k) - 1)| then Count(k)
      else Count(k) - 1
    }

    function Append(k: K, v: V): Store<K, V> {
      var i := Target(k);
      Store(counts[k := i + 1], pages[(k, i) := Page(k, i) + [v]])
    }
  }

  function Empty<K, V>(): Store<K, V> {
    Store(map[], map[])
  }

  function Min(a: int, b: int): int {
    if a < b then a else b
  }

  // The pages of key k hold exactly the list xs: record i sits at slot i % PAGE of
  // page i / PAGE, every page but the last is full, and there are no other pages.
  ghost predicate Holds<K(!new), V>(s: Store<K, V>, k: K, xs: seq<V>) {
    && s.Count(k) == (|xs| + PAGE - 1) / PAGE
    && (forall i: nat :: (k, i) in s.pages <==> i < s.Count(k))
    && (forall i: nat :: i < s.Count(k) ==> s.Page(k, i) == xs[PAGE * i..Min(PAGE * (i + 1), |xs|)])
  }

  lemma HoldsEmpty<K(!new), V>(k: K)
    ensures Holds(Empty<K, V>(), k, [])
  {
  }

  // The next record goes to the page that begins at the last multiple of PAGE.
  lemma {:induction false} TargetAt<K(!new), V>(s: Store<K, V>, k: K, xs: seq<V>)
    requires Holds(s, k, xs)
    ensures s.Target(k) == |xs| / PAGE && s.Page(k, |xs| / PAGE) == xs[PAGE * (|xs| / PAGE)..]
  {
    if |xs| % PAGE != 0 {
      assert s.Page(k, |xs| / PAGE) == xs[PAGE * (|xs| / PAGE)..|xs|];
    }
  }

  // Appending to a key appends to its list.
  lemma {:induction false} AppendHolds<K(!new), V>(s: Store<K, V>, k: K, v: V, xs: seq<V>)
    requires Holds(s, k, xs)
    ensures Holds(s.Append(k, v), k, xs + [v])
  {
    var n := |xs|;
    var s', t := s.Append(k, v), s.Target(k);
    TargetAt(s, k, xs);
    assert s'.Page(k, t) == xs[PAGE * t..n] + [v] == (xs + [v])[PAGE * t..n + 1];
    forall i: nat | i < s'.Count(k) ensures s'.Page(k, i) == (xs + [v])[PAGE * i..Min(PAGE * (i + 1), n + 1)] {
      if i != t {
        assert PAGE * (i + 1) <= PAGE * t <= n;
        assert s'.Page(k, i) == s.Page(k, i);
      }
    }
  }

  // Other keys are untouched.
  lemma AppendElsewhere<K(!new), V>(s: Store<K, V>, k: K, v: V, j: K, ys: seq<V>)
    requires j != k && Holds(s, j, ys)
    ensures Holds(s.Append(k, v), j, ys)
  {
    var s' := s.Append(k, v);
    forall i: nat
      ensures s'.Page(j, i) == s.Page(j, i) && ((j, i) in s'.pages <==> (j, i) in s.pages)
    {
      assert (j, i) != (k, s.Target(k));
    }
  }

  // The list recorded for a key; a key never written has the empty one.
  function Listed<K, V>(lists: map<K, seq<V>>, k: K): seq<V> {
    if k in lists then lists[k] else []
  }

  function AppendAll<K, V>(s: Store<K, V>, records: seq<(K, V)>): Store<K, V> {
    if records == [] then s
    else
      var last := records[|records| - 1];
      AppendAll(s, records[..|records| - 1]).Append(last.0, last.1)
  }

  function OfKey<K(==), V>(records: seq<(K, V)>, k: K): seq<V> {
    if records == [] then []
    else
      var last := records[|records| - 1];
      OfKey(records[..|records| - 1], k) + if last.0 == k then [last.1] else []
  }

  // After any interleaving of appends to any keys, each key's pages hold its
  // records in order.
  lemma {:induction false} PagesHoldLog<K(!new), V>(records: seq<(K, V)>, k: K)
    ensures Holds(AppendAll(Empty(), records), k, OfKey(records, k))
  {
    if records == [] {
      HoldsEmpty<K, V>(k);
    } else {
      var init, last := records[..|records| - 1], records[|records| - 1];
      PagesHoldLog(init, k);
      if last.0 == k {
        AppendHolds(AppendAll(Empty(), init), k, last.1, OfKey(init, k));
      } else {
        AppendElsewhere(AppendAll(Empty(), init), last.0, last.1, k, OfKey(init, k));
        assert OfKey(init, k) + [] == OfKey(init, k);
      }
    }
  }

  // Where each record is, and how full the pages are.
  lemma PageShape<K(!new), V>(s: Store<K, V>, k: K, xs: seq<V>)
    requires Holds(s, k, xs)
    ensures forall i :: 0 <= i < |xs| ==>
              i / 100 < s.Count(k) && i % 100 < |s.Page(k, i / 100)| && s.Page(k, i / 100)[i % 100] == xs[i]
    ensures forall i: nat :: i < s.Count(k) ==>
              if i < s.Count(k) - 1 then |s.Page(k, i)| == 100 else 1 <= |s.Page(k, i)| <= 100
  {
  }

  // The log as the source keeps it: storage entries read and rewritten in place.
  ghost predicate AllHold<K(!new), V>(s: Store<K, V>, lists: map<K, seq<V>>) {
    forall k :: Holds(s, k, Listed(lists, k))
  }

  // One append, seen by every key.
  lemma {:induction false} AppendKeeps<K(!new), V>(s: Store<K, V>, lists: map<K, seq<V>>, k: K, v: V)
    requires AllHold(s, lists)
    ensures AllHold(s.Append(k, v), lists[k := Listed(lists, k) + [v]])
  {
    var s', longer := s.Append(k, v), lists[k := Listed(lists, k) + [v]];
    forall j: K ensures Holds(s', j, Listed(longer, j)) {
      if j == k {
        AppendHolds(s, k, v, Listed(lists, k));
      } else {
        AppendElsewhere(s, k, v, j, Listed(lists, j));
      }
    }
  }

  class PagedLog<!K(==,!new), V> {
    var counts: map<K, nat>
    var pages: map<(K, nat), seq<V>>
    ghost var contents: map<K, seq<V>>

    ghost predicate Valid()
      reads this
    {
      AllHold(Stored(), contents)
    }

    function Stored(): Store<K, V>
      reads this
    {
      Store(counts, pages)
    }

    // The records of a key, in insertion order.
    ghost function Contents(k: K): seq<V>
      reads this
    {
      Listed(contents, k)
    }

    constructor ()
      ensures Valid() && contents == map[]
    {
      counts, pages, contents := map[], map[], map[];
      new;
      forall k: K
        ensures Holds(Stored(), k, Listed(contents, k))
      {
        HoldsEmpty<K, V>(k);
      }
    }

    method Append(k: K, v: V)
      requires Valid()
      modifies this
      ensures Valid() && Stored() == old(Stored()).Append(k, v)
      ensures contents == old(contents)[k := old(Contents(k)) + [v]]
    {
      ghost var s, lists := Stored(), contents;
      var pageCount := if k in counts then counts[k] else 0;
      var pageIndex := 0;
      if pageCount != 0 {
        var lastPage := if (k, pageCount - 1) in pages then pages[(k, pageCount - 1)] else [];
        pageIndex := if PAGE <= |lastPage| then pageCount else pageCount - 1;
      }
      assert pageIndex == s.Target(k);
      var page := if (k, pageIndex) in pages then pages[(k, pageIndex)] else [];
      page := page + [v];
      pages := pages[(k, pageIndex) := page];
      var newPageCount := pageIndex + 1;
      if newPageCount != pageCount {
        counts := counts[k := newPageCount];
      }
      assert Stored() == s.Append(k, v) by { assert counts == s.counts[k := newPageCount]; }
      contents := contents[k := Contents(k) + [v]];
      AppendKeeps(s, lists, k, v);
    }

    method PageCount(k: K) returns (n: nat)
      requires Valid()
      ensures n == (|Contents(k)| + 99) / 100
    {
      n := if k in counts then counts[k] else 0;
      assert Holds(Stored(), k, Listed(contents, k));
    }

    // One page, or nothing past the last one.
    method GetPage(k: K, i: nat) returns (page: seq<V>)
      requires Valid()
      ensures page == if 100 * i < |Contents(k)| then Contents(k)[100 * i..Min(100 * (i + 1), |Contents(k)|)] else []
    {
      page := if (k, i) in pages then pages[(k, i)] else [];
      assert Holds(Stored(), k, Listed(contents, k));
      assert page == Stored().Page(k, i);
    }

    // All records of a key: its pages, one after the other.
    method GetAll(k: K) returns (all: seq<V>)
      requires Valid()
      ensures all == Contents(k)
    {
      all := [];
      var n := PageCount(k);
      ghost var xs := Contents(k);
      for i := 0 to n
        invariant all == xs[..Min(PAGE * i, |xs|)]
      {
        var page := GetPage(k, i);
        for r := 0 to |page|
          invariant all == xs[..PAGE * i + r]
        {
          all := all + [page[r]];
        }
      }
    }
  }
}
