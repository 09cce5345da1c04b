/** How per-signature offsets become page numbers while the fetch size changes from round to
    round, and when the pages fetched for one signature tile its result list.
 */
module Paging {
  import opened Query
  import opened ResumeSource
  import RunConfig

  datatype SearchRequest = SearchRequest(query: SearchQuery, pageNo: int, pageSize: int)

  function BuildSearchRequest(lower: string -> string, query: SearchQuery, fetchSize: int, offsets: map<Signature, nat>)
    : (r: (SearchRequest, Signature, nat))
    requires fetchSize > 0
    ensures r.0.pageNo >= 1 && r.0.query == query && r.0.pageSize == fetchSize
    ensures (r.0.pageNo - 1) * fetchSize <= r.2 < r.0.pageNo * fetchSize
    ensures r.1 == StrategySignature(lower, query) && r.2 == if r.1 in offsets then offsets[r.1] else 0
  {
    var signature := StrategySignature(lower, query);
    var offset: nat := if signature in offsets then offsets[signature] else 0;
    PageBounds(offset, fetchSize);
    (SearchRequest(query, offset / fetchSize + 1, fetchSize), signature, offset)
  }

  lemma {:induction false} PageBounds(offset: nat, size: int)
    requires size > 0
    ensures 0 <= offset / size * size <= offset < offset / size * size + size
    ensures offset / size * size == offset <==> offset % size == 0
    ensures (offset / size + 1) * size == offset / size * size + size
  {
  }

  predicate Multiple(x: int, d: int)
    requires d > 0
  {
    x % d == 0
  }

  /** Where the page requested at `offset` starts: pages are numbered by size, not by offset. */
  function PageStart(offset: nat, size: int): (start: nat)
    requires size > 0
    ensures start <= offset < start + size
    ensures start == offset <==> Multiple(offset, size)
  {
    PageBounds(offset, size);
    offset / size * size
  }

  function PageAt<T>(items: seq<T>, offset: nat, size: int): seq<T>
    requires size > 0
  {
    Slice(items, PageStart(offset, size), size)
  }

  ghost predicate Positive(sizes: seq<int>) {
    forall i :: 0 <= i < |sizes| ==> sizes[i] > 0
  }

  /** Everything fetched for one signature by requests of these sizes, in order. */
  function Fetched<T>(items: seq<T>, sizes: seq<int>): seq<T>
    requires Positive(sizes)
  {
    if sizes == [] then []
    else
      var n := |sizes| - 1;
      Fetched(items, sizes[..n]) + PageAt(items, |Fetched(items, sizes[..n])|, sizes[n])
  }

  function Sum(sizes: seq<int>): nat
    requires Positive(sizes)
  {
    if sizes == [] then 0 else Sum(sizes[..|sizes| - 1]) + sizes[|sizes| - 1]
  }

  /** Every request starts on a page boundary of its own size. */
  ghost predicate Aligned(sizes: seq<int>)
    requires Positive(sizes)
  {
    forall i :: 0 <= i < |sizes| ==> Multiple(Sum(sizes[..i]), sizes[i])
  }

  /** Each size divides every earlier one, as in the default schedule 10, 5, 5. */
  ghost predicate DividesEarlier(sizes: seq<int>)
    requires Positive(sizes)
  {
    forall i, j :: 0 <= i < j < |sizes| ==> Multiple(sizes[i], sizes[j])
  }

  /** The page fetched by request `i` is as long as it was asked to be. */
  ghost predicate FullPage<T>(items: seq<T>, sizes: seq<int>, i: nat)
    requires Positive(sizes) && i < |sizes|
  {
    |PageAt(items, |Fetched(items, sizes[..i])|, sizes[i])| == sizes[i]
  }

  lemma {:induction false} SumOfMultiples(sizes: seq<int>, d: int)
    requires Positive(sizes) && d > 0 && forall i :: 0 <= i < |sizes| ==> Multiple(sizes[i], d)
    ensures Multiple(Sum(sizes), d)
  {
    if sizes != [] {
      var n := |sizes| - 1;
      SumOfMultiples(sizes[..n], d);
      AddMultiples(Sum(sizes[..n]), sizes[n], d);
    }
  }

  lemma {:induction false} AddMultiples(a: int, b: int, d: int)
    requires d > 0 && Multiple(a, d) && Multiple(b, d)
    ensures Multiple(a + b, d)
  {
    assert a == d * (a / d) && b == d * (b / d);
    assert a + b == d * (a / d + b / d);
    ProductIsMultiple(a + b, d, a / d + b / d);
  }

  lemma {:induction false} ProductIsMultiple(x: int, d: int, q: int)
    requires d > 0 && x == d * q
    ensures Multiple(x, d)
  {
    var p, r := x / d, x % d;
    assert d * (q - p) == r by { assert d * (q - p) == d * q - d * p; }
    if q - p >= 1 { MulAtLeast(d, q - p); }
    assert d * (p - q) == -(d * (q - p));
    if p - q >= 1 { MulAtLeast(d, p - q); }
  }

  lemma {:induction false} MulAtLeast(d: int, m: int)
    requires d > 0 && m >= 1
    ensures d * m >= d
  {
  }

  lemma {:induction false} DividesEarlierIsAligned(sizes: seq<int>)
    requires Positive(sizes) && DividesEarlier(sizes)
    ensures Aligned(sizes)
  {
    forall i | 0 <= i < |sizes| ensures Multiple(Sum(sizes[..i]), sizes[i]) {
      SumOfMultiples(sizes[..i], sizes[i]);
    }
  }

  /** Normalising a schedule, by cutting or by repeating its last size, keeps the property. */
  lemma {:induction false} PaddingKeepsDivision(schedule: seq<int>, n: nat)
    requires schedule != [] && Positive(schedule) && DividesEarlier(schedule)
    ensures Positive(RunConfig.PaddedTo(schedule, n)) && DividesEarlier(RunConfig.PaddedTo(schedule, n))
  {
  }

  lemma {:induction false} AlignedLast(sizes: seq<int>)
    requires Positive(sizes) && sizes != []
    ensures var n := |sizes| - 1;
      Aligned(sizes) <==> Aligned(sizes[..n]) && Multiple(Sum(sizes[..n]), sizes[n])
  {
    hide Multiple, Sum;
    var n := |sizes| - 1;
    assert forall i :: 0 <= i < n ==> sizes[..n][..i] == sizes[..i];
    if Aligned(sizes[..n]) && Multiple(Sum(sizes[..n]), sizes[n]) {
      forall i | 0 <= i < |sizes| ensures Multiple(Sum(sizes[..i]), sizes[i]) {
        if i < n { assert Multiple(Sum(sizes[..n][..i]), sizes[..n][i]); }
      }
    }
    if Aligned(sizes) {
      forall i | 0 <= i < n ensures Multiple(Sum(sizes[..n][..i]), sizes[..n][i]) {
        assert Multiple(Sum(sizes[..i]), sizes[i]);
      }
    }
  }

  /** Aligned requests tile: while pages come back full, what was fetched is exactly the front of
      the list, without gap or overlap, and the first short page completes the list. */
  lemma {:induction false} AlignedRequestsTile<T>(items: seq<T>, sizes: seq<int>)
    requires Positive(sizes) && Aligned(sizes)
    requires forall i :: 0 <= i < |sizes| - 1 ==> FullPage(items, sizes, i)
    ensures sizes == [] || FullPage(items, sizes, |sizes| - 1) ==>
      Sum(sizes) <= |items| && Fetched(items, sizes) == items[..Sum(sizes)]
    ensures sizes != [] && !FullPage(items, sizes, |sizes| - 1) ==> Fetched(items, sizes) == items
  {
    hide PageStart, Multiple, Slice;
    if sizes != [] {
      var n := |sizes| - 1;
      var before, size := sizes[..n], sizes[n];
      AlignedLast(sizes);
      forall i | 0 <= i < n ensures FullPage(items, before, i) {
        assert before[..i] == sizes[..i];
        assert FullPage(items, sizes, i);
      }
      AlignedRequestsTile(items, before);
      NextSlice(items, Sum(before), size);
    }
  }

  lemma {:induction false} FetchedGrows<T>(items: seq<T>, sizes: seq<int>, k: nat)
    requires Positive(sizes) && k <= |sizes|
    ensures Fetched(items, sizes[..k]) <= Fetched(items, sizes)
  {
    if k < |sizes| {
      hide PageAt;
      var n := |sizes| - 1;
      FetchedGrows(items, sizes[..n], k);
      assert sizes[..n][..k] == sizes[..k];
    } else {
      assert sizes[..k] == sizes;
    }
  }

  lemma {:induction false} AlignedPrefix(sizes: seq<int>, k: nat)
    requires Positive(sizes) && Aligned(sizes) && k <= |sizes|
    ensures Positive(sizes[..k]) && Aligned(sizes[..k])
  {
    hide Multiple, Sum;
    forall i | 0 <= i < k ensures Multiple(Sum(sizes[..k][..i]), sizes[..k][i]) {
      assert sizes[..k][..i] == sizes[..i];
    }
  }

  /** Once some page of aligned requests came back short, the whole list has been fetched, in order,
      however many more pages are requested afterwards. */
  lemma {:induction false} ShortPageCompletes<T>(items: seq<T>, sizes: seq<int>, i: nat)
    requires Positive(sizes) && Aligned(sizes) && i < |sizes| && !FullPage(items, sizes, i)
    ensures items <= Fetched(items, sizes)
  {
    if j: nat :| j < i && !FullPage(items, sizes, j) {
      ShortPageCompletes(items, sizes, j);
    } else {
      hide PageAt, Fetched;
      var front := sizes[..i + 1];
      AlignedPrefix(sizes, i + 1);
      forall j: nat | j <= i ensures FullPage(items, front, j) <==> FullPage(items, sizes, j) {
        assert front[..j] == sizes[..j];
      }
      AlignedRequestsTile(items, front);
      FetchedGrows(items, sizes, i + 1);
    }
  }

  lemma {:induction false} NextSlice<T>(items: seq<T>, offset: nat, size: int)
    requires offset <= |items| && size > 0
    ensures var page := Slice(items, offset, size);
      if |page| == size then offset + size <= |items| && items[..offset] + page == items[..offset + size]
      else items[..offset] + page == items
  {
  }

  /** The positions of a list, to see which of them a run of requests reaches. */
  function Positions(n: nat): (r: seq<nat>)
    ensures |r| == n && forall i :: 0 <= i < n ==> r[i] == i
  {
    seq(n, i => i)
  }

  /** On a list long enough for all requests, the positions fetched are 0, 1, 2, ... without gap
      or repetition exactly when every size divides the sum of the sizes before it. */
  lemma {:induction false} TilesIffAligned(sizes: seq<int>, n: nat)
    requires Positive(sizes) && Sum(sizes) <= n
    ensures |Fetched(Positions(n), sizes)| == Sum(sizes)
    ensures Fetched(Positions(n), sizes) == Positions(n)[..Sum(sizes)] <==> Aligned(sizes)
  {
    hide PageStart, Multiple, Positions, Slice;
    if sizes != [] {
      var last := |sizes| - 1;
      var before, size := sizes[..last], sizes[last];
      TilesIffAligned(before, n);
      AlignedLast(sizes);
      ContiguousPage(n, Fetched(Positions(n), before), PageStart(Sum(before), size), size);
    }
  }

  lemma {:induction false} ContiguousPage(n: nat, fetched: seq<nat>, start: nat, size: int)
    requires size > 0 && start <= |fetched| && |fetched| + size <= n
    ensures var page := Slice(Positions(n), start, size);
      && |page| == size
      && (fetched + page == Positions(n)[..|fetched| + size] <==>
            fetched == Positions(n)[..|fetched|] && start == |fetched|)
  {
    var page := Slice(Positions(n), start, size);
    assert page == Positions(n)[start..start + size];
    var all, k := fetched + page, |fetched|;
    if all == Positions(n)[..k + size] {
      assert fetched == all[..k];
      assert all[k] == start;
    }
  }

  /** Sizes 10, 7, 5 on a list of 22: position 14 is skipped. */
  lemma {:induction false} MixedSizesSkipAPosition()
    ensures 14 !in Fetched(Positions(22), [10, 7, 5]) && |Fetched(Positions(22), [10, 7, 5])| == 22
  {
    var p := Positions(22);
    assert [10, 7, 5][..2] == [10, 7] && [10, 7][..1] == [10] && [10][..0] == [];
    assert Fetched(p, [10]) == [] + p[0..10];
    assert Fetched(p, [10, 7]) == Fetched(p, [10]) + p[7..14];
    assert Fetched(p, [10, 7, 5]) == Fetched(p, [10, 7]) + p[15..20];
  }

  // ---------------------------------------------------------------------------------------
  // Several signatures sharing one schedule
  // ---------------------------------------------------------------------------------------

  datatype Fetch = Fetch(signature: Signature, size: int)

  /** The sizes of the requests made for one signature. */
  function SizesOf(run: seq<Fetch>, signature: Signature): seq<int> {
    if run == [] then []
    else
      var n := |run| - 1;
      SizesOf(run[..n], signature) + if run[n].signature == signature then [run[n].size] else []
  }

  /** The worker's offset table after a run against a source with these result lists. */
  function OffsetsAfter<T>(lists: Signature -> seq<T>, run: seq<Fetch>): map<Signature, nat>
    requires forall i :: 0 <= i < |run| ==> run[i].size > 0
  {
    if run == [] then map[]
    else
      var n := |run| - 1;
      var offsets := OffsetsAfter(lists, run[..n]);
      var f := run[n];
      var offset := if f.signature in offsets then offsets[f.signature] else 0;
      offsets[f.signature := offset + |PageAt(lists(f.signature), offset, f.size)|]
  }

  /** Interleaving does not matter: the table holds, for each signature, how much its own requests
      have fetched. */
  lemma {:induction false} OffsetsPerSignature<T>(lists: Signature -> seq<T>, run: seq<Fetch>, s: Signature)
    requires forall i :: 0 <= i < |run| ==> run[i].size > 0
    ensures Positive(SizesOf(run, s))
    ensures var offsets := OffsetsAfter(lists, run);
      |Fetched(lists(s), SizesOf(run, s))| == if s in offsets then offsets[s] else 0
  {
    hide PageAt;
    if run != [] {
      var n := |run| - 1;
      OffsetsPerSignature(lists, run[..n], s);
      if run[n].signature == s {
        var sizes := SizesOf(run[..n], s) + [run[n].size];
        assert sizes[..|sizes| - 1] == SizesOf(run[..n], s);
      } else {
        assert SizesOf(run, s) == SizesOf(run[..n], s);
      }
    }
  }

  lemma {:induction false} SizesFromRun(run: seq<Fetch>, s: Signature)
    requires forall i :: 0 <= i < |run| ==> run[i].size > 0
    requires forall i, j :: 0 <= i < j < |run| ==> Multiple(run[i].size, run[j].size)
    ensures Positive(SizesOf(run, s)) && DividesEarlier(SizesOf(run, s))
    ensures forall x :: x in SizesOf(run, s) ==> exists i :: 0 <= i < |run| && run[i].size == x
  {
    if run != [] {
      var n := |run| - 1;
      SizesFromRun(run[..n], s);
      var sizes := SizesOf(run[..n], s);
      forall x | x in sizes ensures exists i :: 0 <= i < n && run[i].size == x {
        var i :| 0 <= i < n && run[..n][i].size == x;
        assert run[i].size == x;
      }
      if run[n].signature == s {
        assert run[n].size in SizesOf(run, s);
        forall i, j | 0 <= i < j < |SizesOf(run, s)| ensures Multiple(SizesOf(run, s)[i], SizesOf(run, s)[j]) {
          if j == |sizes| { assert sizes[i] in sizes; }
        }
      } else {
        assert SizesOf(run, s) == sizes;
      }
    }
  }

  /** For a run whose sizes each divide every earlier one, whatever signatures its rounds use:
      until a signature's first short page, the worker has fetched exactly the first
      `offsets[s]` entries of that signature's list, and with it the list is complete and stays so. */
  lemma {:induction false} EverySignatureTiles<T>(lists: Signature -> seq<T>, run: seq<Fetch>, s: Signature)
    requires forall i :: 0 <= i < |run| ==> run[i].size > 0
    requires forall i, j :: 0 <= i < j < |run| ==> Multiple(run[i].size, run[j].size)
    ensures Positive(SizesOf(run, s))
    ensures var items, sizes, offsets := lists(s), SizesOf(run, s), OffsetsAfter(lists, run);
      sizes != [] && (forall i :: 0 <= i < |sizes| - 1 ==> FullPage(items, sizes, i)) ==>
        && s in offsets && offsets[s] <= |items|
        && Fetched(items, sizes) == items[..offsets[s]]
        && (FullPage(items, sizes, |sizes| - 1) || offsets[s] == |items|)
    ensures var items, sizes := lists(s), SizesOf(run, s);
      forall i: nat :: i < |sizes| && !FullPage(items, sizes, i) ==> items <= Fetched(items, sizes)
  {
    hide PageAt;
    OffsetsPerSignature(lists, run, s);
    SizesFromRun(run, s);
    var items, sizes := lists(s), SizesOf(run, s);
    DividesEarlierIsAligned(sizes);
    forall i: nat | i < |sizes| && !FullPage(items, sizes, i) ensures items <= Fetched(items, sizes) {
      ShortPageCompletes(items, sizes, i);
    }
    if sizes != [] && forall i :: 0 <= i < |sizes| - 1 ==> FullPage(items, sizes, i) {
      AlignedRequestsTile(items, sizes);
      SignatureUsed(lists, run, s);
      assert items[..|items|] == items;
    }
  }

  lemma {:induction false} SignatureUsed<T>(lists: Signature -> seq<T>, run: seq<Fetch>, s: Signature)
    requires forall i :: 0 <= i < |run| ==> run[i].size > 0
    ensures s in OffsetsAfter(lists, run) <==> SizesOf(run, s) != []
  {
    if run != [] { SignatureUsed(lists, run[..|run| - 1], s); }
  }

  // ---------------------------------------------------------------------------------------
  // The exact condition on a schedule
  // ---------------------------------------------------------------------------------------

  /** The requests of a schedule when round `i` uses `signatures[i]`. */
  function RunOf(schedule: seq<int>, signatures: seq<Signature>): (run: seq<Fetch>)
    requires |signatures| == |schedule|
    ensures |run| == |schedule| && forall i :: 0 <= i < |run| ==> run[i] == Fetch(signatures[i], schedule[i])
  {
    seq(|schedule|, i requires 0 <= i < |schedule| => Fetch(signatures[i], schedule[i]))
  }

  /** Whatever signatures its rounds use, the requests of each are aligned. */
  ghost predicate AlwaysAligned(schedule: seq<int>) {
    forall signatures, s | |signatures| == |schedule| ::
      var sizes := SizesOf(RunOf(schedule, signatures), s);
      Positive(sizes) && Aligned(sizes)
  }

  /** The two rounds that share a signature when all others use another one. */
  lemma {:induction false} PairSizes(run: seq<Fetch>, i: nat, j: nat, s: Signature)
    requires i < j && forall k :: 0 <= k < |run| ==> (run[k].signature == s <==> k == i || k == j)
    ensures SizesOf(run, s) ==
      (if i < |run| then [run[i].size] else []) + (if j < |run| then [run[j].size] else [])
  {
    if run != [] {
      var n := |run| - 1;
      PairSizes(run[..n], i, j, s);
    }
  }

  lemma {:induction false} AlwaysAlignedDivides(schedule: seq<int>, i: nat, j: nat)
    requires Positive(schedule) && AlwaysAligned(schedule) && i < j < |schedule|
    ensures Multiple(schedule[i], schedule[j])
  {
    var one, other := Signature("a", [], [], [], map[]), Signature("b", [], [], [], map[]);
    var signatures := seq(|schedule|, k => if k == i || k == j then one else other);
    var run := RunOf(schedule, signatures);
    PairSizes(run, i, j, one);
    var sizes := SizesOf(run, one);
    assert sizes == [schedule[i], schedule[j]] && Aligned(sizes);
    assert sizes[..1] == [schedule[i]] && sizes[..1][..0] == [];
    assert Multiple(Sum(sizes[..1]), sizes[1]);
  }

  /** A schedule tiles every signature's list, however its rounds share signatures, exactly when each
      of its sizes divides every earlier one. */
  lemma {:induction false} DivisionIsExact(schedule: seq<int>)
    requires Positive(schedule)
    ensures DividesEarlier(schedule) <==> AlwaysAligned(schedule)
  {
    hide Multiple, Sum, SizesOf, Aligned;
    if DividesEarlier(schedule) {
      forall signatures: seq<Signature>, s | |signatures| == |schedule|
        ensures Positive(SizesOf(RunOf(schedule, signatures), s)) && Aligned(SizesOf(RunOf(schedule, signatures), s))
      {
        SizesFromRun(RunOf(schedule, signatures), s);
        DividesEarlierIsAligned(SizesOf(RunOf(schedule, signatures), s));
      }
    }
    if AlwaysAligned(schedule) {
      forall i, j | 0 <= i < j < |schedule| ensures Multiple(schedule[i], schedule[j]) {
        AlwaysAlignedDivides(schedule, i, j);
      }
    }
  }
}
