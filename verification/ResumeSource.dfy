/** The in-memory resume source: it keeps the candidates whose text contains some must- or
    should-term and serves them page by page.
 */
module ResumeSource {
  import opened Wrappers
  import opened Sorting
  import opened Text
  import opened Query
  import opened Shortlist

  /** A stored candidate and the text its terms are looked up in. */
  datatype CorpusEntry = CorpusEntry(candidate: Candidate, haystack: string)

  datatype SearchPage = SearchPage(
    completed: bool, total: int, pageNo: int, pageSize: int, candidates: seq<Candidate>,
    errorCode: Option<string>, errorMessage: Option<string>)

  function Lowered(lower: string -> string, terms: seq<string>): (r: seq<string>)
    ensures |r| == |terms| && forall i :: 0 <= i < |terms| ==> r[i] == lower(terms[i])
  {
    seq(|terms|, i requires 0 <= i < |terms| => lower(terms[i]))
  }

  predicate MatchesAny(text: string, terms: seq<string>) {
    exists t :: t in terms && Contains(text, t)
  }

  /** The filtered list a query stands for. */
  function Matching(lower: string -> string, corpus: seq<CorpusEntry>, q: SearchQuery): seq<Candidate> {
    if corpus == [] then []
    else
      var terms := Lowered(lower, q.mustTerms + q.shouldTerms);
      var rest := Matching(lower, corpus[1..], q);
      if terms == [] || MatchesAny(lower(corpus[0].haystack), terms) then [corpus[0].candidate] + rest else rest
  }

  /** Python's `items[start : start + size]`, clipped at the end. */
  function Slice<T>(items: seq<T>, start: nat, size: nat): seq<T> {
    if start >= |items| then []
    else if start + size >= |items| then items[start..]
    else items[start..start + size]
  }

  /** The lower-cased text of an entry has some lower-cased must- or should-term of the query as a slice. */
  ghost predicate HasTerm(lower: string -> string, entry: CorpusEntry, q: SearchQuery) {
    var text := lower(entry.haystack);
    exists t, a, b ::
      (t in q.mustTerms || t in q.shouldTerms) && 0 <= a <= b <= |text| && text[a..b] == lower(t)
  }

  /** A query asks for the entries that have some of its terms, or for all entries if it has none. */
  ghost predicate Wanted(lower: string -> string, entry: CorpusEntry, q: SearchQuery) {
    (q.mustTerms == [] && q.shouldTerms == []) || HasTerm(lower, entry, q)
  }

  /** `kept` lists, in corpus order and each once, the positions of the entries a query asks for. */
  ghost predicate Keeps(lower: string -> string, corpus: seq<CorpusEntry>, q: SearchQuery, kept: seq<nat>) {
    && Ascending(kept)
    && forall i: nat :: i in kept <==> i < |corpus| && Wanted(lower, corpus[i], q)
  }

  /** These are the candidates at the kept positions that the page asks for. */
  ghost predicate Serves(
      corpus: seq<CorpusEntry>, kept: seq<nat>, pageNo: int, pageSize: int, candidates: seq<Candidate>)
  {
    && pageNo >= 1 && pageSize >= 1
    && var start := (pageNo - 1) * pageSize;
       && 0 <= start
       && |candidates| ==
            (if start >= |kept| then 0 else if start + pageSize >= |kept| then |kept| - start else pageSize)
       && forall k :: 0 <= k < |candidates| ==>
            kept[start + k] < |corpus| && candidates[k] == corpus[kept[start + k]].candidate
  }

  lemma {:induction false} WantedIff(lower: string -> string, entry: CorpusEntry, q: SearchQuery)
    ensures var terms := Lowered(lower, q.mustTerms + q.shouldTerms);
      terms == [] || MatchesAny(lower(entry.haystack), terms) <==> Wanted(lower, entry, q)
  {
    var text, terms := lower(entry.haystack), q.mustTerms + q.shouldTerms;
    if MatchesAny(text, Lowered(lower, terms)) {
      var t :| t in Lowered(lower, terms) && Contains(text, t);
      var i :| 0 <= i < |terms| && Lowered(lower, terms)[i] == t;
      var a :| 0 <= a <= |text| - |t| && OccursAt(text, t, a);
      assert terms[i] in terms && text[a..a + |t|] == lower(terms[i]);
    }
    if HasTerm(lower, entry, q) {
      var t, a, b :| (t in q.mustTerms || t in q.shouldTerms) && 0 <= a <= b <= |text| && text[a..b] == lower(t);
      assert t in terms;
      var i :| 0 <= i < |terms| && terms[i] == t;
      assert Lowered(lower, terms)[i] == lower(t) && OccursAt(text, lower(t), a);
      assert lower(t) in Lowered(lower, terms) && Contains(text, lower(t));
    }
  }

  /** Positions moved up by one. */
  function Shifted(positions: seq<nat>): (r: seq<nat>)
    ensures |r| == |positions| && forall k :: 0 <= k < |r| ==> r[k] == positions[k] + 1
  {
    seq(|positions|, k requires 0 <= k < |positions| => positions[k] + 1)
  }

  lemma {:induction false} ShiftedMembers(positions: seq<nat>, i: nat)
    ensures i in Shifted(positions) <==> i > 0 && i - 1 in positions
  {
    if i > 0 && i - 1 in positions {
      var k :| 0 <= k < |positions| && positions[k] == i - 1;
      assert Shifted(positions)[k] == i;
    }
  }

  lemma {:induction false} KeepsCons(
      lower: string -> string, corpus: seq<CorpusEntry>, q: SearchQuery, later: seq<nat>, first: seq<nat>)
    requires corpus != [] && Keeps(lower, corpus[1..], q, later)
    requires first == if Wanted(lower, corpus[0], q) then [0] else []
    ensures Keeps(lower, corpus, q, first + Shifted(later))
  {
    hide Wanted;
    var kept := first + Shifted(later);
    forall i: nat ensures i in kept <==> i < |corpus| && Wanted(lower, corpus[i], q) {
      ShiftedMembers(later, i);
      assert i in kept <==> i in first || i in Shifted(later);
      assert i > 0 ==> (i - 1 in later <==> i < |corpus| && Wanted(lower, corpus[1..][i - 1], q));
    }
  }

  /** The list a query stands for, entry by entry: corpus order, nothing lost and nothing repeated. */
  lemma {:induction false} MatchingIsKept(lower: string -> string, corpus: seq<CorpusEntry>, q: SearchQuery)
    returns (kept: seq<nat>)
    ensures Keeps(lower, corpus, q, kept) && |kept| == |Matching(lower, corpus, q)|
    ensures forall k :: 0 <= k < |kept| ==>
      kept[k] < |corpus| && Matching(lower, corpus, q)[k] == corpus[kept[k]].candidate
  {
    hide Wanted, MatchesAny, Lowered, Keeps;
    if corpus == [] {
      kept := [];
      NothingToKeep(lower, q);
    } else {
      var later := MatchingIsKept(lower, corpus[1..], q);
      WantedIff(lower, corpus[0], q);
      var first := if Wanted(lower, corpus[0], q) then [0] else [];
      KeepsCons(lower, corpus, q, later, first);
      kept := first + Shifted(later);
      assert Matching(lower, corpus, q) ==
        (if Wanted(lower, corpus[0], q) then [corpus[0].candidate] else []) + Matching(lower, corpus[1..], q);
    }
  }

  lemma {:induction false} NothingToKeep(lower: string -> string, q: SearchQuery)
    ensures Keeps(lower, [], q, [])
  {
  }

  /** There is only one way to keep. */
  lemma {:induction false} KeepsUnique(
      lower: string -> string, corpus: seq<CorpusEntry>, q: SearchQuery, kept: seq<nat>)
    requires Keeps(lower, corpus, q, kept)
    ensures |kept| == |Matching(lower, corpus, q)|
    ensures forall k :: 0 <= k < |kept| ==>
      kept[k] < |corpus| && Matching(lower, corpus, q)[k] == corpus[kept[k]].candidate
  {
    hide Wanted, Matching;
    var other := MatchingIsKept(lower, corpus, q);
    AscendingUnique(kept, other);
  }

  /** A page is served from the kept entries exactly when it is the slice of the list its number names. */
  lemma {:induction false} ServesIffSlice(
      lower: string -> string, corpus: seq<CorpusEntry>, q: SearchQuery, kept: seq<nat>, pageNo: int, pageSize: int,
      candidates: seq<Candidate>)
    requires Keeps(lower, corpus, q, kept) && pageNo >= 1 && pageSize >= 1
    ensures 0 <= (pageNo - 1) * pageSize
    ensures Serves(corpus, kept, pageNo, pageSize, candidates) <==>
      candidates == Slice(Matching(lower, corpus, q), (pageNo - 1) * pageSize, pageSize)
  {
    hide Keeps, Matching;
    KeepsUnique(lower, corpus, q, kept);
    var start := (pageNo - 1) * pageSize;
    assert 0 <= start;
  }

  method SearchCandidates(lower: string -> string, corpus: seq<CorpusEntry>, q: SearchQuery, pageNo: int, pageSize: int)
    returns (page: SearchPage, ghost kept: seq<nat>)
    ensures page.errorCode.Some? <==> pageNo <= 0 || pageSize <= 0
    ensures page.completed <==> page.errorCode.None?
    ensures page.errorCode.Some? ==> page.candidates == [] && page.errorCode.value == "CTS_PARAM_ANOMALY"
    ensures page.completed ==>
      var all := Matching(lower, corpus, q);
      page.total == |all| && page.candidates == Slice(all, (pageNo - 1) * pageSize, pageSize)
    ensures page.completed ==>
      Keeps(lower, corpus, q, kept) && page.total == |kept| && Serves(corpus, kept, pageNo, pageSize, page.candidates)
    ensures page.pageNo == pageNo && page.pageSize == pageSize
  {
    kept := MatchingIsKept(lower, corpus, q);
    hide Keeps, Serves, MatchesAny, Lowered;
    if pageNo <= 0 || pageSize <= 0 {
      return SearchPage(false, 0, pageNo, pageSize, [], Some("CTS_PARAM_ANOMALY"),
                        Some("Invalid page or pageSize produced data:null in upstream contract.")), kept;
    }
    var terms := Lowered(lower, q.mustTerms + q.shouldTerms);
    var filtered: seq<Candidate> := [];
    var i := 0;
    while i < |corpus|
      invariant 0 <= i <= |corpus|
      invariant filtered + Matching(lower, corpus[i..], q) == Matching(lower, corpus, q)
    {
      assert corpus[i..][1..] == corpus[i + 1..];
      if terms == [] || MatchesAny(lower(corpus[i].haystack), terms) {
        filtered := filtered + [corpus[i].candidate];
      }
      i := i + 1;
    }
    assert 0 <= (pageNo - 1) * pageSize;
    var items := Slice(filtered, (pageNo - 1) * pageSize, pageSize);
    ServesIffSlice(lower, corpus, q, kept, pageNo, pageSize, items);
    return SearchPage(true, |filtered|, pageNo, pageSize, items, None, None), kept;
  }

  lemma {:induction false} SameTermsSameList(
      lower: string -> string, corpus: seq<CorpusEntry>, a: SearchQuery, b: SearchQuery)
    requires var ta, tb := Lowered(lower, a.mustTerms + a.shouldTerms), Lowered(lower, b.mustTerms + b.shouldTerms);
      forall t :: t in ta <==> t in tb
    ensures Matching(lower, corpus, a) == Matching(lower, corpus, b)
  {
    if corpus != [] {
      var ta, tb := Lowered(lower, a.mustTerms + a.shouldTerms), Lowered(lower, b.mustTerms + b.shouldTerms);
      SameTermsSameList(lower, corpus[1..], a, b);
      assert ta == [] <==> tb == [] by {
        if ta != [] { assert ta[0] in ta; }
        if tb != [] { assert tb[0] in tb; }
      }
    }
  }

  /** On clean terms, folding for the signature and lower-casing for the search agree. */
  lemma {:induction false} FoldedIsLowered(lower: string -> string, terms: seq<string>)
    requires Clean(terms)
    ensures Folded(lower, terms) == Lowered(lower, terms)
  {
    forall i | 0 <= i < |terms| ensures Folded(lower, terms)[i] == Lowered(lower, terms)[i] {
      assert terms[i] in terms;
      StripNormal(terms[i]);
    }
  }

  lemma {:induction false} LoweredMembers(lower: string -> string, a: seq<string>, b: seq<string>, t: string)
    ensures t in Lowered(lower, a + b) <==> t in Lowered(lower, a) || t in Lowered(lower, b)
  {
    assert Lowered(lower, a + b) == Lowered(lower, a) + Lowered(lower, b);
  }

  /** Normalised strategies with one signature get one list, so they may share one offset. */
  lemma {:induction false} SignatureSoundness(
      lower: string -> string, corpus: seq<CorpusEntry>, a: SearchQuery, b: SearchQuery)
    requires NormalForm(a) && NormalForm(b)
    requires StrategySignature(lower, a) == StrategySignature(lower, b)
    ensures Matching(lower, corpus, a) == Matching(lower, corpus, b)
  {
    SignatureMeaning(lower, a, b);
    FoldedIsLowered(lower, a.mustTerms);
    FoldedIsLowered(lower, b.mustTerms);
    FoldedIsLowered(lower, a.shouldTerms);
    FoldedIsLowered(lower, b.shouldTerms);
    forall t
      ensures t in Lowered(lower, a.mustTerms + a.shouldTerms) <==> t in Lowered(lower, b.mustTerms + b.shouldTerms)
    {
      LoweredMembers(lower, a.mustTerms, a.shouldTerms, t);
      LoweredMembers(lower, b.mustTerms, b.shouldTerms, t);
      assert t in Lowered(lower, a.mustTerms) <==> t in multiset(Lowered(lower, a.mustTerms));
      assert t in Lowered(lower, b.mustTerms) <==> t in multiset(Lowered(lower, b.mustTerms));
      assert t in Lowered(lower, a.shouldTerms) <==> t in multiset(Lowered(lower, a.shouldTerms));
      assert t in Lowered(lower, b.shouldTerms) <==> t in multiset(Lowered(lower, b.shouldTerms));
    }
    SameTermsSameList(lower, corpus, a, b);
  }
}
