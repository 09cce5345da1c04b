/** The search query algebra: normalising a strategy, its signature, and the delta between the
    queries of two rounds.
 */
module Query {
  import opened Wrappers
  import opened Sorting
  import opened Text

  datatype FilterValue = IntValue(number: int) | TextValue(text: string) | TextList(texts: seq<string>)

  /** Structured filters; a filter that is not set has no key, so no value is ever null. */
  type Filters = map<FilterField, FilterValue>

  datatype FilterField =
    | Page | PageSize | Location | Degree | SchoolType | WorkExperienceRange | Position | WorkContent | Company | School

  /** The order in which a query's filters list their fields. */
  const FILTER_FIELDS := [Page, PageSize, Location, Degree, SchoolType, WorkExperienceRange, Position, WorkContent,
                          Company, School]

  datatype SearchQuery = SearchQuery(
    keyword: string, mustTerms: seq<string>, shouldTerms: seq<string>, excludeTerms: seq<string>, filters: Filters)

  datatype Strategy = Strategy(jd: string, query: SearchQuery)

  // ---------------------------------------------------------------------------------------
  // Normalisation
  // ---------------------------------------------------------------------------------------

  /** The stripped terms that are not blank. */
  function StripTerms(terms: seq<string>): seq<string> {
    if terms == [] then []
    else if Strip(terms[0]) == [] then StripTerms(terms[1..])
    else [Strip(terms[0])] + StripTerms(terms[1..])
  }

  /** `[term for term in terms if term not in excluded]`. */
  function Without(terms: seq<string>, excluded: seq<string>): seq<string> {
    if terms == [] then []
    else if terms[0] in excluded then Without(terms[1..], excluded)
    else [terms[0]] + Without(terms[1..], excluded)
  }

  /** The keyword a query resolves to before it is checked for being blank. */
  function ResolvedKeyword(q: SearchQuery): string {
    var must := StripTerms(q.mustTerms);
    var should := Without(StripTerms(q.shouldTerms), must);
    if Strip(q.keyword) != [] then Strip(q.keyword) else Strip(Join(" ", must + should))
  }

  function BuildSearchStrategy(jd: string, q: SearchQuery): Result<Strategy> {
    var must := StripTerms(q.mustTerms);
    var should := Without(StripTerms(q.shouldTerms), must);
    var exclude := StripTerms(q.excludeTerms);
    var keyword := ResolvedKeyword(q);
    if keyword == [] then
      Failure(Error("AGENT_SEARCH_STRATEGY_INVALID", "The extracted search strategy did not contain any keyword."))
    else
      Success(Strategy(jd, SearchQuery(keyword, if must != [] then must else [keyword], should, exclude, q.filters)))
  }

  predicate Clean(terms: seq<string>) {
    forall t :: t in terms ==> t != [] && Stripped(t)
  }

  predicate NormalForm(q: SearchQuery) {
    && q.keyword != [] && Stripped(q.keyword)
    && q.mustTerms != [] && Clean(q.mustTerms) && Clean(q.shouldTerms) && Clean(q.excludeTerms)
  }

  predicate Disjoint(a: seq<string>, b: seq<string>) {
    forall t :: t in a ==> t !in b
  }

  predicate Blank(terms: seq<string>) {
    forall t :: t in terms ==> Strip(t) == []
  }

  lemma {:induction false} StripTermsClean(terms: seq<string>)
    ensures Clean(StripTerms(terms))
    ensures StripTerms(terms) == [] <==> Blank(terms)
  {
    if terms != [] {
      StripNormal(terms[0]);
      StripTermsClean(terms[1..]);
      assert terms == [terms[0]] + terms[1..];
    }
  }

  lemma {:induction false} StripTermsFixed(terms: seq<string>)
    requires Clean(terms)
    ensures StripTerms(terms) == terms
  {
    if terms != [] {
      assert terms[0] in terms;
      StripNormal(terms[0]);
      StripTermsFixed(terms[1..]);
    }
  }

  lemma {:induction false} WithoutMembers(terms: seq<string>, excluded: seq<string>)
    ensures forall t :: t in Without(terms, excluded) <==> t in terms && t !in excluded
  {
    if terms != [] { WithoutMembers(terms[1..], excluded); }
  }

  lemma {:induction false} WithoutFixed(terms: seq<string>, excluded: seq<string>)
    ensures Without(terms, excluded) == terms <==> Disjoint(terms, excluded)
  {
    WithoutMembers(terms, excluded);
    if Disjoint(terms, excluded) && terms != [] {
      assert terms[0] in terms;
      WithoutFixed(terms[1..], excluded);
    }
  }

  lemma {:induction false} JoinClean(parts: seq<string>)
    requires parts != [] && Clean(parts)
    ensures Join(" ", parts) != [] && Stripped(Join(" ", parts))
  {
    assert parts[0] in parts;
    if |parts| > 1 {
      assert forall t :: t in parts[1..] ==> t in parts;
      JoinClean(parts[1..]);
      var rest := Join(" ", parts[1..]);
      var all := parts[0] + " " + rest;
      assert all[|all| - 1] == rest[|rest| - 1];
    }
  }

  /** A strategy is built exactly when the keyword or some must- or should-term is not blank, and
      what is built is in normal form: everything stripped, nothing blank, a must-term present. */
  lemma {:induction false} BuiltInNormalForm(jd: string, q: SearchQuery)
    ensures var r := BuildSearchStrategy(jd, q);
      && (r.Success? <==> Strip(q.keyword) != [] || !Blank(q.mustTerms) || !Blank(q.shouldTerms))
      && (r.Success? ==> NormalForm(r.value.query))
      && (r.Failure? ==> r.error.code == "AGENT_SEARCH_STRATEGY_INVALID")
  {
    var must := StripTerms(q.mustTerms);
    var stripped := StripTerms(q.shouldTerms);
    var should := Without(stripped, must);
    StripTermsClean(q.mustTerms);
    StripTermsClean(q.shouldTerms);
    StripTermsClean(q.excludeTerms);
    WithoutMembers(stripped, must);
    StripNormal(q.keyword);
    if must == [] { WithoutFixed(stripped, must); }
    if must + should != [] {
      assert Clean(must + should);
      JoinClean(must + should);
    }
    StripNormal(Join(" ", must + should));
  }

  /** Stripping a list works term by term, in order, and drops the blank ones. */
  lemma {:induction false} StripTermsMeaning(a: seq<string>, b: seq<string>)
    ensures StripTerms(a + b) == StripTerms(a) + StripTerms(b)
    ensures |a| == 1 ==> StripTerms(a) == if Strip(a[0]) == [] then [] else [Strip(a[0])]
  {
    hide Strip;
    if a == [] {
      assert a + b == b;
    } else {
      assert (a + b)[1..] == a[1..] + b;
      StripTermsMeaning(a[1..], b);
    }
  }

  /** Without its excluded terms a list keeps the others, in order and with their repetitions. */
  lemma {:induction false} WithoutMeaning(a: seq<string>, b: seq<string>, excluded: seq<string>)
    ensures Without(a + b, excluded) == Without(a, excluded) + Without(b, excluded)
  {
    if a == [] {
      assert a + b == b;
    } else {
      var t, rest := a[0], a[1..];
      assert (a + b)[0] == t && (a + b)[1..] == rest + b;
      WithoutMeaning(rest, b, excluded);
      var own := if t in excluded then [] else [t];
      assert Without(a + b, excluded) == own + Without(rest + b, excluded);
      assert Without(a, excluded) == own + Without(rest, excluded);
    }
  }

  /** What a built strategy holds: the job description, the filters, the stripped terms that are not
      blank, should-terms only if they are no must-terms, the keyword, or the terms joined by blanks
      for want of one, and the keyword as a must-term for want of any. */
  lemma {:induction false} BuiltContents(jd: string, q: SearchQuery)
    requires BuildSearchStrategy(jd, q).Success?
    ensures var s, must := BuildSearchStrategy(jd, q).value, StripTerms(q.mustTerms);
      var built := s.query;
      && s.jd == jd && built.filters == q.filters
      && (Strip(q.keyword) != [] ==> built.keyword == Strip(q.keyword))
      && (Strip(q.keyword) == [] ==> built.keyword == Join(" ", must + built.shouldTerms))
      && built.mustTerms == (if must != [] then must else [built.keyword])
      && built.excludeTerms == StripTerms(q.excludeTerms)
      && built.shouldTerms == Without(StripTerms(q.shouldTerms), must)
  {
    var must, stripped := StripTerms(q.mustTerms), StripTerms(q.shouldTerms);
    var should := Without(stripped, must);
    StripTermsClean(q.mustTerms);
    StripTermsClean(q.shouldTerms);
    WithoutMembers(stripped, must);
    assert Clean(must + should);
    if must + should != [] {
      JoinClean(must + should);
      StripNormal(Join(" ", must + should));
    }
  }

  /** Normalising a normal form only drops the should-terms that are also must-terms. */
  lemma {:induction false} RebuildNormal(jd: string, q: SearchQuery)
    requires NormalForm(q)
    ensures BuildSearchStrategy(jd, q) ==
            Success(Strategy(jd, q.(shouldTerms := Without(q.shouldTerms, q.mustTerms))))
  {
    StripNormal(q.keyword);
    StripTermsFixed(q.mustTerms);
    StripTermsFixed(q.shouldTerms);
    StripTermsFixed(q.excludeTerms);
  }

  /** One application is a fixed point exactly when some must-term is not blank or the resolved
      keyword is not among the stripped should-terms; and then must and should are disjoint. */
  lemma {:induction false} OnceIsFixedPoint(jd: string, q: SearchQuery)
    requires BuildSearchStrategy(jd, q).Success?
    ensures var s := BuildSearchStrategy(jd, q).value;
      && (BuildSearchStrategy(jd, s.query) == Success(s) <==>
            !Blank(q.mustTerms) || ResolvedKeyword(q) !in StripTerms(q.shouldTerms))
      && (BuildSearchStrategy(jd, s.query) == Success(s) <==> Disjoint(s.query.shouldTerms, s.query.mustTerms))
  {
    var s := BuildSearchStrategy(jd, q).value;
    BuiltInNormalForm(jd, q);
    RebuildNormal(jd, s.query);
    WithoutFixed(s.query.shouldTerms, s.query.mustTerms);
    StripTermsClean(q.mustTerms);
    WithoutMembers(StripTerms(q.shouldTerms), StripTerms(q.mustTerms));
  }

  /** Two applications always reach a fixed point. */
  lemma {:induction false} TwiceIsFixedPoint(jd: string, q: SearchQuery)
    requires BuildSearchStrategy(jd, q).Success?
    ensures var once := BuildSearchStrategy(jd, q).value;
      var twice := BuildSearchStrategy(jd, once.query);
      twice.Success? && BuildSearchStrategy(jd, twice.value.query) == twice
  {
    var once := BuildSearchStrategy(jd, q).value.query;
    BuiltInNormalForm(jd, q);
    RebuildNormal(jd, once);
    WithoutMembers(once.shouldTerms, once.mustTerms);
    var twice := once.(shouldTerms := Without(once.shouldTerms, once.mustTerms));
    RebuildNormal(jd, twice);
    WithoutFixed(twice.shouldTerms, twice.mustTerms);
  }

  /** The blank must-term case in which one application is not enough. */
  lemma {:induction false} OnceIsNotEnough()
    ensures var q := SearchQuery("go", [" "], ["go"], [], map[]);
      var once := BuildSearchStrategy("jd", q);
      once.Success? && BuildSearchStrategy("jd", once.value.query) != once
  {
  }

  // ---------------------------------------------------------------------------------------
  // Signature
  // ---------------------------------------------------------------------------------------

  datatype Signature = Signature(
    keyword: string, mustTerms: seq<string>, shouldTerms: seq<string>, excludeTerms: seq<string>, filters: Filters)

  function Folded(lower: string -> string, terms: seq<string>): (r: seq<string>)
    ensures |r| == |terms| && forall i :: 0 <= i < |terms| ==> r[i] == lower(Strip(terms[i]))
  {
    seq(|terms|, i requires 0 <= i < |terms| => lower(Strip(terms[i])))
  }

  /** `lower` is Python's `str.lower`; nothing below depends on which function it is. */
  function StrategySignature(lower: string -> string, q: SearchQuery): Signature {
    Signature(
      lower(Strip(q.keyword)),
      Sort(StringLeq, Folded(lower, q.mustTerms)),
      Sort(StringLeq, Folded(lower, q.shouldTerms)),
      Sort(StringLeq, Folded(lower, q.excludeTerms)),
      q.filters)
  }

  /** Two queries share a signature exactly when they agree up to case, outer white space and the
      order of terms, with the same multiplicities, and have the same filters. */
  lemma {:induction false} SignatureMeaning(lower: string -> string, a: SearchQuery, b: SearchQuery)
    ensures StrategySignature(lower, a) == StrategySignature(lower, b) <==>
      && lower(Strip(a.keyword)) == lower(Strip(b.keyword))
      && multiset(Folded(lower, a.mustTerms)) == multiset(Folded(lower, b.mustTerms))
      && multiset(Folded(lower, a.shouldTerms)) == multiset(Folded(lower, b.shouldTerms))
      && multiset(Folded(lower, a.excludeTerms)) == multiset(Folded(lower, b.excludeTerms))
      && a.filters == b.filters
  {
    SortedStringsCanonical(Folded(lower, a.mustTerms), Folded(lower, b.mustTerms));
    SortedStringsCanonical(Folded(lower, a.shouldTerms), Folded(lower, b.shouldTerms));
    SortedStringsCanonical(Folded(lower, a.excludeTerms), Folded(lower, b.excludeTerms));
  }

  /** Equal multisets of terms stay equal under folding. */
  lemma {:induction false} FoldedMultiset(lower: string -> string, a: seq<string>, b: seq<string>)
    requires multiset(a) == multiset(b)
    ensures multiset(Folded(lower, a)) == multiset(Folded(lower, b))
    decreases |a|, 1
  {
    if a == [] {
      NoneInside(b);
      assert forall t :: t in b ==> t in multiset(b);
    } else {
      assert a[0] in multiset(b);
      var i :| 0 <= i < |b| && b[i] == a[0];
      assert a == [] + [a[0]] + a[1..] && b == b[..i] + [a[0]] + b[i + 1..];
      FoldedMultisetStep(lower, a[0], a[1..], b[..i], b[i + 1..]);
    }
  }

  lemma {:induction false} FoldedMultisetStep(
      lower: string -> string, e: string, a: seq<string>, x: seq<string>, y: seq<string>)
    requires multiset([] + [e] + a) == multiset(x + [e] + y)
    ensures multiset(Folded(lower, [] + [e] + a)) == multiset(Folded(lower, x + [e] + y))
    decreases |a| + 1, 0
  {
    MultisetWithout([], e, a);
    MultisetWithout(x, e, y);
    assert [] + a == a;
    FoldedMultiset(lower, a, x + y);
    FoldedWithout(lower, [], e, a);
    FoldedWithout(lower, x, e, y);
  }

  lemma {:induction false} MultisetWithout(x: seq<string>, e: string, y: seq<string>)
    ensures multiset(x + y) == multiset(x + [e] + y) - multiset{e}
  {
  }

  lemma {:induction false} FoldedWithout(lower: string -> string, x: seq<string>, e: string, y: seq<string>)
    ensures multiset(Folded(lower, x + [e] + y)) == multiset(Folded(lower, x + y)) + multiset{lower(Strip(e))}
  {
    FoldedAppend(lower, x, [e]);
    FoldedAppend(lower, x + [e], y);
    FoldedAppend(lower, x, y);
    assert Folded(lower, [e]) == [lower(Strip(e))];
  }

  lemma {:induction false} FoldedAppend(lower: string -> string, a: seq<string>, b: seq<string>)
    ensures Folded(lower, a + b) == Folded(lower, a) + Folded(lower, b)
  {
  }

  // ---------------------------------------------------------------------------------------
  // Delta between two queries
  // ---------------------------------------------------------------------------------------

  datatype Change = Change(before: Option<FilterValue>, after: Option<FilterValue>)

  type Changes = map<FilterField, Change>

  datatype QueryDelta = QueryDelta(
    setKeyword: Option<string>,
    addedMust: seq<string>, removedMust: seq<string>,
    addedShould: seq<string>, removedShould: seq<string>,
    addedExclude: seq<string>, removedExclude: seq<string>,
    changedFilters: Changes, removedFilterKeys: seq<FilterField>)

  function Lookup(m: Filters, key: FilterField): Option<FilterValue> {
    if key in m then Some(m[key]) else None
  }

  method BuildQueryDelta(previous: SearchQuery, next: SearchQuery) returns (d: QueryDelta)
    ensures d == DeltaOf(previous, next)
  {
    hide Without;
    var changed: Changes := map[];
    var todo := previous.filters.Keys + next.filters.Keys;
    while todo != {}
      invariant todo <= previous.filters.Keys + next.filters.Keys
      invariant forall k :: k in changed <==> k !in todo && k in ChangedFilters(previous.filters, next.filters)
      invariant forall k :: k in changed ==> changed[k] == ChangedFilters(previous.filters, next.filters)[k]
      decreases todo
    {
      var key :| key in todo;
      todo := todo - {key};
      var before, after := Lookup(previous.filters, key), Lookup(next.filters, key);
      if before != after {
        changed := changed[key := Change(before, after)];
      }
    }
    assert changed == ChangedFilters(previous.filters, next.filters);
    d := QueryDelta(
      if next.keyword != previous.keyword then Some(next.keyword) else None,
      Without(next.mustTerms, previous.mustTerms), Without(previous.mustTerms, next.mustTerms),
      Without(next.shouldTerms, previous.shouldTerms), Without(previous.shouldTerms, next.shouldTerms),
      Without(next.excludeTerms, previous.excludeTerms), Without(previous.excludeTerms, next.excludeTerms),
      changed, RemovedKeys(previous.filters, next.filters, FILTER_FIELDS));
  }

  /** The fields set before and not after, in their order. */
  function RemovedKeys(before: Filters, after: Filters, fields: seq<FilterField>): seq<FilterField> {
    if fields == [] then []
    else
      (if fields[0] in before && fields[0] !in after then [fields[0]] else []) + RemovedKeys(before, after, fields[1..])
  }

  lemma {:induction false} EveryField(f: FilterField)
    ensures f in FILTER_FIELDS
  {
    match f
    case Page => assert FILTER_FIELDS[0] == f;
    case PageSize => assert FILTER_FIELDS[1] == f;
    case Location => assert FILTER_FIELDS[2] == f;
    case Degree => assert FILTER_FIELDS[3] == f;
    case SchoolType => assert FILTER_FIELDS[4] == f;
    case WorkExperienceRange => assert FILTER_FIELDS[5] == f;
    case Position => assert FILTER_FIELDS[6] == f;
    case WorkContent => assert FILTER_FIELDS[7] == f;
    case Company => assert FILTER_FIELDS[8] == f;
    case School => assert FILTER_FIELDS[9] == f;
  }

  /** The removed keys are exactly the fields that lose their value. */
  lemma {:induction false} RemovedExactly(before: Filters, after: Filters)
    ensures forall k :: k in RemovedKeys(before, after, FILTER_FIELDS) <==> k in before && k !in after
  {
    hide RemovedKeys;
    RemovedMembers(before, after, FILTER_FIELDS);
    forall k ensures k in FILTER_FIELDS { EveryField(k); }
  }

  /** The fields of two lists one after the other. */
  lemma {:induction false} RemovedInOrder(before: Filters, after: Filters, a: seq<FilterField>, b: seq<FilterField>)
    ensures RemovedKeys(before, after, a + b) == RemovedKeys(before, after, a) + RemovedKeys(before, after, b)
  {
    if a == [] {
      assert a + b == b;
    } else {
      var f, rest := a[0], a[1..];
      assert (a + b)[0] == f && (a + b)[1..] == rest + b;
      RemovedInOrder(before, after, rest, b);
      var own := if f in before && f !in after then [f] else [];
      assert RemovedKeys(before, after, a + b) == own + RemovedKeys(before, after, rest + b);
      assert RemovedKeys(before, after, a) == own + RemovedKeys(before, after, rest);
    }
  }

  lemma {:induction false} RemovedMembers(before: Filters, after: Filters, fields: seq<FilterField>)
    ensures forall k :: k in RemovedKeys(before, after, fields) <==> k in fields && k in before && k !in after
  {
    if fields != [] { RemovedMembers(before, after, fields[1..]); }
  }

  function ChangedFilters(before: Filters, after: Filters): Changes {
    map k | k in before.Keys + after.Keys && Lookup(before, k) != Lookup(after, k)
      :: Change(Lookup(before, k), Lookup(after, k))
  }

  function DeltaOf(previous: SearchQuery, next: SearchQuery): QueryDelta {
    QueryDelta(
      if next.keyword != previous.keyword then Some(next.keyword) else None,
      Without(next.mustTerms, previous.mustTerms), Without(previous.mustTerms, next.mustTerms),
      Without(next.shouldTerms, previous.shouldTerms), Without(previous.shouldTerms, next.shouldTerms),
      Without(next.excludeTerms, previous.excludeTerms), Without(previous.excludeTerms, next.excludeTerms),
      ChangedFilters(previous.filters, next.filters),
      RemovedKeys(previous.filters, next.filters, FILTER_FIELDS))
  }

  /** Reading a delta as an edit: what a reader of the round ledger takes it to mean. */
  function ApplyTerms(terms: seq<string>, added: seq<string>, removed: seq<string>): seq<string> {
    Without(terms, removed) + added
  }

  function ApplyDelta(d: QueryDelta, q: SearchQuery): SearchQuery {
    SearchQuery(
      d.setKeyword.GetOr(q.keyword),
      ApplyTerms(q.mustTerms, d.addedMust, d.removedMust),
      ApplyTerms(q.shouldTerms, d.addedShould, d.removedShould),
      ApplyTerms(q.excludeTerms, d.addedExclude, d.removedExclude),
      map k | k in q.filters.Keys + d.changedFilters.Keys && k !in d.removedFilterKeys
                && (k in d.changedFilters ==> d.changedFilters[k].after.Some?)
        :: if k in d.changedFilters then d.changedFilters[k].after.value else q.filters[k])
  }

  ghost predicate NoRepeats(terms: seq<string>) {
    forall t :: multiset(terms)[t] <= 1
  }

  lemma {:induction false} WithoutMultiset(terms: seq<string>, excluded: seq<string>)
    ensures forall t :: multiset(Without(terms, excluded))[t] == if t in excluded then 0 else multiset(terms)[t]
  {
    if terms != [] {
      WithoutMultiset(terms[1..], excluded);
      assert terms == [terms[0]] + terms[1..];
      assert multiset(terms) == multiset{terms[0]} + multiset(terms[1..]);
    }
  }

  lemma {:induction false} TermRoundTrip(previous: seq<string>, next: seq<string>)
    ensures var r := ApplyTerms(previous, Without(next, previous), Without(previous, next));
      && (forall t :: t in r <==> t in next)
      && (NoRepeats(previous) && NoRepeats(next) ==> multiset(r) == multiset(next))
  {
    var added, removed := Without(next, previous), Without(previous, next);
    WithoutMembers(next, previous);
    WithoutMembers(previous, next);
    WithoutMembers(previous, removed);
    var r := ApplyTerms(previous, added, removed);
    if NoRepeats(previous) && NoRepeats(next) {
      WithoutMultiset(next, previous);
      WithoutMultiset(previous, removed);
      forall t ensures multiset(r)[t] == multiset(next)[t] {
        assert multiset(r)[t] == multiset(Without(previous, removed))[t] + multiset(added)[t];
        assert t in previous <==> t in multiset(previous);
        assert t in next <==> t in multiset(next);
      }
    }
  }

  /** Applying the delta of two queries to the first yields the second: its keyword, its terms as
      sets (and with multiplicity when neither list repeats a term), and exactly its filters. */
  lemma {:induction false} DeltaRoundTrip(previous: SearchQuery, next: SearchQuery)
    ensures var r := ApplyDelta(DeltaOf(previous, next), previous);
      && r.keyword == next.keyword
      && r.filters == next.filters
      && (forall t :: t in r.mustTerms <==> t in next.mustTerms)
      && (forall t :: t in r.shouldTerms <==> t in next.shouldTerms)
      && (forall t :: t in r.excludeTerms <==> t in next.excludeTerms)
      && (NoRepeats(previous.mustTerms) && NoRepeats(next.mustTerms) ==>
            multiset(r.mustTerms) == multiset(next.mustTerms))
      && (NoRepeats(previous.shouldTerms) && NoRepeats(next.shouldTerms) ==>
            multiset(r.shouldTerms) == multiset(next.shouldTerms))
      && (NoRepeats(previous.excludeTerms) && NoRepeats(next.excludeTerms) ==>
            multiset(r.excludeTerms) == multiset(next.excludeTerms))
  {
    TermRoundTrip(previous.mustTerms, next.mustTerms);
    TermRoundTrip(previous.shouldTerms, next.shouldTerms);
    TermRoundTrip(previous.excludeTerms, next.excludeTerms);
    var d := DeltaOf(previous, next);
    var r := ApplyDelta(d, previous);
    RemovedExactly(previous.filters, next.filters);
    hide RemovedKeys;
    forall k ensures Lookup(r.filters, k) == Lookup(next.filters, k) {
      assert k in d.changedFilters <==> Lookup(previous.filters, k) != Lookup(next.filters, k);
    }
    forall k ensures k in r.filters <==> k in next.filters {
      assert Lookup(r.filters, k) == Lookup(next.filters, k);
    }
    forall k | k in r.filters ensures r.filters[k] == next.filters[k] {
      assert Lookup(r.filters, k) == Lookup(next.filters, k);
    }
  }

  /** What a delta holds: the new keyword if it changed, the terms each side has and the other lacks, and
      the value before and after of each filter that changed. */
  lemma {:induction false} DeltaContents(a: SearchQuery, b: SearchQuery)
    ensures var d := DeltaOf(a, b);
      && (if a.keyword == b.keyword then d.setKeyword == None else d.setKeyword == Some(b.keyword))
      && (forall t :: t in d.addedMust <==> t in b.mustTerms && t !in a.mustTerms)
      && (forall t :: t in d.removedMust <==> t in a.mustTerms && t !in b.mustTerms)
      && (forall t :: t in d.addedShould <==> t in b.shouldTerms && t !in a.shouldTerms)
      && (forall t :: t in d.removedShould <==> t in a.shouldTerms && t !in b.shouldTerms)
      && (forall t :: t in d.addedExclude <==> t in b.excludeTerms && t !in a.excludeTerms)
      && (forall t :: t in d.removedExclude <==> t in a.excludeTerms && t !in b.excludeTerms)
      && (forall k :: k !in d.changedFilters <==>
            (k in a.filters <==> k in b.filters) && (k in a.filters && k in b.filters ==> a.filters[k] == b.filters[k]))
      && (forall k :: k in d.changedFilters ==>
            && d.changedFilters[k].before == (if k in a.filters then Some(a.filters[k]) else None)
            && d.changedFilters[k].after == (if k in b.filters then Some(b.filters[k]) else None))
      && (forall k :: k in d.removedFilterKeys <==> k in a.filters && k !in b.filters)
  {
    WithoutMembers(b.mustTerms, a.mustTerms);
    WithoutMembers(a.mustTerms, b.mustTerms);
    WithoutMembers(b.shouldTerms, a.shouldTerms);
    WithoutMembers(a.shouldTerms, b.shouldTerms);
    WithoutMembers(b.excludeTerms, a.excludeTerms);
    WithoutMembers(a.excludeTerms, b.excludeTerms);
    RemovedExactly(a.filters, b.filters);
    hide RemovedKeys, Without;
  }

  function Reversed(c: Change): Change { Change(c.after, c.before) }

  /** Swapping the two queries swaps what was added with what was removed. */
  lemma {:induction false} DeltaSwap(a: SearchQuery, b: SearchQuery)
    ensures var d, e := DeltaOf(a, b), DeltaOf(b, a);
      && e.addedMust == d.removedMust && e.removedMust == d.addedMust
      && e.addedShould == d.removedShould && e.removedShould == d.addedShould
      && e.addedExclude == d.removedExclude && e.removedExclude == d.addedExclude
      && e.changedFilters == (map k | k in d.changedFilters :: Reversed(d.changedFilters[k]))
      && (d.setKeyword.None? <==> e.setKeyword.None?)
      && (forall k :: k in d.removedFilterKeys <==> k in d.changedFilters && d.changedFilters[k].after.None?)
  {
    RemovedExactly(a.filters, b.filters);
    hide RemovedKeys, Without;
    assert b.filters.Keys + a.filters.Keys == a.filters.Keys + b.filters.Keys;
  }

  const EMPTY_DELTA := QueryDelta(None, [], [], [], [], [], [], map[], [])

  /** A delta is empty exactly when keyword, filters and the three term sets are unchanged. */
  lemma {:induction false} EmptyDelta(a: SearchQuery, b: SearchQuery)
    ensures DeltaOf(a, b) == EMPTY_DELTA <==>
      && a.keyword == b.keyword && a.filters == b.filters
      && (forall t :: t in a.mustTerms <==> t in b.mustTerms)
      && (forall t :: t in a.shouldTerms <==> t in b.shouldTerms)
      && (forall t :: t in a.excludeTerms <==> t in b.excludeTerms)
  {
    var d := DeltaOf(a, b);
    WithoutMembers(a.mustTerms, b.mustTerms);
    WithoutMembers(b.mustTerms, a.mustTerms);
    WithoutMembers(a.shouldTerms, b.shouldTerms);
    WithoutMembers(b.shouldTerms, a.shouldTerms);
    WithoutMembers(a.excludeTerms, b.excludeTerms);
    WithoutMembers(b.excludeTerms, a.excludeTerms);
    NoneInside(d.addedMust);
    NoneInside(d.removedMust);
    NoneInside(d.addedShould);
    NoneInside(d.removedShould);
    NoneInside(d.addedExclude);
    NoneInside(d.removedExclude);
    RemovedExactly(a.filters, b.filters);
    hide RemovedKeys, Without;
    NoneInside(d.removedFilterKeys);
    if d == EMPTY_DELTA {
      DeltaRoundTrip(a, b);
      forall k ensures Lookup(a.filters, k) == Lookup(b.filters, k) {
        assert k !in d.changedFilters;
      }
      forall k ensures k in a.filters <==> k in b.filters {
        assert Lookup(a.filters, k) == Lookup(b.filters, k);
      }
      forall k | k in a.filters ensures a.filters[k] == b.filters[k] {
        assert Lookup(a.filters, k) == Lookup(b.filters, k);
      }
    }
  }

  lemma {:induction false} NoneInside<T(!new)>(s: seq<T>)
    ensures s == [] <==> forall t :: t !in s
  {
    if s != [] { assert s[0] in s; }
  }

  ghost predicate NoRepeatedTerms(q: SearchQuery) {
    NoRepeats(q.mustTerms) && NoRepeats(q.shouldTerms) && NoRepeats(q.excludeTerms)
  }

  lemma {:induction false} SameMembersNoRepeats(a: seq<string>, b: seq<string>)
    requires NoRepeats(a) && NoRepeats(b)
    requires forall t :: t in a <==> t in b
    ensures multiset(a) == multiset(b)
  {
    forall t ensures multiset(a)[t] == multiset(b)[t] {
      assert t in multiset(a) <==> t in a;
      assert t in multiset(b) <==> t in b;
    }
  }

  lemma {:induction false} FoldedLength(lower: string -> string, a: seq<string>, b: seq<string>)
    requires multiset(Folded(lower, a)) == multiset(Folded(lower, b))
    ensures |a| == |b|
  {
    assert |multiset(Folded(lower, a))| == |a| && |multiset(Folded(lower, b))| == |b|;
  }

  /** A list with the members of a list without repetition repeats none exactly when it is as long. */
  lemma {:induction false} SameLengthNoRepeats(a: seq<string>, b: seq<string>)
    requires NoRepeats(a) && |a| == |b|
    requires forall t :: t in a <==> t in b
    ensures NoRepeats(b)
  {
    var extra := multiset(b) - multiset(a);
    forall t ensures multiset(a)[t] <= multiset(b)[t] {
      assert t in multiset(a) <==> t in a;
      assert t in multiset(b) <==> t in b;
    }
    assert multiset(b) == multiset(a) + extra;
    assert |multiset(b)| == |multiset(a)| + |extra|;
    assert multiset(b) == multiset(a);
  }

  lemma {:induction false} FoldedIffNoRepeats(lower: string -> string, a: seq<string>, b: seq<string>)
    requires NoRepeats(a) && forall t :: t in a <==> t in b
    ensures multiset(Folded(lower, a)) == multiset(Folded(lower, b)) <==> NoRepeats(b)
  {
    if multiset(Folded(lower, a)) == multiset(Folded(lower, b)) {
      FoldedLength(lower, a, b);
      SameLengthNoRepeats(a, b);
    }
    if NoRepeats(b) {
      SameMembersNoRepeats(a, b);
      FoldedMultiset(lower, a, b);
    }
  }

  /** When the delta is empty and one query repeats no term, the signatures are equal exactly when
      the other repeats none either. */
  lemma {:induction false} EmptyDeltaSameSignature(lower: string -> string, a: SearchQuery, b: SearchQuery)
    requires NoRepeatedTerms(a) && DeltaOf(a, b) == EMPTY_DELTA
    ensures StrategySignature(lower, a) == StrategySignature(lower, b) <==> NoRepeatedTerms(b)
  {
    hide NoRepeats, Folded, DeltaOf, StrategySignature;
    EmptyDelta(a, b);
    SignatureMeaning(lower, a, b);
    FoldedIffNoRepeats(lower, a.mustTerms, b.mustTerms);
    FoldedIffNoRepeats(lower, a.shouldTerms, b.shouldTerms);
    FoldedIffNoRepeats(lower, a.excludeTerms, b.excludeTerms);
  }

  /** Each term of a list once, where it occurs first. */
  function Firsts(terms: seq<string>): seq<string> {
    if terms == [] then []
    else
      var before, last := terms[..|terms| - 1], terms[|terms| - 1];
      Firsts(before) + if last in before then [] else [last]
  }

  lemma {:induction false} FirstsMembers(terms: seq<string>)
    ensures forall t :: t in Firsts(terms) <==> t in terms
    ensures NoRepeats(Firsts(terms))
  {
    if terms != [] {
      var before, last := terms[..|terms| - 1], terms[|terms| - 1];
      FirstsMembers(before);
      assert terms == before + [last];
      assert Firsts(before) + [] == Firsts(before);
      assert multiset(Firsts(before) + [last]) == multiset(Firsts(before)) + multiset{last};
    }
  }

  /** Among queries that repeat no term, an empty delta against `a` implies the signature of `a`
      exactly when `a` repeats no term. */
  lemma {:induction false} RepetitionDecides(lower: string -> string, a: SearchQuery)
    ensures NoRepeatedTerms(a) <==>
      forall b :: NoRepeatedTerms(b) && DeltaOf(a, b) == EMPTY_DELTA ==>
        StrategySignature(lower, a) == StrategySignature(lower, b)
  {
    hide NoRepeats, DeltaOf, StrategySignature, Firsts;
    if NoRepeatedTerms(a) {
      forall b | NoRepeatedTerms(b) && DeltaOf(a, b) == EMPTY_DELTA
        ensures StrategySignature(lower, a) == StrategySignature(lower, b)
      {
        EmptyDeltaSameSignature(lower, a, b);
      }
    }
    var b := SearchQuery(a.keyword, Firsts(a.mustTerms), Firsts(a.shouldTerms), Firsts(a.excludeTerms), a.filters);
    FirstsMembers(a.mustTerms);
    FirstsMembers(a.shouldTerms);
    FirstsMembers(a.excludeTerms);
    EmptyDelta(a, b);
    EmptyDelta(b, a);
    assert NoRepeatedTerms(b) && DeltaOf(a, b) == EMPTY_DELTA;
    EmptyDeltaSameSignature(lower, b, a);
  }

  lemma {:induction false} DoubledTerms(lower: string -> string, terms: seq<string>)
    ensures forall t :: t in terms + terms <==> t in terms
    ensures multiset(Folded(lower, terms)) == multiset(Folded(lower, terms + terms)) ==> terms == []
  {
    if multiset(Folded(lower, terms)) == multiset(Folded(lower, terms + terms)) {
      FoldedLength(lower, terms, terms + terms);
    }
  }

  /** Among all queries, an empty delta against `a` implies the signature of `a` exactly when `a` has
      no term at all, which no strategy in normal form satisfies. */
  lemma {:induction false} OnlyTermlessDecide(lower: string -> string, a: SearchQuery)
    ensures a.mustTerms == [] && a.shouldTerms == [] && a.excludeTerms == [] <==>
      forall b :: DeltaOf(a, b) == EMPTY_DELTA ==> StrategySignature(lower, a) == StrategySignature(lower, b)
  {
    hide DeltaOf, StrategySignature, Folded;
    if a.mustTerms == [] && a.shouldTerms == [] && a.excludeTerms == [] {
      forall b | DeltaOf(a, b) == EMPTY_DELTA ensures StrategySignature(lower, a) == StrategySignature(lower, b) {
        EmptyDelta(a, b);
        NoneInside(b.mustTerms);
        NoneInside(b.shouldTerms);
        NoneInside(b.excludeTerms);
        assert a == b;
      }
    }
    var b := SearchQuery(a.keyword, a.mustTerms + a.mustTerms, a.shouldTerms + a.shouldTerms,
                         a.excludeTerms + a.excludeTerms, a.filters);
    DoubledTerms(lower, a.mustTerms);
    DoubledTerms(lower, a.shouldTerms);
    DoubledTerms(lower, a.excludeTerms);
    EmptyDelta(a, b);
    SignatureMeaning(lower, a, b);
    assert DeltaOf(a, b) == EMPTY_DELTA;
  }

  /** With a repeated term it may not: the delta cannot see the repetition, the signature can. */
  lemma {:induction false} RepeatedTermChangesSignature(lower: string -> string)
    ensures var a, b := SearchQuery("k", ["x"], [], [], map[]), SearchQuery("k", ["x", "x"], [], [], map[]);
      DeltaOf(a, b) == EMPTY_DELTA && StrategySignature(lower, a) != StrategySignature(lower, b)
  {
  }
}
