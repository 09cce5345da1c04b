/** The shortlist of an agent run: each round's analysed candidates are folded into a bounded
    ranking.  The main results say that this streaming fold loses nothing against one batch
    ranking of everything analysed so far, and how the shortlist may evolve.
 */
module Shortlist {
  import opened Sorting

  /** A candidate as the search source returns it. */
  datatype Candidate = Candidate(
    externalId: string, name: string, title: string, company: string, location: string,
    summary: string, email: string, phone: string, projection: string)

  datatype Shortlisted = Shortlisted(
    candidateId: string, candidate: Candidate, score: real, reason: string, sourceRound: int)
  {
    function Id(): string { candidate.externalId }
  }

  /** The sort key `(-score, source round, external id)`. */
  predicate ByKey(a: Shortlisted, b: Shortlisted) {
    || a.score > b.score
    || (a.score == b.score
        && (a.sourceRound < b.sourceRound
            || (a.sourceRound == b.sourceRound && StringLeq(a.Id(), b.Id()))))
  }

  function Ids(s: seq<Shortlisted>): (r: seq<string>)
    ensures |r| == |s| && forall i :: 0 <= i < |s| ==> r[i] == s[i].Id()
  {
    seq(|s|, i requires 0 <= i < |s| => s[i].Id())
  }

  ghost predicate Distinct<T>(s: seq<T>) {
    forall i, j :: 0 <= i < j < |s| ==> s[i] != s[j]
  }

  /** The first `n` elements of `s` whose ids are new, given the ids in `seen`. */
  function Pick(s: seq<Shortlisted>, seen: set<string>, n: nat): seq<Shortlisted> {
    if s == [] || n == 0 then []
    else if s[0].Id() in seen then Pick(s[1..], seen, n)
    else [s[0]] + Pick(s[1..], seen + {s[0].Id()}, n - 1)
  }

  /** The size test comes after the append, so at least one candidate is kept. */
  function Limit(finalTopK: int): nat {
    if finalTopK < 1 then 1 else finalTopK
  }

  /** The batch ranking: the first `k` distinct ids of one stable sort. */
  function TopK(s: seq<Shortlisted>, finalTopK: int): seq<Shortlisted> {
    Pick(Sort(ByKey, s), {}, Limit(finalTopK))
  }

  method RankCandidates(retained: seq<Shortlisted>, analyzed: seq<Shortlisted>, finalTopK: int)
    returns (deduped: seq<Shortlisted>)
    ensures deduped == TopK(retained + analyzed, finalTopK)
  {
    var merged := retained + analyzed;
    merged := Sort(ByKey, merged);
    deduped := [];
    var seenIds: set<string> := {};
    var i := 0;
    while i < |merged|
      invariant 0 <= i <= |merged| && |deduped| < Limit(finalTopK)
      invariant deduped + Pick(merged[i..], seenIds, Limit(finalTopK) - |deduped|) == Pick(merged, {}, Limit(finalTopK))
    {
      var candidate := merged[i];
      i := i + 1;
      assert merged[i - 1..][1..] == merged[i..];
      if candidate.Id() in seenIds {
        continue;
      }
      seenIds := seenIds + {candidate.Id()};
      deduped := deduped + [candidate];
      if |deduped| >= finalTopK {
        break;
      }
    }
  }

  lemma {:induction false} KeyOrder()
    ensures TotalPreorder(ByKey)
    ensures forall a, b :: ByKey(a, b) ==> a.score >= b.score
  {
    StringOrder();
    forall a: Shortlisted, b: Shortlisted ensures ByKey(a, b) || ByKey(b, a) {
      StringTotal(a.Id(), b.Id());
    }
    forall a: Shortlisted, b: Shortlisted, c: Shortlisted | ByKey(a, b) && ByKey(b, c) ensures ByKey(a, c) {
      if StringLeq(a.Id(), b.Id()) && StringLeq(b.Id(), c.Id()) { StringTransitive(a.Id(), b.Id(), c.Id()); }
    }
  }

  // ---------------------------------------------------------------------------------------
  // Streaming equals batch
  // ---------------------------------------------------------------------------------------

  lemma {:induction false} PickFrom(s: seq<Shortlisted>, seen: set<string>, n: nat)
    ensures forall e :: e in Pick(s, seen, n) ==> e in s && e.Id() !in seen
    ensures |Pick(s, seen, n)| <= n
  {
    if s != [] && n != 0 {
      PickFrom(s[1..], seen, n);
      PickFrom(s[1..], seen + {s[0].Id()}, n - 1);
    }
  }

  lemma {:induction false} PickSorted(s: seq<Shortlisted>, seen: set<string>, n: nat)
    requires Sorted(ByKey, s)
    ensures Sorted(ByKey, Pick(s, seen, n))
  {
    if s != [] && n != 0 {
      SortedTail(ByKey, s);
      PickSorted(s[1..], seen, n);
      PickSorted(s[1..], seen + {s[0].Id()}, n - 1);
      PickFrom(s[1..], seen + {s[0].Id()}, n - 1);
      SortedCons(ByKey, s[0], Pick(s[1..], seen + {s[0].Id()}, n - 1));
    }
  }

  lemma {:induction false} PickHead(s: seq<Shortlisted>, seen: set<string>, n: nat)
    requires s != []
    ensures Pick(s, seen, n) ==
            if n == 0 then []
            else if s[0].Id() in seen then Pick(s[1..], seen, n)
            else [s[0]] + Pick(s[1..], seen + {s[0].Id()}, n - 1)
    ensures forall x, t :: s == [x] + t ==> s[0] == x && s[1..] == t
  {
  }

  lemma {:induction false} PickSameTail(
      x: Shortlisted, a: seq<Shortlisted>, b: seq<Shortlisted>, seen: set<string>, n: nat)
    requires n > 0 && x.Id() in seen ==> Pick(a, seen, n) == Pick(b, seen, n)
    requires n > 0 && x.Id() !in seen ==> Pick(a, seen + {x.Id()}, n - 1) == Pick(b, seen + {x.Id()}, n - 1)
    ensures Pick([x] + a, seen, n) == Pick([x] + b, seen, n)
  {
  }

  /** When the right head is strictly smaller, merging takes it, and still does so after the left
      list was cut down. */
  lemma {:induction false} RightHead(s: seq<Shortlisted>, ys: seq<Shortlisted>, seen: set<string>, n: nat)
    requires s != [] && ys != [] && Sorted(ByKey, s) && !ByKey(s[0], ys[0])
    ensures Merge(ByKey, s, ys) == [ys[0]] + Merge(ByKey, s, ys[1..])
    ensures var p := Pick(s, seen, n); Merge(ByKey, p, ys) == [ys[0]] + Merge(ByKey, p, ys[1..])
    ensures forall e :: e in s ==> ByKey(ys[0], e)
  {
    KeyOrder();
    SortedTail(ByKey, s);
    PickFrom(s, seen, n);
    var p := Pick(s, seen, n);
    if p == [] {
      assert ys == [ys[0]] + ys[1..];
    } else {
      assert p[0] in s;
    }
  }

  lemma {:induction false} LeftHead(s: seq<Shortlisted>, ys: seq<Shortlisted>)
    requires s != [] && (ys == [] || ByKey(s[0], ys[0]))
    ensures Merge(ByKey, s, ys) == [s[0]] + Merge(ByKey, s[1..], ys)
  {
  }

  /** Cutting `s` down to its own best `n` before merging changes nothing in the outcome, as long
      as the outer pick has no more room left than the inner one. */
  lemma {:induction false} PickAfterMerge(
      s: seq<Shortlisted>, ys: seq<Shortlisted>, seen: set<string>, n: nat, outerSeen: set<string>, m: nat)
    requires Sorted(ByKey, s)
    requires seen <= outerSeen && m + |outerSeen| <= n + |seen|
    ensures Pick(Merge(ByKey, Pick(s, seen, n), ys), outerSeen, m) == Pick(Merge(ByKey, s, ys), outerSeen, m)
    decreases |s| + |ys|, 1
  {
    SubsetCardinality(seen, outerSeen);
    if m == 0 {
    } else if s == [] {
      assert Pick(s, seen, n) == s;
    } else if ys != [] && !ByKey(s[0], ys[0]) {
      PickAfterMergeRight(s, ys, seen, n, outerSeen, m);
    } else {
      PickAfterMergeLeft(s, ys, seen, n, outerSeen, m);
    }
  }

  lemma {:induction false} PickAfterMergeRight(
      s: seq<Shortlisted>, ys: seq<Shortlisted>, seen: set<string>, n: nat, outerSeen: set<string>, m: nat)
    requires Sorted(ByKey, s)
    requires seen <= outerSeen && m + |outerSeen| <= n + |seen|
    requires m > 0 && s != [] && ys != [] && !ByKey(s[0], ys[0])
    ensures Pick(Merge(ByKey, Pick(s, seen, n), ys), outerSeen, m) == Pick(Merge(ByKey, s, ys), outerSeen, m)
    decreases |s| + |ys|, 0
  {
    hide Merge; hide Pick;
    RightHead(s, ys, seen, n);
    var p, y := Pick(s, seen, n), ys[0];
    var a, b := Merge(ByKey, p, ys[1..]), Merge(ByKey, s, ys[1..]);
    if y.Id() in outerSeen {
      PickAfterMerge(s, ys[1..], seen, n, outerSeen, m);
    } else {
      PickAfterMerge(s, ys[1..], seen, n, outerSeen + {y.Id()}, m - 1);
    }
    PickSameTail(y, a, b, outerSeen, m);
  }

  lemma {:induction false} PickAfterMergeLeft(
      s: seq<Shortlisted>, ys: seq<Shortlisted>, seen: set<string>, n: nat, outerSeen: set<string>, m: nat)
    requires Sorted(ByKey, s)
    requires seen <= outerSeen && m + |outerSeen| <= n + |seen|
    requires m > 0 && s != [] && (ys == [] || ByKey(s[0], ys[0]))
    ensures Pick(Merge(ByKey, Pick(s, seen, n), ys), outerSeen, m) == Pick(Merge(ByKey, s, ys), outerSeen, m)
    decreases |s| + |ys|, 0
  {
    hide Merge; hide Pick;
    SubsetCardinality(seen, outerSeen);
    SortedTail(ByKey, s);
    LeftHead(s, ys);
    var x, t := s[0], s[1..];

    PickHead(s, seen, n);
    if x.Id() in seen {
      PickAfterMerge(t, ys, seen, n, outerSeen, m);
      PickHead([x] + Merge(ByKey, t, ys), outerSeen, m);
    } else {
      var seen' := seen + {x.Id()};
      var rest := Pick(t, seen', n - 1);
      LeftHead([x] + rest, ys);
      assert ([x] + rest)[1..] == rest;
      if x.Id() in outerSeen {
        PickAfterMerge(t, ys, seen', n - 1, outerSeen, m);
      } else {
        PickAfterMerge(t, ys, seen', n - 1, outerSeen + {x.Id()}, m - 1);
      }
      PickSameTail(x, Merge(ByKey, rest, ys), Merge(ByKey, t, ys), outerSeen, m);
    }
  }

  lemma {:induction false} SubsetCardinality<T>(a: set<T>, b: set<T>)
    requires a <= b
    ensures |a| <= |b|
  {
    assert b == a + (b - a);
  }

  /** Ranking a batch on top of an already cut-down ranking equals ranking everything at once,
      for all lists, also when ids repeat across the batches. */
  lemma {:induction false} StreamingEqualsBatch(all: seq<Shortlisted>, batch: seq<Shortlisted>, k: int)
    ensures TopK(TopK(all, k) + batch, k) == TopK(all + batch, k)
  {
    KeyOrder();
    SortSorted(ByKey, all);
    var top := TopK(all, k);
    PickSorted(Sort(ByKey, all), {}, Limit(k));
    SortAppend(ByKey, top, batch);
    SortOfSorted(ByKey, top);
    SortAppend(ByKey, all, batch);
    PickAfterMerge(Sort(ByKey, all), Sort(ByKey, batch), {}, Limit(k), {}, Limit(k));
  }

  function Flatten<T>(batches: seq<seq<T>>): seq<T> {
    if batches == [] then [] else Flatten(batches[..|batches| - 1]) + batches[|batches| - 1]
  }

  /** The shortlist held after the rounds in `batches`, folded round by round from empty. */
  function Streamed(batches: seq<seq<Shortlisted>>, k: int): seq<Shortlisted> {
    if batches == [] then []
    else TopK(Streamed(batches[..|batches| - 1], k) + batches[|batches| - 1], k)
  }

  /** After every round the shortlist is the batch ranking of everything analysed so far. */
  lemma {:induction false} StreamedIsBatch(batches: seq<seq<Shortlisted>>, k: int)
    ensures Streamed(batches, k) == TopK(Flatten(batches), k)
  {
    if batches != [] {
      var n := |batches| - 1;
      StreamedIsBatch(batches[..n], k);
      StreamingEqualsBatch(Flatten(batches[..n]), batches[n], k);
    }
  }

  // ---------------------------------------------------------------------------------------
  // What a ranking means, without mentioning how it is computed
  // ---------------------------------------------------------------------------------------

  /** `r` answers for the input `x`: with an entry of the same id at least as good, or by being
      full of entries that rank no later than `x`. */
  ghost predicate Answers(r: seq<Shortlisted>, x: Shortlisted, n: nat) {
    if x.Id() in Ids(r) then exists y :: y in r && y.Id() == x.Id() && ByKey(y, x)
    else |r| == n && forall y :: y in r ==> ByKey(y, x)
  }

  lemma {:induction false} AnswersCons(z: Shortlisted, q: seq<Shortlisted>, x: Shortlisted, n: nat)
    requires ByKey(z, x) && (x.Id() == z.Id() || Answers(q, x, n))
    ensures Answers([z] + q, x, n + 1)
  {
    var r := [z] + q;
    assert r[0] == z && forall y :: y in r <==> y == z || y in q;
    assert forall i :: 0 <= i < |q| ==> Ids(r)[i + 1] == Ids(q)[i];
    assert Ids(r)[0] == z.Id();
    if x.Id() in Ids(q) {
      var i :| 0 <= i < |q| && Ids(q)[i] == x.Id();
      assert Ids(r)[i + 1] == x.Id();
    }
  }

  lemma {:induction false} PickMeaning(s: seq<Shortlisted>, seen: set<string>, n: nat)
    requires Sorted(ByKey, s)
    ensures Distinct(Ids(Pick(s, seen, n)))
    ensures forall x :: x in s && x.Id() !in seen ==> Answers(Pick(s, seen, n), x, n)
  {
    if s != [] && n != 0 {
      SortedTail(ByKey, s);
      KeyReflexive(s[0]);
      if s[0].Id() in seen {
        PickMeaning(s[1..], seen, n);
      } else {
        var seen' := seen + {s[0].Id()};
        var q := Pick(s[1..], seen', n - 1);
        PickMeaning(s[1..], seen', n - 1);
        PickFrom(s[1..], seen', n - 1);
        DistinctCons(s[0], q);
        forall x | x in s && x.Id() !in seen ensures Answers([s[0]] + q, x, n) {
          assert x == s[0] || x in s[1..];
          AnswersCons(s[0], q, x, n - 1);
        }
      }
    } else {
      assert Ids([]) == [];
    }
  }

  lemma {:induction false} DistinctCons(x: Shortlisted, q: seq<Shortlisted>)
    requires Distinct(Ids(q)) && forall y :: y in q ==> y.Id() != x.Id()
    ensures Distinct(Ids([x] + q))
  {
  }

  /** A ranking holds distinct ids taken from the input, in key order.  An input with a kept id is
      represented by an entry at least as good; an input whose id was left out ranks behind every
      entry, and something was left out only because the ranking is full. */
  lemma {:induction false} TopKMeaning(s: seq<Shortlisted>, k: int)
    ensures var r := TopK(s, k);
      && Sorted(ByKey, r) && Distinct(Ids(r)) && |r| <= Limit(k)
      && (forall i, j :: 0 <= i < j < |r| ==>
            || r[i].score > r[j].score
            || (r[i].score == r[j].score && r[i].sourceRound < r[j].sourceRound)
            || (r[i].score == r[j].score && r[i].sourceRound == r[j].sourceRound
                && StringLeq(r[i].candidate.externalId, r[j].candidate.externalId)))
      && (forall y :: y in r ==> y in s)
      && forall x :: x in s ==> Answers(r, x, Limit(k))
  {
    KeyOrder();
    SortSorted(ByKey, s);
    SortElements(ByKey, s);
    PickSorted(Sort(ByKey, s), {}, Limit(k));
    PickFrom(Sort(ByKey, s), {}, Limit(k));
    PickMeaning(Sort(ByKey, s), {}, Limit(k));
  }

  /** The ranking respects its limit on every input exactly when the limit is at least one: the size
      is tested only after the append. */
  lemma {:induction false} LimitRespected(k: int)
    ensures (forall s :: |TopK(s, k)| <= k) <==> k >= 1
  {
    if k >= 1 {
      forall s ensures |TopK(s, k)| <= k { TopKMeaning(s, k); }
    } else {
      var s := [Shortlisted("", Candidate("", "", "", "", "", "", "", "", ""), 0.0, "", 1)];
      assert Sort(ByKey, s) == s && |s| == 1;
      assert Pick(s, {}, 1) == [s[0]] + Pick(s[1..], {s[0].Id()}, 0);
      assert |TopK(s, k)| == 1;
    }
  }

  // ---------------------------------------------------------------------------------------
  // How the shortlist evolves
  // ---------------------------------------------------------------------------------------

  /** `p` is rank by rank at least as good as `q` without its first `d` entries. */
  ghost predicate Improves(p: seq<Shortlisted>, q: seq<Shortlisted>, d: nat) {
    && |q| <= |p| + d
    && forall i :: 0 <= i < |q| - d ==> ByKey(p[i], q[i + d])
  }

  lemma {:induction false} ImprovesCons(x: Shortlisted, p: seq<Shortlisted>, q: seq<Shortlisted>, d: nat)
    requires Improves(p, q, d + 1)
    requires d < |q| ==> ByKey(x, q[d])
    ensures Improves([x] + p, q, d)
  {
  }

  lemma {:induction false} ImprovesSkip(p: seq<Shortlisted>, x: Shortlisted, q: seq<Shortlisted>, d: nat)
    requires Improves(p, q, d)
    ensures Improves(p, [x] + q, d + 1)
  {
  }

  /** Rank by rank a merged pick is at least as good as the pick it started from; the ids in
      `outerSeen - seen` were already emitted from the right list. */
  lemma {:induction false} PickImproves(
      s: seq<Shortlisted>, ys: seq<Shortlisted>, seen: set<string>, n: nat, outerSeen: set<string>, m: nat)
    requires Sorted(ByKey, s)
    requires seen <= outerSeen && |seen| <= |outerSeen| && m + |outerSeen| == n + |seen|
    ensures Improves(Pick(Merge(ByKey, s, ys), outerSeen, m), Pick(s, seen, n), |outerSeen| - |seen|)
    decreases |s| + |ys|, 2
  {
    if m == 0 || s == [] {
      PickFrom(s, seen, n);
      assert |Pick(s, seen, n)| <= |outerSeen| - |seen|;
    } else if ys != [] && !ByKey(s[0], ys[0]) {
      PickImprovesRight(s, ys, seen, n, outerSeen, m);
    } else {
      PickImprovesLeft(s, ys, seen, n, outerSeen, m);
    }
  }

  lemma {:induction false} PickImprovesRight(
      s: seq<Shortlisted>, ys: seq<Shortlisted>, seen: set<string>, n: nat, outerSeen: set<string>, m: nat)
    requires Sorted(ByKey, s)
    requires seen <= outerSeen && |seen| <= |outerSeen| && m + |outerSeen| == n + |seen|
    requires m > 0 && s != [] && ys != [] && !ByKey(s[0], ys[0])
    ensures Improves(Pick(Merge(ByKey, s, ys), outerSeen, m), Pick(s, seen, n), |outerSeen| - |seen|)
    decreases |s| + |ys|, 0
  {
    hide Merge; hide Pick;
    var q, y := Pick(s, seen, n), ys[0];
    var d := |outerSeen| - |seen|;
    PickFrom(s, seen, n);
    RightHead(s, ys, seen, n);
    var a := Merge(ByKey, s, ys[1..]);
    PickHead([y] + a, outerSeen, m);
    if y.Id() in outerSeen {
      PickImproves(s, ys[1..], seen, n, outerSeen, m);
    } else {
      PickImproves(s, ys[1..], seen, n, outerSeen + {y.Id()}, m - 1);
      assert d < |q| ==> q[d] in s;
      ImprovesCons(y, Pick(a, outerSeen + {y.Id()}, m - 1), q, d);
    }
  }

  lemma {:induction false} PickImprovesLeft(
      s: seq<Shortlisted>, ys: seq<Shortlisted>, seen: set<string>, n: nat, outerSeen: set<string>, m: nat)
    requires Sorted(ByKey, s)
    requires seen <= outerSeen && |seen| <= |outerSeen| && m + |outerSeen| == n + |seen|
    requires m > 0 && s != [] && (ys == [] || ByKey(s[0], ys[0]))
    ensures Improves(Pick(Merge(ByKey, s, ys), outerSeen, m), Pick(s, seen, n), |outerSeen| - |seen|)
    decreases |s| + |ys|, 1
  {
    hide Merge; hide Pick;
    var q, x, t := Pick(s, seen, n), s[0], s[1..];
    var d := |outerSeen| - |seen|;
    SortedTail(ByKey, s);
    LeftHead(s, ys);
    PickFrom(s, seen, n);
    assert d < |q| ==> q[d] in s;
    KeyReflexive(x);
    PickHead(s, seen, n);
    PickHead([x] + Merge(ByKey, t, ys), outerSeen, m);
    if x.Id() in seen {
      PickImproves(t, ys, seen, n, outerSeen, m);
    } else {
      PickImprovesKept(s, ys, seen, n, outerSeen, m);
    }
  }

  /** The left head is kept on its own, and in the merge unless its id was already emitted. */
  lemma {:induction false} PickImprovesKept(
      s: seq<Shortlisted>, ys: seq<Shortlisted>, seen: set<string>, n: nat, outerSeen: set<string>, m: nat)
    requires Sorted(ByKey, s)
    requires seen <= outerSeen && |seen| <= |outerSeen| && m + |outerSeen| == n + |seen|
    requires m > 0 && s != [] && (ys == [] || ByKey(s[0], ys[0])) && s[0].Id() !in seen
    ensures Improves(Pick(Merge(ByKey, s, ys), outerSeen, m), Pick(s, seen, n), |outerSeen| - |seen|)
    decreases |s| + |ys|, 0
  {
    hide Merge; hide Pick;
    var q, x, t := Pick(s, seen, n), s[0], s[1..];
    var d := |outerSeen| - |seen|;
    SortedTail(ByKey, s);
    LeftHead(s, ys);
    PickFrom(s, seen, n);
    assert d < |q| ==> q[d] in s;
    KeyReflexive(x);
    PickHead(s, seen, n);
    PickHead([x] + Merge(ByKey, t, ys), outerSeen, m);
    hide Sorted;
    var seen' := seen + {x.Id()};
    var q' := Pick(t, seen', n - 1);
    if x.Id() in outerSeen {
      SubsetCardinality(seen', outerSeen);
      PickImproves(t, ys, seen', n - 1, outerSeen, m);
      ImprovesSkip(Pick(Merge(ByKey, t, ys), outerSeen, m), x, q', d - 1);
    } else {
      var outer' := outerSeen + {x.Id()};
      var p' := Pick(Merge(ByKey, t, ys), outer', m - 1);
      PickImproves(t, ys, seen', n - 1, outer', m - 1);
      ImprovesSkip(p', x, q', d);
      ImprovesCons(x, p', q, d);
    }
  }

  lemma {:induction false} KeyReflexive(x: Shortlisted)
    ensures ByKey(x, x)
  {
    StringTotal(x.Id(), x.Id());
  }

  /** A further round never shortens the shortlist and never lowers the score held at a rank. */
  lemma {:induction false} ShortlistImproves(all: seq<Shortlisted>, batch: seq<Shortlisted>, k: int)
    ensures |TopK(all, k)| <= |TopK(all + batch, k)|
    ensures forall i :: 0 <= i < |TopK(all, k)| ==> TopK(all + batch, k)[i].score >= TopK(all, k)[i].score
  {
    KeyOrder();
    SortSorted(ByKey, all);
    SortAppend(ByKey, all, batch);
    PickImproves(Sort(ByKey, all), Sort(ByKey, batch), {}, Limit(k), {}, Limit(k));
    assert Improves(TopK(all + batch, k), TopK(all, k), 0);
    forall i | 0 <= i < |TopK(all, k)| ensures TopK(all + batch, k)[i].score >= TopK(all, k)[i].score {
      assert ByKey(TopK(all + batch, k)[i], TopK(all, k)[i + 0]);
    }
  }

  lemma {:induction false} FlattenPrefix<T>(batches: seq<seq<T>>, i: nat)
    requires i <= |batches|
    ensures Flatten(batches[..i]) <= Flatten(batches)
  {
    if i < |batches| {
      var n := |batches| - 1;
      FlattenPrefix(batches[..n], i);
      assert batches[..n][..i] == batches[..i];
    } else {
      assert batches[..i] == batches;
    }
  }

  lemma {:induction false} IdMember(s: seq<Shortlisted>, id: string)
    ensures id in Ids(s) <==> exists y :: y in s && y.Id() == id
  {
  }

  lemma {:induction false} DistinctAppend(a: seq<Shortlisted>, b: seq<Shortlisted>)
    requires Distinct(Ids(a + b))
    ensures Distinct(Ids(a)) && Distinct(Ids(b))
    ensures forall id :: id in Ids(a) ==> id !in Ids(b)
  {
    assert forall i :: 0 <= i < |a| ==> Ids(a + b)[i] == Ids(a)[i];
    assert forall i :: 0 <= i < |b| ==> Ids(a + b)[|a| + i] == Ids(b)[i];
    forall i, j | 0 <= i < j < |b| ensures Ids(b)[i] != Ids(b)[j] {
      assert Ids(a + b)[|a| + i] != Ids(a + b)[|a| + j];
    }
    forall i, j | 0 <= i < |a| && 0 <= j < |b| ensures Ids(a)[i] != Ids(b)[j] {
      assert Ids(a + b)[i] != Ids(a + b)[|a| + j];
    }
  }

  lemma {:induction false} NoNewcomers(before: seq<Shortlisted>, batch: seq<Shortlisted>, k: int, id: string)
    requires id !in Ids(before) && id !in Ids(batch)
    ensures id !in Ids(TopK(before + batch, k))
  {
    IdMember(before, id);
    IdMember(batch, id);
    TopKMeaning(before + batch, k);
    IdMember(TopK(before + batch, k), id);
  }

  /** When no id is analysed twice, a candidate missing from the shortlist after `i` rounds,
      although analysed by then, is missing from the shortlist of every later round. */
  lemma {:induction false} DroppedNeverReturns(batches: seq<seq<Shortlisted>>, k: int, i: nat, id: string)
    requires i <= |batches| && Distinct(Ids(Flatten(batches)))
    requires id in Ids(Flatten(batches[..i])) && id !in Ids(Streamed(batches[..i], k))
    ensures id !in Ids(Streamed(batches, k))
  {
    if i < |batches| {
      var n := |batches| - 1;
      var before, last := batches[..n], batches[n];
      assert before[..i] == batches[..i];
      DistinctAppend(Flatten(before), last);
      DroppedNeverReturns(before, k, i, id);
      FlattenPrefix(before, i);
      IdMember(Flatten(before[..i]), id);
      IdMember(Flatten(before), id);
      NoNewcomers(Streamed(before, k), last, k, id);
    } else {
      assert batches[..i] == batches;
    }
  }
}
