/**
 * Reranking of retrieved passages: every candidate is scored against the
 * query, the candidates are sorted by descending score with a stable sort
 * (equal scores keep their retrieval order, as Python's
 * `sorted(..., reverse=True)` does), and the first three are kept.
 */
module Ranking {
  import opened Prelude

  /** How many reranked passages are kept. */
  const TopK: nat := 3

  /** A candidate with its relevance score and its position in retrieval order. */
  datatype Scored = Scored(score: int, pos: nat, text: string)

  /** `a` goes before `b`: a higher score, or an equal score retrieved earlier. */
  predicate Before(a: Scored, b: Scored) {
    a.score > b.score || (a.score == b.score && a.pos < b.pos)
  }

  /** Descending by score, ties in ascending retrieval position. */
  predicate Ranked(s: seq<Scored>) {
    forall i, j :: 0 <= i < j < |s| ==> Before(s[i], s[j])
  }

  /** No two entries share a retrieval position. */
  predicate DistinctPositions(s: seq<Scored>) {
    forall i, j :: 0 <= i < j < |s| ==> s[i].pos != s[j].pos
  }

  /** Places `x` into a ranked sequence. */
  function Insert(x: Scored, s: seq<Scored>): (r: seq<Scored>)
    requires Ranked(s)
    requires forall k :: 0 <= k < |s| ==> s[k].pos != x.pos
    ensures Ranked(r)
    ensures multiset(r) == multiset(s) + multiset{x}
    ensures |r| == |s| + 1
  {
    if |s| == 0 then [x]
    else if Before(x, s[0]) then
      assert forall k :: 1 <= k < |s| ==> Before(s[0], s[k]);
      assert s == [s[0]] + s[1..];
      [x] + s
    else
      var tail := Insert(x, s[1..]);
      assert s == [s[0]] + s[1..];
      assert forall k :: 0 <= k < |s[1..]| ==> Before(s[0], s[1..][k]) by {
        forall k | 0 <= k < |s[1..]| ensures Before(s[0], s[1..][k]) {
          assert s[1..][k] == s[k + 1];
        }
      }
      HeadAhead(s[0], x, s[1..], tail);
      PrependRanked(s[0], tail);
      [s[0]] + tail
  }

  /**
   * An element ahead of `x` and of every entry of `rest` is ahead of every
   * entry of a sequence holding exactly those.
   */
  lemma HeadAhead(h: Scored, x: Scored, rest: seq<Scored>, t: seq<Scored>)
    requires Before(h, x) && forall k :: 0 <= k < |rest| ==> Before(h, rest[k])
    requires multiset(t) == multiset(rest) + multiset{x}
    ensures forall k :: 0 <= k < |t| ==> Before(h, t[k])
  {
    forall k | 0 <= k < |t| ensures Before(h, t[k]) {
      assert t[k] in multiset(t);
      if t[k] != x {
        var m := IndexOf(rest, t[k]);
      }
    }
  }

  /** Where an element of a sequence sits in it. */
  lemma IndexOf(s: seq<Scored>, y: Scored) returns (m: nat)
    requires y in multiset(s)
    ensures m < |s| && s[m] == y
  {
    m :| 0 <= m < |s| && s[m] == y;
  }

  /** An element ahead of every entry of a ranked sequence can lead it. */
  lemma PrependRanked(a: Scored, t: seq<Scored>)
    requires Ranked(t) && forall k :: 0 <= k < |t| ==> Before(a, t[k])
    ensures Ranked([a] + t)
  {
    forall i, j | 0 <= i < j < |[a] + t| ensures Before(([a] + t)[i], ([a] + t)[j]) {
      if i > 0 {
        assert ([a] + t)[i] == t[i - 1];
      }
      assert ([a] + t)[j] == t[j - 1];
    }
  }

  /** Stable descending sort by score. */
  function Sort(xs: seq<Scored>): (r: seq<Scored>)
    requires DistinctPositions(xs)
    ensures Ranked(r)
    ensures multiset(r) == multiset(xs)
    ensures |r| == |xs|
  {
    if |xs| == 0 then []
    else
      var rest := Sort(xs[1..]);
      assert xs == [xs[0]] + xs[1..];
      forall k | 0 <= k < |rest| ensures rest[k].pos != xs[0].pos {
        assert rest[k] in multiset(xs[1..]);
        var m :| 0 <= m < |xs[1..]| && xs[1..][m] == rest[k];
        assert xs[m + 1] == rest[k];
      }
      Insert(xs[0], rest)
  }

  /** The candidates tagged with their scores and retrieval positions. */
  function Tag(query: string, candidates: seq<string>, score: (string, string) -> int): (r: seq<Scored>)
    ensures |r| == |candidates|
    ensures forall i :: 0 <= i < |r| ==> r[i] == Scored(score(query, candidates[i]), i, candidates[i])
    ensures DistinctPositions(r)
  {
    seq(|candidates|, i requires 0 <= i < |candidates| => Scored(score(query, candidates[i]), i, candidates[i]))
  }

  /** Every element of a tagged sequence is the tag of the candidate at its position. */
  lemma TaggedMember(query: string, candidates: seq<string>, score: (string, string) -> int, x: Scored)
    requires x in multiset(Tag(query, candidates, score))
    ensures x.pos < |candidates| && x == Scored(score(query, candidates[x.pos]), x.pos, candidates[x.pos])
  {
    var t := Tag(query, candidates, score);
    var m :| 0 <= m < |t| && t[m] == x;
  }

  /**
   * All candidates in reranked order. The result is ordered by descending
   * score, equal scores keep retrieval order, and each entry is a candidate
   * carrying its own score and position.
   */
  function Rerank(query: string, candidates: seq<string>, score: (string, string) -> int): (r: seq<Scored>)
    ensures |r| == |candidates|
    ensures multiset(r) == multiset(Tag(query, candidates, score))
    ensures forall i :: 0 <= i < |r| ==>
              r[i].pos < |candidates| && r[i].text == candidates[r[i].pos]
              && r[i].score == score(query, candidates[r[i].pos])
    ensures forall i, j :: 0 <= i < j < |r| ==> r[i].score >= r[j].score
    ensures forall i, j :: 0 <= i < j < |r| && r[i].score == r[j].score ==> r[i].pos < r[j].pos
  {
    var r := Sort(Tag(query, candidates, score));
    forall i | 0 <= i < |r|
      ensures r[i].pos < |candidates| && r[i].text == candidates[r[i].pos]
      ensures r[i].score == score(query, candidates[r[i].pos])
    {
      assert r[i] in multiset(r);
      TaggedMember(query, candidates, score, r[i]);
    }
    r
  }

  /**
   * `ps` lists the best candidates first: scores never rise along it, equal
   * scores keep retrieval order, and every candidate left out scores no
   * higher than any listed one (and on a tie was retrieved later).
   */
  predicate BestFirst(query: string, candidates: seq<string>, score: (string, string) -> int, ps: seq<nat>)
    requires InRange(candidates, ps)
  {
    && (forall i, j :: 0 <= i < j < |ps| ==>
          score(query, candidates[ps[i]]) >= score(query, candidates[ps[j]])
          && (score(query, candidates[ps[i]]) == score(query, candidates[ps[j]]) ==> ps[i] < ps[j]))
    && (forall d, i :: 0 <= d < |candidates| && d !in ps && 0 <= i < |ps| ==>
          score(query, candidates[ps[i]]) >= score(query, candidates[d])
          && (score(query, candidates[ps[i]]) == score(query, candidates[d]) ==> ps[i] < d))
  }

  /** The retrieval positions of the first `TopK` reranked candidates. */
  function TopPositions(query: string, candidates: seq<string>, score: (string, string) -> int): (ps: seq<nat>)
    ensures |ps| == Min(TopK, |candidates|)
    ensures InRange(candidates, ps)
    ensures BestFirst(query, candidates, score, ps)
  {
    var r := Rerank(query, candidates, score);
    var n := Min(TopK, |r|);
    var ps := seq(n, i requires 0 <= i < n => r[i].pos);
    RerankPrefixBestFirst(query, candidates, score, ps);
    ps
  }

  /** The positions of a prefix of the reranked order list the best candidates first. */
  lemma RerankPrefixBestFirst(query: string, candidates: seq<string>, score: (string, string) -> int, ps: seq<nat>)
    requires |ps| == Min(TopK, |candidates|)
    requires forall i :: 0 <= i < |ps| ==> ps[i] == Rerank(query, candidates, score)[i].pos
    ensures InRange(candidates, ps)
    ensures BestFirst(query, candidates, score, ps)
  {
    var r := Rerank(query, candidates, score);
    forall d, i | 0 <= d < |candidates| && d !in ps && 0 <= i < |ps|
      ensures score(query, candidates[ps[i]]) >= score(query, candidates[d])
      ensures score(query, candidates[ps[i]]) == score(query, candidates[d]) ==> ps[i] < d
    {
      forall k | 0 <= k < |ps| ensures r[k].pos != d {
        assert ps[k] in ps;
      }
      KeptOutrankDropped(query, candidates, score, i, d);
    }
  }

  /** Positions that all name candidates. */
  predicate InRange(candidates: seq<string>, ps: seq<nat>) {
    forall i :: 0 <= i < |ps| ==> ps[i] < |candidates|
  }

  /**
   * Best-first lists of one length agree: the top candidates and their
   * order are determined by the scores alone.
   */
  lemma BestFirstUnique(query: string, candidates: seq<string>, score: (string, string) -> int,
                        ps: seq<nat>, qs: seq<nat>)
    requires InRange(candidates, ps) && InRange(candidates, qs) && |ps| == |qs|
    requires BestFirst(query, candidates, score, ps) && BestFirst(query, candidates, score, qs)
    ensures ps == qs
  {
    forall k | 0 <= k < |ps| ensures ps[k] == qs[k] {
      BestFirstAgreeUpTo(query, candidates, score, ps, qs, k);
    }
  }

  lemma {:induction false} BestFirstAgreeUpTo(query: string, candidates: seq<string>, score: (string, string) -> int,
                                              ps: seq<nat>, qs: seq<nat>, k: nat)
    requires InRange(candidates, ps) && InRange(candidates, qs) && |ps| == |qs| && k < |ps|
    requires BestFirst(query, candidates, score, ps) && BestFirst(query, candidates, score, qs)
    ensures forall i :: 0 <= i <= k ==> ps[i] == qs[i]
    decreases k
  {
    if k > 0 {
      BestFirstAgreeUpTo(query, candidates, score, ps, qs, k - 1);
    }
    if ps[k] != qs[k] {
      FirstDifference(query, candidates, score, ps, qs, k);
      FirstDifference(query, candidates, score, qs, ps, k);
    }
  }

  /**
   * Where two best-first lists first differ, the entry of the second one
   * outranks the entry of the first.
   */
  lemma FirstDifference(query: string, candidates: seq<string>, score: (string, string) -> int,
                        ps: seq<nat>, qs: seq<nat>, k: nat)
    requires InRange(candidates, ps) && InRange(candidates, qs) && |ps| == |qs| && k < |ps|
    requires BestFirst(query, candidates, score, ps) && BestFirst(query, candidates, score, qs)
    requires forall i :: 0 <= i < k ==> ps[i] == qs[i]
    requires ps[k] != qs[k]
    ensures score(query, candidates[qs[k]]) >= score(query, candidates[ps[k]])
    ensures score(query, candidates[qs[k]]) == score(query, candidates[ps[k]]) ==> qs[k] < ps[k]
  {
    var a := ps[k];
    if a in qs {
      var j :| 0 <= j < |qs| && qs[j] == a;
      if j < k {
        assert false;
      }
    }
  }

  /**
   * The texts of the first `TopK` reranked candidates: the candidates at
   * the best-first positions, in that order.
   */
  function TopPassages(query: string, candidates: seq<string>, score: (string, string) -> int): (r: seq<string>)
    ensures |r| == Min(TopK, |candidates|)
    ensures forall i :: 0 <= i < |r| ==> r[i] == candidates[TopPositions(query, candidates, score)[i]]
  {
    var ranked := Rerank(query, candidates, score);
    var n := Min(TopK, |ranked|);
    seq(n, i requires 0 <= i < n => ranked[i].text)
  }

  // ---------------------------------------------------------------------------
  // Properties
  // ---------------------------------------------------------------------------

  /**
   * A ranked arrangement of a multiset is unique: any stable descending sort
   * of the candidates yields exactly `Rerank`'s order.
   */
  lemma {:induction false} RankedUnique(a: seq<Scored>, b: seq<Scored>)
    requires Ranked(a) && Ranked(b)
    requires multiset(a) == multiset(b)
    ensures a == b
    decreases |a|
  {
    assert |a| == |multiset(a)| == |multiset(b)| == |b|;
    if |a| > 0 {
      var first := RankedHeadUnique(a, b);
      RankedTail(a);
      RankedTail(b);
      assert a == [first] + a[1..];
      assert b == [first] + b[1..];
      assert multiset(a) == multiset{first} + multiset(a[1..]);
      assert multiset(b) == multiset{first} + multiset(b[1..]);
      assert multiset(a[1..]) == multiset(a) - multiset{first};
      assert multiset(b[1..]) == multiset(b) - multiset{first};
      RankedUnique(a[1..], b[1..]);
    }
  }

  /** Two ranked arrangements of one multiset start with the same entry. */
  lemma RankedHeadUnique(a: seq<Scored>, b: seq<Scored>) returns (first: Scored)
    requires Ranked(a) && Ranked(b) && |a| > 0 && |b| > 0
    requires multiset(a) == multiset(b)
    ensures a[0] == first && b[0] == first
  {
    assert a[0] in multiset(b);
    assert b[0] in multiset(a);
    var ia :| 0 <= ia < |a| && a[ia] == b[0];
    var ib :| 0 <= ib < |b| && b[ib] == a[0];
    if ia != 0 && ib != 0 {
      assert false;
    }
    first := a[0];
  }

  lemma RankedTail(s: seq<Scored>)
    requires Ranked(s) && |s| > 0
    ensures Ranked(s[1..])
  {
    forall i, j | 0 <= i < j < |s| - 1 ensures Before(s[1..][i], s[1..][j]) {
      assert s[1..][i] == s[i + 1] && s[1..][j] == s[j + 1];
    }
  }

  /**
   * The kept passages are the best ones: a candidate that is not kept scores
   * no higher than any kept one, and on a tie it was retrieved later.
   */
  lemma KeptOutrankDropped(query: string, candidates: seq<string>, score: (string, string) -> int,
                           keptAt: nat, dropped: nat)
    requires keptAt < Min(TopK, |candidates|)
    requires dropped < |candidates|
    requires forall i :: 0 <= i < Min(TopK, |candidates|) ==> Rerank(query, candidates, score)[i].pos != dropped
    ensures var kept := Rerank(query, candidates, score)[keptAt];
            kept.score >= score(query, candidates[dropped])
            && (kept.score == score(query, candidates[dropped]) ==> kept.pos < dropped)
  {
    var r := Rerank(query, candidates, score);
    var t := Tag(query, candidates, score);
    assert t[dropped] in multiset(r);
    var j :| 0 <= j < |r| && r[j] == t[dropped];
    assert j >= Min(TopK, |candidates|);
  }
}
