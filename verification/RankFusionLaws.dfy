/** What the fused ranking promises. */
module RankFusionLaws {
  import opened Options
  import opened Texts
  import opened RankFusion

  // ---------------------------------------------------------------- the formula on clean rankings

  /** No chunk occurs twice. */
  ghost predicate NoRepeat(sources: seq<Chunk>) {
    forall i, j | 0 <= i < j < |sources| :: KeyOf(sources[i]) != KeyOf(sources[j])
  }

  lemma {:induction false} DenseAbsent(dense: seq<Chunk>, n: nat, key: string, q: Query)
    requires n <= |dense| && !Ranked(dense, n, key)
    ensures DenseScore(dense, n, key, q) == 0.0
  {
    hide KeyOf, Reciprocal, HitBoost;
    if n > 0 {
      DenseAbsent(dense, n - 1, key, q);
    }
  }

  lemma {:induction false} SparseAbsent(sparse: seq<Chunk>, n: nat, key: string, q: Query)
    requires n <= |sparse| && !Ranked(sparse, n, key)
    ensures SparseScore(sparse, n, key, q) == 0.0
  {
    hide KeyOf, Reciprocal, HitBoost;
    if n > 0 {
      SparseAbsent(sparse, n - 1, key, q);
    }
  }

  /** One reciprocal rank per list, as in the documented formula. */
  lemma {:induction false} DenseAt(dense: seq<Chunk>, n: nat, i: nat, q: Query)
    requires NoRepeat(dense) && i < n <= |dense|
    ensures DenseScore(dense, n, KeyOf(dense[i]), q) == q.wDense / (q.k + i + 1) as real
  {
    hide KeyOf;
    if i == n - 1 {
      DenseAbsent(dense, n - 1, KeyOf(dense[i]), q);
    } else {
      DenseAt(dense, n - 1, i, q);
    }
  }

  lemma {:induction false} SparseAt(sparse: seq<Chunk>, n: nat, i: nat, q: Query)
    requires NoRepeat(sparse) && i < n <= |sparse|
    ensures SparseScore(sparse, n, KeyOf(sparse[i]), q)
         == q.wSparse / (q.k + i + 1) as real + HitBoost(sparse[i].content, q.keywords)
  {
    hide KeyOf, HitBoost;
    if i == n - 1 {
      SparseAbsent(sparse, n - 1, KeyOf(sparse[i]), q);
    } else {
      SparseAt(sparse, n - 1, i, q);
    }
  }

  /** The documented formula, for a chunk at ranks `i` and `j` of clean rankings. */
  lemma FormulaAt(dense: seq<Chunk>, sparse: seq<Chunk>, i: nat, j: nat, q: Query)
    requires NoRepeat(dense) && NoRepeat(sparse) && i < |dense| && j < |sparse|
    requires KeyOf(dense[i]) == KeyOf(sparse[j])
    ensures Formula(dense, sparse, KeyOf(dense[i]), q)
         == q.wDense / (q.k + i + 1) as real + q.wSparse / (q.k + j + 1) as real
            + HitBoost(sparse[j].content, q.keywords) + GraphBoost(dense[i].content, q.relations)
  {
    hide KeyOf, HitBoost, GraphBoost, DenseScore, SparseScore, LastOf, FirstOf;
    DenseAt(dense, |dense|, i, q);
    SparseAt(sparse, |sparse|, j, q);
    LastIs(dense, |dense|, i);
  }

  /** With repetitions, a key is shown by its last dense chunk, or else by its first sparse one. */
  lemma {:induction false} LastIs(sources: seq<Chunk>, n: nat, i: nat)
    requires i < n <= |sources|
    requires forall x | i < x < n :: KeyOf(sources[x]) != KeyOf(sources[i])
    ensures LastOf(sources, n, KeyOf(sources[i])) == Some(sources[i])
  {
    hide KeyOf;
    if i < n - 1 {
      LastIs(sources, n - 1, i);
    }
  }

  lemma {:induction false} FirstIs(sources: seq<Chunk>, n: nat, i: nat)
    requires i < n <= |sources|
    requires forall x | 0 <= x < i :: KeyOf(sources[x]) != KeyOf(sources[i])
    ensures FirstOf(sources, n, KeyOf(sources[i])) == Some(sources[i])
  {
    hide KeyOf;
    if i < n - 1 {
      FirstIs(sources, n - 1, i);
    } else {
      NoneBefore(sources, i, KeyOf(sources[i]));
    }
  }

  lemma {:induction false} NoneBefore(sources: seq<Chunk>, n: nat, key: string)
    requires n <= |sources| && forall x | 0 <= x < n :: KeyOf(sources[x]) != key
    ensures FirstOf(sources, n, key) == None && LastOf(sources, n, key) == None
  {
    hide KeyOf;
    if n > 0 {
      NoneBefore(sources, n - 1, key);
    }
  }

  lemma RepresentativeIs(dense: seq<Chunk>, sparse: seq<Chunk>, i: nat)
    ensures i < |dense| && (forall x | i < x < |dense| :: KeyOf(dense[x]) != KeyOf(dense[i])) ==>
              Representative(dense, sparse, |sparse|, KeyOf(dense[i])) == Some(dense[i])
    ensures i < |sparse| && (forall x | 0 <= x < |dense| :: KeyOf(dense[x]) != KeyOf(sparse[i]))
            && (forall x | 0 <= x < i :: KeyOf(sparse[x]) != KeyOf(sparse[i])) ==>
              Representative(dense, sparse, |sparse|, KeyOf(sparse[i])) == Some(sparse[i])
  {
    hide KeyOf, LastOf, FirstOf;
    if i < |dense| && forall x | i < x < |dense| :: KeyOf(dense[x]) != KeyOf(dense[i]) {
      LastIs(dense, |dense|, i);
    }
    if i < |sparse| && (forall x | 0 <= x < |dense| :: KeyOf(dense[x]) != KeyOf(sparse[i]))
       && forall x | 0 <= x < i :: KeyOf(sparse[x]) != KeyOf(sparse[i]) {
      NoneBefore(dense, |dense|, KeyOf(sparse[i]));
      FirstIs(sparse, |sparse|, i);
    }
  }

  // ---------------------------------------------------------------- the boosts

  ghost predicate Occurs(part: string, content: string) {
    exists i: nat :: OccursAt(content, part, i)
  }

  lemma ContainsIs(content: string, part: string)
    ensures Contains(content, part) <==> Occurs(part, content)
  {
    if part == "" {
      assert OccursAt(content, part, 0);
    }
  }

  /** Each keyword earns a tenth of its squared length if it occurs, whatever the others and their order. */
  lemma {:induction false} HitBoostLaw(content: string, a: seq<string>, keyword: string, b: seq<string>)
    ensures HitBoost(content, a + [keyword] + b)
         == HitBoost(content, a + b) + if Occurs(keyword, content) then 0.1 * (|keyword| * |keyword|) as real else 0.0
    ensures HitBoost(content, []) == 0.0
    decreases |b|
  {
    hide Contains;
    if b == [] {
      ContainsIs(content, keyword);
      assert (a + [keyword] + b)[..|a|] == a && a + b == a;
    } else {
      var init, last := b[..|b| - 1], b[|b| - 1];
      HitBoostLaw(content, a, keyword, init);
      assert (a + [keyword] + b)[..|a| + |b|] == a + [keyword] + init;
      assert (a + b)[..|a| + |b| - 1] == a + init;
    }
  }

  /** Each relation earns three hundredths if the entity before its first arrow occurs (or the whole relation,
      when it has no arrow), whatever the others and their order. */
  lemma {:induction false} GraphBoostLaw(content: string, a: seq<string>, relation: string, b: seq<string>)
    ensures GraphBoost(content, a + [relation] + b)
         == GraphBoost(content, a + b) + if Occurs(SourceOf(relation), content) then 0.03 else 0.0
    ensures GraphBoost(content, []) == 0.0
    decreases |b|
  {
    hide Contains, Split;
    if b == [] {
      ContainsIs(content, SourceOf(relation));
      assert (a + [relation] + b)[..|a|] == a && a + b == a;
    } else {
      var init, last := b[..|b| - 1], b[|b| - 1];
      GraphBoostLaw(content, a, relation, init);
      assert (a + [relation] + b)[..|a| + |b|] == a + [relation] + init;
      assert (a + b)[..|a| + |b| - 1] == a + init;
    }
  }

  function SourceOf(relation: string): string {
    Split(relation, ARROW)[0]
  }

  lemma SourceIs(entity: string, rest: string)
    ensures Find(entity + " --[", " --[") == Some(|entity|) ==> SourceOf(entity + " --[" + rest) == entity
    ensures Find(entity, " --[").None? ==> SourceOf(entity) == entity
  {
    hide Find;
    if Find(entity + " --[", " --[") == Some(|entity|) {
      FindIgnoresWhatFollows(entity + " --[", rest, " --[");
      assert (entity + " --[" + rest)[..|entity|] == entity;
    }
  }

  /** What the user is shown: two fifths of the chunk's own score and a tenth of the fused one (at most 0.55),
      between 0.40 and 0.99; everything else is the chunk's. */
  lemma ShownLaw(c: Chunk, raw: real)
    ensures var x, mixed := Shown(c, raw), 0.4 * c.score + (if raw < 5.5 then 0.1 * raw else 0.55);
            && x.doc == c.doc && x.index == c.index && x.content == c.content
            && 0.40 <= x.score <= 0.99
            && (0.40 <= mixed <= 0.99 ==> x.score == mixed)
            && (mixed < 0.40 ==> x.score == 0.40) && (mixed > 0.99 ==> x.score == 0.99)
  {
  }

  /** For one and the same score of its own, a chunk that is ranked higher is never shown as worse. */
  lemma ShownGrows(c: Chunk, low: real, high: real)
    requires low <= high
    ensures Shown(c, low).score <= Shown(c, high).score
  {
  }

  // ---------------------------------------------------------------- the output

  /** The number of different chunks in the two rankings. */
  function Candidates(dense: seq<Chunk>, sparse: seq<Chunk>): nat {
    |KeyOrder(dense, sparse)|
  }

  /** The output is the best min(top_k, n) chunks of either ranking, each once, best first; whatever is left
      out scores no more than anything that is in. */
  lemma OutputLaw(dense: seq<Chunk>, sparse: seq<Chunk>, q: Query, topK: nat)
    ensures var chosen := Chosen(dense, sparse, q, topK);
            && |chosen| == (if topK < Candidates(dense, sparse) then topK else Candidates(dense, sparse))
            && Unique(chosen)
            && (forall key | key in chosen :: Ranked(dense, |dense|, key) || Ranked(sparse, |sparse|, key))
            && (forall i, j | 0 <= i < j < |chosen| ::
                  Formula(dense, sparse, chosen[i], q) >= Formula(dense, sparse, chosen[j], q))
            && (forall i, key | 0 <= i < |chosen| && key !in chosen
                                && (Ranked(dense, |dense|, key) || Ranked(sparse, |sparse|, key)) ::
                  Formula(dense, sparse, chosen[i], q) >= Formula(dense, sparse, key, q))
  {
    hide Formula, Ranked, KeyOf, Ranking, KeyOrder;
    RankingLaw(dense, sparse, q);
    var ranking, chosen := Ranking(dense, sparse, q), Chosen(dense, sparse, q, topK);
    forall i, key | 0 <= i < |chosen| && key !in chosen && key in ranking
      ensures Formula(dense, sparse, chosen[i], q) >= Formula(dense, sparse, key, q)
    {
      assert forall x | 0 <= x < |chosen| :: chosen[x] == ranking[x] && ranking[x] in chosen;
      var j :| 0 <= j < |ranking| && ranking[j] == key;
      assert j >= |chosen|;
    }
  }

  lemma RankingLaw(dense: seq<Chunk>, sparse: seq<Chunk>, q: Query)
    ensures var ranking := Ranking(dense, sparse, q);
            && Unique(ranking) && |ranking| == Candidates(dense, sparse)
            && (forall key :: key in ranking <==> Ranked(dense, |dense|, key) || Ranked(sparse, |sparse|, key))
            && (forall i, j | 0 <= i < j < |ranking| ::
                  Formula(dense, sparse, ranking[i], q) >= Formula(dense, sparse, ranking[j], q))
  {
    hide Formula, KeyOrder, Ranked, RankedKeys;
    KeyOrderIs(dense, sparse);
    var keys, scores := KeyOrder(dense, sparse), Scores(dense, sparse, q);
    RankingIsSorted(keys, scores);
    var ranking := Ranking(dense, sparse, q);
    forall i, j | 0 <= i < j < |ranking|
      ensures Formula(dense, sparse, ranking[i], q) >= Formula(dense, sparse, ranking[j], q)
    {
      assert ranking[i] in keys && ranking[j] in keys;
      assert At(scores, ranking[i]) >= At(scores, ranking[j]);
    }
  }

  // ---------------------------------------------------------------- dominance

  /** `a` is ranked, and `b` is not ranked before it. */
  ghost predicate Ahead(sources: seq<Chunk>, a: nat, b: string) {
    a < |sources| && !Ranked(sources, a + 1, b)
  }

  lemma ReciprocalFalls(weight: real, k: nat, i: nat, j: nat)
    requires weight >= 0.0 && i <= j
    ensures weight / (k + i + 1) as real >= weight / (k + j + 1) as real >= 0.0
  {
    var x, y := (k + i + 1) as real, (k + j + 1) as real;
    var u, v := weight / x, weight / y;
    assert u * x == weight && v * y == weight;
  }

  /** In one ranking, the one ahead earns at least as much by its rank. */
  lemma DenseDominates(dense: seq<Chunk>, a: nat, b: string, q: Query)
    requires NoRepeat(dense) && Ahead(dense, a, b) && q.wDense >= 0.0
    ensures DenseScore(dense, |dense|, KeyOf(dense[a]), q) >= DenseScore(dense, |dense|, b, q)
  {
    hide KeyOf, Reciprocal, DenseScore;
    DenseAt(dense, |dense|, a, q);
    if Ranked(dense, |dense|, b) {
      var j :| 0 <= j < |dense| && KeyOf(dense[j]) == b;
      assert j > a;
      DenseAt(dense, |dense|, j, q);
      ReciprocalFalls(q.wDense, q.k, a, j);
    } else {
      DenseAbsent(dense, |dense|, b, q);
      ReciprocalFalls(q.wDense, q.k, a, a);
    }
  }

  /** The same with the keyword boost, if that of the one behind is no greater. */
  lemma SparseDominates(sparse: seq<Chunk>, a: nat, b: string, q: Query)
    requires NoRepeat(sparse) && Ahead(sparse, a, b) && q.wSparse >= 0.0
    requires forall j | 0 <= j < |sparse| && KeyOf(sparse[j]) == b ::
               HitBoost(sparse[a].content, q.keywords) >= HitBoost(sparse[j].content, q.keywords)
    ensures SparseScore(sparse, |sparse|, KeyOf(sparse[a]), q) >= SparseScore(sparse, |sparse|, b, q)
  {
    hide KeyOf, Reciprocal, SparseScore, HitBoost;
    SparseAt(sparse, |sparse|, a, q);
    if Ranked(sparse, |sparse|, b) {
      var j :| 0 <= j < |sparse| && KeyOf(sparse[j]) == b;
      assert j > a;
      SparseAt(sparse, |sparse|, j, q);
      ReciprocalFalls(q.wSparse, q.k, a, j);
    } else {
      SparseAbsent(sparse, |sparse|, b, q);
      ReciprocalFalls(q.wSparse, q.k, a, a);
    }
  }

  ghost predicate Extends(longer: seq<string>, shorter: seq<string>) {
    |shorter| <= |longer| && forall i | 0 <= i < |shorter| :: longer[i] == shorter[i]
  }

  lemma {:induction false} FirstSeenGrows(sources: seq<Chunk>, m: nat, n: nat, before: seq<string>)
    requires m <= n <= |sources|
    ensures Extends(FirstSeen(sources, n, before), FirstSeen(sources, m, before))
    decreases n
  {
    hide FirstSeen, Extends;
    if m < n {
      FirstSeenGrows(sources, m, n - 1, before);
      OneMoreSeen(sources, n, before);
      ExtendsOn(FirstSeen(sources, n, before), FirstSeen(sources, n - 1, before), FirstSeen(sources, m, before));
    } else {
      ExtendsItself(FirstSeen(sources, n, before));
    }
  }

  lemma OneMoreSeen(sources: seq<Chunk>, n: nat, before: seq<string>)
    requires 0 < n <= |sources|
    ensures Extends(FirstSeen(sources, n, before), FirstSeen(sources, n - 1, before))
  {
    hide KeyOf;
  }

  lemma ExtendsOn(long: seq<string>, middle: seq<string>, short: seq<string>)
    requires Extends(long, middle) && Extends(middle, short)
    ensures Extends(long, short)
  {
  }

  lemma ExtendsItself(keys: seq<string>)
    ensures Extends(keys, keys)
  {
  }

  /** A key that is ahead in the dense ranking also comes first in the dictionaries. */
  lemma AheadComesFirst(dense: seq<Chunk>, sparse: seq<Chunk>, a: nat, b: string) returns (i: nat, j: nat)
    requires Ahead(dense, a, b) && b in KeyOrder(dense, sparse)
    ensures i < j < |KeyOrder(dense, sparse)|
    ensures KeyOrder(dense, sparse)[i] == KeyOf(dense[a]) && KeyOrder(dense, sparse)[j] == b
  {
    hide KeyOf, FirstSeen;
    var early, mid, keys := FirstSeen(dense, a + 1, []), FirstSeen(dense, |dense|, []), KeyOrder(dense, sparse);
    FirstSeenGrows(dense, a + 1, |dense|, []);
    FirstSeenIs(dense, a + 1, []);
    FirstSeenIs(dense, |dense|, []);
    FirstSeenIs(sparse, |sparse|, mid);
    assert Ranked(dense, a + 1, KeyOf(dense[a]));
    i :| 0 <= i < |early| && early[i] == KeyOf(dense[a]);
    j :| 0 <= j < |keys| && keys[j] == b;
    assert forall x | 0 <= x < |early| :: keys[x] == early[x] && keys[x] in early;
    assert b !in early;
  }

  /** The sparse ranking has `key` at `s`, ahead of `b` and with at least its keyword boost. */
  ghost predicate Favours(sparse: seq<Chunk>, s: nat, key: string, b: string, q: Query) {
    && Ahead(sparse, s, b) && KeyOf(sparse[s]) == key
    && forall j | 0 <= j < |sparse| && KeyOf(sparse[j]) == b ::
         HitBoost(sparse[s].content, q.keywords) >= HitBoost(sparse[j].content, q.keywords)
  }

  /** Dominance.  With rankings free of duplicates and weights that are not negative, a chunk that is ahead
      of another in both rankings (or in the dense one, when the other is absent from the sparse one), and
      whose keyword and relation boosts are at least as large, is ranked ahead of it. */
  lemma Dominance(dense: seq<Chunk>, sparse: seq<Chunk>, q: Query, a: nat, b: string)
    requires NoRepeat(dense) && NoRepeat(sparse) && q.wDense >= 0.0 && q.wSparse >= 0.0
    requires Ahead(dense, a, b) && b in KeyOrder(dense, sparse)
    requires !Ranked(sparse, |sparse|, b) || exists s :: Favours(sparse, s, KeyOf(dense[a]), b, q)
    requires Boost(dense, sparse, KeyOf(dense[a]), q) >= Boost(dense, sparse, b, q)
    ensures Before(Ranking(dense, sparse, q), KeyOf(dense[a]), b)
  {
    hide KeyOf, HitBoost, DenseScore, SparseScore, RankedKeys, KeyOrder;
    var key, keys := KeyOf(dense[a]), KeyOrder(dense, sparse);
    DenseDominates(dense, a, b, q);
    SparseAtLeast(dense, sparse, q, a, b);
    KeyOrderIs(dense, sparse);
    var i, j := AheadComesFirst(dense, sparse, a, b);
    assert keys[i] in keys;
    RankingIsStable(keys, Scores(dense, sparse, q), i, j);
  }

  /** The graph boost of a key's chunk. */
  function Boost(dense: seq<Chunk>, sparse: seq<Chunk>, key: string, q: Query): real {
    var c := Representative(dense, sparse, |sparse|, key);
    if c.Some? then GraphBoost(c.value.content, q.relations) else 0.0
  }

  lemma SparseAtLeast(dense: seq<Chunk>, sparse: seq<Chunk>, q: Query, a: nat, b: string)
    requires a < |dense| && NoRepeat(sparse) && q.wSparse >= 0.0
    requires !Ranked(sparse, |sparse|, b) || exists s :: Favours(sparse, s, KeyOf(dense[a]), b, q)
    ensures SparseScore(sparse, |sparse|, KeyOf(dense[a]), q) >= SparseScore(sparse, |sparse|, b, q)
  {
    hide KeyOf, HitBoost;
    if !Ranked(sparse, |sparse|, b) {
      SparseAbsent(sparse, |sparse|, b, q);
      SparseNotNegative(sparse, |sparse|, KeyOf(dense[a]), q);
    } else {
      var s :| Favours(sparse, s, KeyOf(dense[a]), b, q);
      SparseDominates(sparse, s, b, q);
    }
  }

  lemma {:induction false} SparseNotNegative(sparse: seq<Chunk>, n: nat, key: string, q: Query)
    requires n <= |sparse| && q.wSparse >= 0.0
    ensures SparseScore(sparse, n, key, q) >= 0.0
  {
    hide KeyOf;
    if n > 0 {
      SparseNotNegative(sparse, n - 1, key, q);
      ReciprocalFalls(q.wSparse, q.k, n - 1, n - 1);
    }
  }
}
