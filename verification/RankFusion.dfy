/** Reciprocal rank fusion (src/services/rag/engine.py): two rankings and a graph boost become one. */
module RankFusion {
  import opened Options
  import opened Texts

  datatype Chunk = Chunk(doc: string, index: int, content: string, score: real)

  /** What a call is given besides the two rankings. */
  datatype Query = Query(relations: seq<string>, keywords: seq<string>, k: nat, wDense: real, wSparse: real)

  // ---------------------------------------------------------------- keys

  function Digits(n: nat): (text: string)
    ensures text != "" && (|text| == 1 <==> n < 10)
    ensures forall i | 0 <= i < |text| :: '0' <= text[i] <= '9'
  {
    if n < 10 then [('0' as int + n) as char] else Digits(n / 10) + [('0' as int + n % 10) as char]
  }

  function PrintInt(n: int): string {
    if n < 0 then "-" + Digits(-n) else Digits(n)
  }

  /** `f"{doc_id}_{chunk_index}"` */
  function KeyOf(c: Chunk): string {
    c.doc + "_" + PrintInt(c.index)
  }

  lemma {:induction false} DigitsInjective(m: nat, n: nat)
    requires Digits(m) == Digits(n)
    ensures m == n
  {
    var s, t := Digits(m), Digits(n);
    assert s[|s| - 1] == t[|t| - 1];
    if m >= 10 && n >= 10 {
      assert s[..|s| - 1] == Digits(m / 10) && t[..|t| - 1] == Digits(n / 10);
      DigitsInjective(m / 10, n / 10);
    }
  }

  lemma MinusIsFirst(n: int)
    ensures PrintInt(n) != "" && (PrintInt(n)[0] == '-' <==> n < 0)
    ensures n < 0 ==> PrintInt(n)[1..] == Digits(-n)
  {
    if n >= 0 {
      assert '0' <= Digits(n)[0];
    }
  }

  lemma PrintIntInjective(m: int, n: int)
    requires PrintInt(m) == PrintInt(n)
    ensures m == n
  {
    MinusIsFirst(m);
    MinusIsFirst(n);
    if m < 0 {
      DigitsInjective(-m, -n);
    } else {
      DigitsInjective(m, n);
    }
  }

  lemma NoUnderscore(n: int)
    ensures forall i | 0 <= i < |PrintInt(n)| :: PrintInt(n)[i] != '_'
  {
  }

  lemma SameTail(a: string, b: string, x: string, y: string)
    requires a + "_" + x == b + "_" + y
    requires forall i | 0 <= i < |x| :: x[i] != '_'
    requires forall i | 0 <= i < |y| :: y[i] != '_'
    ensures a == b && x == y
  {
    var whole := a + "_" + x;
    assert whole[|a|] == '_' && whole[|b|] == '_';
    assert forall i | |a| < i < |whole| :: whole[i] == x[i - |a| - 1];
    assert forall i | |b| < i < |whole| :: whole[i] == y[i - |b| - 1];
    assert |a| == |b|;
    assert whole[..|a|] == a && whole[..|a|] == b;
    assert whole[|a| + 1..] == x && whole[|a| + 1..] == y;
  }

  /** Different chunks have different keys, whatever their document ids look like. */
  lemma KeyIsInjective(a: Chunk, b: Chunk)
    requires KeyOf(a) == KeyOf(b)
    ensures a.doc == b.doc && a.index == b.index
  {
    NoUnderscore(a.index);
    NoUnderscore(b.index);
    SameTail(a.doc, b.doc, PrintInt(a.index), PrintInt(b.index));
    PrintIntInjective(a.index, b.index);
  }

  // ---------------------------------------------------------------- the formula

  /** `part in content` */
  predicate Contains(content: string, part: string) {
    part == "" || Find(content, part).Some?
  }

  /** A tenth of the squared length for each keyword that occurs. */
  function HitBoost(content: string, keywords: seq<string>): (boost: real)
    ensures boost >= 0.0
  {
    if keywords == [] then 0.0
    else
      var last := keywords[|keywords| - 1];
      HitBoost(content, keywords[..|keywords| - 1])
      + if Contains(content, last) then Square(|last|) * 0.1 else 0.0
  }

  function Square(n: nat): (r: real)
    ensures r >= 0.0
  {
    (n * n) as real
  }

  const ARROW: string := " --["

  /** Three hundredths for each relation whose source entity occurs. */
  function GraphBoost(content: string, relations: seq<string>): (boost: real)
    ensures boost >= 0.0
  {
    if relations == [] then 0.0
    else
      GraphBoost(content, relations[..|relations| - 1])
      + if Contains(content, Split(relations[|relations| - 1], ARROW)[0]) then 0.03 else 0.0
  }

  function Reciprocal(weight: real, k: nat, rank: nat): real {
    weight / (k + rank + 1) as real
  }

  /** The dense part of the formula: a term for each of the first `n` ranks that holds the key. */
  function DenseScore(dense: seq<Chunk>, n: nat, key: string, q: Query): real
    requires n <= |dense|
  {
    if n == 0 then 0.0
    else
      DenseScore(dense, n - 1, key, q)
      + if KeyOf(dense[n - 1]) == key then Reciprocal(q.wDense, q.k, n - 1) else 0.0
  }

  function SparseScore(sparse: seq<Chunk>, n: nat, key: string, q: Query): real
    requires n <= |sparse|
  {
    if n == 0 then 0.0
    else
      SparseScore(sparse, n - 1, key, q)
      + if KeyOf(sparse[n - 1]) == key
        then Reciprocal(q.wSparse, q.k, n - 1) + HitBoost(sparse[n - 1].content, q.keywords)
        else 0.0
  }

  predicate Ranked(sources: seq<Chunk>, n: nat, key: string)
    requires n <= |sources|
  {
    exists i :: 0 <= i < n && KeyOf(sources[i]) == key
  }

  /** The chunk that stands for a key: its last dense occurrence, or else its first sparse one. */
  function LastOf(sources: seq<Chunk>, n: nat, key: string): Option<Chunk>
    requires n <= |sources|
  {
    if n == 0 then None
    else if KeyOf(sources[n - 1]) == key then Some(sources[n - 1])
    else LastOf(sources, n - 1, key)
  }

  function FirstOf(sources: seq<Chunk>, n: nat, key: string): Option<Chunk>
    requires n <= |sources|
  {
    if n == 0 then None
    else if FirstOf(sources, n - 1, key).Some? then FirstOf(sources, n - 1, key)
    else if KeyOf(sources[n - 1]) == key then Some(sources[n - 1])
    else None
  }

  function Representative(dense: seq<Chunk>, sparse: seq<Chunk>, m: nat, key: string): Option<Chunk>
    requires m <= |sparse|
  {
    if LastOf(dense, |dense|, key).Some? then LastOf(dense, |dense|, key) else FirstOf(sparse, m, key)
  }

  /** The fused score of a key. */
  function Formula(dense: seq<Chunk>, sparse: seq<Chunk>, key: string, q: Query): real {
    var c := Representative(dense, sparse, |sparse|, key);
    DenseScore(dense, |dense|, key, q) + SparseScore(sparse, |sparse|, key, q)
    + if c.Some? then GraphBoost(c.value.content, q.relations) else 0.0
  }

  /** The keys in the order in which they first occur. */
  function FirstSeen(sources: seq<Chunk>, n: nat, before: seq<string>): seq<string>
    requires n <= |sources|
  {
    if n == 0 then before
    else
      var order := FirstSeen(sources, n - 1, before);
      if KeyOf(sources[n - 1]) in order then order else order + [KeyOf(sources[n - 1])]
  }

  function KeyOrder(dense: seq<Chunk>, sparse: seq<Chunk>): seq<string> {
    FirstSeen(sparse, |sparse|, FirstSeen(dense, |dense|, []))
  }

  // ---------------------------------------------------------------- the code

  /** The two dictionaries of the loops, with the insertion order they share. */
  datatype Fusion = Fusion(order: seq<string>, chunks: map<string, Chunk>, scores: map<string, real>)

  function ScoreOf(f: Fusion, key: string): real {
    if key in f.scores then f.scores[key] else 0.0
  }

  ghost predicate SameKeys(f: Fusion) {
    forall key :: (key in f.order <==> key in f.chunks) && (key in f.order <==> key in f.scores)
  }

  ghost predicate DenseFused(f: Fusion, dense: seq<Chunk>, n: nat, q: Query)
    requires n <= |dense|
  {
    && SameKeys(f) && f.order == FirstSeen(dense, n, [])
    && forall key ::
         && ScoreOf(f, key) == DenseScore(dense, n, key, q)
         && LastOf(dense, n, key) == if key in f.chunks then Some(f.chunks[key]) else None
  }

  method FuseDense(dense: seq<Chunk>, q: Query) returns (f: Fusion)
    ensures DenseFused(f, dense, |dense|, q)
  {
    hide KeyOf, Reciprocal;
    f := Fusion([], map[], map[]);
    for rank := 0 to |dense|
      invariant DenseFused(f, dense, rank, q)
    {
      var key := KeyOf(dense[rank]);
      var score := ScoreOf(f, key) + Reciprocal(q.wDense, q.k, rank);
      f := Fusion(if key in f.order then f.order else f.order + [key],
                  f.chunks[key := dense[rank]], f.scores[key := score]);
    }
  }

  method KeywordBoost(content: string, keywords: seq<string>) returns (boost: real)
    ensures boost == HitBoost(content, keywords)
  {
    hide Contains;
    boost := 0.0;
    for i := 0 to |keywords|
      invariant boost == HitBoost(content, keywords[..i])
    {
      assert keywords[..i + 1][..i] == keywords[..i];
      if Contains(content, keywords[i]) {
        boost := boost + Square(|keywords[i]|) * 0.1;
      }
    }
    assert keywords[..|keywords|] == keywords;
  }

  ghost predicate KeyFused(f: Fusion, dense: seq<Chunk>, sparse: seq<Chunk>, n: nat, key: string, q: Query)
    requires n <= |sparse|
  {
    && ScoreOf(f, key) == DenseScore(dense, |dense|, key, q) + SparseScore(sparse, n, key, q)
    && Representative(dense, sparse, n, key) == if key in f.chunks then Some(f.chunks[key]) else None
  }

  ghost predicate BothFused(f: Fusion, dense: seq<Chunk>, sparse: seq<Chunk>, n: nat, q: Query)
    requires n <= |sparse|
  {
    && SameKeys(f) && f.order == FirstSeen(sparse, n, FirstSeen(dense, |dense|, []))
    && forall key :: KeyFused(f, dense, sparse, n, key, q)
  }

  /** One step of the second loop; a chunk that is already known stays. */
  function Gained(f: Fusion, key: string, c: Chunk, gain: real): Fusion {
    Fusion(if key in f.order then f.order else f.order + [key],
           if key in f.chunks then f.chunks else f.chunks[key := c],
           f.scores[key := ScoreOf(f, key) + gain])
  }

  lemma GainedKey(f: Fusion, dense: seq<Chunk>, sparse: seq<Chunk>, rank: nat, key: string, q: Query)
    requires rank < |sparse| && BothFused(f, dense, sparse, rank, q)
    ensures var gain := Reciprocal(q.wSparse, q.k, rank) + HitBoost(sparse[rank].content, q.keywords);
            KeyFused(Gained(f, KeyOf(sparse[rank]), sparse[rank], gain), dense, sparse, rank + 1, key, q)
  {
    hide KeyOf, Reciprocal, DenseScore, LastOf, HitBoost, FirstSeen;
    assert KeyFused(f, dense, sparse, rank, key, q);
  }

  lemma GainKeepsFused(f: Fusion, dense: seq<Chunk>, sparse: seq<Chunk>, rank: nat, q: Query)
    requires rank < |sparse| && BothFused(f, dense, sparse, rank, q)
    ensures var gain := Reciprocal(q.wSparse, q.k, rank) + HitBoost(sparse[rank].content, q.keywords);
            BothFused(Gained(f, KeyOf(sparse[rank]), sparse[rank], gain), dense, sparse, rank + 1, q)
  {
    hide KeyOf, Reciprocal, HitBoost, KeyFused;
    var gain := Reciprocal(q.wSparse, q.k, rank) + HitBoost(sparse[rank].content, q.keywords);
    var f', n := Gained(f, KeyOf(sparse[rank]), sparse[rank], gain), rank + 1;
    forall key
      ensures KeyFused(f', dense, sparse, n, key, q)
    {
      GainedKey(f, dense, sparse, rank, key, q);
    }
  }

  lemma NoneGained(f: Fusion, dense: seq<Chunk>, sparse: seq<Chunk>, q: Query)
    requires DenseFused(f, dense, |dense|, q)
    ensures BothFused(f, dense, sparse, 0, q)
  {
    hide KeyOf, DenseScore, LastOf;
  }

  method FuseSparse(dense: seq<Chunk>, sparse: seq<Chunk>, q: Query, start: Fusion) returns (f: Fusion)
    requires DenseFused(start, dense, |dense|, q)
    ensures BothFused(f, dense, sparse, |sparse|, q)
  {
    hide KeyOf, Reciprocal, HitBoost, DenseFused, BothFused;
    f := start;
    NoneGained(f, dense, sparse, q);
    for rank := 0 to |sparse|
      invariant BothFused(f, dense, sparse, rank, q)
    {
      GainKeepsFused(f, dense, sparse, rank, q);
      var key := KeyOf(sparse[rank]);
      var order, chunks := f.order, f.chunks;
      if key !in chunks {
        chunks := chunks[key := sparse[rank]];
      }
      if key !in order {
        order := order + [key];
      }
      var boost := KeywordBoost(sparse[rank].content, q.keywords);
      var score := ScoreOf(f, key) + (Reciprocal(q.wSparse, q.k, rank) + boost);
      f := Fusion(order, chunks, f.scores[key := score]);
    }
  }

  method RelationBoost(content: string, relations: seq<string>) returns (boost: real)
    ensures boost == GraphBoost(content, relations)
  {
    hide Contains, Split;
    boost := 0.0;
    for i := 0 to |relations|
      invariant boost == GraphBoost(content, relations[..i])
    {
      assert relations[..i + 1][..i] == relations[..i];
      if Contains(content, Split(relations[i], ARROW)[0]) {
        boost := boost + 0.03;
      }
    }
    assert relations[..|relations|] == relations;
  }

  /** Adds the graph boost of every chunk. */
  method BoostByGraph(f: Fusion, relations: seq<string>) returns (scores: map<string, real>)
    requires SameKeys(f) && forall i, j | 0 <= i < j < |f.order| :: f.order[i] != f.order[j]
    ensures scores.Keys == f.scores.Keys
    ensures forall key | key in f.chunks && key in f.scores ::
              scores[key] == f.scores[key] + GraphBoost(f.chunks[key].content, relations)
  {
    hide GraphBoost;
    scores := f.scores;
    for i := 0 to |f.order|
      invariant scores.Keys == f.scores.Keys
      invariant forall j | 0 <= j < |f.order| ::
                  scores[f.order[j]] == f.scores[f.order[j]]
                    + if j < i then GraphBoost(f.chunks[f.order[j]].content, relations) else 0.0
    {
      var key := f.order[i];
      var boost := RelationBoost(f.chunks[key].content, relations);
      scores := scores[key := scores[key] + boost];
    }
  }

  // ---------------------------------------------------------------- ranking

  function At(scores: map<string, real>, key: string): real {
    if key in scores then scores[key] else 0.0
  }

  /** A stable descending sort places a key after those that score at least as much. */
  function Place(ranked: seq<string>, key: string, scores: map<string, real>): seq<string> {
    if ranked == [] then [key]
    else if At(scores, ranked[0]) >= At(scores, key) then [ranked[0]] + Place(ranked[1..], key, scores)
    else [key] + ranked
  }

  /** `sorted(keys, key=scores, reverse=True)` */
  function RankedKeys(keys: seq<string>, scores: map<string, real>): seq<string> {
    if keys == [] then []
    else Place(RankedKeys(keys[..|keys| - 1], scores), keys[|keys| - 1], scores)
  }

  ghost predicate Unique(keys: seq<string>) {
    forall i, j | 0 <= i < j < |keys| :: keys[i] != keys[j]
  }

  ghost predicate Descending(keys: seq<string>, scores: map<string, real>) {
    forall i, j | 0 <= i < j < |keys| :: At(scores, keys[i]) >= At(scores, keys[j])
  }

  ghost predicate Before(keys: seq<string>, a: string, b: string) {
    exists p, q :: 0 <= p < q < |keys| && keys[p] == a && keys[q] == b
  }

  lemma {:induction false} PlaceSplits(ranked: seq<string>, key: string, scores: map<string, real>) returns (p: nat)
    ensures p <= |ranked| && Place(ranked, key, scores) == ranked[..p] + [key] + ranked[p..]
    ensures forall i | 0 <= i < p :: At(scores, ranked[i]) >= At(scores, key)
    ensures p < |ranked| ==> At(scores, ranked[p]) < At(scores, key)
  {
    hide At;
    p := 0;
    if ranked != [] && At(scores, ranked[0]) >= At(scores, key) {
      var rest := PlaceSplits(ranked[1..], key, scores);
      p := rest + 1;
      ShiftSplit(ranked, key, rest);
      forall i | 0 <= i < p
        ensures At(scores, ranked[i]) >= At(scores, key)
      {
        if i > 0 {
          assert ranked[i] == ranked[1..][i - 1];
        }
      }
    }
  }

  lemma ShiftSplit(ranked: seq<string>, key: string, p: nat)
    requires p < |ranked|
    ensures [ranked[0]] + (ranked[1..][..p] + [key] + ranked[1..][p..]) == ranked[..p + 1] + [key] + ranked[p + 1..]
  {
    assert ranked[..p + 1] == [ranked[0]] + ranked[1..][..p];
    assert ranked[p + 1..] == ranked[1..][p..];
  }

  lemma InsertKeeps(ranked: seq<string>, key: string, p: nat, a: string, b: string)
    requires p <= |ranked| && Before(ranked, a, b)
    ensures Before(ranked[..p] + [key] + ranked[p..], a, b)
  {
    var longer := ranked[..p] + [key] + ranked[p..];
    var i, j :| 0 <= i < j < |ranked| && ranked[i] == a && ranked[j] == b;
    var i', j' := if i < p then i else i + 1, if j < p then j else j + 1;
    assert longer[i'] == a && longer[j'] == b;
  }

  lemma PlacedDescending(ranked: seq<string>, key: string, scores: map<string, real>)
    requires Descending(ranked, scores)
    ensures Descending(Place(ranked, key, scores), scores)
  {
    var p := PlaceSplits(ranked, key, scores);
    var longer := ranked[..p] + [key] + ranked[p..];
    forall i, j | 0 <= i < j < |longer|
      ensures At(scores, longer[i]) >= At(scores, longer[j])
    {
      var i', j' := if i <= p then i else i - 1, if j <= p then j else j - 1;
      assert i != p ==> longer[i] == ranked[i'];
      assert j != p ==> longer[j] == ranked[j'];
    }
  }

  lemma InsertedMembers(ranked: seq<string>, key: string, p: nat)
    requires p <= |ranked|
    ensures forall k :: k in ranked[..p] + [key] + ranked[p..] <==> k in ranked || k == key
  {
    assert ranked == ranked[..p] + ranked[p..];
  }

  lemma InsertedUnique(ranked: seq<string>, key: string, p: nat)
    requires p <= |ranked| && Unique(ranked) && key !in ranked
    ensures Unique(ranked[..p] + [key] + ranked[p..])
  {
    var longer := ranked[..p] + [key] + ranked[p..];
    forall i, j | 0 <= i < j < |longer|
      ensures longer[i] != longer[j]
    {
      var i', j' := if i <= p then i else i - 1, if j <= p then j else j - 1;
      assert i != p ==> longer[i] == ranked[i'] && ranked[i'] in ranked;
      assert j != p ==> longer[j] == ranked[j'] && ranked[j'] in ranked;
    }
  }

  lemma PlacedMembers(ranked: seq<string>, key: string, scores: map<string, real>)
    ensures |Place(ranked, key, scores)| == |ranked| + 1
    ensures forall k :: k in Place(ranked, key, scores) <==> k in ranked || k == key
    ensures Unique(ranked) && key !in ranked ==> Unique(Place(ranked, key, scores))
  {
    hide Place, Unique;
    var p := PlaceSplits(ranked, key, scores);
    InsertedMembers(ranked, key, p);
    if Unique(ranked) && key !in ranked {
      InsertedUnique(ranked, key, p);
    }
  }

  /** The ranking has the same keys, in non-increasing order of score. */
  lemma {:induction false} RankingIsSorted(keys: seq<string>, scores: map<string, real>)
    requires Unique(keys)
    ensures |RankedKeys(keys, scores)| == |keys| && Unique(RankedKeys(keys, scores))
    ensures forall k :: k in RankedKeys(keys, scores) <==> k in keys
    ensures Descending(RankedKeys(keys, scores), scores)
    decreases |keys|
  {
    if keys != [] {
      var init, key := keys[..|keys| - 1], keys[|keys| - 1];
      RankingIsSorted(init, scores);
      assert keys == init + [key];
      assert forall i | 0 <= i < |init| :: init[i] == keys[i];
      PlacedMembers(RankedKeys(init, scores), key, scores);
      PlacedDescending(RankedKeys(init, scores), key, scores);
    }
  }

  /** It is stable: an earlier key that scores at least as much stays ahead. */
  lemma {:induction false} RankingIsStable(keys: seq<string>, scores: map<string, real>, i: nat, j: nat)
    requires Unique(keys) && i < j < |keys| && At(scores, keys[i]) >= At(scores, keys[j])
    ensures Before(RankedKeys(keys, scores), keys[i], keys[j])
    decreases |keys|
  {
    var init, key := keys[..|keys| - 1], keys[|keys| - 1];
    var ranked := RankedKeys(init, scores);
    var p := PlaceSplits(ranked, key, scores);
    if j < |init| {
      RankingIsStable(init, scores, i, j);
      InsertKeeps(ranked, key, p, keys[i], keys[j]);
    } else {
      RankingIsSorted(init, scores);
      assert init[i] in ranked;
      var q :| 0 <= q < |ranked| && ranked[q] == keys[i];
      LowerIsLater(ranked, key, scores, p, q);
      var longer := ranked[..p] + [key] + ranked[p..];
      assert longer[q] == keys[i] && longer[p] == key;
    }
  }

  lemma LowerIsLater(ranked: seq<string>, key: string, scores: map<string, real>, p: nat, q: nat)
    requires Descending(ranked, scores) && p <= |ranked| && q < |ranked|
    requires p < |ranked| ==> At(scores, ranked[p]) < At(scores, key)
    requires At(scores, ranked[q]) >= At(scores, key)
    ensures q < p
  {
  }

  // ---------------------------------------------------------------- the result

  function Least(a: real, b: real): real {
    if b < a then b else a
  }

  /** The score shown to the user, before rounding. */
  function Shown(c: Chunk, raw: real): Chunk {
    var mixed := c.score * 0.4 + Least(0.55, raw * 0.1);
    c.(score := Least(0.99, if mixed < 0.40 then 0.40 else mixed))
  }

  function Scores(dense: seq<Chunk>, sparse: seq<Chunk>, q: Query): map<string, real> {
    map key | key in KeyOrder(dense, sparse) :: Formula(dense, sparse, key, q)
  }

  function Ranking(dense: seq<Chunk>, sparse: seq<Chunk>, q: Query): seq<string> {
    RankedKeys(KeyOrder(dense, sparse), Scores(dense, sparse, q))
  }

  lemma {:induction false} FirstSeenIs(sources: seq<Chunk>, n: nat, before: seq<string>)
    requires n <= |sources| && Unique(before)
    ensures Unique(FirstSeen(sources, n, before))
    ensures forall key :: key in FirstSeen(sources, n, before) <==> key in before || Ranked(sources, n, key)
    ensures before <= FirstSeen(sources, n, before)
  {
    hide KeyOf;
    if n > 0 {
      FirstSeenIs(sources, n - 1, before);
    }
  }

  lemma {:induction false} RepresentedBy(sources: seq<Chunk>, n: nat, key: string)
    requires n <= |sources|
    ensures LastOf(sources, n, key).Some? <==> Ranked(sources, n, key)
    ensures FirstOf(sources, n, key).Some? <==> Ranked(sources, n, key)
    ensures LastOf(sources, n, key).Some? ==> KeyOf(LastOf(sources, n, key).value) == key
    ensures FirstOf(sources, n, key).Some? ==> KeyOf(FirstOf(sources, n, key).value) == key
  {
    hide KeyOf;
    if n > 0 {
      RepresentedBy(sources, n - 1, key);
    }
  }

  /** The keys to rank are exactly the keys of the two rankings, each once. */
  lemma KeyOrderIs(dense: seq<Chunk>, sparse: seq<Chunk>)
    ensures Unique(KeyOrder(dense, sparse))
    ensures forall key :: key in KeyOrder(dense, sparse)
              <==> Ranked(dense, |dense|, key) || Ranked(sparse, |sparse|, key)
    ensures forall key | key in KeyOrder(dense, sparse) ::
              var c := Representative(dense, sparse, |sparse|, key); c.Some? && KeyOf(c.value) == key
  {
    hide KeyOf, FirstSeen, Ranked;
    FirstSeenIs(dense, |dense|, []);
    FirstSeenIs(sparse, |sparse|, FirstSeen(dense, |dense|, []));
    forall key | key in KeyOrder(dense, sparse)
      ensures var c := Representative(dense, sparse, |sparse|, key); c.Some? && KeyOf(c.value) == key
    {
      RepresentedBy(dense, |dense|, key);
      RepresentedBy(sparse, |sparse|, key);
    }
  }

  /** The keys that make it into the output. */
  function Chosen(dense: seq<Chunk>, sparse: seq<Chunk>, q: Query, topK: nat): seq<string> {
    var ranking := Ranking(dense, sparse, q);
    if topK < |ranking| then ranking[..topK] else ranking
  }

  /** `reciprocal_rank_fusion` */
  method Fuse(dense: seq<Chunk>, sparse: seq<Chunk>, q: Query, topK: nat) returns (fused: seq<Chunk>)
    ensures |fused| == |Chosen(dense, sparse, q, topK)|
    ensures forall i | 0 <= i < |fused| ::
              var key := Chosen(dense, sparse, q, topK)[i];
              var c := Representative(dense, sparse, |sparse|, key);
              c.Some? && fused[i] == Shown(c.value, Formula(dense, sparse, key, q))
  {
    hide KeyOf, RankedKeys, Shown, DenseScore, SparseScore, GraphBoost, Representative, FirstSeen;
    var f := FuseDense(dense, q);
    f := FuseSparse(dense, sparse, q, f);
    KeyOrderIs(dense, sparse);
    var scores := BoostByGraph(f, q.relations);
    FusedScores(f, scores, dense, sparse, q);
    var ranked := RankedKeys(f.order, scores);
    RankingIsSorted(f.order, scores);
    var n := if topK < |ranked| then topK else |ranked|;
    fused := [];
    for i := 0 to n
      invariant |fused| == i
      invariant forall j | 0 <= j < i :: ranked[j] in f.chunks && fused[j] == Shown(f.chunks[ranked[j]], scores[ranked[j]])
    {
      assert ranked[i] in f.order;
      fused := fused + [Shown(f.chunks[ranked[i]], scores[ranked[i]])];
    }
  }

  lemma FusedScores(f: Fusion, scores: map<string, real>, dense: seq<Chunk>, sparse: seq<Chunk>, q: Query)
    requires BothFused(f, dense, sparse, |sparse|, q) && scores.Keys == f.scores.Keys
    requires forall key | key in f.chunks && key in f.scores ::
               scores[key] == f.scores[key] + GraphBoost(f.chunks[key].content, q.relations)
    ensures f.order == KeyOrder(dense, sparse) && scores == Scores(dense, sparse, q)
    ensures forall key | key in f.order ::
              key in f.chunks && key in scores && scores[key] == Formula(dense, sparse, key, q)
              && Representative(dense, sparse, |sparse|, key) == Some(f.chunks[key])
  {
    hide KeyOf, DenseScore, SparseScore, GraphBoost, Representative, FirstSeen;
    forall key | key in f.order
      ensures key in f.chunks && key in scores && scores[key] == Formula(dense, sparse, key, q)
      ensures Representative(dense, sparse, |sparse|, key) == Some(f.chunks[key])
    {
      assert KeyFused(f, dense, sparse, |sparse|, key, q);
      assert ScoreOf(f, key) == f.scores[key];
    }
    assert forall key :: key in scores <==> key in scores.Keys;
  }
}
