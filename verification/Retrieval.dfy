/** Retrieval: term-count cosine similarity, corpus filtering and ranking. */
module Retrieval {
  import opened Records
  import opened Sums

  // ---------------------------------------------------------------- cosine similarity

  type Terms = map<string, nat>

  function CountOf(m: Terms, t: string): nat {
    if t in m then m[t] else 0
  }

  ghost function Dot(a: Terms, b: Terms, keys: set<string>): nat {
    Sum(t => CountOf(a, t) * CountOf(b, t), keys)
  }

  /** The dot product as the source computes it, over the terms of `a`. */
  ghost function DotProduct(a: Terms, b: Terms): nat {
    Dot(a, b, a.Keys)
  }

  ghost function SquaredNorm(a: Terms): nat {
    Dot(a, a, a.Keys)
  }

  lemma DotRemove(a: Terms, b: Terms, keys: set<string>, k: string)
    requires k in keys
    ensures Dot(a, b, keys) == CountOf(a, k) * CountOf(b, k) + Dot(a, b, keys - {k})
  {
    SumRemove(t => CountOf(a, t) * CountOf(b, t), keys, k);
  }

  lemma {:induction false} MoreTerms(b: Terms, keys: set<string>, all: set<string>)
    requires keys <= all
    ensures Dot(b, b, keys) <= Dot(b, b, all)
    decreases |all|
  {
    if keys != {} {
      var k :| k in keys;
      DotRemove(b, b, keys, k);
      DotRemove(b, b, all, k);
      MoreTerms(b, keys - {k}, all - {k});
    }
  }

  lemma {:induction false} OtherTerms(b: Terms, keys: set<string>)
    ensures Dot(b, b, keys) == Dot(b, b, keys * b.Keys)
    decreases |keys|
  {
    if keys == {} {
      assert keys * b.Keys == {};
    } else {
      var k :| k in keys;
      DotRemove(b, b, keys, k);
      OtherTerms(b, keys - {k});
      if k in b {
        DotRemove(b, b, keys * b.Keys, k);
        assert keys * b.Keys - {k} == (keys - {k}) * b.Keys;
      } else {
        assert keys * b.Keys == (keys - {k}) * b.Keys;
      }
    }
  }

  lemma MulMonotone(a: nat, b: nat, c: nat, d: nat)
    requires a <= b && c <= d
    ensures a * c <= b * d
  {
    assert a * c <= b * c;
    assert b * c <= b * d;
  }

  /** From a square below a product to a product below a sum. */
  lemma MeanStep(d: nat, a: nat, b: nat, x: nat, y: nat)
    requires d * d <= a * b
    ensures 2 * (d * (x * y)) <= a * (y * y) + b * (x * x)
  {
    var p, q, r := a * (y * y), b * (x * x), d * (x * y);
    assert r * r == (d * d) * ((x * y) * (x * y)) by {
      Rearrange(d, x * y);
    }
    assert p * q == (a * b) * ((x * y) * (x * y)) by {
      Regroup(a, b, x, y);
    }
    MulMonotone(d * d, a * b, (x * y) * (x * y), (x * y) * (x * y));
    TwoBelowSum(p, q, r);
  }

  lemma Rearrange(d: nat, z: nat)
    ensures (d * z) * (d * z) == (d * d) * (z * z)
  {
    assert (d * z) * (d * z) == d * (z * (d * z));
    assert z * (d * z) == d * (z * z);
    assert d * (d * (z * z)) == (d * d) * (z * z);
  }

  lemma Regroup(a: nat, b: nat, x: nat, y: nat)
    ensures (a * (y * y)) * (b * (x * x)) == (a * b) * ((x * y) * (x * y))
  {
    var u, v := y * y, x * x;
    assert (a * u) * (b * v) == (a * b) * (u * v) by {
      assert (a * u) * (b * v) == a * (u * (b * v));
      assert u * (b * v) == b * (u * v);
      assert a * (b * (u * v)) == (a * b) * (u * v);
    }
    Rearrange(x, y);
    assert u * v == (x * y) * (x * y);
  }

  lemma TwoBelowSum(p: nat, q: nat, r: nat)
    requires r * r <= p * q
    ensures 2 * r <= p + q
  {
    if 2 * r > p + q {
      var s := p + q;
      MulMonotone(s + 1, 2 * r, s + 1, 2 * r);
      assert (2 * r) * (2 * r) == 4 * (r * r);
      assert (s + 1) * (s + 1) == s * s + 2 * s + 1;
      SquareOfSum(p, q);
      assert false;
    }
  }

  lemma SquareOfSum(p: nat, q: nat)
    ensures (p + q) * (p + q) >= 4 * (p * q)
  {
    var d: int := p - q;
    assert d * d >= 0;
    assert d * d == p * p - 2 * (p * q) + q * q;
    assert (p + q) * (p + q) == p * p + 2 * (p * q) + q * q;
  }

  lemma ProductOfSums(p: nat, a: nat, q: nat, b: nat)
    ensures (p + a) * (q + b) == p * q + p * b + a * q + a * b
  {
    assert (p + a) * (q + b) == p * (q + b) + a * (q + b);
    assert p * (q + b) == p * q + p * b;
    assert a * (q + b) == a * q + a * b;
  }

  lemma CauchyStep(d: nat, a: nat, b: nat, x: nat, y: nat)
    requires d * d <= a * b
    ensures (x * y + d) * (x * y + d) <= (x * x + a) * (y * y + b)
  {
    MeanStep(d, a, b, x, y);
    var z, v, w := x * y, x * x, y * y;
    ProductOfSums(z, d, z, d);
    ProductOfSums(v, a, w, b);
    Rearrange(x, y);
    assert v * b == b * v && z * d == d * z;
  }

  /** Cauchy-Schwarz over any set of terms. */
  lemma {:induction false} CauchySchwarz(a: Terms, b: Terms, keys: set<string>)
    ensures Dot(a, b, keys) * Dot(a, b, keys) <= Dot(a, a, keys) * Dot(b, b, keys)
    decreases |keys|
  {
    if keys != {} {
      var k :| k in keys;
      DotRemove(a, b, keys, k);
      DotRemove(a, a, keys, k);
      DotRemove(b, b, keys, k);
      var rest := keys - {k};
      CauchySchwarz(a, b, rest);
      CauchyStep(Dot(a, b, rest), Dot(a, a, rest), Dot(b, b, rest), CountOf(a, k), CountOf(b, k));
    }
  }

  /** For the norms and the product as the source computes them, each over the terms of
      its own argument. */
  lemma CosineSquared(a: Terms, b: Terms)
    ensures DotProduct(a, b) * DotProduct(a, b) <= SquaredNorm(a) * SquaredNorm(b)
  {
    CauchySchwarz(a, b, a.Keys);
    OtherTerms(b, a.Keys);
    MoreTerms(b, a.Keys * b.Keys, b.Keys);
    MulMonotone(SquaredNorm(a), SquaredNorm(a), Dot(b, b, a.Keys), SquaredNorm(b));
  }

  /** The similarity, given the square roots `na` and `nb` of the squared norms. */
  ghost function Cosine(a: Terms, b: Terms, na: real, nb: real): real {
    if a == map[] || b == map[] || na == 0.0 || nb == 0.0 then 0.0
    else DotProduct(a, b) as real / (na * nb)
  }

  lemma PositiveProduct(x: real, y: real)
    requires x > 0.0 && y > 0.0
    ensures x * y > 0.0
  {
  }

  lemma RealSquares(x: real, y: real)
    requires x >= 0.0 && y >= 0.0 && x * x <= y * y
    ensures x <= y
  {
    if x > y {
      assert (x - y) * (x + y) == x * x - y * y;
      PositiveProduct(x - y, x + y);
    }
  }

  lemma Quotient(x: real, y: real)
    requires 0.0 <= x <= y && y > 0.0
    ensures 0.0 <= x / y <= 1.0
  {
  }

  lemma RootsOf(d: nat, p: nat, q: nat, na: real, nb: real)
    requires d * d <= p * q && na * na == p as real && nb * nb == q as real && na > 0.0 && nb > 0.0
    ensures d as real <= na * nb
  {
    var x, y := d as real, na * nb;
    assert x * x == (d * d) as real;
    assert y * y == (na * na) * (nb * nb);
    assert (p as real) * (q as real) == (p * q) as real;
    PositiveProduct(na, nb);
    RealSquares(x, y);
  }

  /** The cosine of any two term-count vectors lies between zero and one. */
  lemma CosineInUnit(a: Terms, b: Terms, na: real, nb: real)
    requires na >= 0.0 && na * na == SquaredNorm(a) as real
    requires nb >= 0.0 && nb * nb == SquaredNorm(b) as real
    ensures 0.0 <= Cosine(a, b, na, nb) <= 1.0
  {
    if na > 0.0 && nb > 0.0 {
      CosineSquared(a, b);
      RootsOf(DotProduct(a, b), SquaredNorm(a), SquaredNorm(b), na, nb);
      PositiveProduct(na, nb);
      Quotient(DotProduct(a, b) as real, na * nb);
    }
  }

  // ---------------------------------------------------------------- the corpus filter

  datatype Doc = Doc(chunkId: string, title: string, excerpt: string, metadata: map<string, string>, version: string)

  predicate MetadataMatches(meta: map<string, string>, filters: map<string, Option<string>>) {
    forall key :: key in filters && key != "corpus_version" && filters[key].Some? ==>
      key in meta && meta[key] == filters[key].value
  }

  predicate InScope(doc: Doc, filters: map<string, Option<string>>, version: string) {
    && (version == "" || doc.version == "" || doc.version == version)
    && MetadataMatches(doc.metadata, filters)
  }

  function Scoped(corpus: seq<Doc>, filters: map<string, Option<string>>, version: string): seq<Doc> {
    if corpus == [] then []
    else
      Scoped(corpus[..|corpus| - 1], filters, version)
      + if InScope(corpus[|corpus| - 1], filters, version) then [corpus[|corpus| - 1]] else []
  }

  /** The documents in scope, in order; the whole corpus when none is. */
  method FilterCorpus(corpus: seq<Doc>, filters: map<string, Option<string>>, version: string)
    returns (out: seq<Doc>)
    ensures out == if Scoped(corpus, filters, version) == [] then corpus else Scoped(corpus, filters, version)
  {
    out := [];
    for i := 0 to |corpus|
      invariant out == Scoped(corpus[..i], filters, version)
    {
      assert corpus[..i + 1][..i] == corpus[..i];
      var doc := corpus[i];
      if version != "" && doc.version != "" && doc.version != version {
        continue;
      }
      var matches := MetadataMatches(doc.metadata, filters);
      if filters != map[] && !matches {
        continue;
      }
      out := out + [doc];
    }
    assert corpus[..|corpus|] == corpus;
    if out == [] {
      out := corpus;
    }
  }

  /** Filtering never leaves a non-empty corpus empty, and keeps out-of-scope documents
      only when there is nothing else. */
  lemma {:induction false} ScopedExact(corpus: seq<Doc>, filters: map<string, Option<string>>, version: string)
    ensures forall d :: d in Scoped(corpus, filters, version) <==>
      && d in corpus && (version == "" || d.version == "" || d.version == version)
      && forall key :: key in filters && key != "corpus_version" && filters[key].Some? ==>
           key in d.metadata && d.metadata[key] == filters[key].value
    ensures |Scoped(corpus, filters, version)| <= |corpus|
  {
    if corpus != [] {
      var init, last := corpus[..|corpus| - 1], corpus[|corpus| - 1];
      ScopedExact(init, filters, version);
      forall d ensures d in corpus <==> d in init || d == last {
        assert corpus == init + [last];
      }
    }
  }

  // ---------------------------------------------------------------- ranking

  /** How one document meets the query: shared keywords, the title test, and the cosine. */
  datatype Match = Match(overlap: nat, titleHit: bool, similarity: real)

  function ScoreOf(m: Match): real {
    m.overlap as real + (if m.titleHit then 0.5 else 0.0) + m.similarity * 2.0
  }

  function Scores(matching: Doc -> Match): Doc -> real {
    doc => ScoreOf(matching(doc))
  }

  datatype Scored = Scored(score: real, doc: Doc)

  datatype Evidence = Evidence(chunkId: string, title: Option<string>, excerpt: string, score: real)

  /** Lexicographic order of texts. */
  predicate TextBefore(a: string, b: string) {
    a == [] || (b != [] && (a[0] < b[0] || (a[0] == b[0] && TextBefore(a[1..], b[1..]))))
  }

  /** Score descending, then chunk id ascending. */
  predicate NotAfter(x: Scored, y: Scored) {
    x.score > y.score || (x.score == y.score && TextBefore(x.doc.chunkId, y.doc.chunkId))
  }

  lemma {:induction false} TextTotal(a: string, b: string)
    ensures TextBefore(a, b) || TextBefore(b, a)
  {
    if a != [] && b != [] && a[0] == b[0] {
      TextTotal(a[1..], b[1..]);
    }
  }

  lemma {:induction false} TextTransitive(a: string, b: string, c: string)
    requires TextBefore(a, b) && TextBefore(b, c)
    ensures TextBefore(a, c)
  {
    if a != [] && a[0] == b[0] == c[0] {
      TextTransitive(a[1..], b[1..], c[1..]);
    }
  }

  predicate Ranked(s: seq<Scored>) {
    forall i, j :: 0 <= i < j < |s| ==> NotAfter(s[i], s[j])
  }

  /** The documents with a positive score, in corpus order. */
  function Positive(corpus: seq<Doc>, score: Doc -> real): seq<Scored> {
    if corpus == [] then []
    else
      Positive(corpus[..|corpus| - 1], score)
      + if score(corpus[|corpus| - 1]) > 0.0 then [Scored(score(corpus[|corpus| - 1]), corpus[|corpus| - 1])] else []
  }

  /** Insert behind everything that may stay in front. */
  method Insert(s: seq<Scored>, x: Scored) returns (r: seq<Scored>)
    requires Ranked(s)
    ensures Ranked(r) && multiset(r) == multiset(s) + multiset{x}
  {
    var i := 0;
    while i < |s| && NotAfter(s[i], x)
      invariant i <= |s| && forall j :: 0 <= j < i ==> NotAfter(s[j], x)
    {
      i := i + 1;
    }
    r := s[..i] + [x] + s[i..];
    assert s == s[..i] + s[i..];
    forall j | i <= j < |s| ensures NotAfter(x, s[j]) {
      TextTotal(s[i].doc.chunkId, x.doc.chunkId);
      if j > i && x.score == s[i].score == s[j].score {
        TextTransitive(x.doc.chunkId, s[i].doc.chunkId, s[j].doc.chunkId);
      }
    }
    RankedInsert(s, i, x);
  }

  lemma RankedInsert(s: seq<Scored>, i: nat, x: Scored)
    requires Ranked(s) && i <= |s|
    requires forall j :: 0 <= j < i ==> NotAfter(s[j], x)
    requires forall j :: i <= j < |s| ==> NotAfter(x, s[j])
    ensures Ranked(s[..i] + [x] + s[i..])
  {
    var r := s[..i] + [x] + s[i..];
    assert forall j :: 0 <= j < i ==> r[j] == s[j];
    assert forall j :: i < j < |r| ==> r[j] == s[j - 1];
  }

  method Sort(s: seq<Scored>) returns (r: seq<Scored>)
    ensures Ranked(r) && multiset(r) == multiset(s)
  {
    r := [];
    for i := 0 to |s|
      invariant Ranked(r) && multiset(r) == multiset(s[..i])
    {
      assert s[..i + 1] == s[..i] + [s[i]];
      r := Insert(r, s[i]);
    }
    assert s[..|s|] == s;
  }

  function Capped(score: real): real {
    if score / 5.0 < 1.0 then score / 5.0 else 1.0
  }

  function TitleOr(title: string): Option<string> {
    if title == "" then None else Some(title)
  }

  /** What is returned for a ranked document: its own chunk under the title of the document
      that was scanned last. */
  function EvidenceFor(x: Scored, lastTitle: string): Evidence {
    Evidence(x.doc.chunkId, TitleOr(lastTitle), x.doc.excerpt, Capped(x.score))
  }

  function Fallback(doc: Doc): Evidence {
    Evidence(doc.chunkId, TitleOr(doc.title), doc.excerpt, 0.1)
  }

  function LastTitle(corpus: seq<Doc>): string {
    if corpus == [] then "" else corpus[|corpus| - 1].title
  }

  ghost predicate TopOf(ranked: seq<Scored>, corpus: seq<Doc>, score: Doc -> real) {
    Ranked(ranked) && multiset(ranked) == multiset(Positive(corpus, score))
  }

  function Smaller(m: nat, n: nat): nat { if m < n then m else n }

  /** The answer to a query: the top of the ranked documents that meet it at all, the first
      document when none does, nothing without a document or without room. */
  ghost predicate Answers(
    out: seq<Evidence>, ranked: seq<Scored>, corpus: seq<Doc>, matching: Doc -> Match, maxResults: nat)
  {
    && TopOf(ranked, corpus, Scores(matching))
    && (ranked != [] && maxResults > 0 ==>
      && |out| == Smaller(maxResults, |ranked|)
      && forall i :: 0 <= i < |out| ==> out[i] == EvidenceFor(ranked[i], LastTitle(corpus)))
    && (ranked == [] && corpus != [] && maxResults > 0 ==>
      out == [Evidence(corpus[0].chunkId, TitleOr(corpus[0].title), corpus[0].excerpt, 0.1)])
    && (out == [] <==> corpus == [] || maxResults == 0)
  }

  method ScoreAndRank(corpus: seq<Doc>, matching: Doc -> Match, maxResults: nat)
    returns (out: seq<Evidence>)
    ensures exists ranked :: Answers(out, ranked, corpus, matching, maxResults)
  {
    var scored, title := ScoreAll(corpus, matching);
    scored := Sort(scored);
    ghost var ranked := scored;
    out := Collect(if maxResults < |scored| then scored[..maxResults] else scored, title);
    NothingScored(corpus, Scores(matching), ranked);
    if out == [] && corpus != [] {
      out := out + [Fallback(corpus[0])];
    }
    out := if maxResults < |out| then out[..maxResults] else out;
    assert Answers(out, ranked, corpus, matching, maxResults);
  }

  lemma NothingScored(corpus: seq<Doc>, score: Doc -> real, ranked: seq<Scored>)
    requires TopOf(ranked, corpus, score)
    ensures corpus == [] ==> ranked == []
  {
    assert |multiset(ranked)| == |ranked|;
  }

  /** The scan, which leaves the title of its last document behind. */
  method ScoreAll(corpus: seq<Doc>, matching: Doc -> Match) returns (scored: seq<Scored>, title: string)
    ensures scored == Positive(corpus, Scores(matching)) && title == LastTitle(corpus)
  {
    scored, title := [], "";
    for i := 0 to |corpus|
      invariant scored == Positive(corpus[..i], Scores(matching)) && title == LastTitle(corpus[..i])
    {
      assert corpus[..i + 1][..i] == corpus[..i];
      var doc := corpus[i];
      title := doc.title;
      var s := ScoreOf(matching(doc));
      if s > 0.0 {
        scored := scored + [Scored(s, doc)];
      }
    }
    assert corpus[..|corpus|] == corpus;
  }

  method Collect(kept: seq<Scored>, title: string) returns (out: seq<Evidence>)
    ensures |out| == |kept| && forall i :: 0 <= i < |out| ==> out[i] == EvidenceFor(kept[i], title)
  {
    out := [];
    for i := 0 to |kept|
      invariant |out| == i && forall j :: 0 <= j < i ==> out[j] == EvidenceFor(kept[j], title)
    {
      out := out + [EvidenceFor(kept[i], title)];
    }
  }

  /** The order of texts: a prefix first, or else the smaller character at the first
      position where they differ. */
  lemma {:induction false} TextOrder(a: string, b: string)
    ensures TextBefore(a, b) <==> a <= b || exists k :: FirstDifference(a, b, k) && a[k] < b[k]
  {
    if a == [] || b == [] {
    } else if a[0] != b[0] {
      assert FirstDifference(a, b, 0);
    } else {
      TextOrder(a[1..], b[1..]);
      assert a == [a[0]] + a[1..] && b == [b[0]] + b[1..];
      if k :| FirstDifference(a[1..], b[1..], k) && a[1..][k] < b[1..][k] {
        DifferenceLater(a, b, k);
        assert a[k + 1] < b[k + 1];
      }
      if k :| FirstDifference(a, b, k) && a[k] < b[k] {
        DifferenceEarlier(a, b, k);
        assert a[1..][k - 1] < b[1..][k - 1];
      }
    }
  }

  predicate FirstDifference(a: string, b: string, k: int) {
    0 <= k < |a| && k < |b| && a[..k] == b[..k] && a[k] != b[k]
  }

  lemma DifferenceLater(a: string, b: string, k: int)
    requires a != [] && b != [] && a[0] == b[0] && FirstDifference(a[1..], b[1..], k)
    ensures FirstDifference(a, b, k + 1)
  {
    assert a[..k + 1] == [a[0]] + a[1..][..k] && b[..k + 1] == [b[0]] + b[1..][..k];
  }

  lemma DifferenceEarlier(a: string, b: string, k: int)
    requires a != [] && b != [] && a[0] == b[0] && FirstDifference(a, b, k)
    ensures k > 0 && FirstDifference(a[1..], b[1..], k - 1)
  {
    assert a[1..][..k - 1] == a[..k][1..] && b[1..][..k - 1] == b[..k][1..];
  }

  /** What each score counts: a keyword for one, a title hit for a half, and the similarity
      for its double. */
  lemma ScoreParts(m: Match)
    ensures ScoreOf(Match(m.overlap + 1, m.titleHit, m.similarity)) == ScoreOf(m) + 1.0
    ensures ScoreOf(Match(m.overlap, true, m.similarity)) == ScoreOf(Match(m.overlap, false, m.similarity)) + 0.5
    ensures ScoreOf(Match(m.overlap, m.titleHit, m.similarity + 0.5)) == ScoreOf(m) + 1.0
    ensures ScoreOf(Match(0, false, 0.0)) == 0.0
  {
  }

  /** What an answer that is no fallback says: each chunk is a document's of the corpus with
      a fifth of its score, at most one; scores do not increase, and chunks of one score
      come in the order of their ids. */
  lemma AnswerOrder(
    out: seq<Evidence>, ranked: seq<Scored>, corpus: seq<Doc>, matching: Doc -> Match, maxResults: nat)
    requires Answers(out, ranked, corpus, matching, maxResults) && ranked != [] && maxResults > 0
    ensures |out| <= |ranked|
    ensures forall i :: 0 <= i < |out| ==>
      var doc := ranked[i].doc; var s := ScoreOf(matching(doc));
      && doc in corpus && s > 0.0 && out[i].chunkId == doc.chunkId && out[i].excerpt == doc.excerpt
      && out[i].score == if s < 5.0 then s / 5.0 else 1.0
    ensures forall i, j :: 0 <= i < j < |out| ==>
      && out[i].score >= out[j].score
      && ScoreOf(matching(ranked[i].doc)) >= ScoreOf(matching(ranked[j].doc))
    ensures forall i, j :: 0 <= i < j < |out| && ScoreOf(matching(ranked[i].doc)) == ScoreOf(matching(ranked[j].doc)) ==>
      TextBefore(out[i].chunkId, out[j].chunkId)
  {
    var score := Scores(matching);
    forall i | 0 <= i < |ranked| ensures ranked[i].doc in corpus && ranked[i].score == score(ranked[i].doc) > 0.0 {
      assert ranked[i] in multiset(ranked);
      PositiveOnly(corpus, score, ranked[i]);
    }
    forall i, j | 0 <= i < j < |out|
      ensures ranked[i].score >= ranked[j].score && out[i].score >= out[j].score
      ensures ranked[i].score == ranked[j].score ==> TextBefore(out[i].chunkId, out[j].chunkId)
    {
      assert NotAfter(ranked[i], ranked[j]);
    }
  }

  /** No document left out scores more than one that is returned, and at the same score none
      has an earlier id. */
  lemma TopIsBest(
    out: seq<Evidence>, ranked: seq<Scored>, corpus: seq<Doc>, matching: Doc -> Match, maxResults: nat, i: nat, doc: Doc)
    requires Answers(out, ranked, corpus, matching, maxResults) && ranked != [] && maxResults > 0
    requires i < |out| && doc in corpus && ScoreOf(matching(doc)) > 0.0
    requires forall k :: 0 <= k < |out| ==> ranked[k].doc != doc
    ensures ScoreOf(matching(doc)) <= ScoreOf(matching(ranked[i].doc))
    ensures ScoreOf(matching(doc)) == ScoreOf(matching(ranked[i].doc)) ==> TextBefore(out[i].chunkId, doc.chunkId)
  {
    var score := Scores(matching);
    PositiveHas(corpus, score, doc);
    var x := Scored(score(doc), doc);
    assert x in multiset(ranked);
    var j :| 0 <= j < |ranked| && ranked[j] == x;
    assert NotAfter(ranked[i], ranked[j]);
    assert ranked[i] in multiset(ranked);
    PositiveOnly(corpus, score, ranked[i]);
  }

  lemma {:induction false} PositiveHas(corpus: seq<Doc>, score: Doc -> real, doc: Doc)
    requires doc in corpus && score(doc) > 0.0
    ensures Scored(score(doc), doc) in Positive(corpus, score)
  {
    var init, last := corpus[..|corpus| - 1], corpus[|corpus| - 1];
    if doc != last {
      assert corpus == init + [last];
      PositiveHas(init, score, doc);
    }
  }

  // ---------------------------------------------------------------- titles and scores

  /** The document a returned chunk was taken from. */
  function Origin(ranked: seq<Scored>, corpus: seq<Doc>, i: nat): Doc
    requires if ranked == [] then corpus != [] else i < |ranked|
  {
    if ranked == [] then corpus[0] else ranked[i].doc
  }

  /** Every chunk is returned under its own title exactly when nothing matched or every
      document kept has the title of the document scanned last. */
  lemma TitleFidelityIff(
    out: seq<Evidence>, ranked: seq<Scored>, corpus: seq<Doc>, matching: Doc -> Match, maxResults: nat)
    requires Answers(out, ranked, corpus, matching, maxResults) && corpus != [] && maxResults > 0
    ensures |out| == if ranked == [] then 1 else Smaller(maxResults, |ranked|)
    ensures forall i :: 0 <= i < |out| ==> out[i].chunkId == Origin(ranked, corpus, i).chunkId
    ensures (forall i :: 0 <= i < |out| ==> out[i].title == TitleOr(Origin(ranked, corpus, i).title)) <==>
      ranked == [] || forall i :: 0 <= i < Smaller(maxResults, |ranked|) ==> ranked[i].doc.title == LastTitle(corpus)
  {
    if ranked != [] {
      assert forall i :: 0 <= i < |out| ==>
        (out[i].title == TitleOr(ranked[i].doc.title) <==> ranked[i].doc.title == LastTitle(corpus));
    }
  }

  /** Of any two documents that meet the query, with room for both, the first is returned
      under the title of the second. */
  lemma FirstOfTwo(out: seq<Evidence>, ranked: seq<Scored>, a: Doc, b: Doc, matching: Doc -> Match)
    requires Answers(out, ranked, [a, b], matching, 2)
    requires ScoreOf(matching(a)) > 0.0 && ScoreOf(matching(b)) > 0.0
    ensures exists e :: e in out && e.chunkId == a.chunkId && e.title == TitleOr(b.title)
  {
    var score := Scores(matching);
    var x, y := Scored(score(a), a), Scored(score(b), b);
    assert [a, b][..1] == [a] && [a][..0] == [];
    assert Positive([a], score) == [x];
    assert Positive([a, b], score) == [x, y];
    assert multiset(ranked) == multiset{x, y};
    assert |multiset(ranked)| == |ranked|;
    assert x in multiset(ranked);
    var i :| 0 <= i < |ranked| && ranked[i] == x;
    assert out[i] in out;
  }

  const FIRST := Doc("rb-slo-001", "SLO regression triage", "", map[], "")
  const SECOND := Doc("rb-cap-002", "Capacity saturation", "", map[], "")

  /** A wrong title: two runbooks that each share one keyword with the query. */
  lemma WrongTitle(out: seq<Evidence>, ranked: seq<Scored>, matching: Doc -> Match)
    requires matching(FIRST) == matching(SECOND) == Match(1, false, 0.0)
    requires Answers(out, ranked, [FIRST, SECOND], matching, 2)
    ensures exists e :: e in out && e.chunkId == FIRST.chunkId && e.title == Some(SECOND.title) != Some(FIRST.title)
  {
    FirstOfTwo(out, ranked, FIRST, SECOND, matching);
    assert FIRST.title[0] != SECOND.title[0];
  }

  /** With similarities between zero and one, as `CosineInUnit` has them, an answer that is
      no fallback lists exactly documents that share a keyword, a title hit or a term with
      the query, and its scores lie in the unit interval, above zero. */
  lemma ScoreBounds(
    out: seq<Evidence>, ranked: seq<Scored>, corpus: seq<Doc>, matching: Doc -> Match, maxResults: nat)
    requires Answers(out, ranked, corpus, matching, maxResults)
    requires forall doc :: doc in corpus ==> 0.0 <= matching(doc).similarity <= 1.0
    ensures forall e :: e in out ==> 0.0 < e.score <= 1.0
    ensures forall doc :: doc in corpus ==>
      ((exists x :: x in ranked && x.doc == doc) <==>
        var m := matching(doc); m.overlap > 0 || m.titleHit || m.similarity > 0.0)
  {
    var score := Scores(matching);
    forall x | x in ranked ensures x.doc in corpus && x.score == score(x.doc) > 0.0 {
      assert x in multiset(ranked);
      PositiveOnly(corpus, score, x);
    }
    forall doc | doc in corpus
      ensures (exists x :: x in ranked && x.doc == doc) <==> score(doc) > 0.0
    {
      if score(doc) > 0.0 {
        PositiveHas(corpus, score, doc);
        assert Scored(score(doc), doc) in multiset(ranked);
      }
    }
    forall e | e in out ensures 0.0 < e.score <= 1.0 {
      var i :| 0 <= i < |out| && out[i] == e;
      if ranked != [] {
        assert ranked[i] in ranked;
      }
    }
  }

  lemma {:induction false} PositiveOnly(corpus: seq<Doc>, score: Doc -> real, x: Scored)
    requires x in Positive(corpus, score)
    ensures x.doc in corpus && x.score == score(x.doc) > 0.0
  {
    var init, last := corpus[..|corpus| - 1], corpus[|corpus| - 1];
    if x in Positive(init, score) {
      PositiveOnly(init, score, x);
    }
  }
}
