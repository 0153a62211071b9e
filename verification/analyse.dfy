/**
  The confusion-matrix bookkeeping of tools/analyse_results.py: what `gather_results`
  counts for each protocol, and the ratios computed from the counts.
*/
module Analyse {
  import opened Wrappers

  /** A protocol; flows that neither the flows file nor a default names have a key of their own. */
  datatype Protocol = Nameless | Named(name: string)

  /** The protocol a result mentions, if any. */
  datatype Mention = Nobody | As(protocol: Protocol)

  /** One classification result, and the protocol it should have been. */
  datatype Result = Result(expected: Protocol, classified: bool, mention: Mention, underLimit: bool) {
    /** A classified result that mentions no protocol cannot be read. */
    predicate Readable() {
      classified ==> mention.As?
    }

    /** What the classifier called the flow. */
    function Verdict(): Mention {
      if classified then mention else Nobody
    }
  }

  datatype Counts = Counts(truePositive: nat, falsePositive: nat, trueNegative: nat, falseNegative: nat, notClassified: nat,
                           underDefiningLimit: nat, falsePositiveProtocols: map<Protocol, nat>, falseNegativeProtocols: map<Protocol, nat>)

  const NO_COUNTS := Counts(0, 0, 0, 0, 0, 0, map[], map[])

  /** The counts of each protocol, and how many results had been seen before its entry was made. */
  datatype Books = Books(counts: map<Protocol, Counts>, since: map<Protocol, nat>, seen: nat)

  // ---------- one result ----------

  function AddEntry(b: Books, p: Protocol): Books {
    if p in b.counts then b else b.(counts := b.counts[p := NO_COUNTS], since := b.since[p := b.seen])
  }

  function OneMore(table: map<Protocol, nat>, p: Protocol): map<Protocol, nat> {
    table[p := (if p in table then table[p] else 0) + 1]
  }

  /** What a result adds to the counts of a protocol. */
  function Bump(c: Counts, p: Protocol, r: Result): Counts
    requires r.Readable()
  {
    if !r.classified then
      if p == r.expected then
        c.(notClassified := c.notClassified + 1, underDefiningLimit := c.underDefiningLimit + if r.underLimit then 1 else 0)
      else c.(trueNegative := c.trueNegative + 1)
    else if p == r.expected && p == r.mention.protocol then c.(truePositive := c.truePositive + 1)
    else if p == r.expected then
      c.(falseNegative := c.falseNegative + 1, falseNegativeProtocols := OneMore(c.falseNegativeProtocols, r.mention.protocol))
    else if p == r.mention.protocol then
      c.(falsePositive := c.falsePositive + 1, falsePositiveProtocols := OneMore(c.falsePositiveProtocols, r.expected))
    else c.(trueNegative := c.trueNegative + 1)
  }

  function Enter(b: Books, r: Result): Books {
    var b := AddEntry(b, r.expected);
    if r.mention.As? then AddEntry(b, r.mention.protocol) else b
  }

  function Gather(b: Books, r: Result): Books
    requires r.Readable()
  {
    var e := Enter(b, r);
    Books(map p | p in e.counts :: Bump(e.counts[p], p, r), e.since, e.seen + 1)
  }

  function GatherAll(b: Books, rs: seq<Result>): Books
    requires forall i :: 0 <= i < |rs| ==> rs[i].Readable()
  {
    if rs == [] then b else Gather(GatherAll(b, rs[..|rs| - 1]), rs[|rs| - 1])
  }

  /** How many results can be read before one cannot. */
  function ReadableUpTo(rs: seq<Result>): (n: nat)
    ensures n <= |rs| && (forall i :: 0 <= i < n ==> rs[i].Readable()) && (n < |rs| ==> !rs[n].Readable())
  {
    if rs == [] then 0
    else
      var front := ReadableUpTo(rs[..|rs| - 1]);
      if front < |rs| - 1 || !rs[|rs| - 1].Readable() then front else |rs|
  }

  lemma ReadableUntil(rs: seq<Result>, n: nat)
    requires n <= |rs| && (forall i :: 0 <= i < n ==> rs[i].Readable()) && (n < |rs| ==> !rs[n].Readable())
    ensures ReadableUpTo(rs) == n
  {
    hide Result.Readable;
  }

  // ---------- the confusion matrix ----------

  /** The results that the oracle calls `expected` and the classifier calls `verdict`, or nothing at all. */
  function Cell(rs: seq<Result>, expected: Protocol, verdict: Mention): nat {
    if rs == [] then 0
    else Cell(rs[..|rs| - 1], expected, verdict) + if rs[|rs| - 1].expected == expected && rs[|rs| - 1].Verdict() == verdict then 1 else 0
  }

  /** The results of a protocol that were called nothing, with too few packets to be judged. */
  function TooShort(rs: seq<Result>, p: Protocol): nat {
    if rs == [] then 0
    else TooShort(rs[..|rs| - 1], p) + if rs[|rs| - 1].expected == p && !rs[|rs| - 1].classified && rs[|rs| - 1].underLimit then 1 else 0
  }

  /** The results of a protocol that were called something else. */
  function Missed(rs: seq<Result>, p: Protocol): nat {
    if rs == [] then 0
    else Missed(rs[..|rs| - 1], p) + if rs[|rs| - 1].expected == p && rs[|rs| - 1].Verdict() !in {Nobody, As(p)} then 1 else 0
  }

  /** The results of other protocols that were called this one. */
  function Mistaken(rs: seq<Result>, p: Protocol): nat {
    if rs == [] then 0
    else Mistaken(rs[..|rs| - 1], p) + if rs[|rs| - 1].expected != p && rs[|rs| - 1].Verdict() == As(p) then 1 else 0
  }

  function Get(table: map<Protocol, nat>, p: Protocol): nat {
    if p in table then table[p] else 0
  }

  function Total(c: Counts): nat {
    c.truePositive + c.falsePositive + c.trueNegative + c.falseNegative + c.notClassified
  }

  function CountsOf(b: Books, p: Protocol): Counts {
    if p in b.counts then b.counts[p] else NO_COUNTS
  }

  /** The counts of `p` are what the results say, and add up to the results since it has been known. */
  predicate Exact(b: Books, rs: seq<Result>, p: Protocol) {
    var c := CountsOf(b, p);
    && c.truePositive == Cell(rs, p, As(p))
    && c.falseNegative == Missed(rs, p)
    && c.falsePositive == Mistaken(rs, p)
    && c.notClassified == Cell(rs, p, Nobody)
    && c.underDefiningLimit == TooShort(rs, p)
    && (p in b.counts <==> p in b.since)
    && (p in b.counts ==> b.since[p] <= b.seen && Total(c) == b.seen - b.since[p])
    && b.seen == |rs|
  }

  /** The tables of `p` hold the cells of its row and of its column, off the diagonal. */
  predicate ExactTables(b: Books, rs: seq<Result>, p: Protocol, q: Protocol) {
    var c := CountsOf(b, p);
    && Get(c.falseNegativeProtocols, q) == (if q == p then 0 else Cell(rs, p, As(q)))
    && Get(c.falsePositiveProtocols, q) == (if q == p then 0 else Cell(rs, q, As(p)))
  }

  lemma EnterKeepsCounts(b: Books, r: Result, p: Protocol)
    requires p in b.counts <==> p in b.since
    ensures var e := Enter(b, r);
            && CountsOf(e, p) == CountsOf(b, p) && e.seen == b.seen
            && (p in e.counts <==> p in e.since)
            && (p in b.counts ==> p in e.counts && e.since[p] == b.since[p])
            && (p !in b.counts && p in e.counts ==> e.since[p] == b.seen)
            && (p == r.expected || r.mention == As(p) ==> p in e.counts)
  {
  }

  lemma CellOneMore(rs: seq<Result>, r: Result, p: Protocol, verdict: Mention)
    ensures Cell(rs + [r], p, verdict) == Cell(rs, p, verdict) + if r.expected == p && r.Verdict() == verdict then 1 else 0
    ensures Missed(rs + [r], p) == Missed(rs, p) + if r.expected == p && r.Verdict() !in {Nobody, As(p)} then 1 else 0
    ensures Mistaken(rs + [r], p) == Mistaken(rs, p) + if r.expected != p && r.Verdict() == As(p) then 1 else 0
  {
    assert (rs + [r])[..|rs|] == rs;
  }

  lemma GatherOne(b: Books, rs: seq<Result>, r: Result, p: Protocol)
    requires r.Readable() && Exact(b, rs, p)
    ensures Exact(Gather(b, r), rs + [r], p)
  {
    hide Enter, Cell, Missed, Mistaken;
    EnterKeepsCounts(b, r, p);
    CellOneMore(rs, r, p, As(p));
    CellOneMore(rs, r, p, Nobody);
  }

  lemma GatherOneInTables(b: Books, rs: seq<Result>, r: Result, p: Protocol, q: Protocol)
    requires r.Readable() && (p in b.counts <==> p in b.since) && ExactTables(b, rs, p, q)
    ensures ExactTables(Gather(b, r), rs + [r], p, q)
  {
    hide Enter, Cell, Missed, Mistaken;
    EnterKeepsCounts(b, r, p);
    CellOneMore(rs, r, p, As(q));
    CellOneMore(rs, r, q, As(p));
  }

  /** Entries without any counts, made before the first result. */
  ghost predicate Empty(b: Books) {
    b.seen == 0 && b.counts.Keys == b.since.Keys && forall q :: q in b.counts ==> b.counts[q] == NO_COUNTS && b.since[q] == 0
  }

  /** After any results, whatever entries were there to begin with: every count is a cell of the confusion
      matrix, or a row or column of it without the diagonal, and they add up to the results since the entry
      was made. */
  lemma {:induction false} CountsAreTheConfusionMatrix(b: Books, rs: seq<Result>, p: Protocol, q: Protocol)
    requires Empty(b) && forall i :: 0 <= i < |rs| ==> rs[i].Readable()
    ensures Exact(GatherAll(b, rs), rs, p) && ExactTables(GatherAll(b, rs), rs, p, q)
  {
    hide Gather, Cell, Missed, Mistaken, Result.Readable;
    if rs == [] {
      NothingGathered(b, p, q);
    } else {
      var n := |rs| - 1;
      CountsAreTheConfusionMatrix(b, rs[..n], p, q);
      GatherOne(GatherAll(b, rs[..n]), rs[..n], rs[n], p);
      GatherOneInTables(GatherAll(b, rs[..n]), rs[..n], rs[n], p, q);
      assert rs[..n] + [rs[n]] == rs;
    }
  }

  lemma NothingGathered(b: Books, p: Protocol, q: Protocol)
    requires Empty(b)
    ensures Exact(b, [], p) && ExactTables(b, [], p, q)
  {
    hide Total;
    assert p in b.counts.Keys <==> p in b.since.Keys;
    NothingTotals(CountsOf(b, p));
  }

  lemma NothingTotals(c: Counts)
    requires c.truePositive == 0 && c.falsePositive == 0 && c.trueNegative == 0 && c.falseNegative == 0 && c.notClassified == 0
    ensures Total(c) == 0
  {
  }

  /** The false positive table of one protocol and the false negative tables of the others are transposes. */
  lemma TablesAreTransposes(b: Books, rs: seq<Result>, p: Protocol, q: Protocol)
    requires Empty(b) && forall i :: 0 <= i < |rs| ==> rs[i].Readable()
    ensures var g := GatherAll(b, rs);
            Get(CountsOf(g, p).falsePositiveProtocols, q) == Get(CountsOf(g, q).falseNegativeProtocols, p)
  {
    hide GatherAll, Cell;
    CountsAreTheConfusionMatrix(b, rs, p, q);
    CountsAreTheConfusionMatrix(b, rs, q, p);
  }

  // ---------- totals ----------

  function SumOver(ps: seq<Protocol>, f: Protocol -> nat): nat {
    if ps == [] then 0 else SumOver(ps[..|ps| - 1], f) + f(ps[|ps| - 1])
  }

  ghost predicate Distinct(ps: seq<Protocol>) {
    forall i, j :: 0 <= i < j < |ps| ==> ps[i] != ps[j]
  }

  /** Adding one at a single protocol of a list adds one to the sum. */
  lemma {:induction false} SumOneMore(ps: seq<Protocol>, f: Protocol -> nat, g: Protocol -> nat, p: Protocol, extra: nat)
    requires Distinct(ps) && g(p) == f(p) + extra && forall q :: q in ps && q != p ==> g(q) == f(q)
    ensures SumOver(ps, g) == SumOver(ps, f) + if p in ps then extra else 0
  {
    if ps != [] {
      var n := |ps| - 1;
      SumOneMore(ps[..n], f, g, p, extra);
    }
  }

  lemma {:induction false} SumOfNothing(ps: seq<Protocol>, f: Protocol -> nat)
    requires forall p :: p in ps ==> f(p) == 0
    ensures SumOver(ps, f) == 0
  {
    if ps != [] {
      SumOfNothing(ps[..|ps| - 1], f);
    }
  }

  /** Over any list of protocols with all that occur in the results, there are as many misses as mistakes. */
  lemma {:induction false} MissesEqualMistakes(rs: seq<Result>, ps: seq<Protocol>)
    requires Distinct(ps)
    requires forall i :: 0 <= i < |rs| ==> rs[i].Readable() && rs[i].expected in ps && (rs[i].classified ==> rs[i].mention.protocol in ps)
    ensures SumOver(ps, p => Missed(rs, p)) == SumOver(ps, p => Mistaken(rs, p))
  {
    hide Cell, SumOver;
    if rs == [] {
      SumOfNothing(ps, p => Missed(rs, p));
      SumOfNothing(ps, p => Mistaken(rs, p));
    } else {
      var n := |rs| - 1;
      var r, front := rs[n], rs[..n];
      MissesEqualMistakes(front, ps);
      var wrong := if r.classified && r.mention != As(r.expected) then 1 else 0;
      SumOneMore(ps, p => Missed(front, p), p => Missed(rs, p), r.expected, wrong);
      if r.classified {
        SumOneMore(ps, p => Mistaken(front, p), p => Mistaken(rs, p), r.mention.protocol, wrong);
      } else {
        SumOneMore(ps, p => Mistaken(front, p), p => Mistaken(rs, p), r.expected, 0);
      }
    }
  }

  lemma {:induction false} SameSums(ps: seq<Protocol>, f: Protocol -> nat, g: Protocol -> nat)
    requires forall p :: p in ps ==> f(p) == g(p)
    ensures SumOver(ps, f) == SumOver(ps, g)
  {
    if ps != [] {
      SameSums(ps[..|ps| - 1], f, g);
    }
  }

  lemma {:induction false} ResultsHaveEntries(b: Books, rs: seq<Result>, i: nat)
    requires i < |rs| && forall j :: 0 <= j < |rs| ==> rs[j].Readable()
    ensures rs[i].expected in GatherAll(b, rs).counts
    ensures rs[i].mention.As? ==> rs[i].mention.protocol in GatherAll(b, rs).counts
    decreases |rs|
  {
    if i < |rs| - 1 {
      ResultsHaveEntries(b, rs[..|rs| - 1], i);
    }
  }

  /** Over all protocols there are as many false positives as false negatives. */
  lemma FalsePositivesEqualFalseNegatives(b: Books, rs: seq<Result>, ps: seq<Protocol>)
    requires Empty(b) && forall i :: 0 <= i < |rs| ==> rs[i].Readable()
    requires Distinct(ps) && forall p :: p in ps <==> p in GatherAll(b, rs).counts
    ensures var g := GatherAll(b, rs);
            SumOver(ps, p => CountsOf(g, p).falsePositive) == SumOver(ps, p => CountsOf(g, p).falseNegative)
  {
    hide GatherAll, Cell, Missed, Mistaken, SumOver;
    var g := GatherAll(b, rs);
    forall i | 0 <= i < |rs| ensures rs[i].expected in ps && (rs[i].classified ==> rs[i].mention.protocol in ps) {
      ResultsHaveEntries(b, rs, i);
    }
    forall p | p in ps ensures CountsOf(g, p).falsePositive == Mistaken(rs, p) && CountsOf(g, p).falseNegative == Missed(rs, p) {
      CountsAreTheConfusionMatrix(b, rs, p, p);
    }
    SameSums(ps, p => CountsOf(g, p).falsePositive, p => Mistaken(rs, p));
    SameSums(ps, p => CountsOf(g, p).falseNegative, p => Missed(rs, p));
    MissesEqualMistakes(rs, ps);
  }

  // ---------- ratios ----------

  /** The share `a` has in `a + b`; nothing of nothing is 0. */
  function Share(a: nat, b: nat): real {
    if a == 0 && b == 0 then 0.0 else a as real / (a + b) as real
  }

  function FMeasure(precision: real, recall: real): real
    requires precision >= 0.0 && recall >= 0.0
  {
    if precision == 0.0 && recall == 0.0 then 0.0 else 2.0 * precision * recall / (precision + recall)
  }

  lemma ShareIsPositive(a: nat, b: nat)
    ensures Share(a, b) >= 0.0 && (Share(a, b) == 0.0 <==> a == 0)
    ensures Share(a, b) * (a + b) as real == a as real
  {
    if a > 0 || b > 0 {
      var t := (a + b) as real;
      assert Share(a, b) * t == a as real;
    }
  }

  /** Recall, precision and F-measure, in percent. */
  function Analysis(truePositive: nat, falsePositive: nat, falseNegative: nat): (real, real, real) {
    ShareIsPositive(truePositive, falseNegative);
    ShareIsPositive(truePositive, falsePositive);
    var recall, precision := Share(truePositive, falseNegative), Share(truePositive, falsePositive);
    (recall * 100.0, precision * 100.0, FMeasure(precision, recall) * 100.0)
  }

  /** With a = TP, b = TP + FN, c = TP + FP, the F-measure (2 a/b a/c) / (a/b + a/c) is 2a / (b + c). */
  lemma HarmonicMean(p: real, r: real, a: real, b: real, c: real, f: real)
    requires a > 0.0 && b > 0.0 && c > 0.0 && r * b == a && p * c == a && r > 0.0 && p > 0.0
    requires f * (p + r) == 2.0 * p * r
    ensures f == 2.0 * a / (b + c)
  {
    Cleared(p, r, a, b, c);
    assert f * (p + r) * (b * c) == f * ((p + r) * (b * c));
    assert 2.0 * p * r * (b * c) == 2.0 * ((p * c) * (r * b));
    CancelFactor(f * (b + c), 2.0 * a, a);
    Divide(f, b + c, 2.0 * a);
  }

  lemma Cleared(p: real, r: real, a: real, b: real, c: real)
    requires r * b == a && p * c == a
    ensures (p + r) * (b * c) == a * (b + c)
  {
    assert (p + r) * (b * c) == (p * c) * b + (r * b) * c;
  }

  lemma Divide(f: real, d: real, n: real)
    requires d > 0.0 && f * d == n
    ensures f == n / d
  {
  }

  /** Recall is the share of the protocol's flows that were found, precision the share of the flows found that
      are the protocol's, in percent; both are 0 without true positives. */
  lemma RecallAndPrecision(truePositive: nat, falsePositive: nat, falseNegative: nat)
    ensures var (recall, precision, _) := Analysis(truePositive, falsePositive, falseNegative);
            if truePositive == 0 then recall == 0.0 && precision == 0.0
            else
              && recall * (truePositive + falseNegative) as real == 100.0 * truePositive as real
              && precision * (truePositive + falsePositive) as real == 100.0 * truePositive as real
  {
    if truePositive > 0 {
      QuotientTimesDivisor(truePositive as real, (truePositive + falseNegative) as real);
      QuotientTimesDivisor(truePositive as real, (truePositive + falsePositive) as real);
    }
  }

  /** The F-measure is 100 * 2TP / (2TP + FP + FN), and 0 without true positives. */
  lemma FMeasureInClosedForm(truePositive: nat, falsePositive: nat, falseNegative: nat)
    ensures Analysis(truePositive, falsePositive, falseNegative).2 ==
              if truePositive == 0 then 0.0
              else 100.0 * ((2 * truePositive) as real / (2 * truePositive + falsePositive + falseNegative) as real)
  {
    hide Share;
    var r, p := Share(truePositive, falseNegative), Share(truePositive, falsePositive);
    ShareIsPositive(truePositive, falseNegative);
    ShareIsPositive(truePositive, falsePositive);
    if truePositive > 0 {
      var f := FMeasure(p, r);
      QuotientTimesDivisor(2.0 * p * r, p + r);
      HarmonicMean(p, r, truePositive as real, (truePositive + falseNegative) as real, (truePositive + falsePositive) as real, f);
    }
  }

  lemma QuotientTimesDivisor(n: real, d: real)
    requires d > 0.0
    ensures n / d * d == n
  {
  }
}
