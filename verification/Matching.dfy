/**
 * How well a corper and a company match: eleven weighted components, over exact reals.
 *
 * Text enters as its normalised phrases and their tokens, allowance wording as the facts its parser looks
 * for; splitting, normalising and tokenising strings are not part of the model.
 */
module Matching {
  import opened Wrappers

  function Max(x: real, y: real): real { if x >= y then x else y }

  function Min(x: real, y: real): real { if y < x then y else x }

  function Abs(x: real): real { if x < 0.0 then -x else x }

  /** Part of a maximum is between nothing and the maximum. */
  lemma Scaled(most: real, part: real)
    requires 0.0 <= most && 0.0 <= part <= 1.0
    ensures 0.0 <= most * part <= most
  {
  }

  lemma ScaledStrictly(most: real, part: real)
    requires 0.0 < most && 0.0 < part < 1.0
    ensures 0.0 < most * part < most
  {
  }

  // ---- Similarity of phrases ----

  /** A phrase after normalisation, and its tokens without stop words and short words. */
  datatype Phrase = Phrase(norm: string, tokens: set<string>)

  predicate Occurs(part: string, whole: string) {
    exists i :: 0 <= i <= |whole| && part <= whole[i..]
  }

  /** One text occurs in another that is some text, it, and some text. */
  lemma OccursExactly(part: string, whole: string)
    ensures Occurs(part, whole) <==> exists before: string, after: string :: whole == before + part + after
  {
    if Occurs(part, whole) {
      var i :| 0 <= i <= |whole| && part <= whole[i..];
      assert whole == whole[..i] + part + whole[i + |part|..];
    }
    forall before: string, after: string | whole == before + part + after ensures Occurs(part, whole) {
      assert whole[|before|..] == part + after;
    }
  }

  function Share(part: nat, whole: nat): (r: real)
    requires 0 < whole && part <= whole
    ensures 0.0 <= r <= 1.0
    ensures (r == 0.0 <==> part == 0) && (r == 1.0 <==> part == whole)
  {
    part as real / whole as real
  }

  lemma OverlapSizes(a: set<string>, b: set<string>)
    ensures |a * b| <= |a| && |a * b| <= |b|
    ensures |a * b| == |a| <==> a <= b
    ensures |a * b| == |b| <==> b <= a
  {
    SubsetSize(a * b, a);
    SubsetSize(a * b, b);
  }

  lemma SubsetSize(a: set<string>, b: set<string>)
    requires a <= b
    ensures |a| <= |b| && (|a| == |b| <==> a == b)
  {
    assert |b - a| == |b| - |a|;
    if |a| == |b| { assert b - a == {}; }
  }

  function TokenOverlap(candidate: set<string>, desired: set<string>): (r: real)
    ensures 0.0 <= r <= 1.0
    ensures r > 0.0 <==> candidate * desired != {}
    ensures r == 1.0 <==> candidate == desired && candidate != {}
  {
    var overlap := candidate * desired;
    if candidate == {} || desired == {} || overlap == {} then 0.0
    else
      OverlapSizes(candidate, desired);
      Min(1.0, Share(|overlap|, |desired|) * 0.75 + Share(|overlap|, |candidate|) * 0.25)
  }

  /** Of the shared tokens, three quarters count against the desired ones and one against the candidate's. */
  lemma TokenOverlapExactly(candidate: set<string>, desired: set<string>)
    requires candidate != {} && desired != {}
    ensures var shared, c, d := |candidate * desired| as real, |candidate| as real, |desired| as real;
      TokenOverlap(candidate, desired) * (4.0 * c * d) == shared * (3.0 * c + d)
  {
    var shared, c, d := |candidate * desired| as real, |candidate| as real, |desired| as real;
    OverlapSizes(candidate, desired);
    if candidate * desired != {} {
      var x, y := shared / d, shared / c;
      assert x * d == shared && y * c == shared;
      assert TokenOverlap(candidate, desired) == x * 0.75 + y * 0.25;
      Weighted(x, y, c, d, shared);
    }
  }

  lemma Weighted(x: real, y: real, c: real, d: real, shared: real)
    requires x * d == shared && y * c == shared
    ensures (x * 0.75 + y * 0.25) * (4.0 * c * d) == shared * (3.0 * c + d)
  {
    assert (x * 0.75) * (4.0 * c * d) == 3.0 * c * (x * d);
    assert (y * 0.25) * (4.0 * c * d) == d * (y * c);
  }

  /** Covering all that is desired is worth three quarters, and the rest by how little else there is; being
      all desired is worth a quarter, and the rest by how much of the desired it is. */
  lemma OverlapOfContained(candidate: set<string>, desired: set<string>)
    requires candidate != {} && desired != {}
    ensures desired <= candidate ==>
              TokenOverlap(candidate, desired) == 0.75 + |desired| as real / |candidate| as real * 0.25
    ensures candidate <= desired ==>
              TokenOverlap(candidate, desired) == 0.25 + |candidate| as real / |desired| as real * 0.75
  {
    OverlapSizes(candidate, desired);
    if desired <= candidate { assert candidate * desired == desired; }
    if candidate <= desired { assert candidate * desired == candidate; }
  }

  predicate Related(a: Phrase, b: Phrase) { Occurs(a.norm, b.norm) || Occurs(b.norm, a.norm) }

  function Similarity(candidate: Phrase, desired: Phrase): (r: real)
    ensures 0.0 <= r <= 1.0
    ensures candidate.norm != "" && desired.norm != "" ==>
              (r > 0.0 <==> candidate.norm == desired.norm || Related(candidate, desired)
                            || candidate.tokens * desired.tokens != {})
    ensures r == 1.0 ==> candidate.norm == desired.norm || candidate.tokens == desired.tokens
    ensures candidate.norm != "" && desired.norm != "" && candidate.norm != desired.norm ==>
              Related(candidate, desired) ==> r == 0.95
  {
    if candidate.norm == "" || desired.norm == "" then 0.0
    else if candidate.norm == desired.norm then 1.0
    else if Related(candidate, desired) then 0.95
    else TokenOverlap(candidate.tokens, desired.tokens)
  }

  /** What decides a likeness, case by case. */
  lemma SimilarityCases(candidate: Phrase, desired: Phrase)
    ensures var r := Similarity(candidate, desired);
      && (candidate.norm == "" || desired.norm == "" ==> r == 0.0)
      && (candidate.norm == desired.norm != "" ==> r == 1.0)
      && (candidate.norm != "" && desired.norm != "" && candidate.norm != desired.norm ==>
            && (Occurs(candidate.norm, desired.norm) ==> r == 0.95)
            && (Occurs(desired.norm, candidate.norm) ==> r == 0.95)
            && (!Occurs(candidate.norm, desired.norm) && !Occurs(desired.norm, candidate.norm) ==>
                  r == TokenOverlap(candidate.tokens, desired.tokens)))
  {
  }

  function BestOf(candidates: seq<Phrase>, desired: Phrase): (r: real)
    ensures 0.0 <= r <= 1.0
    ensures forall i :: 0 <= i < |candidates| ==> Similarity(candidates[i], desired) <= r
    ensures candidates != [] ==> exists i :: 0 <= i < |candidates| && r == Similarity(candidates[i], desired)
  {
    if candidates == [] then 0.0
    else
      var last := |candidates| - 1;
      Max(BestOf(candidates[..last], desired), Similarity(candidates[last], desired))
  }

  function BestPair(lefts: seq<Phrase>, rights: seq<Phrase>): (r: real)
    ensures 0.0 <= r <= 1.0
  {
    if rights == [] then 0.0 else Max(BestPair(lefts, rights[..|rights| - 1]), BestOf(lefts, rights[|rights| - 1]))
  }

  /** The best over all pairs: none is better, and one is as good. */
  lemma {:induction false} BestPairIsBest(lefts: seq<Phrase>, rights: seq<Phrase>)
    requires lefts != [] && rights != []
    ensures forall i, j :: 0 <= i < |lefts| && 0 <= j < |rights| ==>
              Similarity(lefts[i], rights[j]) <= BestPair(lefts, rights)
    ensures exists i, j :: 0 <= i < |lefts| && 0 <= j < |rights|
                           && Similarity(lefts[i], rights[j]) == BestPair(lefts, rights)
    decreases |rights|
  {
    hide Similarity, BestOf;
    var last := |rights| - 1;
    var first := rights[..last];
    if first != [] {
      BestPairIsBest(lefts, first);
      forall i, j | 0 <= i < |lefts| && 0 <= j < |rights|
        ensures Similarity(lefts[i], rights[j]) <= BestPair(lefts, rights)
      {
        if j < last { assert rights[j] == first[j]; }
      }
      if BestPair(lefts, rights) != BestOf(lefts, rights[last]) {
        var i, j :| 0 <= i < |lefts| && 0 <= j < |first| && Similarity(lefts[i], first[j]) == BestPair(lefts, first);
        assert rights[j] == first[j];
      }
    }
    if BestPair(lefts, rights) == BestOf(lefts, rights[last]) {
      var i :| 0 <= i < |lefts| && Similarity(lefts[i], rights[last]) == BestOf(lefts, rights[last]);
      assert Similarity(lefts[i], rights[last]) == BestPair(lefts, rights);
    }
  }

  /** A text: the whole of it as one phrase, and its distinct listed phrases. */
  datatype Text = Text(whole: Phrase, phrases: seq<Phrase>)

  function BestSimilarity(left: Text, right: Text): (r: real)
    ensures 0.0 <= r <= 1.0
  {
    if left.phrases == [] || right.phrases == [] then Similarity(left.whole, right.whole)
    else BestPair(left.phrases, right.phrases)
  }

  // ---- Coverage of desired phrases by evidence ----

  function CoverageSum(desired: seq<Phrase>, evidence: seq<Phrase>): (r: real)
    ensures 0.0 <= r <= |desired| as real
  {
    if desired == [] then 0.0
    else
      var last := |desired| - 1;
      CoverageSum(desired[..last], evidence) + BestOf(evidence, desired[last])
  }

  function Coverage(desired: seq<Phrase>, evidence: seq<Phrase>): (r: real)
    ensures 0.0 <= r <= 1.0
  {
    if desired == [] || evidence == [] then 0.0
    else Min(CoverageSum(desired, evidence) / |desired| as real, 1.0)
  }

  /** The average over the desired phrases, accumulated phrase by phrase. */
  method PhraseCoverage(desired: seq<Phrase>, evidence: seq<Phrase>) returns (ratio: real)
    ensures ratio == Coverage(desired, evidence)
  {
    hide Similarity;
    if desired == [] || evidence == [] { return 0.0; }
    var total := 0.0;
    for n := 0 to |desired|
      invariant total == CoverageSum(desired[..n], evidence)
    {
      var best := 0.0;
      for i := 0 to |evidence|
        invariant best == BestOf(evidence[..i], desired[n])
      {
        assert evidence[..i + 1][..i] == evidence[..i];
        best := Max(best, Similarity(evidence[i], desired[n]));
      }
      assert evidence[..|evidence|] == evidence;
      assert desired[..n + 1][..n] == desired[..n];
      total := total + best;
    }
    assert desired[..|desired|] == desired;
    ratio := Min(total / |desired| as real, 1.0);
  }

  /** The average alone never passes one: the cap on it is idle. */
  lemma CoverageIsAverage(desired: seq<Phrase>, evidence: seq<Phrase>)
    requires desired != [] && evidence != []
    ensures Coverage(desired, evidence) * |desired| as real == CoverageSum(desired, evidence)
  {
    hide CoverageSum;
    var sum, n := CoverageSum(desired, evidence), |desired| as real;
    Quotient(sum, n);
    assert Coverage(desired, evidence) == sum / n;
  }

  lemma Quotient(x: real, w: real)
    requires 0.0 <= x && 0.0 < w
    ensures 0.0 <= x / w && (x / w) * w == x && (x <= w ==> x / w <= 1.0) && (x < w ==> x / w < 1.0)
  {
  }

  /** Coverage adds up over the desired phrases; one phrase is covered as well as by its best evidence. */
  lemma {:induction false} CoverageAdds(a: seq<Phrase>, b: seq<Phrase>, evidence: seq<Phrase>)
    ensures CoverageSum(a + b, evidence) == CoverageSum(a, evidence) + CoverageSum(b, evidence)
    ensures forall p: Phrase :: CoverageSum([p], evidence) == BestOf(evidence, p)
    decreases |b|
  {
    hide BestOf;
    forall p: Phrase ensures CoverageSum([p], evidence) == BestOf(evidence, p) {
      assert [p][..0] == [] && CoverageSum([], evidence) == 0.0;
    }
    if b == [] {
      assert a + b == a;
    } else {
      var n := |b| - 1;
      assert (a + b)[..|a| + n] == a + b[..n];
      CoverageAdds(a, b[..n], evidence);
    }
  }

  lemma CoverageOfNothing(desired: seq<Phrase>, evidence: seq<Phrase>)
    requires desired == [] || evidence == []
    ensures Coverage(desired, evidence) == 0.0
  {
  }

  // ---- The components ----

  const QUALIFICATION := 12.0
  const LOCATION := 10.0
  const AGE := 8.0
  const FIELD := 10.0
  const UNIVERSITY := 8.0
  const TECHNICAL := 12.0
  const SOFT := 8.0
  const EXPERIENCE := 10.0
  const SECTOR := 8.0
  const PLACEMENT := 7.0
  const ALLOWANCE := 7.0

  /** OND 1, HND 2, BA, BSc and BTech 3, MSc 4, PhD 5. */
  type Level = n: nat | 1 <= n <= 5 witness 1

  function Highest(levels: set<Level>, top: nat): (r: nat)
    requires 1 <= top <= 5 && levels != {} && forall q :: q in levels ==> q <= top
    ensures 1 <= r <= 5 && r in levels && forall q :: q in levels ==> q <= r
  {
    if top in levels then top
    else
      assert exists q :: q in levels && q < top;
      Highest(levels, top - 1)
  }

  function Lowest(levels: set<Level>, bottom: nat): (r: nat)
    requires 1 <= bottom <= 5 && levels != {} && forall q :: q in levels ==> bottom <= q
    ensures 1 <= r <= 5 && r in levels && forall q :: q in levels ==> r <= q
    decreases 6 - bottom
  {
    if bottom in levels then bottom
    else
      assert exists q :: q in levels && bottom < q;
      Lowest(levels, bottom + 1)
  }

  function QualificationPoints(held: set<Level>, wanted: set<Level>): (r: real)
    ensures 0.0 <= r <= QUALIFICATION
  {
    if held == {} || wanted == {} then 0.0
    else
      var rank, high, low := Highest(held, 5), Highest(wanted, 5), Lowest(wanted, 1);
      if rank in wanted then QUALIFICATION
      else if rank > high then Max(QUALIFICATION * 0.75, QUALIFICATION - (rank - high) as real * 2.0)
      else if rank >= low then QUALIFICATION * 0.9
      else if low - rank == 1 then QUALIFICATION * 0.4
      else 0.0
  }

  /** Full points for a wanted level, nine or more for any level above a wanted one, none from two levels
      below them all. */
  lemma QualificationExactly(held: set<Level>, wanted: set<Level>)
    requires held != {} && wanted != {}
    ensures var points, rank := QualificationPoints(held, wanted), Highest(held, 5);
      && (points == QUALIFICATION <==> rank in wanted)
      && (points >= 9.0 <==> exists q :: q in wanted && q <= rank)
      && (points == 0.0 <==> forall q :: q in wanted ==> rank + 2 <= q)
  {
    var rank, low := Highest(held, 5), Lowest(wanted, 1);
    assert low in wanted;
  }

  /** The bands between: ten points one level above every wanted one and nine farther, 10.8 between two
      wanted levels, 4.8 one level below them all. */
  lemma QualificationBands(held: set<Level>, wanted: set<Level>)
    requires held != {} && wanted != {}
    ensures var points, rank := QualificationPoints(held, wanted), Highest(held, 5);
      && ((forall q :: q in wanted ==> q < rank) && rank - 1 in wanted ==> points == 10.0)
      && ((forall q :: q in wanted ==> q < rank - 1) ==> points == 9.0)
      && (rank !in wanted && (exists q :: q in wanted && q < rank) && (exists q :: q in wanted && rank < q) ==>
            points == 10.8)
      && ((forall q :: q in wanted ==> rank < q) && rank + 1 in wanted ==> points == 4.8)
  {
    var rank, high, low := Highest(held, 5), Highest(wanted, 5), Lowest(wanted, 1);
    assert high in wanted && low in wanted;
  }

  /** Without a level on one side there are no points. */
  lemma QualificationUnknown(held: set<Level>, wanted: set<Level>)
    requires held == {} || wanted == {}
    ensures QualificationPoints(held, wanted) == 0.0
  {
  }

  function LocationPoints(state: string, states: seq<string>): (r: real)
    ensures r == LOCATION || r == 0.0
    ensures r > 0.0 <==> state != "" && exists i :: 0 <= i < |states| && states[i] == state
  {
    if state != "" && state in states then LOCATION else 0.0
  }

  /** Bounds as written: they may be reversed, and "under 00" ends below zero. */
  datatype AgeBounds = AgeBounds(least: Option<int>, most: Option<int>)

  function Closeness(age: int, least: int, most: int): real {
    var midpoint := (least + most) as real / 2.0;
    var halfSpan := Max((most - least) as real / 2.0, 1.0);
    1.0 - Abs(age as real - midpoint) / (halfSpan + 1.0)
  }

  function AgePoints(age: Option<int>, bounds: Option<AgeBounds>): (r: real)
    ensures 0.0 <= r <= AGE
  {
    if age.None? || bounds.None? then 0.0
    else
      var a := age.value;
      match bounds.value
      case AgeBounds(Some(least), Some(most)) =>
        if least <= a <= most then AGE * (0.75 + Max(0.0, Closeness(a, least, most)) * 0.25)
        else
          var distance := if a < least then least - a else a - most;
          if distance == 1 then AGE * 0.45 else if distance == 2 then AGE * 0.2 else 0.0
      case AgeBounds(Some(least), None) =>
        if a >= least then AGE else if least - a == 1 then AGE * 0.45 else 0.0
      case AgeBounds(None, Some(most)) =>
        if a <= most then AGE else if a - most == 1 then AGE * 0.45 else 0.0
      case AgeBounds(None, None) => 0.0
  }

  function Tiered(most: real, likeness: real): (r: real)
    requires 0.0 <= most && 0.0 <= likeness <= 1.0
    ensures 0.0 <= r <= most
  {
    Scaled(most, likeness);
    if likeness >= 0.95 then most else if likeness >= 0.35 then most * likeness else 0.0
  }

  function TextPoints(most: real, left: Text, right: Text): (r: real)
    requires 0.0 <= most
    ensures 0.0 <= r <= most
  {
    Tiered(most, BestSimilarity(left, right))
  }

  function SkillsPoints(most: real, desired: seq<Phrase>, evidence: seq<Phrase>): (r: real)
    requires 0.0 <= most
    ensures 0.0 <= r <= most
  {
    var c := Coverage(desired, evidence);
    Scaled(most, c);
    if c <= 0.0 then 0.0 else most * c
  }

  function CoveragePoints(most: real, desired: seq<Phrase>, evidence: seq<Phrase>): (r: real)
    requires 0.0 <= most
    ensures 0.0 <= r <= most
  {
    var c := Coverage(desired, evidence);
    Scaled(most, c);
    if c < 0.2 then 0.0 else most * c
  }

  /** What is compared: the listed phrases, or, when either text lists none, the wholes. */
  function Compared(left: Text, right: Text): (seq<Phrase>, seq<Phrase>) {
    if left.phrases == [] || right.phrases == [] then ([left.whole], [right.whole]) else (left.phrases, right.phrases)
  }

  /** Texts earn nothing below a likeness of 0.35 and everything from 0.95 on, at their likest phrases. */
  lemma TextExactly(most: real, left: Text, right: Text)
    requires 0.0 < most
    ensures var (lefts, rights) := Compared(left, right);
      && (TextPoints(most, left, right) > 0.0 <==> LikeAt(lefts, rights, 0.35))
      && (TextPoints(most, left, right) == most <==> LikeAt(lefts, rights, 0.95))
      && (LikeAt(lefts, rights, 0.35) && !LikeAt(lefts, rights, 0.95) ==>
            TextPoints(most, left, right) == most * BestPair(lefts, rights))
  {
    hide Similarity, BestPair, LikeAt, Tiered;
    var (lefts, rights) := Compared(left, right);
    if left.phrases == [] || right.phrases == [] { WholesAsPair(left.whole, right.whole); }
    LikeAtBest(lefts, rights, 0.35);
    LikeAtBest(lefts, rights, 0.95);
    assert TextPoints(most, left, right) == Tiered(most, BestPair(lefts, rights));
    TieredExactly(most, BestPair(lefts, rights));
  }

  lemma WholesAsPair(left: Phrase, right: Phrase)
    ensures BestPair([left], [right]) == Similarity(left, right)
  {
    hide Similarity;
    BestPairIsBest([left], [right]);
  }

  lemma TieredExactly(most: real, likeness: real)
    requires 0.0 < most && 0.0 <= likeness <= 1.0
    ensures Tiered(most, likeness) > 0.0 <==> likeness >= 0.35
    ensures Tiered(most, likeness) == most <==> likeness >= 0.95
    ensures 0.35 <= likeness < 0.95 ==> Tiered(most, likeness) == most * likeness
  {
    if 0.0 < likeness < 1.0 { ScaledStrictly(most, likeness); }
  }

  lemma LikeAtBest(lefts: seq<Phrase>, rights: seq<Phrase>, degree: real)
    requires lefts != [] && rights != []
    ensures LikeAt(lefts, rights, degree) <==> BestPair(lefts, rights) >= degree
  {
    hide Similarity, BestPair;
    BestPairIsBest(lefts, rights);
  }

  predicate LikeAt(lefts: seq<Phrase>, rights: seq<Phrase>, degree: real) {
    exists i, j :: 0 <= i < |lefts| && 0 <= j < |rights| && Similarity(lefts[i], rights[j]) >= degree
  }

  /** Coverage is nothing exactly when no evidence is like any desired phrase, and full exactly when for
      each the best evidence is wholly like it. */
  lemma {:induction false} CoverageExactly(desired: seq<Phrase>, evidence: seq<Phrase>)
    ensures CoverageSum(desired, evidence) > 0.0 <==>
              exists j :: 0 <= j < |desired| && BestOf(evidence, desired[j]) > 0.0
    ensures CoverageSum(desired, evidence) == |desired| as real <==>
              forall j :: 0 <= j < |desired| ==> BestOf(evidence, desired[j]) == 1.0
    decreases |desired|
  {
    hide Similarity, BestOf;
    if desired != [] {
      var n := |desired| - 1;
      var first := desired[..n];
      CoverageExactly(first, evidence);
      assert forall j :: 0 <= j < n ==> first[j] == desired[j];
      assert CoverageSum(desired, evidence) == CoverageSum(first, evidence) + BestOf(evidence, desired[n]);
    }
  }

  /** Skills earn their part of the maximum; experience does too, but nothing under a fifth. */
  lemma CoverageEarns(most: real, desired: seq<Phrase>, evidence: seq<Phrase>)
    requires 0.0 < most
    ensures var c := Coverage(desired, evidence);
      && SkillsPoints(most, desired, evidence) == most * c
      && (CoveragePoints(most, desired, evidence) > 0.0 <==> c >= 0.2)
      && (c >= 0.2 ==> CoveragePoints(most, desired, evidence) == most * c)
  {
    hide Coverage;
    var c := Coverage(desired, evidence);
    if 0.0 < c { Positive(most, c); }
  }

  lemma Positive(most: real, part: real)
    requires 0.0 < most && 0.0 < part
    ensures 0.0 < most * part
  {
  }

  /** An age in the range earns more than six points, one or two years off less than four, farther nothing.
      A range written in reverse holds no age, and counts years from its first end below it, else its last. */
  lemma AgeExactly(a: int, least: int, most: int)
    ensures var points := AgePoints(Some(a), Some(AgeBounds(Some(least), Some(most))));
      && (points > AGE * 0.75 <==> least <= a <= most)
      && (points == 0.0 <==> a <= least - 3 || (least <= a && most + 3 <= a))
      && (a == least - 1 || (least <= a == most + 1) ==> points == 3.6)
      && (a == least - 2 || (least <= a == most + 2) ==> points == 1.6)
  {
    if least <= a <= most { AgeRewardsTheMiddle(a, a, least, most); }
  }

  /** With one bound only, full points on its side, 3.6 one year beyond, nothing farther; without an age or
      any bounds, nothing. */
  lemma AgeOpenExactly(a: int, bound: int)
    ensures var atLeast := AgePoints(Some(a), Some(AgeBounds(Some(bound), None)));
      && (bound <= a ==> atLeast == 8.0) && (a == bound - 1 ==> atLeast == 3.6) && (a <= bound - 2 ==> atLeast == 0.0)
    ensures var atMost := AgePoints(Some(a), Some(AgeBounds(None, Some(bound))));
      && (a <= bound ==> atMost == 8.0) && (a == bound + 1 ==> atMost == 3.6) && (bound + 2 <= a ==> atMost == 0.0)
    ensures AgePoints(Some(a), Some(AgeBounds(None, None))) == 0.0 && AgePoints(Some(a), None) == 0.0
    ensures forall bounds: Option<AgeBounds> :: AgePoints(None, bounds) == 0.0
  {
  }

  /** Inside a range points fall evenly from eight in the middle: by two for each year off it, in halves of the
      width and one more, a width under two counting as two. */
  lemma AgeInRangeExactly(a: int, least: int, most: int)
    requires least <= a <= most
    ensures var off := if 2 * a >= least + most then 2 * a - least - most else least + most - 2 * a;
      var width := if most - least >= 2 then most - least else 2;
      (8.0 - AgePoints(Some(a), Some(AgeBounds(Some(least), Some(most))))) * (width + 2) as real == 2.0 * off as real
  {
    var off := if 2 * a >= least + most then 2 * a - least - most else least + most - 2 * a;
    var width := if most - least >= 2 then most - least else 2;
    var midpoint := (least + most) as real / 2.0;
    var x, w := Abs(a as real - midpoint), Max((most - least) as real / 2.0, 1.0) + 1.0;
    assert x == off as real / 2.0 && w == (width + 2) as real / 2.0;
    AgeRewardsTheMiddle(a, a, least, most);
    Quotient(x, w);
    assert x <= w;
    var points := AgePoints(Some(a), Some(AgeBounds(Some(least), Some(most))));
    assert points == 8.0 * (0.75 + Max(0.0, 1.0 - x / w) * 0.25);
    assert points == 8.0 - 2.0 * (x / w);
    Halved(x / w, x, w, off as real, (width + 2) as real);
  }

  lemma Halved(q: real, x: real, w: real, off: real, wide: real)
    requires q * w == x && x == off / 2.0 && w == wide / 2.0
    ensures (2.0 * q) * wide == 2.0 * off
  {
    assert q * wide == 2.0 * (q * w);
  }

  /** Inside its range an age earns more than six points, and nearer
      the middle never less. */
  lemma AgeRewardsTheMiddle(a: int, b: int, least: int, most: int)
    requires least <= a <= most
    requires Abs(a as real - (least + most) as real / 2.0) <= Abs(b as real - (least + most) as real / 2.0)
    ensures var bounds := Some(AgeBounds(Some(least), Some(most)));
      AgePoints(Some(b), bounds) <= AgePoints(Some(a), bounds) && AGE * 0.75 < AgePoints(Some(a), bounds)
  {
    var midpoint := (least + most) as real / 2.0;
    var width := Max((most - least) as real / 2.0, 1.0) + 1.0;
    var x, y := Abs(a as real - midpoint), Abs(b as real - midpoint);
    assert x < width;
    Quotient(x, width);
    Quotient(y, width);
    Ordered(x, y, width);
  }

  lemma Ordered(x: real, y: real, w: real)
    requires x <= y && 0.0 < w
    ensures x / w <= y / w
  {
  }
}
