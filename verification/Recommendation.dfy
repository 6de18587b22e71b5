/** The eleven components together: the score, its bounds, and what a recommendation means. */
module Recommendation {
  import opened Wrappers
  import opened Matching
  import opened Allowance
  import Rounding

  const NEAR_GAP := 25000

  function AllowancePoints(preferred: Wording, offered: Wording, preferredText: Text, offeredText: Text): (r: real)
    ensures 0.0 <= r <= ALLOWANCE
  {
    var p, o := Parse(preferred), Parse(offered);
    if p.Some? && o.Some? then
      if p.value.Negotiable? && o.value.Negotiable? then ALLOWANCE
      else if p.value.Negotiable? || o.value.Negotiable? then ALLOWANCE * 0.5
      else RangePoints(p.value.range, o.value.range, preferredText, offeredText)
    else TextPoints(ALLOWANCE, preferredText, offeredText)
  }

  function RangePoints(p: Range, o: Range, preferredText: Text, offeredText: Text): (r: real)
    requires WellFormed(p) && WellFormed(o)
    ensures 0.0 <= r <= ALLOWANCE
  {
    RatioExactly(p, o);
    if p == o then ALLOWANCE
    else if OverlapRatio(p, o) > 0.0 then ALLOWANCE * (0.65 + 0.35 * OverlapRatio(p, o))
    else if Gap(p, o) <= NEAR_GAP then ALLOWANCE * 0.35
    else TextPoints(ALLOWANCE, preferredText, offeredText)
  }

  /** Which rule applies: two negotiable allowances match fully, one half; two ranges are compared as ranges;
      anything else as text. */
  lemma AllowanceRules(p: Wording, o: Wording, preferredText: Text, offeredText: Text)
    ensures var points := AllowancePoints(p, o, preferredText, offeredText);
      && (Parse(p) == Some(Negotiable) && Parse(o) == Some(Negotiable) ==> points == 7.0)
      && (Parse(p).Some? && Parse(o).Some? && (Parse(p).value.Negotiable? <==> !Parse(o).value.Negotiable?) ==>
            points == 3.5)
      && (Parse(p).None? || Parse(o).None? ==> points == TextPoints(7.0, preferredText, offeredText))
      && (Parse(p).Some? && Parse(o).Some? && Parse(p).value.Amount? && Parse(o).value.Amount? ==>
            points == RangePoints(Parse(p).value.range, Parse(o).value.range, preferredText, offeredText))
  {
    hide TextPoints, RangePoints, Parse;
  }

  /** Equal ranges match fully; others that share an amount earn 65 per cent and the ratio's part of the rest. */
  lemma RangePointsExactly(p: Range, o: Range, preferredText: Text, offeredText: Text)
    requires WellFormed(p) && WellFormed(o)
    ensures var points := RangePoints(p, o, preferredText, offeredText);
      && (p == o ==> points == 7.0)
      && (p != o && Gap(p, o) == 0 ==> points == 4.55 + 2.45 * OverlapRatio(p, o))
      && (0 < Gap(p, o) <= 25000 ==> points == 2.45)
      && (25000 < Gap(p, o) ==> points == TextPoints(7.0, preferredText, offeredText))
  {
    hide TextPoints;
    RatioExactly(p, o);
  }

  /** Ranges that share an amount earn more than 65 per cent; ranges that do not, but are within 25,000 of
      each other, earn 35 per cent; only ranges farther apart are compared as text. */
  lemma RangePointsByDistance(p: Range, o: Range, preferredText: Text, offeredText: Text)
    requires WellFormed(p) && WellFormed(o)
    ensures var points := RangePoints(p, o, preferredText, offeredText);
      && ((exists x: nat :: Within(x, p) && Within(x, o)) ==> ALLOWANCE * 0.65 < points)
      && ((forall x: nat :: Within(x, p) ==> !Within(x, o)) && Gap(p, o) <= NEAR_GAP ==> points == ALLOWANCE * 0.35)
      && (Gap(p, o) > NEAR_GAP ==> points == TextPoints(ALLOWANCE, preferredText, offeredText))
  {
    hide TextPoints;
    RatioExactly(p, o);
    GapIsDistance(p, o);
    if x: nat :| Within(x, p) && Within(x, o) {
      assert Gap(p, o) == 0;
    } else {
      if Gap(p, o) == 0 {
        NoGapShares(p, o);
        assert false;
      }
      assert p != o by { assert Within(p.least, p); }
    }
  }

  lemma NoGapShares(p: Range, o: Range)
    requires WellFormed(p) && WellFormed(o) && Gap(p, o) == 0
    ensures exists x: nat :: Within(x, p) && Within(x, o)
  {
    assert Within(Start(p, o), p) && Within(Start(p, o), o);
  }

  /** Where two closed ranges overlap: the width of the narrower one. */
  function Narrower(l: Range, r: Range): int
    requires l.most.Some? && r.most.Some?
  {
    var a, b := l.most.value - l.least, r.most.value - r.least;
    if a <= b then a else b
  }

  predicate SharesUnderAFifth(l: Range, r: Range) {
    l.most.Some? && r.most.Some? && Start(l, r) < End(l, r).value
    && 5 * (End(l, r).value - Start(l, r)) < Narrower(l, r)
  }

  /** "The more two ranges share, the better" is false: a single shared amount counts a fifth, and ranges
      that share more than one count less than that exactly when both are closed and they share under a
      fifth of the narrower one. An open range never does. */
  lemma TouchAgainstOverlap(l: Range, r: Range)
    requires WellFormed(l) && WellFormed(r)
    ensures End(l, r) == Some(Start(l, r)) ==> OverlapRatio(l, r) == 0.2
    ensures Gap(l, r) == 0 ==> (OverlapRatio(l, r) < 0.2 <==> SharesUnderAFifth(l, r))
    ensures Gap(l, r) == 0 && (l.most.None? || r.most.None?) && End(l, r) != Some(Start(l, r)) ==>
              OverlapRatio(l, r) == 1.0
  {
    RatioExactly(l, r);
    if l.most.Some? && r.most.Some? && Start(l, r) < End(l, r).value {
      var shared, narrower := End(l, r).value - Start(l, r), Narrower(l, r);
      assert shared <= narrower && 1 <= narrower;
      Proportion(shared, narrower);
      var q := shared as real / narrower as real;
      assert OverlapRatio(l, r) == q;
      assert q * narrower as real == shared as real;
      FifthExactly(q, shared, narrower);
    }
  }

  /** So of ranges of one width, those that only touch can outrank those that share a stretch. */
  lemma TouchOutranksOverlap(start: nat, width: nat, shared: nat)
    requires 0 < shared && 5 * shared < width
    ensures var l := Range(start, Some(start + width));
      OverlapRatio(l, Range(start + width - shared, Some(start + 2 * width - shared)))
      < OverlapRatio(l, Range(start + width, Some(start + 2 * width)))
  {
    var l := Range(start, Some(start + width));
    TouchAgainstOverlap(l, Range(start + width - shared, Some(start + 2 * width - shared)));
    TouchAgainstOverlap(l, Range(start + width, Some(start + 2 * width)));
  }

  lemma FifthExactly(q: real, x: int, y: int)
    requires 0 < y && q * y as real == x as real
    ensures q < 0.2 <==> 5 * x < y
  {
    var w := y as real;
    assert q < 0.2 ==> q * w < 0.2 * w;
    assert q >= 0.2 ==> q * w >= 0.2 * w;
  }

  // ---- All components ----

  datatype Corper = Corper(
    degree: set<Level>, postingState: string, age: Option<int>, field: Text, university: Text,
    technicalEvidence: seq<Phrase>, softEvidence: seq<Phrase>, experienceEvidence: seq<Phrase>,
    sector: Text, placement: Text, allowance: Wording, allowanceText: Text)

  /** A written list of states; it can be written and still name none. */
  datatype States = States(written: bool, names: seq<string>)

  datatype Company = Company(
    qualification: set<Level>, postingStates: States, deploymentStates: States, locationStates: States,
    ages: Option<AgeBounds>, field: Text, university: Text, skills: seq<Phrase>, experience: seq<Phrase>,
    sector: Text, placement: Text, allowance: Wording, allowanceText: Text)

  function PostingStates(c: Company): seq<string> {
    if c.postingStates.written then c.postingStates.names
    else if c.deploymentStates.written then c.deploymentStates.names
    else c.locationStates.names
  }

  /** The first written list alone decides the location points: a later list counts only if no earlier one
      is written, and a written list that names no state gives none to anybody. */
  lemma FirstWrittenListDecides(k: Corper, c: Company)
    ensures var lists := [c.postingStates, c.deploymentStates, c.locationStates];
      var points := LocationPoints(k.postingState, PostingStates(c));
      && (points == 0.0 || points == LOCATION)
      && (points == LOCATION <==>
            k.postingState != ""
            && exists n :: 0 <= n < 3 && (forall j :: 0 <= j < n ==> !lists[j].written)
                           && (n < 2 ==> lists[n].written) && k.postingState in lists[n].names)
  {
    var lists := [c.postingStates, c.deploymentStates, c.locationStates];
    var n := if c.postingStates.written then 0 else if c.deploymentStates.written then 1 else 2;
    assert lists[n].names == PostingStates(c);
    assert lists[0] == c.postingStates && lists[1] == c.deploymentStates;
  }

  const MAXIMA: seq<real> :=
    [QUALIFICATION, LOCATION, AGE, FIELD, UNIVERSITY, TECHNICAL, SOFT, EXPERIENCE, SECTOR, PLACEMENT, ALLOWANCE]

  function Components(k: Corper, c: Company): (r: seq<real>)
    ensures |r| == |MAXIMA|
  {
    [QualificationPoints(k.degree, c.qualification),
     LocationPoints(k.postingState, PostingStates(c)),
     AgePoints(k.age, c.ages),
     TextPoints(FIELD, k.field, c.field),
     TextPoints(UNIVERSITY, k.university, c.university),
     SkillsPoints(TECHNICAL, c.skills, k.technicalEvidence),
     SkillsPoints(SOFT, c.skills, k.softEvidence),
     CoveragePoints(EXPERIENCE, c.experience, k.experienceEvidence),
     TextPoints(SECTOR, k.sector, c.sector),
     TextPoints(PLACEMENT, k.placement, c.placement),
     AllowancePoints(k.allowance, c.allowance, k.allowanceText, c.allowanceText)]
  }

  /** Everything about the pair that component `i` looks at is the same. */
  predicate SameFor(i: nat, k: Corper, c: Company, k2: Corper, c2: Company) {
    match i
    case 0 => k.degree == k2.degree && c.qualification == c2.qualification
    case 1 => k.postingState == k2.postingState && PostingStates(c) == PostingStates(c2)
    case 2 => k.age == k2.age && c.ages == c2.ages
    case 3 => k.field == k2.field && c.field == c2.field
    case 4 => k.university == k2.university && c.university == c2.university
    case 5 => k.technicalEvidence == k2.technicalEvidence && c.skills == c2.skills
    case 6 => k.softEvidence == k2.softEvidence && c.skills == c2.skills
    case 7 => k.experienceEvidence == k2.experienceEvidence && c.experience == c2.experience
    case 8 => k.sector == k2.sector && c.sector == c2.sector
    case 9 => k.placement == k2.placement && c.placement == c2.placement
    case 10 => k.allowance == k2.allowance && c.allowance == c2.allowance
               && k.allowanceText == k2.allowanceText && c.allowanceText == c2.allowanceText
    case _ => false
  }

  /** Each component looks at its own two sides of the pair and at nothing else. */
  lemma ComponentLooksAt(i: nat, k: Corper, c: Company, k2: Corper, c2: Company)
    requires i < 11 && SameFor(i, k, c, k2, c2)
    ensures Components(k, c)[i] == Components(k2, c2)[i]
  {
    hide QualificationPoints, LocationPoints, AgePoints, TextPoints, SkillsPoints, CoveragePoints, AllowancePoints;
  }

  /** A pair that matches in every respect. */
  predicate Perfect(k: Corper, c: Company) {
    && k.degree != {} && c.qualification != {} && Highest(k.degree, 5) in c.qualification
    && k.postingState != "" && k.postingState in PostingStates(c)
    && k.age.Some? && c.ages == Some(AgeBounds(k.age, k.age))
    && LikeTexts(k.field, c.field) && LikeTexts(k.university, c.university)
    && Coverage(c.skills, k.technicalEvidence) == 1.0 && Coverage(c.skills, k.softEvidence) == 1.0
    && Coverage(c.experience, k.experienceEvidence) == 1.0
    && LikeTexts(k.sector, c.sector) && LikeTexts(k.placement, c.placement)
    && k.allowance == c.allowance && Parse(k.allowance).Some?
  }

  predicate LikeTexts(a: Text, b: Text) { BestSimilarity(a, b) >= 0.95 }

  /** It earns each maximum, and a hundred in all. */
  lemma PerfectPair(k: Corper, c: Company)
    requires Perfect(k, c)
    ensures Components(k, c) == [12.0, 10.0, 8.0, 10.0, 8.0, 12.0, 8.0, 10.0, 8.0, 7.0, 7.0]
    ensures Sum(Components(k, c)) == 100.0
  {
    hide BestSimilarity, Coverage, Sum, Parse, OverlapRatio, Gap, Highest, PostingStates;
    var a := k.age.value;
    AgeInRangeExactly(a, a, a);
    MaximaSum();
    assert Components(k, c) == MAXIMA[..|MAXIMA|];
  }

  /** The other scorer's list: the same pair as a corper sees it. */
  function ComponentsOfCompany(c: Company, k: Corper): (r: seq<real>)
    ensures |r| == |MAXIMA|
  {
    [QualificationPoints(k.degree, c.qualification),
     LocationPoints(k.postingState, PostingStates(c)),
     AgePoints(k.age, c.ages),
     TextPoints(FIELD, k.field, c.field),
     TextPoints(UNIVERSITY, k.university, c.university),
     SkillsPoints(TECHNICAL, c.skills, k.technicalEvidence),
     SkillsPoints(SOFT, c.skills, k.softEvidence),
     CoveragePoints(EXPERIENCE, c.experience, k.experienceEvidence),
     TextPoints(SECTOR, k.sector, c.sector),
     TextPoints(PLACEMENT, k.placement, c.placement),
     AllowancePoints(k.allowance, c.allowance, k.allowanceText, c.allowanceText)]
  }

  /** A corper and a company see each other with one score and one number of signals. */
  lemma BothSeeTheSame(k: Corper, c: Company)
    ensures Sum(ComponentsOfCompany(c, k)) == Sum(Components(k, c))
    ensures Signals(ComponentsOfCompany(c, k)) == Signals(Components(k, c))
  {
    hide QualificationPoints, LocationPoints, AgePoints, TextPoints, SkillsPoints, CoveragePoints, AllowancePoints;
    hide Sum, Signals;
    assert ComponentsOfCompany(c, k) == Components(k, c);
  }

  function Sum(points: seq<real>): real {
    if points == [] then 0.0 else Sum(points[..|points| - 1]) + points[|points| - 1]
  }

  function Signals(points: seq<real>): (n: nat)
    ensures n <= |points|
  {
    if points == [] then 0
    else Signals(points[..|points| - 1]) + if points[|points| - 1] > 0.0 then 1 else 0
  }

  /** A total changes by what one of its points changes by, and nothing adds up to nothing. */
  lemma {:induction false} SumChanges(points: seq<real>, i: nat, x: real)
    requires i < |points|
    ensures Sum(points[i := x]) == Sum(points) - points[i] + x
    ensures Sum([]) == 0.0
    decreases |points|
  {
    var n := |points| - 1;
    if i < n {
      SumChanges(points[..n], i, x);
      assert points[i := x][..n] == points[..n][i := x];
    } else {
      assert points[i := x][..n] == points[..n];
    }
  }

  /** The signals are the places with positive points. */
  lemma {:induction false} SignalsAreTheSigns(points: seq<real>)
    ensures Signals(points) == |set i | 0 <= i < |points| && points[i] > 0.0|
  {
    if points != [] {
      var n := |points| - 1;
      var first := points[..n];
      SignalsAreTheSigns(first);
      var before, after := set i | 0 <= i < n && first[i] > 0.0, set i | 0 <= i < |points| && points[i] > 0.0;
      assert after == before + if points[n] > 0.0 then {n} else {};
    }
  }

  predicate Bounded(points: seq<real>) {
    |points| <= |MAXIMA| && forall i :: 0 <= i < |points| ==> 0.0 <= points[i] <= MAXIMA[i]
  }

  lemma ComponentsBounded(k: Corper, c: Company)
    ensures Bounded(Components(k, c))
  {
    hide QualificationPoints, LocationPoints, AgePoints, TextPoints, SkillsPoints, CoveragePoints, AllowancePoints;
    var r := Components(k, c);
    forall i | 0 <= i < |r| ensures 0.0 <= r[i] <= MAXIMA[i] {
      assert i in {0, 1, 2, 3, 4, 5, 6, 7, 8, 9, 10};
    }
  }

  lemma {:induction false} SumBounded(points: seq<real>)
    requires Bounded(points)
    ensures 0.0 <= Sum(points) <= Sum(MAXIMA[..|points|])
  {
    if points != [] {
      var n := |points|;
      SumBounded(points[..n - 1]);
      assert MAXIMA[..n][..n - 1] == MAXIMA[..n - 1];
      assert MAXIMA[..n][n - 1] == MAXIMA[n - 1];
    }
  }

  lemma MaximaSum()
    ensures Sum(MAXIMA[..|MAXIMA|]) == 100.0
  {
    assert forall n :: 0 < n <= 11 ==> MAXIMA[..n][..n - 1] == MAXIMA[..n - 1] && MAXIMA[..n][n - 1] == MAXIMA[n - 1];
    assert Sum(MAXIMA[..0]) == 0.0;
    assert Sum(MAXIMA[..1]) == 12.0;
    assert Sum(MAXIMA[..2]) == 22.0;
    assert Sum(MAXIMA[..3]) == 30.0;
    assert Sum(MAXIMA[..4]) == 40.0;
    assert Sum(MAXIMA[..5]) == 48.0;
    assert Sum(MAXIMA[..6]) == 60.0;
    assert Sum(MAXIMA[..7]) == 68.0;
    assert Sum(MAXIMA[..8]) == 78.0;
    assert Sum(MAXIMA[..9]) == 86.0;
    assert Sum(MAXIMA[..10]) == 93.0;
  }

  /** Ten points for each positive component, and two more for the two that reach twelve. */
  lemma {:induction false} SignalsCarryTheScore(points: seq<real>)
    requires Bounded(points)
    ensures Sum(points) <= 10.0 * Signals(points) as real
                           + (if |points| >= 1 then 2.0 else 0.0) + (if |points| >= 6 then 2.0 else 0.0)
  {
    if points != [] { SignalsCarryTheScore(points[..|points| - 1]); }
  }

  /** The clamp to 0..100 is idle, fifty points are 49.5 before rounding, and they need five components. */
  lemma FiftyNeedsFive(k: Corper, c: Company)
    ensures var points := Components(k, c); var total := Sum(points);
      && 0.0 <= total <= 100.0 && Max(0.0, Min(total, 100.0)) == total
      && (Rounding.HalfEven(total) >= 50 <==> total >= 49.5)
      && (Rounding.HalfEven(total) >= 50 ==> Signals(points) >= 5)
  {
    hide Components;
    ComponentsBounded(k, c);
    var points := Components(k, c);
    SumBounded(points);
    MaximaSum();
    SignalsCarryTheScore(points);
  }

  /** One entry of a directory, as the request annotates it. */
  class Listing {
    var raw: real
    var score: int
    var signals: nat
    var recommended: bool

    method AttachRecommendation(total: real, count: nat)
      modifies this
      ensures raw == Max(0.0, Min(total, 100.0)) && score == Rounding.HalfEven(raw) && signals == count
      ensures recommended <==> score >= 50 && signals >= 3
    {
      raw := Max(0.0, Min(total, 100.0));
      score := Rounding.HalfEven(raw);
      signals := count;
      recommended := score >= 50 && signals >= 3;
    }

    /** On a real pair the clamp cuts nothing, the signal threshold decides nothing, and a recommendation
        means a total of at least 49.5, carried by at least five components. */
    method Recommend(k: Corper, c: Company)
      modifies this
      ensures raw == Sum(Components(k, c)) && 0 <= score <= 100
      ensures score == Rounding.HalfEven(raw) && signals == Signals(Components(k, c))
      ensures recommended <==> score >= 50
      ensures recommended <==> raw >= 49.5
      ensures recommended ==> signals >= 5
    {
      var points := Components(k, c);
      FiftyNeedsFive(k, c);
      AttachRecommendation(Sum(points), Signals(points));
    }
  }
}
