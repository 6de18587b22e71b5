/** Allowance ranges, open at the top or not: parsing, overlap and distance. */
module Allowance {
  import opened Wrappers

  /** Whole naira, from `least` up to `most`, or with no upper end. */
  datatype Range = Range(least: nat, most: Option<nat>)

  datatype Offer = Negotiable | Amount(range: Range)

  /** What the parser looks for in a normalised wording. `amounts` are its numbers in order. */
  datatype Wording = Wording(blank: bool, negotiable: bool, none: bool, below: bool, above: bool, amounts: seq<nat>)

  predicate WellFormed(r: Range) { r.most.Some? ==> r.least <= r.most.value }

  function Parse(w: Wording): (r: Option<Offer>)
    ensures r.Some? && r.value.Amount? ==> WellFormed(r.value.range)
  {
    if w.blank then None
    else if w.negotiable then Some(Negotiable)
    else if w.none then Some(Amount(Range(0, Some(0))))
    else if w.amounts == [] then None
    else if w.below then Some(Amount(Range(0, Some(w.amounts[0]))))
    else if w.above then Some(Amount(Range(w.amounts[0], None)))
    else if |w.amounts| >= 2 then
      var a, b := w.amounts[0], w.amounts[1];
      Some(Amount(if a <= b then Range(a, Some(b)) else Range(b, Some(a))))
    else Some(Amount(Range(w.amounts[0], Some(w.amounts[0]))))
  }

  /** "Negotiable" outweighs everything else; "none" means nothing at all, whatever numbers follow. */
  lemma ParseWords(w: Wording)
    requires !w.blank
    ensures w.negotiable <==> Parse(w) == Some(Negotiable)
    ensures w.none && !w.negotiable ==>
              Parse(w).Some? && Parse(w).value.Amount? && forall x: nat :: Within(x, Parse(w).value.range) <==> x == 0
  {
  }

  /** What a wording is parsed to: nothing without wording or numbers; a first number named is in the range,
      which is open exactly when it says "above" and not "below"; and which amounts it holds. */
  lemma ParseExactly(w: Wording)
    ensures Parse(w).None? <==> w.blank || (!w.negotiable && !w.none && w.amounts == [])
    ensures Parse(w).Some? && !w.none && Parse(w).value.Amount? ==>
              var r := Parse(w).value.range;
              && Within(w.amounts[0], r)
              && (r.most.None? <==> w.above && !w.below)
              && (!w.below && !w.above && |w.amounts| >= 2 ==>
                    Within(w.amounts[1], r) && {r.least, r.most.value} == {w.amounts[0], w.amounts[1]})
              && (w.below ==> forall x: nat :: Within(x, r) <==> x <= w.amounts[0])
              && (w.above && !w.below ==> forall x: nat :: Within(x, r) <==> w.amounts[0] <= x)
              && (!w.below && !w.above && |w.amounts| == 1 ==> forall x: nat :: Within(x, r) <==> x == w.amounts[0])
  {
  }

  predicate Within(x: nat, r: Range) { r.least <= x && (r.most.Some? ==> x <= r.most.value) }

  predicate Contains(outer: Range, inner: Range) {
    outer.least <= inner.least && (outer.most.Some? ==> inner.most.Some? && inner.most.value <= outer.most.value)
  }

  function Start(l: Range, r: Range): nat { if l.least >= r.least then l.least else r.least }

  function End(l: Range, r: Range): Option<nat> {
    if l.most.None? then r.most else if r.most.None? || l.most.value <= r.most.value then l.most else r.most
  }

  function AtLeastOne(n: int): int { if n >= 1 then n else 1 }

  /** The length of a range, an open one counting only as long as the overlap. */
  function Span(r: Range, overlap: int): int {
    if r.most.Some? then r.most.value - r.least else AtLeastOne(overlap)
  }

  /** Two open ends divide infinity by infinity: not a number, which the minimum with one discards. */
  function OverlapRatio(l: Range, r: Range): real {
    var start, end := Start(l, r), End(l, r);
    if end.None? then 1.0
    else if end.value < start then 0.0
    else if end.value == start then 0.2
    else
      var overlap := end.value - start;
      var a, b := Span(l, overlap), Span(r, overlap);
      var ratio := overlap as real / AtLeastOne(if a <= b then a else b) as real;
      if ratio < 1.0 then ratio else 1.0
  }

  function Gap(l: Range, r: Range): nat {
    if l.most.Some? && l.most.value < r.least then r.least - l.most.value
    else if r.most.Some? && r.most.value < l.least then l.least - r.most.value
    else 0
  }

  lemma Proportion(x: int, y: int)
    requires 0 < x && 0 < y
    ensures 0.0 < x as real / y as real
    ensures x <= y <==> x as real / y as real <= 1.0
    ensures x == y <==> x as real / y as real == 1.0
  {
    var q := x as real / y as real;
    assert q * y as real == x as real;
  }

  lemma Symmetric(l: Range, r: Range)
    ensures OverlapRatio(l, r) == OverlapRatio(r, l)
    ensures WellFormed(l) && WellFormed(r) ==> Gap(l, r) == Gap(r, l)
  {
    var start, end := Start(l, r), End(l, r);
    assert Start(r, l) == start && End(r, l) == end;
    if end.Some? && start < end.value {
      var overlap := end.value - start;
      var a, b := Span(l, overlap), Span(r, overlap);
      assert (if a <= b then a else b) == if b <= a then b else a;
    }
  }

  /** The gap is the least distance between an amount of one range and an amount of the other. */
  lemma GapIsDistance(l: Range, r: Range)
    requires WellFormed(l) && WellFormed(r)
    ensures forall x: nat, y: nat :: Within(x, l) && Within(y, r) ==> Gap(l, r) <= x - y || Gap(l, r) <= y - x
    ensures exists x: nat, y: nat :: Within(x, l) && Within(y, r) && (Gap(l, r) == x - y || Gap(l, r) == y - x)
  {
    if l.most.Some? && l.most.value < r.least {
      assert Within(l.most.value, l) && Within(r.least, r);
    } else if r.most.Some? && r.most.value < l.least {
      assert Within(l.least, l) && Within(r.most.value, r);
    } else {
      assert Within(Start(l, r), l) && Within(Start(l, r), r);
    }
  }

  /** The ratio is a proportion: nothing exactly when a gap separates the ranges, all exactly when they
      share more than one amount and one of them is open or holds the other. */
  lemma RatioExactly(l: Range, r: Range)
    requires WellFormed(l) && WellFormed(r)
    ensures 0.0 <= OverlapRatio(l, r) <= 1.0
    ensures OverlapRatio(l, r) == 0.0 <==> Gap(l, r) > 0
    ensures OverlapRatio(l, r) == 1.0 <==>
              (End(l, r).Some? ==> Start(l, r) < End(l, r).value)
              && (l.most.None? || r.most.None? || Contains(l, r) || Contains(r, l))
  {
    var start, end := Start(l, r), End(l, r);
    if end.Some? && start < end.value {
      var overlap := end.value - start;
      var a, b := Span(l, overlap), Span(r, overlap);
      Proportion(overlap, AtLeastOne(if a <= b then a else b));
    }
  }

  /** Two closed ranges that share more than one amount count by the share of the narrower that they share. */
  lemma RatioIsShare(l: Range, r: Range)
    requires WellFormed(l) && WellFormed(r) && l.most.Some? && r.most.Some? && Start(l, r) < End(l, r).value
    ensures var narrower := if l.most.value - l.least <= r.most.value - r.least then l.most.value - l.least
                            else r.most.value - r.least;
      OverlapRatio(l, r) * narrower as real == (End(l, r).value - Start(l, r)) as real
  {
    var shared := End(l, r).value - Start(l, r);
    var a, b := Span(l, shared), Span(r, shared);
    var narrower := if a <= b then a else b;
    Proportion(shared, narrower);
    assert shared as real / narrower as real * narrower as real == shared as real;
  }

  /** The shared amounts run from the start to the end of the overlap. */
  lemma OverlapIsIntersection(l: Range, r: Range, x: nat)
    ensures Within(x, l) && Within(x, r) <==> Within(x, Range(Start(l, r), End(l, r)))
  {
  }
}
