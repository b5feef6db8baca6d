/**
 * Fitting expanded panels into a vertical corridor: how the height is shared
 * out, and where the corridor itself runs.
 */
module PanelStack {
  import opened Numbers
  import opened Options

  function Sum(s: seq<real>): real {
    if s == [] then 0.0 else Sum(s[..|s| - 1]) + s[|s| - 1]
  }

  /** `Math.max(0, Number(h) || 0)`; `None` is anything that is not a number. */
  function Measure(h: Option<real>): real {
    Max(0.0, h.GetOr(0.0))
  }

  function Measures(heights: seq<Option<real>>): seq<real> {
    seq(|heights|, i requires 0 <= i < |heights| => Measure(heights[i]))
  }

  /** What each panel keeps before the rest is shared. */
  function Bases(natural: seq<real>, floor: real): seq<real> {
    seq(|natural|, i requires 0 <= i < |natural| => Min(natural[i], floor))
  }

  function Scaled(s: seq<real>, k: real): seq<real> {
    seq(|s|, i requires 0 <= i < |s| => Times(s[i], k))
  }

  function Times(x: real, k: real): real {
    x * k
  }

  /** A panel's part of the remaining height, in proportion to what it misses. */
  function Share(remaining: real, unmet: real, unmetTotal: real): real
    requires unmetTotal > 0.0
  {
    remaining * (unmet / unmetTotal)
  }

  /** How much each panel still misses. */
  function Unmet(natural: seq<real>, base: seq<real>): seq<real>
    requires |natural| == |base|
  {
    seq(|natural|, i requires 0 <= i < |natural| => Max(0.0, natural[i] - base[i]))
  }

  function Shared(base: seq<real>, unmet: seq<real>, remaining: real, unmetTotal: real): seq<real>
    requires |base| == |unmet| && unmetTotal > 0.0
  {
    seq(|base|, i requires 0 <= i < |base| => base[i] + Share(remaining, unmet[i], unmetTotal))
  }

  function Constrained(natural: seq<real>, available: real, floor: real): seq<real> {
    var base := Bases(natural, floor);
    var baseTotal := Sum(base);
    if baseTotal >= available then Scaled(base, if baseTotal > 0.0 then available / baseTotal else 0.0)
    else
      var unmet := Unmet(natural, base);
      if Sum(unmet) <= 0.0 then base else Shared(base, unmet, available - baseTotal, Sum(unmet))
  }

  function Allocate(heights: seq<Option<real>>, availableHeight: Option<real>, minimumHeight: Option<real>): seq<real> {
    var natural := Measures(heights);
    var available := Measure(availableHeight);
    if natural == [] then []
    else if Sum(natural) <= available then natural
    else if available == 0.0 then seq(|natural|, i => 0.0)
    else Constrained(natural, available, Measure(minimumHeight))
  }

  // ----------------------------------------------------------------------- sums

  predicate Nonnegative(s: seq<real>) {
    forall i :: 0 <= i < |s| ==> s[i] >= 0.0
  }

  /** A sum of nonnegative heights is at least each of them. */
  lemma {:induction false} SumBounds(s: seq<real>)
    requires Nonnegative(s)
    ensures Sum(s) >= 0.0 && forall i :: 0 <= i < |s| ==> s[i] <= Sum(s)
  {
    if s != [] {
      var init := s[..|s| - 1];
      SumBounds(init);
      forall i | 0 <= i < |s|
        ensures s[i] <= Sum(s)
      {
        if i < |init| {
          assert s[i] == init[i];
        }
      }
    }
  }

  lemma {:induction false} SumScaled(s: seq<real>, k: real)
    ensures Sum(Scaled(s, k)) == Sum(s) * k
  {
    if s != [] {
      var n := |s| - 1;
      var init, scaled := s[..n], Scaled(s, k);
      SumScaled(init, k);
      assert forall i :: 0 <= i < n ==> init[i] == s[i];
      assert scaled[..n] == Scaled(init, k);
      assert Sum(s) * k == Sum(init) * k + s[n] * k;
    }
  }

  lemma {:induction false} SumUnmet(natural: seq<real>, floor: real)
    requires Nonnegative(natural) && floor >= 0.0
    ensures Sum(Unmet(natural, Bases(natural, floor))) == Sum(natural) - Sum(Bases(natural, floor))
  {
    if natural != [] {
      var n := |natural| - 1;
      var init := natural[..n];
      assert forall i :: 0 <= i < n ==> init[i] == natural[i];
      SumUnmet(init, floor);
      var base, unmet := Bases(natural, floor), Unmet(natural, Bases(natural, floor));
      assert base[..n] == Bases(init, floor) && unmet[..n] == Unmet(init, Bases(init, floor));
      assert unmet[n] == natural[n] - base[n];
      SumLast(natural);
      SumLast(base);
      SumLast(unmet);
      hide Sum, Bases, Unmet;
    }
  }

  lemma SumLast(s: seq<real>)
    requires s != []
    ensures Sum(s) == Sum(s[..|s| - 1]) + s[|s| - 1]
  {
  }

  lemma {:induction false} SumShared(base: seq<real>, unmet: seq<real>, remaining: real, unmetTotal: real)
    requires |base| == |unmet| && unmetTotal > 0.0
    ensures Sum(Shared(base, unmet, remaining, unmetTotal)) == Sum(base) + Share(remaining, Sum(unmet), unmetTotal)
  {
    if base != [] {
      hide Share;
      var n := |base| - 1;
      var shared := Shared(base, unmet, remaining, unmetTotal);
      assert forall i :: 0 <= i < n ==> base[..n][i] == base[i] && unmet[..n][i] == unmet[i];
      SumShared(base[..n], unmet[..n], remaining, unmetTotal);
      assert shared[..n] == Shared(base[..n], unmet[..n], remaining, unmetTotal);
      SplitShare(remaining, Sum(unmet[..n]), unmet[n], unmetTotal);
    } else {
      assert 0.0 / unmetTotal == 0.0;
    }
  }

  lemma SplitShare(remaining: real, a: real, b: real, total: real)
    requires total > 0.0
    ensures Share(remaining, a + b, total) == Share(remaining, a, total) + Share(remaining, b, total)
  {
    assert (a + b) / total == a / total + b / total;
  }

  // ----------------------------------------------------------------- allocation

  /** Between nothing and natural, and at least the floor when the floors fit. */
  predicate Fits(out: seq<real>, natural: seq<real>, floor: real, floorsFit: bool) {
    && |out| == |natural|
    && forall i :: 0 <= i < |out| ==>
         && 0.0 <= out[i] <= natural[i]
         && (floorsFit ==> out[i] >= Min(natural[i], floor))
  }

  lemma ScaleIsPart(available: real, total: real)
    requires 0.0 < available <= total
    ensures var k := available / total;
            0.0 <= k <= 1.0 && Times(total, k) == available && (available == total ==> k == 1.0)
  {
    var k := available / total;
    DivideBack(available, total);
    SignOf(k, total);
    SignOf(1.0 - k, total);
  }

  lemma TimesShrinks(x: real, k: real)
    requires x >= 0.0 && 0.0 <= k <= 1.0
    ensures 0.0 <= Times(x, k) <= x && (k == 1.0 ==> Times(x, k) == x)
  {
    NonnegativeProduct(x, k);
    NonnegativeProduct(x, 1.0 - k);
    assert x * (1.0 - k) == x - x * k;
  }

  lemma ScaleFits(natural: seq<real>, available: real, floor: real)
    requires Nonnegative(natural) && floor >= 0.0 && 0.0 < available <= Sum(Bases(natural, floor))
    ensures var base := Bases(natural, floor);
            var out := Scaled(base, available / Sum(base));
            Sum(out) == available && Fits(out, natural, floor, available == Sum(base))
  {
    hide Times, Sum;
    var base := Bases(natural, floor);
    var k := available / Sum(base);
    ScaleIsPart(available, Sum(base));
    SumScaled(base, k);
    TimesIs(Sum(base), k);
    forall i | 0 <= i < |base|
      ensures 0.0 <= Times(base[i], k) <= base[i] && (k == 1.0 ==> Times(base[i], k) == base[i])
    {
      TimesShrinks(base[i], k);
    }
  }

  lemma TimesIs(x: real, k: real)
    ensures Times(x, k) == x * k
  {
  }

  lemma ShareIsPart(remaining: real, unmet: real, total: real)
    requires 0.0 <= remaining <= total && total > 0.0 && unmet >= 0.0
    ensures 0.0 <= Share(remaining, unmet, total) <= unmet
  {
    var q := unmet / total;
    DivideBack(unmet, total);
    SignOf(q, total);
    NonnegativeProduct(remaining, q);
    NonnegativeProduct(total - remaining, q);
    assert (total - remaining) * q == unmet - remaining * q;
  }

  lemma WholeShare(remaining: real, total: real)
    requires total > 0.0
    ensures Share(remaining, total, total) == remaining
  {
    assert total / total == 1.0;
  }

  lemma ShareFits(natural: seq<real>, available: real, floor: real)
    requires Nonnegative(natural) && floor >= 0.0
    requires Sum(Bases(natural, floor)) < available < Sum(natural)
    ensures var base := Bases(natural, floor);
            var unmet := Unmet(natural, base);
            && Sum(unmet) > 0.0
            && var out := Shared(base, unmet, available - Sum(base), Sum(unmet));
               Sum(out) == available && Fits(out, natural, floor, true)
  {
    hide Share, Sum;
    var base := Bases(natural, floor);
    var unmet := Unmet(natural, base);
    SumUnmet(natural, floor);
    var (remaining, total) := (available - Sum(base), Sum(unmet));
    SumShared(base, unmet, remaining, total);
    WholeShare(remaining, total);
    forall i | 0 <= i < |base|
      ensures 0.0 <= Share(remaining, unmet[i], total) <= unmet[i]
    {
      ShareIsPart(remaining, unmet[i], total);
    }
  }

  lemma {:induction false} ZeroSums(n: nat)
    ensures Sum(seq(n, i => 0.0)) == 0.0
  {
    if n > 0 {
      ZeroSums(n - 1);
      assert seq(n, i => 0.0)[..n - 1] == seq(n - 1, i => 0.0);
    }
  }

  lemma NothingFits(natural: seq<real>, floor: real)
    requires Nonnegative(natural) && floor >= 0.0
    ensures Fits(seq(|natural|, i => 0.0), natural, floor, Sum(Bases(natural, floor)) <= 0.0)
  {
    var base := Bases(natural, floor);
    SumBounds(base);
    forall i | 0 <= i < |natural| && Sum(base) <= 0.0
      ensures Min(natural[i], floor) <= 0.0
    {
      assert base[i] <= Sum(base);
    }
  }

  /**
   * Space is conserved: the heights add up to all there is, or to all that is
   * wanted; none exceeds its natural height, and each keeps its floor whenever
   * the floors fit together.
   */
  lemma AllocationConserves(heights: seq<Option<real>>, availableHeight: Option<real>, minimumHeight: Option<real>)
    ensures var out := Allocate(heights, availableHeight, minimumHeight);
            var (natural, floor) := (Measures(heights), Measure(minimumHeight));
            var available := Measure(availableHeight);
            && Sum(out) == Min(Sum(natural), available)
            && Fits(out, natural, floor, Sum(Bases(natural, floor)) <= available)
  {
    var (natural, floor, available) := (Measures(heights), Measure(minimumHeight), Measure(availableHeight));
    SumBounds(natural);
    if natural != [] && Sum(natural) > available {
      if available == 0.0 {
        ZeroSums(|natural|);
        NothingFits(natural, floor);
      } else if Sum(Bases(natural, floor)) >= available {
        ScaleFits(natural, available, floor);
      } else {
        ShareFits(natural, available, floor);
      }
    }
  }

  /** What a height asks for: nothing when it is not a positive number. */
  predicate Asks(h: Option<real>, x: real) {
    if h.Some? && h.value > 0.0 then h == Some(x) else x == 0.0
  }

  /** Panels give way alike: all keep the same share of their floors, or all get the same share of what they miss. */
  predicate Alike(out: seq<real>, natural: seq<real>, floor: real, floorsFit: bool, i: nat, j: nat)
    requires i < |out| == |natural| && j < |out|
  {
    var (a, b) := (Min(natural[i], floor), Min(natural[j], floor));
    if floorsFit then Times(out[i] - a, natural[j] - b) == Times(out[j] - b, natural[i] - a)
    else Times(out[i], b) == Times(out[j], a)
  }

  lemma SharedAlike(remaining: real, x: real, y: real, total: real)
    requires total > 0.0
    ensures Times(Share(remaining, x, total), y) == Times(Share(remaining, y, total), x)
  {
    assert (x / total) * y == (y / total) * x;
    assert remaining * ((x / total) * y) == remaining * (x / total) * y;
    assert remaining * ((y / total) * x) == remaining * (y / total) * x;
  }

  lemma ScaledAlike(x: real, y: real, k: real)
    ensures Times(Times(x, k), y) == Times(Times(y, k), x)
  {
    assert x * k * y == y * k * x;
  }

  lemma ConstrainedAlike(natural: seq<real>, available: real, floor: real, i: nat, j: nat)
    requires Nonnegative(natural) && floor >= 0.0 && 0.0 < available < Sum(natural)
    requires i < |natural| && j < |natural|
    ensures var out := Constrained(natural, available, floor);
            |out| == |natural| && Alike(out, natural, floor, Sum(Bases(natural, floor)) < available, i, j)
  {
    hide Share, Times, Sum;
    var base := Bases(natural, floor);
    if Sum(base) >= available {
      ScaledAlike(base[i], base[j], available / Sum(base));
    } else {
      var unmet := Unmet(natural, base);
      ShareFits(natural, available, floor);
      SharedAlike(available - Sum(base), unmet[i], unmet[j], Sum(unmet));
    }
  }

  lemma NothingAlike(natural: seq<real>, floor: real, i: nat, j: nat)
    requires Nonnegative(natural) && floor >= 0.0 && i < |natural| && j < |natural|
    ensures Alike(seq(|natural|, i => 0.0), natural, floor, Sum(Bases(natural, floor)) < 0.0, i, j)
  {
    SumBounds(Bases(natural, floor));
  }

  /** What is short is short for every panel in the same proportion. */
  lemma ShortageIsShared(heights: seq<Option<real>>, availableHeight: Option<real>, minimumHeight: Option<real>,
                         i: nat, j: nat)
    requires i < |heights| && j < |heights|
    ensures var (natural, floor) := (Measures(heights), Measure(minimumHeight));
            var (out, available) := (Allocate(heights, availableHeight, minimumHeight), Measure(availableHeight));
            && |natural| == |heights| && Asks(heights[i], natural[i])
            && Asks(minimumHeight, floor) && Asks(availableHeight, available)
            && |out| == |natural|
            && (Sum(natural) > available ==> Alike(out, natural, floor, Sum(Bases(natural, floor)) < available, i, j))
  {
    hide Constrained, Sum, Alike, Bases;
    var (natural, floor, available) := (Measures(heights), Measure(minimumHeight), Measure(availableHeight));
    if Sum(natural) <= available {
      return;
    }
    if available == 0.0 {
      NothingAlike(natural, floor, i, j);
    } else {
      ConstrainedAlike(natural, available, floor, i, j);
    }
  }

  /** The exit for "nothing unmet" is never taken. */
  lemma SomethingIsUnmet(natural: seq<real>, available: real, floor: real)
    requires Nonnegative(natural) && floor >= 0.0
    requires Sum(Bases(natural, floor)) < available < Sum(natural)
    ensures Sum(Unmet(natural, Bases(natural, floor))) > 0.0
  {
    SumUnmet(natural, floor);
  }

  // ------------------------------------------------------------------- corridor

  /**
   * The corridor stays between its obstacles, keeps the minimum height whenever
   * there is room for it, and is centred when centring leaves that much.
   */
  method ResolvePanelStackCorridor(
      viewportHeight: Option<real>, safeTop: Option<real>, safeBottom: Option<real>,
      obstacleSafeTop: Option<real>, obstacleSafeBottom: Option<real>, minimumHeight: Option<real>)
    returns (top: real, bottom: real)
    ensures var height := Max(1.0, viewportHeight.GetOr(1.0));
            var lowest := Max(0.0, obstacleSafeTop.GetOr(0.0));
            var highest := Max(lowest, Min(height, obstacleSafeBottom.GetOr(0.0)));
            var minimum := Max(0.0, minimumHeight.GetOr(0.0));
            && lowest <= top <= bottom <= highest
            && bottom - top >= Min(minimum, highest - lowest)
            && (var (t, b) := (Max(lowest, Min(highest, safeTop.GetOr(0.0))), Min(highest, safeBottom.GetOr(0.0)));
                var reach := Min(height * 0.5 - t, b - height * 0.5);
                if reach > 0.0 && 2.0 * reach >= minimum
                then top == height * 0.5 - reach && bottom == height * 0.5 + reach
                else if Max(t, b) - t >= minimum then top == t && bottom == Max(t, b)
                else && bottom - top == Min(minimum, highest - lowest)
                     && (bottom == Max(t, b) || (top == lowest && bottom > Max(t, b))))
  {
    var height := Max(1.0, viewportHeight.GetOr(1.0));
    var boundaryTop := Max(0.0, obstacleSafeTop.GetOr(0.0));
    var boundaryBottom := Max(boundaryTop, Min(height, obstacleSafeBottom.GetOr(0.0)));
    top := Max(boundaryTop, Min(boundaryBottom, safeTop.GetOr(0.0)));
    bottom := Max(top, Min(boundaryBottom, safeBottom.GetOr(0.0)));
    var minimum := Max(0.0, minimumHeight.GetOr(0.0));
    var midpoint := height * 0.5;
    if top < midpoint && bottom > midpoint {
      var half := Min(midpoint - top, bottom - midpoint);
      if (midpoint + half) - (midpoint - half) >= minimum {
        top, bottom := midpoint - half, midpoint + half;
      }
    }
    if bottom - top < minimum {
      top := Max(boundaryTop, bottom - minimum);
      bottom := Min(boundaryBottom, Max(bottom, top + minimum));
    }
  }
}
