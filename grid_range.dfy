/** Grid zone arithmetic: the band [lower, upper] cut into `grids` equal cells, and the zone a price
    falls in. */
module GridRange {

  /** A zone: its lower and upper bounds and the grid width. */
  datatype Zone = Zone(lower: real, upper: real, width: real)

  predicate IsWhole(x: real) {
    x.Floor as real == x
  }

  function Width(lower: real, upper: real, grids: real): (w: real)
    requires lower < upper && grids > 0.0
    ensures w > 0.0
    ensures w * grids == upper - lower
  {
    (upper - lower) / grids
  }

  /** `price` sits exactly on one of the grid lines lower + k*w. */
  predicate OnGridLine(price: real, lower: real, w: real)
    requires w > 0.0
  {
    IsWhole((price - lower) / w)
  }

  lemma MulStrict(a: real, b: real, w: real)
    requires a < b && w > 0.0
    ensures a * w < b * w
  {
  }

  lemma MulWeak(a: real, b: real, w: real)
    requires a <= b && w > 0.0
    ensures a * w <= b * w
  {
  }

  lemma DivBack(a: real, w: real)
    requires w > 0.0
    ensures (a / w) * w == a
  {
  }

  lemma QuotBack(a: real, w: real, q: real)
    requires w > 0.0 && q == a / w
    ensures q * w == a
  {
  }

  lemma MulCancelLt(a: real, b: real, w: real)
    requires w > 0.0 && a * w < b * w
    ensures a < b
  {
  }

  /** GetGridRange: a price on a grid line gets the straddling zone (price-w, price+w); any other
      price gets the cell [lower+k*w, lower+(k+1)*w] that contains it, which starts on a grid line. */
  function GetGridRange(price: real, lower: real, upper: real, grids: real): (z: Zone)
    requires lower < upper && grids > 0.0
    ensures z.width == Width(lower, upper, grids)
    ensures OnGridLine(price, lower, z.width) ==>
              z.lower == price - z.width && z.upper == price + z.width
    ensures !OnGridLine(price, lower, z.width) ==>
              z.lower < price < z.upper && z.upper - z.lower == z.width
              && OnGridLine(z.lower, lower, z.width)
  {
    var w := Width(lower, upper, grids);
    var q := (price - lower) / w;
    if IsWhole(q) then
      Zone(price - w, price + w, w)
    else
      var idx := q.Floor;
      DivBack(price - lower, w);
      MulStrict(idx as real, q, w);
      MulStrict(q, idx as real + 1.0, w);
      assert (lower + idx as real * w - lower) / w == idx as real;
      Zone(lower + idx as real * w, lower + (idx + 1) as real * w, w)
  }

  /** The zone always brackets the price strictly. */
  lemma ZoneBracketsPrice(price: real, lower: real, upper: real, grids: real)
    requires lower < upper && grids > 0.0
    ensures var z := GetGridRange(price, lower, upper, grids);
            z.lower < price < z.upper && z.width > 0.0
  {
  }

  /** Reference characterisation: when the price is strictly inside the cell that starts k grid
      lines above `lower`, that cell is the zone. */
  lemma GridRangeIsCell(price: real, lower: real, upper: real, grids: real, k: int)
    requires lower < upper && grids > 0.0
    requires lower + k as real * Width(lower, upper, grids) < price
    requires price < lower + (k + 1) as real * Width(lower, upper, grids)
    ensures GetGridRange(price, lower, upper, grids)
              == Zone(lower + k as real * Width(lower, upper, grids),
                      lower + (k + 1) as real * Width(lower, upper, grids),
                      Width(lower, upper, grids))
  {
    var w := Width(lower, upper, grids);
    var q := (price - lower) / w;
    QuotBack(price - lower, w, q);
    MulCancelLt(k as real, q, w);
    MulCancelLt(q, (k + 1) as real, w);
    assert q.Floor == k;
  }

  /** The test's first case: 554 in [500, 800] with 60 grids lies in (550, 555), width 5. */
  lemma GridCase554()
    ensures GetGridRange(554.0, 500.0, 800.0, 60.0) == Zone(550.0, 555.0, 5.0)
  {
    GridRangeIsCell(554.0, 500.0, 800.0, 60.0, 10);
  }

  /** 555 is on a grid line: the straddling zone (550, 560). */
  lemma GridCase555()
    ensures GetGridRange(555.0, 500.0, 800.0, 60.0) == Zone(550.0, 560.0, 5.0)
  {
    assert Width(500.0, 800.0, 60.0) == 5.0;
    assert (555.0 - 500.0) / 5.0 == 11.0;
  }

  /** Just above the line, 556 starts the next cell (555, 560). */
  lemma GridCase556()
    ensures GetGridRange(556.0, 500.0, 800.0, 60.0) == Zone(555.0, 560.0, 5.0)
  {
    GridRangeIsCell(556.0, 500.0, 800.0, 60.0, 11);
  }

  lemma GridCase22()
    ensures GetGridRange(22.0, 10.0, 110.0, 10.0) == Zone(20.0, 30.0, 10.0)
  {
    GridRangeIsCell(22.0, 10.0, 110.0, 10.0, 1);
  }

  lemma GridCase164()
    ensures GetGridRange(164.0, 10.0, 202.0, 24.0) == Zone(162.0, 170.0, 8.0)
  {
    GridRangeIsCell(164.0, 10.0, 202.0, 24.0, 19);
  }

  lemma GridCase71()
    ensures GetGridRange(71.0, 10.0, 136.0, 18.0) == Zone(66.0, 73.0, 7.0)
  {
    GridRangeIsCell(71.0, 10.0, 136.0, 18.0, 8);
  }

  /** The top cell of this band ends exactly at `upper`. */
  lemma GridCase90()
    ensures GetGridRange(90.0, 10.0, 94.0, 14.0) == Zone(88.0, 94.0, 6.0)
  {
    GridRangeIsCell(90.0, 10.0, 94.0, 14.0, 13);
  }
}
