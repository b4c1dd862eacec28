/** Autonomous-vehicle adoption by SAE level (1-5) and vehicle segment:
    the per-segment parameter table, the minimum-year mask and the cap at
    100 % applied to each level's adoption curve, and the cumulative
    columns built from them (level k or any level below it, capped at 1). The logistic curve itself
    is a parameter: its values are given, not computed. */
module AutonomousVehicles {
  import opened Wrappers
  import opened Numeric

  /** One SAE level's curve: maximal penetration, growth rate, midpoint
      year, and the earliest year the level is available. */
  datatype LevelParams = LevelParams(lMax: real, k: real, yearMid: int, minYear: int)

  /** The number of SAE levels simulated (levels 1 to 5). */
  const LevelCount: nat := 5

  /** The segments with parameters, in table order. */
  const Segments: seq<string> := ["luxury", "mass_market", "commercial", "robotaxi"]

  /** The error for a segment without parameters, listing the valid ones. */
  function UnknownSegment(segment: string): string
  {
    "Unknown segment: " + segment + ". Choose from ['luxury', 'mass_market', 'commercial', 'robotaxi']"
  }

  /** The parameters of levels 1 to 5 (at indices 0 to 4) of a segment. */
  function SegmentParameters(segment: string): (r: Option<seq<LevelParams>>)
    ensures r.Some? <==> segment in Segments
    ensures r.Some? ==> |r.value| == LevelCount
    ensures r.Some? ==> forall l :: 0 <= l < LevelCount ==>
              0.0 < r.value[l].lMax <= 1.0 && r.value[l].minYear >= 2020
    ensures r.Some? ==> forall l :: 0 <= l < LevelCount - 1 ==> r.value[l].minYear <= r.value[l + 1].minYear
  {
    if segment == "luxury" then
      Some([LevelParams(0.98, 0.8, 2023, 2020),
            LevelParams(0.95, 0.7, 2024, 2020),
            LevelParams(0.70, 0.6, 2028, 2023),
            LevelParams(0.50, 0.5, 2032, 2026),
            LevelParams(0.25, 0.4, 2035, 2030)])
    else if segment == "mass_market" then
      Some([LevelParams(0.95, 0.7, 2024, 2020),
            LevelParams(0.90, 0.6, 2026, 2020),
            LevelParams(0.60, 0.5, 2030, 2025),
            LevelParams(0.40, 0.4, 2034, 2028),
            LevelParams(0.15, 0.3, 2038, 2032)])
    else if segment == "commercial" then
      Some([LevelParams(0.90, 0.6, 2025, 2020),
            LevelParams(0.85, 0.5, 2027, 2020),
            LevelParams(0.70, 0.5, 2029, 2024),
            LevelParams(0.60, 0.5, 2032, 2027),
            LevelParams(0.10, 0.3, 2040, 2035)])
    else if segment == "robotaxi" then
      Some([LevelParams(0.95, 0.8, 2024, 2020),
            LevelParams(0.90, 0.7, 2025, 2020),
            LevelParams(0.80, 0.7, 2027, 2023),
            LevelParams(0.90, 0.6, 2030, 2025),
            LevelParams(0.40, 0.4, 2035, 2030)])
    else
      None
  }

  /** The logistic curve's value for a year under a level's parameters. */
  type Curve = (int, LevelParams) -> real

  /** A level's adoption in a year: nothing before the level's minimum
      year, otherwise the curve's value capped at 1. */
  function LevelAdoption(year: int, p: LevelParams, curve: Curve): (a: real)
    ensures a <= 1.0
    ensures year < p.minYear ==> a == 0.0
    ensures year >= p.minYear && curve(year, p) <= 1.0 ==> a == curve(year, p)
    ensures curve(year, p) >= 0.0 ==> a >= 0.0
  {
    Min(if year < p.minYear then 0.0 else curve(year, p), 1.0)
  }

  /** The years from start to end inclusive. */
  function YearRange(start: int, end: int): (ys: seq<int>)
    ensures |ys| == if end < start then 0 else end - start + 1
    ensures forall t :: 0 <= t < |ys| ==> ys[t] == start + t
  {
    if end < start then [] else seq(end - start + 1, t => start + t)
  }

  /** A simulated table: the years, one adoption column per level (L1 to
      L5), and, once computed, one cumulative column per level. */
  datatype Frame = Frame(years: seq<int>, levels: seq<seq<real>>, cumulative: seq<seq<real>>)

  /** Every level column holds one value per year. */
  predicate Shaped(years: seq<int>, cols: seq<seq<real>>)
  {
    |cols| == LevelCount && forall l :: 0 <= l < |cols| ==> |cols[l]| == |years|
  }

  /** The column is the level's masked and capped curve over the years. */
  predicate ColumnOf(col: seq<real>, years: seq<int>, p: LevelParams, curve: Curve)
  {
    |col| == |years| && forall t :: 0 <= t < |years| ==> col[t] == LevelAdoption(years[t], p, curve)
  }

  /** Zeroes, in place, every entry whose year precedes the minimum year. */
  method MaskBefore(years: seq<int>, adoption: array<real>, minYear: int)
    requires adoption.Length == |years|
    modifies adoption
    ensures forall t :: 0 <= t < |years| ==>
              adoption[t] == if years[t] < minYear then 0.0 else old(adoption[t])
  {
    var t := 0;
    while t < adoption.Length
      invariant 0 <= t <= adoption.Length
      invariant forall u :: 0 <= u < t ==>
                  adoption[u] == if years[u] < minYear then 0.0 else old(adoption[u])
      invariant forall u :: t <= u < adoption.Length ==> adoption[u] == old(adoption[u])
    {
      if years[t] < minYear {
        adoption[t] := 0.0;
      }
      t := t + 1;
    }
  }

  /** One level's column: the curve over the years, masked before the
      minimum year and capped at 1. */
  method LevelColumn(years: seq<int>, p: LevelParams, curve: Curve) returns (col: seq<real>)
    ensures ColumnOf(col, years, p, curve)
  {
    var adoption := new real[|years|](t requires 0 <= t < |years| => curve(years[t], p));
    MaskBefore(years, adoption, p.minYear);
    var masked := adoption[..];
    col := seq(|masked|, t requires 0 <= t < |masked| => Min(masked[t], 1.0));
  }

  /** Simulates levels 1 to 5 of a segment over the years; an unknown
      segment is an error naming the valid ones. */
  method SimulateSegment(years: seq<int>, segment: string, curve: Curve) returns (r: Result<Frame, string>)
    ensures r.Failure? <==> segment !in Segments
    ensures r.Failure? ==> r.error == UnknownSegment(segment)
    ensures r.Success? ==> r.value.years == years && r.value.cumulative == []
    ensures r.Success? ==> Shaped(years, r.value.levels)
    ensures r.Success? ==> forall l :: 0 <= l < LevelCount ==>
              ColumnOf(r.value.levels[l], years, SegmentParameters(segment).value[l], curve)
  {
    var table := SegmentParameters(segment);
    if table.None? {
      return Failure(UnknownSegment(segment));
    }
    var params := table.value;
    var levels: seq<seq<real>> := [];
    var l := 0;
    while l < LevelCount
      invariant 0 <= l <= LevelCount
      invariant |levels| == l
      invariant forall m :: 0 <= m < l ==> ColumnOf(levels[m], years, params[m], curve)
    {
      var col := LevelColumn(years, params[l], curve);
      levels := levels + [col];
      l := l + 1;
    }
    r := Success(Frame(years, levels, []));
  }

  /** Adoption of level k+1 or any level below it at year index t: level 1
      alone, then each level added to the one below and capped at 1. */
  function Cumulative(levels: seq<seq<real>>, k: nat, t: nat): real
    requires k < |levels| && forall l :: 0 <= l <= k ==> t < |levels[l]|
  {
    if k == 0 then levels[0][t]
    else Min(levels[k][t] + Cumulative(levels, k - 1, t), 1.0)
  }

  /** Adds the cumulative columns to a copy of the frame, leaving the years
      and the level columns as they were. */
  method CalculateCumulative(df: Frame) returns (result: Frame)
    requires Shaped(df.years, df.levels)
    ensures result.years == df.years && result.levels == df.levels
    ensures Shaped(result.years, result.cumulative)
    ensures forall k, t :: 0 <= k < LevelCount && 0 <= t < |df.years| ==>
              result.cumulative[k][t] == Cumulative(df.levels, k, t)
  {
    var n := |df.years|;
    var cumulative: seq<seq<real>> := [df.levels[0]];
    var k := 1;
    while k < LevelCount
      invariant 1 <= k <= LevelCount
      invariant |cumulative| == k
      invariant forall j :: 0 <= j < k ==> |cumulative[j]| == n
      invariant forall j, t :: 0 <= j < k && 0 <= t < n ==> cumulative[j][t] == Cumulative(df.levels, j, t)
    {
      var below := cumulative[k - 1];
      var level := df.levels[k];
      var col := seq(n, t requires 0 <= t < n => Min(level[t] + below[t], 1.0));
      cumulative := cumulative + [col];
      k := k + 1;
    }
    result := Frame(df.years, df.levels, cumulative);
  }

  /** Level 1's cumulative column is level 1's own column. */
  lemma FirstCumulativeIsLevelOne(levels: seq<seq<real>>, t: nat)
    requires |levels| > 0 && t < |levels[0]|
    ensures Cumulative(levels, 0, t) == levels[0][t]
  {
  }

  /** Every cumulative value is at most 1 when level 1's value is. */
  lemma CumulativeAtMostOne(levels: seq<seq<real>>, k: nat, t: nat)
    requires k < |levels| && forall l :: 0 <= l <= k ==> t < |levels[l]|
    requires levels[0][t] <= 1.0
    ensures Cumulative(levels, k, t) <= 1.0
  {
  }

  /** With non-negative adoptions, the cumulative values are non-negative
      and do not decrease from one level to the next. */
  lemma {:induction false} CumulativeNonDecreasing(levels: seq<seq<real>>, k: nat, t: nat)
    requires k + 1 < |levels| && forall l :: 0 <= l <= k + 1 ==> t < |levels[l]|
    requires forall l :: 0 <= l <= k + 1 ==> 0.0 <= levels[l][t] <= 1.0
    ensures 0.0 <= Cumulative(levels, k, t) <= Cumulative(levels, k + 1, t)
  {
    if k > 0 {
      CumulativeNonDecreasing(levels, k - 1, t);
    }
  }

  /** The masked and capped levels of a simulated frame have cumulative
      columns in [0, 1], non-decreasing by level, whenever the curve is
      non-negative. */
  lemma SimulatedCumulativeOrdered(years: seq<int>, segment: string, curve: Curve, levels: seq<seq<real>>, k: nat, t: nat)
    requires segment in Segments && k + 1 < LevelCount && t < |years|
    requires Shaped(years, levels)
    requires forall l :: 0 <= l < LevelCount ==> ColumnOf(levels[l], years, SegmentParameters(segment).value[l], curve)
    requires forall l :: 0 <= l < LevelCount ==> curve(years[t], SegmentParameters(segment).value[l]) >= 0.0
    ensures 0.0 <= Cumulative(levels, k, t) <= Cumulative(levels, k + 1, t) <= 1.0
  {
    var params := SegmentParameters(segment).value;
    forall l | 0 <= l <= k + 1
      ensures 0.0 <= levels[l][t] <= 1.0
    {
      assert ColumnOf(levels[l], years, params[l], curve);
      assert levels[l][t] == LevelAdoption(years[t], params[l], curve);
    }
    CumulativeNonDecreasing(levels, k, t);
    CumulativeAtMostOne(levels, k + 1, t);
  }

  /** A row of the combined table: the cumulative values of levels 2, 3
      and 4 (adoption of that level or any level below it, capped at 1) as
      percentages. The program labels these columns "L2+", "L3+" and "L4+". */
  datatype CombinedRow = CombinedRow(year: int, segment: string, l2Plus: real, l3Plus: real, l4Plus: real)

  /** One combined row per year of the frame. */
  function CombinedRows(segment: string, df: Frame): (rows: seq<CombinedRow>)
    requires Shaped(df.years, df.cumulative)
    ensures |rows| == |df.years|
    ensures forall t :: 0 <= t < |rows| ==>
              rows[t].year == df.years[t] && rows[t].segment == segment &&
              rows[t].l2Plus == df.cumulative[1][t] * 100.0 &&
              rows[t].l3Plus == df.cumulative[2][t] * 100.0 &&
              rows[t].l4Plus == df.cumulative[3][t] * 100.0
  {
    seq(|df.years|, t requires 0 <= t < |df.years| =>
      CombinedRow(df.years[t], segment,
                  df.cumulative[1][t] * 100.0, df.cumulative[2][t] * 100.0, df.cumulative[3][t] * 100.0))
  }

  /** The frame of a segment once simulated and accumulated. */
  predicate SegmentResult(df: Frame, years: seq<int>, segment: string, curve: Curve)
    requires segment in Segments
  {
    && df.years == years
    && Shaped(years, df.levels)
    && (forall l :: 0 <= l < LevelCount ==> ColumnOf(df.levels[l], years, SegmentParameters(segment).value[l], curve))
    && Shaped(years, df.cumulative)
    && (forall k, t :: 0 <= k < LevelCount && 0 <= t < |years| ==> df.cumulative[k][t] == Cumulative(df.levels, k, t))
  }

  /** In the combined rows of a simulated segment, the three percentages
      lie in [0, 100] and do not decrease from "L2+" to "L4+", whenever the
      curve is non-negative at that year. */
  lemma CombinedRowOrdered(df: Frame, years: seq<int>, segment: string, curve: Curve, t: nat)
    requires segment in Segments && t < |years|
    requires SegmentResult(df, years, segment, curve)
    requires forall l :: 0 <= l < LevelCount ==> curve(years[t], SegmentParameters(segment).value[l]) >= 0.0
    ensures 0.0 <= CombinedRows(segment, df)[t].l2Plus <= CombinedRows(segment, df)[t].l3Plus
              <= CombinedRows(segment, df)[t].l4Plus <= 100.0
  {
    var rows := CombinedRows(segment, df);
    SimulatedCumulativeOrdered(years, segment, curve, df.levels, 1, t);
    SimulatedCumulativeOrdered(years, segment, curve, df.levels, 2, t);
    assert df.cumulative[1][t] == Cumulative(df.levels, 1, t);
    assert df.cumulative[2][t] == Cumulative(df.levels, 2, t);
    assert df.cumulative[3][t] == Cumulative(df.levels, 3, t);
    assert rows[t].l2Plus == df.cumulative[1][t] * 100.0;
    assert rows[t].l3Plus == df.cumulative[2][t] * 100.0;
    assert rows[t].l4Plus == df.cumulative[3][t] * 100.0;
  }

  /** Simulates and accumulates every segment over the years from start to
      end, and collects the combined rows segment by segment. */
  method RunAvSimulation(startYear: int, endYear: int, curve: Curve)
    returns (results: map<string, Frame>, combined: seq<CombinedRow>)
    ensures results.Keys == set s | s in Segments
    ensures forall s :: s in results ==> SegmentResult(results[s], YearRange(startYear, endYear), s, curve)
    ensures |combined| == |Segments| * |YearRange(startYear, endYear)|
    ensures forall i :: 0 <= i < |Segments| ==>
              BlockAt(combined, i, |YearRange(startYear, endYear)|, Segments[i], results[Segments[i]])
  {
    var years := YearRange(startYear, endYear);
    var n := |years|;
    results := map[];
    combined := [];
    var i := 0;
    while i < |Segments|
      invariant 0 <= i <= |Segments|
      invariant results.Keys == set s | s in Segments[..i]
      invariant forall s :: s in results ==> s in Segments && SegmentResult(results[s], years, s, curve)
      invariant |combined| == i * n
      invariant forall j :: 0 <= j < i ==> BlockAt(combined, j, n, Segments[j], results[Segments[j]])
    {
      var segment := Segments[i];
      var simulated := SimulateSegment(years, segment, curve);
      if simulated.Failure? {
        assert false;
      }
      var df := CalculateCumulative(simulated.value);
      assert SegmentResult(df, years, segment, curve);
      BlocksExtend(combined, results, i, n, df);
      results := results[segment := df];
      combined := combined + CombinedRows(segment, df);
      assert (i + 1) * n == i * n + n;
      assert Segments[..i + 1] == Segments[..i] + [segment];
      i := i + 1;
    }
    assert Segments[..i] == Segments;
  }

  /** Row t of block i in a table of n-row blocks. */
  function RowIndex(i: nat, n: nat, t: nat): nat
  {
    i * n + t
  }

  /** Block i of the combined table holds the combined rows of the segment's
      frame, one per year, in year order. */
  predicate BlockAt(combined: seq<CombinedRow>, i: nat, n: nat, segment: string, df: Frame)
  {
    && Shaped(df.years, df.cumulative) && |df.years| == n
    && forall t :: 0 <= t < n ==>
         RowIndex(i, n, t) < |combined| && combined[RowIndex(i, n, t)] == CombinedRows(segment, df)[t]
  }

  /** Appending segment i's rows after its i predecessors' blocks adds its
      block and keeps theirs. */
  lemma BlocksExtend(combined: seq<CombinedRow>, results: map<string, Frame>, i: nat, n: nat, df: Frame)
    requires i < |Segments| && |combined| == i * n
    requires Shaped(df.years, df.cumulative) && |df.years| == n
    requires forall j :: 0 <= j < i ==> Segments[j] in results && BlockAt(combined, j, n, Segments[j], results[Segments[j]])
    ensures forall j :: 0 <= j < i + 1 ==>
              BlockAt(combined + CombinedRows(Segments[i], df), j, n, Segments[j], results[Segments[i] := df][Segments[j]])
  {
    var rows := CombinedRows(Segments[i], df);
    var results' := results[Segments[i] := df];
    forall j | 0 <= j < i + 1
      ensures BlockAt(combined + rows, j, n, Segments[j], results'[Segments[j]])
    {
      if j < i {
        assert |Segments[j]| != |Segments[i]|;
        BlockAtAppend(combined, rows, j, n, Segments[j], results[Segments[j]]);
      } else {
        BlockAtNew(combined, i, n, Segments[i], df);
      }
    }
  }

  /** Appending rows keeps every earlier block. */
  lemma BlockAtAppend(combined: seq<CombinedRow>, rows: seq<CombinedRow>, i: nat, n: nat, segment: string, df: Frame)
    requires BlockAt(combined, i, n, segment, df)
    ensures BlockAt(combined + rows, i, n, segment, df)
  {
  }

  /** The rows appended after i full blocks are block i. */
  lemma BlockAtNew(combined: seq<CombinedRow>, i: nat, n: nat, segment: string, df: Frame)
    requires |combined| == i * n
    requires Shaped(df.years, df.cumulative) && |df.years| == n
    ensures BlockAt(combined + CombinedRows(segment, df), i, n, segment, df)
  {
    var rows := CombinedRows(segment, df);
    forall t | 0 <= t < n
      ensures RowIndex(i, n, t) < |combined + rows| && (combined + rows)[RowIndex(i, n, t)] == rows[t]
    {
      assert RowIndex(i, n, t) == |combined| + t;
    }
  }
}
