/**
 * The arithmetic behind the admin "Sales Overview" bar chart: each month's profit and
 * expense become one stacked bar of four segments, and the y-axis gets a step, a top
 * value and a list of ticks computed from the data.
 */
module SalesChart {
  import opened Types

  datatype Month = Month(name: string, profit: int, expense: int)

  /** A processed month: the month itself plus the four stacked segments, bottom first. */
  datatype Bar = Bar(month: Month, profitBottom: int, expenseBottom: int, profitTop: int, expenseTop: int)

  /** The twelve months the chart draws. */
  const RawData: seq<Month> := [
    Month("Jan", 7000, 4500),
    Month("Feb", 1000, 3000),
    Month("Mar", 3800, 9000),
    Month("Apr", 5000, 9500),
    Month("May", 7800, 9500),
    Month("Jun", 9000, 9800),
    Month("Jul", 6000, 9500),
    Month("Aug", 7500, 9300),
    Month("Sep", 3500, 9200),
    Month("Oct", 5500, 9500),
    Month("Nov", 7500, 9500),
    Month("Dec", 8000, 9200)
  ]

  function Max(a: int, b: int): int { if a >= b then a else b }
  function Min(a: int, b: int): int { if a <= b then a else b }

  /** The taller of a month's two values: the height of its bar. */
  function Height(m: Month): int { Max(m.profit, m.expense) }

  /**
   * The stacking split. The smaller value sits at the bottom in its own colour and the
   * larger value's excess sits on top, so the bar is as tall as the larger value.
   * Ties put profit at the bottom and leave both tops empty.
   */
  function Split(m: Month): (b: Bar)
    ensures b.month == m
    ensures b.profitBottom + b.expenseBottom + b.profitTop + b.expenseTop == Height(m)
    ensures b.profitBottom + b.expenseBottom == Min(m.profit, m.expense)
    ensures b.profitTop == 0 || b.expenseTop == 0
    ensures b.profitBottom == 0 || b.expenseBottom == 0
    ensures b.profitTop != 0 ==> m.profit > m.expense
    ensures b.expenseTop != 0 ==> m.expense > m.profit
    ensures m.profit >= 0 && m.expense >= 0 ==>
      b.profitBottom >= 0 && b.expenseBottom >= 0 && b.profitTop >= 0 && b.expenseTop >= 0
  {
    var isProfitHigher := m.profit > m.expense;
    Bar(m,
        if isProfitHigher then 0 else m.profit,
        if isProfitHigher then m.expense else 0,
        if isProfitHigher then m.profit - m.expense else 0,
        if isProfitHigher then 0 else m.expense - m.profit)
  }

  /** `rawData.map(...)`: one bar per month, in order, each month carried along unchanged. */
  function ProcessedData(data: seq<Month>): (r: seq<Bar>)
    ensures |r| == |data|
    ensures forall i :: 0 <= i < |data| ==> r[i].month == data[i] && r[i] == Split(data[i])
  {
    if data == [] then [] else [Split(data[0])] + ProcessedData(data[1..])
  }

  /**
   * `Math.max(...data.map(d => Math.max(d.profit, d.expense)))`. Over no months JavaScript
   * gives -Infinity; None stands for it.
   */
  function MaxVal(data: seq<Month>): (r: Option<int>)
    ensures r.None? <==> data == []
    ensures r.Some? ==> forall i :: 0 <= i < |data| ==> Height(data[i]) <= r.value
    ensures r.Some? ==> exists i :: 0 <= i < |data| && Height(data[i]) == r.value
  {
    if data == [] then None
    else
      match MaxVal(data[1..])
      case None => Some(Height(data[0]))
      case Some(rest) =>
        assert forall i :: 1 <= i < |data| ==> Height(data[i]) <= rest by {
          forall i | 1 <= i < |data| ensures Height(data[i]) <= rest {
            assert data[i] == data[1..][i - 1];
          }
        }
        var j :| 0 <= j < |data[1..]| && Height(data[1..][j]) == rest;
        assert data[j + 1] == data[1..][j];
        Some(Max(Height(data[0]), rest))
  }

  /** The tick spacing: 2000 above ten thousand, 1000 otherwise (and for -Infinity). */
  function Step(maxVal: Option<int>): (s: int)
    ensures s == 1000 || s == 2000
    ensures s == 2000 <==> maxVal.Some? && maxVal.value > 10000
  {
    if maxVal.Some? && maxVal.value > 10000 then 2000 else 1000
  }

  /** On the chart's data: the coarser step is chosen exactly when some bar is taller than
      ten thousand. */
  lemma StepRule(data: seq<Month>)
    ensures Step(MaxVal(data)) == 2000 <==> exists i :: 0 <= i < |data| && Height(data[i]) > 10000
  {
    var m := MaxVal(data);
    if m.Some? {
      var j :| 0 <= j < |data| && Height(data[j]) == m.value;
      assert m.value > 10000 ==> Height(data[j]) > 10000;
    }
  }

  /** `Math.ceil(a / d)` for a positive `d`. */
  function CeilDiv(a: int, d: int): (q: int)
    requires d > 0
    ensures q * d >= a && (q - 1) * d < a
  {
    -((-a) / d)
  }

  /** `Math.max(10000, Math.ceil(maxVal / step) * step)`; -Infinity leaves 10000. */
  function YMax(maxVal: Option<int>): int
  {
    var step := Step(maxVal);
    match maxVal
    case None => 10000
    case Some(v) => Max(10000, CeilDiv(v, step) * step)
  }

  /** `Array.from({ length: yMax / step + 1 }, (_, i) => i * step)`. */
  function Ticks(yMax: int, step: int): (ts: seq<int>)
    requires step > 0 && yMax >= 0
    ensures |ts| == yMax / step + 1
    ensures forall i :: 0 <= i < |ts| ==> ts[i] == i * step
  {
    seq(yMax / step + 1, i => i * step)
  }

  /**
   * The axis reaches at least ten thousand and every bar, lands on a multiple of the step,
   * and is the smallest such value: one step less would fall short of ten thousand or of
   * the tallest bar.
   */
  lemma {:induction false} YMaxBounds(data: seq<Month>)
    ensures YMax(MaxVal(data)) >= 10000
    ensures forall i :: 0 <= i < |data| ==> Height(data[i]) <= YMax(MaxVal(data))
    ensures YMax(MaxVal(data)) % Step(MaxVal(data)) == 0
    ensures MaxVal(data).None? ==> YMax(MaxVal(data)) == 10000
    ensures MaxVal(data).Some? ==>
      YMax(MaxVal(data)) - Step(MaxVal(data)) < Max(10000, MaxVal(data).value)
  {
    var m := MaxVal(data);
    var step := Step(m);
    if m.Some? {
      var v := m.value;
      var q := CeilDiv(v, step);
      assert 10000 % step == 0;
      MultipleMod(q, step);
      if q * step < 10000 {
        assert YMax(m) == 10000;
      } else {
        assert YMax(m) == q * step;
        assert (q - 1) * step == q * step - step;
      }
    }
  }

  lemma MultipleMod(q: int, step: int)
    requires step == 1000 || step == 2000
    ensures (q * step) % step == 0
  {
    if step == 1000 {
      assert (q * 1000) % 1000 == 0;
    } else {
      assert (q * 2000) % 2000 == 0;
    }
  }

  /** The ticks start at 0, end exactly at the axis top, rise by one step each, and the
      last tick is at least every bar's height. */
  lemma {:induction false} TicksCoverAxis(data: seq<Month>)
    ensures var step := Step(MaxVal(data)); var ts := Ticks(YMax(MaxVal(data)), step);
      ts[0] == 0 && ts[|ts| - 1] == YMax(MaxVal(data)) &&
      (forall i :: 0 <= i < |ts| - 1 ==> ts[i] < ts[i + 1]) &&
      (forall i :: 0 <= i < |data| ==> Height(data[i]) <= ts[|ts| - 1])
  {
    var m := MaxVal(data);
    var step := Step(m);
    var y := YMax(m);
    YMaxBounds(data);
    var ts := Ticks(y, step);
    assert y == (y / step) * step;
    assert ts[|ts| - 1] == (y / step) * step;
  }

  /** The chart's own data: the tallest bar is June's 9800 expense, so the axis runs from 0
      to 10000 in eleven ticks of 1000. */
  lemma RawDataAxis()
    ensures MaxVal(RawData) == Some(9800)
    ensures Step(MaxVal(RawData)) == 1000 && YMax(MaxVal(RawData)) == 10000
    ensures |Ticks(10000, 1000)| == 11
  {
    var m := MaxVal(RawData);
    forall i | 0 <= i < |RawData| ensures Height(RawData[i]) <= 9800 {
    }
    assert Height(RawData[5]) == 9800;
    assert m.value >= 9800;
    var j :| 0 <= j < |RawData| && Height(RawData[j]) == m.value;
    assert m.value <= 9800;
  }

  /** The two series a tooltip can describe. */
  datatype Series = Profit | Expense

  /** The hovered segment's data key mapped to the series it belongs to; None for anything else. */
  function SeriesOf(activeBar: Option<string>): (r: Option<Series>)
    ensures r == Some(Profit) <==> activeBar == Some("profitTop") || activeBar == Some("profitBottom")
    ensures r == Some(Expense) <==> activeBar == Some("expenseTop") || activeBar == Some("expenseBottom")
  {
    match activeBar
    case Some(key) =>
      if key == "profitTop" || key == "profitBottom" then Some(Profit)
      else if key == "expenseTop" || key == "expenseBottom" then Some(Expense)
      else None
    case None => None
  }

  /** What a shown tooltip holds: the month label, the series name, its value and swatch colour. */
  datatype TooltipView = TooltipView(monthLabel: Option<string>, name: string, value: int, color: string)

  /**
   * `CustomTooltip`: nothing unless the tooltip is active with a non-empty payload, the
   * hovered segment maps to a series and the first payload entry carries its data item.
   * The value shown is the month's whole profit or expense, not the segment's height.
   */
  function Tooltip(active: bool, payload: seq<Option<Bar>>, monthLabel: Option<string>,
                   activeBar: Option<string>): (r: Option<TooltipView>)
    ensures r.Some? <==>
      active && |payload| > 0 && SeriesOf(activeBar).Some? && payload[0].Some?
    ensures r.Some? && SeriesOf(activeBar) == Some(Profit) ==>
      r.value == TooltipView(monthLabel, "Profit", payload[0].value.month.profit, "#2A7E74")
    ensures r.Some? && SeriesOf(activeBar) == Some(Expense) ==>
      r.value == TooltipView(monthLabel, "Expense", payload[0].value.month.expense, "#e5e7eb")
  {
    if active && |payload| > 0 then
      match (SeriesOf(activeBar), payload[0])
      case (Some(s), Some(item)) =>
        var isProfit := s == Profit;
        Some(TooltipView(
          monthLabel,
          if isProfit then "Profit" else "Expense",
          if isProfit then item.month.profit else item.month.expense,
          if isProfit then "#2A7E74" else "#e5e7eb"))
      case _ => None
    else None
  }

  /** Hovering either segment of a processed month reports that month's own value for the
      segment's series, whichever of the two stacks on top. */
  lemma HoverReportsMonthValue(m: Month, monthLabel: Option<string>, key: string)
    requires key in {"profitTop", "profitBottom", "expenseTop", "expenseBottom"}
    ensures var r := Tooltip(true, [Some(Split(m))], monthLabel, Some(key));
      r.Some? &&
      (key == "profitTop" || key == "profitBottom" ==> r.value.value == m.profit) &&
      (key == "expenseTop" || key == "expenseBottom" ==> r.value.value == m.expense)
  {
  }
}
