/** The trading-volume script: for every ticker whose file exists, clean its rows, add the
    daily returns, cumulative returns and drawdown of Adj_Close to its frame, and keep the
    drawdown; a missing file is reported and skipped, any other failure stops the script. */
module Volume {
  import opened Wrappers
  import opened Series
  import opened Dates
  import opened Records
  import opened Returns
  import opened Align
  import opened Charts
  import Store

  /** The directory named in the skip message. */
  const Directory: string := "Financial Data"

  /** What the script prints for a ticker without a file: the ticker after "Data for ", then
      the directory. */
  function SkipMessage(ticker: string): (msg: string)
    ensures |msg| == |"Data for "| + |ticker| + |" not found in "| + |Directory| + |". Skipping."|
    ensures msg[|"Data for "|..|"Data for "| + |ticker|] == ticker
    ensures msg[|"Data for "| + |ticker| + |" not found in "|..|msg| - |". Skipping."|] == Directory
  {
    var tail := " not found in " + Directory + ". Skipping.";
    assert "Data for " + ticker + tail == "Data for " + ticker + " not found in " + Directory + ". Skipping.";
    Text.Framed("Data for ", ticker, tail);
    Text.Framed("Data for " + ticker + " not found in ", Directory, ". Skipping.");
    "Data for " + ticker + " not found in " + Directory + ". Skipping."
  }

  /** Different tickers get different skip lines. */
  lemma SkipMessageInjective(a: string, b: string)
    requires SkipMessage(a) == SkipMessage(b)
    ensures a == b
  {
    assert |a| == |b|;
  }

  /** The drawdown column stored for one ticker, on the ticker's own dates. */
  datatype Kept = Kept(ticker: string, dates: seq<DateTime>, drawdown: seq<Option<real>>)

  /** What a full run leaves behind: the kept drawdowns in ticker order and the printed lines. */
  datatype Report = Report(drawdowns: seq<Kept>, log: seq<string>)

  /** The drawdown column of one cleaned frame, or `None` when Adj_Close holds text, where
      `pct_change` raises. */
  function TickerDrawdown(rows: seq<Row<DateTime>>): (d: Option<seq<Option<real>>>)
    ensures d.Some? <==> Numbers(rows, AdjClose).Some?
    ensures d.Some? ==> |d.value| == |rows|
    ensures d.Some? ==>
              d.value == Drawdown(CumProdSkipNa(PctChange(Numbers(rows, AdjClose).value)))
  {
    match Numbers(rows, AdjClose)
    case Some(p) => Some(Drawdown(CumProdSkipNa(PctChange(p))))
    case None => None
  }

  /** One pass of the ticker loop: skip a missing file, stop on a file that fails, or keep the
      ticker's drawdown. */
  function Step(rep: Report, ticker: string, files: map<string, seq<RawRecord>>)
    : (r: Result<Report, Store.Failure>)
    ensures ticker !in files ==> r == Ok(Report(rep.drawdowns, rep.log + [SkipMessage(ticker)]))
    ensures r.Err? ==> r.error.symbol == ticker && ticker in files
    ensures r.Ok? && ticker in files ==>
              r.value.log == rep.log &&
              |r.value.drawdowns| == |rep.drawdowns| + 1 &&
              r.value.drawdowns[..|rep.drawdowns|] == rep.drawdowns &&
              r.value.drawdowns[|rep.drawdowns|].ticker == ticker
  {
    if ticker !in files then Ok(Report(rep.drawdowns, rep.log + [SkipMessage(ticker)]))
    else match CleanRecords(files[ticker])
      case Err(e) => Err(Store.Failed(ticker, e))
      case Ok(rows) =>
        match TickerDrawdown(rows)
        case None => Err(Store.Failed(ticker, NotNumeric(AdjClose)))
        case Some(d) =>
          var kept := rep.drawdowns + [Kept(ticker, DatesOf(rows), d)];
          assert kept[..|rep.drawdowns|] == rep.drawdowns;
          Ok(Report(kept, rep.log))
  }

  /** The outcome of running the loop over `symbols`: the first failure, or the report. */
  function Outcome(symbols: seq<string>, files: map<string, seq<RawRecord>>)
    : (r: Result<Report, Store.Failure>)
    ensures r.Err? ==> r.error.symbol in symbols && r.error.symbol in files
    decreases |symbols|
  {
    if |symbols| == 0 then Ok(Report([], []))
    else
      var init := symbols[..|symbols| - 1];
      match Outcome(init, files)
      case Err(f) =>
        assert f.symbol in symbols by { assert forall x :: x in init ==> x in symbols; }
        Err(f)
      case Ok(rep) => Step(rep, symbols[|symbols| - 1], files)
  }

  /** The tickers of the kept drawdowns, in order. */
  function Tickers(kept: seq<Kept>): (ts: seq<string>)
    ensures |ts| == |kept| && forall k :: 0 <= k < |kept| ==> ts[k] == kept[k].ticker
  {
    seq(|kept|, k requires 0 <= k < |kept| => kept[k].ticker)
  }

  /** The skip messages of the tickers without a file, in order. */
  function SkipLog(symbols: seq<string>, files: map<string, seq<RawRecord>>): (log: seq<string>)
    ensures |log| <= |symbols|
    decreases |symbols|
  {
    if |symbols| == 0 then []
    else
      var last := symbols[|symbols| - 1];
      SkipLog(symbols[..|symbols| - 1], files) + (if last !in files then [SkipMessage(last)] else [])
  }

  /** A run that finishes has kept exactly the tickers whose file exists, in list order, and
      printed one skip message per ticker without a file, in list order. */
  lemma {:induction false} OutcomeReport(symbols: seq<string>, files: map<string, seq<RawRecord>>)
    requires Outcome(symbols, files).Ok?
    ensures Tickers(Outcome(symbols, files).value.drawdowns) == ValidSymbols(symbols, files.Keys)
    ensures Outcome(symbols, files).value.log == SkipLog(symbols, files)
    decreases |symbols|
  {
    if |symbols| > 0 {
      var init := symbols[..|symbols| - 1];
      var last := symbols[|symbols| - 1];
      OutcomeReport(init, files);
      var rep := Outcome(init, files).value;
      var next := Outcome(symbols, files).value;
      if last in files {
        assert Tickers(next.drawdowns) == Tickers(rep.drawdowns) + [last] by {
          assert next.drawdowns[..|rep.drawdowns|] == rep.drawdowns;
        }
      }
    }
  }

  /** A run that stops does so at a ticker whose file exists but does not clean, or whose
      Adj_Close column holds text. */
  lemma {:induction false} OutcomeFailure(symbols: seq<string>, files: map<string, seq<RawRecord>>)
    requires Outcome(symbols, files).Err?
    ensures var f := Outcome(symbols, files).error;
      f.Failed? && f.symbol in files &&
      (CleanRecords(files[f.symbol]).Err? ==> f.error == CleanRecords(files[f.symbol]).error) &&
      (CleanRecords(files[f.symbol]).Ok? ==>
         f.error == NotNumeric(AdjClose) && TickerDrawdown(CleanRecords(files[f.symbol]).value).None?)
    decreases |symbols|
  {
    var init := symbols[..|symbols| - 1];
    if Outcome(init, files).Err? {
      OutcomeFailure(init, files);
    }
  }

  /** Once the loop has stopped, later tickers change nothing: the run ends with the failure
      of the prefix. */
  lemma {:induction false} OutcomeStops(symbols: seq<string>, i: nat, files: map<string, seq<RawRecord>>)
    requires i <= |symbols| && Outcome(symbols[..i], files).Err?
    ensures Outcome(symbols, files) == Outcome(symbols[..i], files)
    decreases |symbols|
  {
    if |symbols| == i {
      assert symbols[..i] == symbols;
    } else {
      var init := symbols[..|symbols| - 1];
      assert init[..i] == symbols[..i];
      OutcomeStops(init, i, files);
    }
  }

  /** For a gap-free run of positive prices the drawdown is defined from the second row on,
      lies in (-1, 0], and is 0 exactly at a new high of the cumulative returns. */
  lemma TickerDrawdownBounds(rows: seq<Row<DateTime>>, p: seq<real>, t: nat)
    requires Numbers(rows, AdjClose) == Some(Lift(p))
    requires forall k :: 0 <= k < |p| ==> p[k] > 0.0
    requires 0 < t < |p|
    ensures var d := TickerDrawdown(rows).value;
      var c := CumProdSkipNa(PctChange(Lift(p)));
      d[t].Some? && -1.0 < d[t].value <= 0.0 &&
      (d[t].value == 0.0 <==> c[t].value == CumMaxSkipNa(c)[t].value)
  {
    var c := CumProdSkipNa(PctChange(Lift(p)));
    PositivePricesDrawdown(p, t);
    CumProdSkipNaTelescopes(p, t);
    PositiveQuotient(p[t], p[0]);
    DrawdownBounds(c, t);
  }

  /** The final chart: one drawdown curve per kept ticker, in the order they were kept. */
  function DrawdownFigure(rep: Report): (f: Figure)
    ensures f.title == "Drawdown Over Time" && f.levels == []
    ensures |f.traces| == |rep.drawdowns|
    ensures forall k :: 0 <= k < |rep.drawdowns| ==>
              f.traces[k] == Curve(rep.drawdowns[k].ticker + " Drawdown", rep.drawdowns[k].dates,
                                   rep.drawdowns[k].drawdown)
  {
    Figure("Drawdown Over Time",
           seq(|rep.drawdowns|, k requires 0 <= k < |rep.drawdowns| =>
             Curve(rep.drawdowns[k].ticker + " Drawdown", rep.drawdowns[k].dates,
                   rep.drawdowns[k].drawdown)),
           [])
  }

  /** `pct_change()` of the Adj_Close column: `None` when a cell holds text, where pandas
      raises before computing anything; otherwise the returns, computed row by row. */
  method DailyReturnsOf(rows: seq<Row<DateTime>>) returns (r: Option<seq<Option<real>>>)
    ensures r.Some? <==> Numbers(rows, AdjClose).Some?
    ensures r.Some? ==> r.value == PctChange(Numbers(rows, AdjClose).value)
  {
    var i := 0;
    while i < |rows|
      invariant 0 <= i <= |rows|
      invariant forall k :: 0 <= k < i ==> rows[k].Get(AdjClose).Num?
    {
      if rows[i].Get(AdjClose).Str? {
        return None;
      }
      i := i + 1;
    }
    var col := Numbers(rows, AdjClose).value;
    var acc: seq<Option<real>> := [];
    i := 0;
    while i < |col|
      invariant 0 <= i <= |col| && |acc| == i
      invariant forall k :: 0 <= k < i ==> acc[k] == PctChange(col)[k]
    {
      if i > 0 && col[i].Some? && col[i - 1].Some? && col[i - 1].value != 0.0 {
        acc := acc + [Some(col[i].value / col[i - 1].value - 1.0)];
      } else {
        acc := acc + [None];
      }
      i := i + 1;
    }
    return Some(acc);
  }

  /** One step of the running product: the product over the present returns of `r[..i+1]`. */
  lemma CumProdStep(r: seq<Option<real>>, i: nat, product: real)
    requires i < |r| && product == Growth(Present(r[..i]))
    ensures r[i].Some? ==> Growth(Present(r[..i + 1])) == product * (1.0 + r[i].value)
    ensures r[i].None? ==> Growth(Present(r[..i + 1])) == product
    ensures r[i].Some? ==> CumProdSkipNa(r)[i] == Some(product * (1.0 + r[i].value))
    ensures r[i].None? ==> CumProdSkipNa(r)[i] == None
  {
    PresentSnoc(r, i);
    if r[i].Some? {
      GrowthSnoc(Present(r[..i]), r[i].value);
    } else {
      assert Present(r[..i + 1]) == Present(r[..i]);
    }
  }

  /** `(1 + r).cumprod()`, keeping the running product of the growth factors. */
  method CumulativeReturnsOf(r: seq<Option<real>>) returns (c: seq<Option<real>>)
    ensures c == CumProdSkipNa(r)
  {
    c := [];
    var product := 1.0;
    var i := 0;
    while i < |r|
      invariant 0 <= i <= |r| && |c| == i
      invariant product == Growth(Present(r[..i]))
      invariant forall k :: 0 <= k < i ==> c[k] == CumProdSkipNa(r)[k]
    {
      CumProdStep(r, i, product);
      if r[i].Some? {
        product := product * (1.0 + r[i].value);
        c := c + [Some(product)];
      } else {
        c := c + [None];
      }
      i := i + 1;
    }
  }

  /** One step of the running maximum: the largest value among the first `i + 1`. */
  lemma PeakStep(c: seq<Option<real>>, i: nat, peak: Option<real>)
    requires i < |c| && peak == if i == 0 then None else PrefixMax(c, i - 1)
    ensures PrefixMax(c, i) ==
              if c[i].Some? && (peak.None? || c[i].value > peak.value) then c[i] else peak
  {
  }

  /** The drawdown at a present position is taken against the running maximum there. */
  lemma DrawdownAt(c: seq<Option<real>>, i: nat, peak: Option<real>)
    requires i < |c| && (c[i].Some? ==> peak == PrefixMax(c, i))
    ensures Drawdown(c)[i] == Relative(c[i], peak)
  {
  }

  /** `cum / cum.cummax() - 1`, keeping the largest cumulative return seen so far. */
  method DrawdownOf(c: seq<Option<real>>) returns (d: seq<Option<real>>)
    ensures d == Drawdown(c)
  {
    d := [];
    var peak: Option<real> := None;
    var i := 0;
    while i < |c|
      invariant 0 <= i <= |c| && |d| == i
      invariant peak == if i == 0 then None else PrefixMax(c, i - 1)
      invariant forall k :: 0 <= k < i ==> d[k] == Drawdown(c)[k]
    {
      PeakStep(c, i, peak);
      if c[i].Some? && (peak.None? || c[i].value > peak.value) {
        peak := c[i];
      }
      DrawdownAt(c, i, peak);
      d := d + [Relative(c[i], peak)];
      i := i + 1;
    }
  }

  /** One ticker's frame, to which the script adds three columns in turn. */
  class TickerFrame {
    var rows: seq<Row<DateTime>>
    var dailyReturns: seq<Option<real>>
    var cumulativeReturns: seq<Option<real>>
    var drawdown: seq<Option<real>>

    /** The cleaned frame, with none of the added columns yet. */
    constructor (rows: seq<Row<DateTime>>)
      ensures this.rows == rows
      ensures dailyReturns == [] && cumulativeReturns == [] && drawdown == []
    {
      this.rows := rows;
      dailyReturns := [];
      cumulativeReturns := [];
      drawdown := [];
    }

    /** `stock_data['Daily_Returns'] = stock_data['Adj_Close'].pct_change()`; `false` when the
        column holds text, where pandas raises instead. */
    method AddDailyReturns() returns (ok: bool)
      modifies this
      ensures ok <==> Numbers(rows, AdjClose).Some?
      ensures ok ==> dailyReturns == PctChange(Numbers(rows, AdjClose).value)
      ensures !ok ==> dailyReturns == old(dailyReturns)
      ensures rows == old(rows) && cumulativeReturns == old(cumulativeReturns)
      ensures drawdown == old(drawdown)
    {
      var r := DailyReturnsOf(rows);
      ok := r.Some?;
      if ok {
        dailyReturns := r.value;
      }
    }

    /** `stock_data['Cumulative_Returns'] = (1 + stock_data['Daily_Returns']).cumprod()`. */
    method AddCumulativeReturns()
      modifies this
      ensures cumulativeReturns == CumProdSkipNa(dailyReturns)
      ensures rows == old(rows) && dailyReturns == old(dailyReturns) && drawdown == old(drawdown)
    {
      cumulativeReturns := CumulativeReturnsOf(dailyReturns);
    }

    /** `stock_data['Drawdown'] = cum / cum.cummax() - 1`. */
    method AddDrawdown()
      modifies this
      ensures drawdown == Drawdown(cumulativeReturns)
      ensures rows == old(rows) && dailyReturns == old(dailyReturns)
      ensures cumulativeReturns == old(cumulativeReturns)
    {
      drawdown := DrawdownOf(cumulativeReturns);
    }
  }

  /** Dropping NaN from one more position adds its value, if it has one. */
  lemma PresentSnoc(r: seq<Option<real>>, i: nat)
    requires i < |r|
    ensures Present(r[..i + 1]) == Present(r[..i]) + (if r[i].Some? then [r[i].value] else [])
  {
    assert r[..i + 1] == r[..i] + [r[i]];
    PresentAppend(r[..i], [r[i]]);
  }

  /** The script's state: the drawdowns kept so far and the lines printed. */
  class Script {
    var drawdowns: seq<Kept>
    var log: seq<string>

    constructor ()
      ensures drawdowns == [] && log == []
    {
      drawdowns := [];
      log := [];
    }

    /** The ticker loop. It returns the failure that stopped it, if any; otherwise the kept
        drawdowns and printed lines are the report of the run. */
    method Run(symbols: seq<string>, files: map<string, seq<RawRecord>>)
      returns (failure: Option<Store.Failure>)
      modifies this
      requires drawdowns == [] && log == []
      ensures Outcome(symbols, files) ==
                if failure.None? then Ok(Report(drawdowns, log)) else Err(failure.value)
    {
      var i := 0;
      failure := None;
      assert symbols[..0] == [];
      while i < |symbols| && failure.None?
        invariant 0 <= i <= |symbols|
        invariant failure.None? ==> Outcome(symbols[..i], files) == Ok(Report(drawdowns, log))
        invariant failure.Some? ==> 0 < i && Outcome(symbols[..i], files) == Err(failure.value)
      {
        failure := Visit(symbols, i, files);
        i := i + 1;
      }
      if failure.Some? {
        OutcomeStops(symbols, i, files);
      } else {
        assert symbols[..i] == symbols;
      }
    }

    /** One pass of the ticker loop: skip a missing file, stop at a failing one, or keep the
        ticker's drawdown. */
    method Visit(symbols: seq<string>, i: nat, files: map<string, seq<RawRecord>>)
      returns (failure: Option<Store.Failure>)
      modifies this
      requires i < |symbols| && Outcome(symbols[..i], files) == Ok(Report(drawdowns, log))
      ensures failure.None? ==> Outcome(symbols[..i + 1], files) == Ok(Report(drawdowns, log))
      ensures failure.Some? ==> Outcome(symbols[..i + 1], files) == Err(failure.value)
    {
      var ticker := symbols[i];
      assert symbols[..i + 1][..i] == symbols[..i];
      assert symbols[..i + 1][i] == ticker;
      if ticker !in files {
        log := log + [SkipMessage(ticker)];
        return None;
      }
      match CleanRecords(files[ticker])
      case Err(e) =>
        return Some(Store.Failed(ticker, e));
      case Ok(rows) =>
        var frame := new TickerFrame(rows);
        var ok := frame.AddDailyReturns();
        if !ok {
          return Some(Store.Failed(ticker, NotNumeric(AdjClose)));
        }
        frame.AddCumulativeReturns();
        frame.AddDrawdown();
        drawdowns := drawdowns + [Kept(ticker, DatesOf(rows), frame.drawdown)];
        return None;
    }
  }
}
