# stock-visualization, modelled in Dafny

The repository draws technical-analysis charts for ten stock tickers (AAPL, MSFT, GOOG, AMZN,
TSLA, SPY, NVDA, META, NFLX, AMD). Daily price files with one row per trading day hold a
date and the Adj_Close, Close, High, Low, Open and Volume columns. Every backend script
cleans those files the same way: it drops the header rows, cuts each date at its first "."
and parses it as `%Y-%m-%d %H:%M:%S`, and coerces chosen columns to numbers. It then
computes indicators over the Adj_Close column: daily returns, rolling mean and standard
deviation, Bollinger bands, RSI, MACD, cumulative returns and drawdown.

The model covers:

- three Flask backends:
  - `/stock/graph`, in the Plotly version (`app.py`) and the matplotlib version
    (`tempCodeRunnerFile.py`, which adds a candlestick chart);
  - `/api/stocks/<ticker>/volume` (`trading.py`);
  - `/api/stocks/<ticker>/candlestick` (`candelstick.py`);
- two stand-alone analysis scripts (`plot.py`, `tradingvolume.py`);
- the React page (`App.js`), which filters the symbol list, sends one request to one of
  the backends and keeps the figure it gets back.

Files on disk become a map from ticker to the file's records, as the CSV reader hands them
over. A figure is the data it draws: named curves over dates, shaded bands and horizontal
reference lines.

Numbers are Dafny `real`s, so pandas' NaN is `None`. Each indicator is a function over
sequences of `Option<real>`, with the window semantics of `rolling`, `ewm(adjust=False)`,
`pct_change`, `cumprod` and `cummax`. Where the source updates state in place, the model is
imperative:
- the per-ticker load loops are methods of `Store.Loader`;
- the drawdown script is `Volume.Script` with a `Volume.TickerFrame` per ticker;
- the figure under construction is `Charts.Canvas`;
- the page state is `Frontend.Viewer`.

Each of these methods is proved against the functions above.

Modules, in dependency order:
- `Wrappers`, `Text`, `Numeric`, `Dates`: shared helpers;
- `Records` and `Store`: the cleaning chain and the load loop;
- `Series`, `Align`, `Returns`, `Rolling`, `Momentum`, `Ewm`, `Frames`: indicator maths and
  frames;
- `Charts`: figures;
- `App`, `Runner`, `Trading`, `Candlestick`: the endpoints;
- `Volume`, `PlotScript`: the scripts;
- `Frontend`: the page.

Two edge cases of the code's RSI:
- When a 14-day window holds neither a gain nor a loss, the code's RSI is 0/0, which is NaN.
  The model gives `None` there, not 100.
- The code's first RSI value is at index 13, the window's last row. `diff(1)` puts NaN at
  row 0, `where(delta > 0, 0)` turns that NaN into 0, and the window then counts it as
  data.

## Model

| member | source | states |
|---|---|---|
| Text.Contains | backend/app.py:22 | true exactly when the pattern occurs at some index of the text (`str.contains`, `in`, `includes`) |
| Text.ContainsEmpty | frontend/src/App.js:105 | every text contains the empty text, so an empty search box matches every symbol |
| Text.IndexFrom | backend/app.py:23 | scanning from a position finds the first later occurrence of the character, or the length when there is none |
| Text.IndexOf | backend/app.py:23 | the position of the first occurrence of the character, or the length when it does not occur |
| Text.BeforeFirst | backend/app.py:23 | `split('.').str[0]`: the longest prefix without the separator, shorter than the text exactly when the separator occurs |
| Text.Split | backend/app.py:36 | `str.split(',')` yields at least one part and no part contains the separator |
| Text.JoinSplit | backend/app.py:36 | joining the parts of a split with the separator gives back the original text |
| Text.SplitWithoutSeparator | backend/app.py:36 | a text without the separator splits into itself alone |
| Text.ToLower | frontend/src/App.js:105 | same length, each character mapped to lower case |
| Text.ToUpper | backend/candelstick.py:45 | same length, each character mapped to upper case |
| Text.ToLowerIdempotent | frontend/src/App.js:105 | lower-casing twice is lower-casing once |
| Text.WhitespaceRunFrom | frontend/src/App.js:14 | the maximal run of whitespace starting at a position |
| Text.WhitespaceRunTo | frontend/src/App.js:14 | the maximal run of whitespace ending at a position |
| Text.TrimStart | frontend/src/App.js:14 | drops exactly the leading whitespace |
| Text.TrimEnd | frontend/src/App.js:14 | drops exactly the trailing whitespace |
| Text.Framed | backend/trading.py:36 | a text set between a prefix and a suffix is the slice right after the prefix |
| Text.FramedInjective | backend/trading.py:36 | the framed text determines what was set in the frame |
| Text.TrimEmptyIff | frontend/src/App.js:14-17 | `trim()` is empty exactly when every character is whitespace |
| Numeric.DigitValue | backend/app.py:25 | a decimal digit has a value below 10 |
| Numeric.DigitChar | backend/trading.py:43 | the digit character of a value below 10, which reads back as that value |
| Numeric.Pow10 | backend/trading.py:43 | powers of ten are positive |
| Numeric.DigitsValue | backend/app.py:25 | a digit string of length n denotes a number below 10^n |
| Numeric.Padded | backend/trading.py:43 | zero-padding to a width yields exactly that many digits that read back as the number |
| Numeric.PaddedDigitsValue | backend/trading.py:43 | padding the value of a digit string to its own length gives the string back |
| Numeric.Decimal | backend/app.py:25 | the decimal spelling of a natural number: digits that read back as the number |
| Numeric.QuotientBelowOne | backend/app.py:25 | a fraction with a smaller non-negative numerator lies in [0, 1) |
| Numeric.FractionValue | backend/app.py:25 | the digits after a decimal point denote a value in [0, 1) |
| Numeric.PointValue | backend/app.py:25 | the digits around a point have a value only when both runs are digits and not both empty; that value is non-negative |
| Numeric.UnsignedValue | backend/app.py:25 | an unsigned number is non-negative |
| Numeric.UnsignedRejects | backend/app.py:25 | unsigned text with a character other than a digit or a point is not a number |
| Numeric.ToNumeric | backend/app.py:25 | `to_numeric(errors='coerce')`: the empty text becomes NaN |
| Numeric.ToNumericRejects | backend/app.py:25 | `to_numeric(errors='coerce')`: text with a stray character (a letter, a space, a second sign) becomes NaN |
| Numeric.DigitsNoPoint | backend/app.py:25 | a digit run has no decimal point |
| Numeric.PointAfterDigits | backend/app.py:25 | after a digit run, the first point is the one that follows the run |
| Numeric.PointValueDigits | backend/app.py:25 | two digit runs around a point give the whole part plus the fraction |
| Numeric.PointValueWhole | backend/app.py:25 | a whole part with no fraction digits gives the whole value |
| Numeric.UnsignedNoPoint | backend/app.py:25 | text without a point is all whole part |
| Numeric.UnsignedSplit | backend/app.py:25 | text is split at the point that follows its leading digit run |
| Numeric.UnsignedWhole | backend/app.py:25 | a digit run reads as its whole value |
| Numeric.UnsignedPointed | backend/app.py:25 | digits, a point and digits read as the whole part plus the fraction |
| Numeric.ToNumericUnsigned | backend/app.py:25 | text that starts with a digit carries no sign |
| Numeric.ToNumericMinus | backend/app.py:25 | a leading minus negates the value and keeps a failure a failure |
| Numeric.LeadingDigit | backend/app.py:25 | text that starts with a digit run starts with a digit |
| Numeric.ToNumericPointed | backend/app.py:25 | unsigned fixed-point text converts to its whole part plus its fraction |
| Numeric.ToNumericDecimal | backend/app.py:25 | an integer spelled in decimal, with or without a leading minus, converts to its value |
| Numeric.ToNumericFixedPoint | backend/app.py:25 | a fixed-point spelling `i.fff` converts to i plus the fraction f / 10^k |
| Dates.ShortValue | backend/app.py:23 | a field of one digit is below 10 and one of two below 100 |
| Dates.Written | backend/trading.py:43 | a number written at width one or two is that many digits and reads back as the number |
| Dates.FieldWidth | backend/app.py:23 | the width of the one- or two-digit field at a position, and the separator that ends it, or 0 when there is none |
| Dates.LastWidth | backend/app.py:23 | the width of the closing one- or two-digit field, which ends the text, or 0 |
| Dates.Scan | backend/app.py:23 | a text the scanner accepts has the `%Y-%m-%d %H:%M:%S` shape at the widths it found: four year digits and one- or two-digit fields between "-", "-", " ", ":" and ":" |
| Dates.FieldWidthOf | backend/app.py:23 | a field followed by a non-digit separator is read at its own width |
| Dates.ScanFinds | backend/app.py:23 | every text of the shape is accepted, at exactly its own widths |
| Dates.ValidFitsTwoDigits | backend/trading.py:43 | every valid timestamp can be written with two digits per field |
| Dates.FormatDateTime | backend/app.py:23 | `%Y-%m-%d %H:%M:%S` renders a valid timestamp in exactly 19 characters |
| Dates.FormatDate | backend/trading.py:43 | `strftime('%Y-%m-%d')` renders a valid timestamp in exactly 10 characters, the date part of its full rendering |
| Dates.SpelledLaidOut | backend/app.py:23 | a timestamp written at any widths it fits has the shape at those widths and reads back as its own fields |
| Dates.LayoutSpelled | backend/app.py:23 | a text of the shape is its own fields written back at its own widths |
| Dates.ParseDateTime | backend/app.py:23 | a successful parse yields a valid timestamp from a text of the `%Y-%m-%d %H:%M:%S` shape |
| Dates.ParsedIsSpelled | backend/app.py:23 | a parsed text is exactly its timestamp written at the text's own field widths |
| Dates.SpelledParses | backend/app.py:23 | every valid timestamp written with one- or two-digit fields it fits parses back to itself, e.g. "2024-1-5 9:30:00" |
| Dates.ParseFormatted | backend/app.py:23 | parsing a formatted timestamp gives the timestamp back (round trip) |
| Dates.ParseTimestamp | backend/app.py:23 | a date cell parses when its text before the first "." has the shape and valid fields |
| Dates.TimestampIsSpelled | backend/app.py:23 | the text of a parsed cell before its first "." is its timestamp written at the cell's own widths |
| Dates.SpelledWithoutPoint | backend/app.py:23 | a written timestamp holds no "." |
| Dates.FractionTruncated | backend/app.py:23 | any fractional-seconds suffix after "." is cut off, at whatever widths the fields are written |
| Dates.TwoWide | backend/trading.py:43 | a one-digit field gains a leading zero and a two-digit one is kept, its value unchanged |
| Dates.TwoWideWritten | backend/trading.py:43 | padding a field to two digits is how `%m` and `%d` write its value |
| Dates.PaddedDate | backend/trading.py:43 | the date part of a cell, month and day padded to two digits, is 10 characters |
| Dates.FormatDateFromText | backend/trading.py:43 | `strftime('%Y-%m-%d')` of a parsed cell is the cell's own date text with month and day zero-padded |
| Dates.FormatDateIsPrefix | backend/trading.py:43 | when the file writes month and day with two digits, the formatted date is the first 10 characters of the cell |
| Dates.BeforeStrictTotal | backend/app.py:47 | the timestamp order aligning the table is irreflexive, asymmetric, transitive and total |
| Records.ColumnCases | backend/app.py:21 | every value column is one of the six named in `read_csv(names=...)` |
| Records.Row.Set | backend/plot.py:38 | replacing one cell changes that column only |
| Records.Row.WithDate | backend/app.py:23 | replacing the date keeps every cell |
| Records.NaTokenNotNumber | backend/app.py:21 | every default NA token of `read_csv` ("", "NA", "NaN", "nan", "null", "NULL", "N/A", "n/a", "None", "#N/A", "<NA>", "-nan", "1.#IND", …) is also text `to_numeric` turns into NaN |
| Records.ReadCell | backend/app.py:21 | `read_csv` reads an NA token as NaN in any column, another cell of a numeric column as its number, and keeps any other cell as text |
| Records.ReadRow | backend/app.py:21 | a row keeps its date text and reads each cell by its column's inferred type |
| Records.FloatColumns | backend/app.py:21 | a column is read as numbers exactly when every cell in it is numeric text or an NA token |
| Records.ReadCsv | backend/app.py:21 | one row per record, in file order, each cell read by its column's inferred type |
| Records.DropHeaderRows | backend/app.py:22 | keeps exactly the rows whose date does not contain "Date" |
| Records.DropHeaderRowsAppend | backend/app.py:22 | header filtering distributes over concatenation |
| Records.DropHeaderRowsIdempotent | backend/app.py:22 | filtering twice is filtering once |
| Records.Describe | backend/trading.py:27 | every load error has a non-empty message |
| Records.FirstBadDateFrom | backend/app.py:23 | the first row from a position on whose date does not parse |
| Records.FirstBadDate | backend/app.py:23 | the first row whose date does not parse; every earlier row parses |
| Records.ParseDates | backend/app.py:23 | `to_datetime` succeeds exactly when every date parses, replacing each row's date by its timestamp; otherwise it reports the first failing date text |
| Records.CleanRecords | backend/app.py:21-24 | a cleaned file has one row per kept (non-header) record |
| Records.CleanWellFormed | backend/app.py:21-24 | a file where every record is a header or has a parseable date always loads |
| Records.Coerce | backend/app.py:25 | `to_numeric(errors='coerce')`: a number stays, text becomes its number or NaN |
| Records.CoerceRead | backend/app.py:25 | reading a cell and coercing it gives the conversion of its text |
| Records.CoerceIdempotent | backend/plot.py:37-38 | coercing twice is coercing once |
| Records.CoerceRow | backend/plot.py:37-38 | coerces exactly the chosen columns and keeps the date and the others |
| Records.CoerceRows | backend/plot.py:37-38 | coerces every row in place, same length and order |
| Records.CoerceRowsStep | backend/plot.py:37-38 | coercing one more column after a set is coercing the enlarged set |
| Records.RowsEqual | backend/app.py:21 | rows with the same date and cells are equal |
| Records.Numbers | backend/app.py:47 | a column is numeric exactly when every row's cell is a number, and then its values are the cells' values |
| Records.NumbersOfCoerced | backend/plot.py:37-38 | a coerced column is always numeric |
| Records.ColumnSet | backend/plot.py:36 | the set of the listed columns |
| Records.Ohlc | backend/candelstick.py:33 | `stock_data[['Open','High','Low','Close','Volume']]`: one candle per row with the row's date and those five cells |
| Records.Frame.constructor | backend/tempCodeRunnerFile.py:80 | the frame holds the given rows |
| Records.Frame.CoerceColumn | backend/tempCodeRunnerFile.py:84 | the frame's rows become the old rows with one column coerced |
| Records.Frame.CoerceColumns | backend/tempCodeRunnerFile.py:83-84 | after the loop over columns, the rows are the old rows with all listed columns coerced |
| Store.Prepared | backend/plot.py:21-40 | a file loads exactly when it cleans, and then its chosen columns are coerced and numeric |
| Store.Loaded | backend/app.py:18-28 | the `data` dictionary holds exactly the tickers whose file exists and cleans, each prepared from its own file |
| Store.FailureOf | backend/app.py:27-28 | a ticker fails exactly when its file is missing or does not clean, and the failure names it |
| Store.Failures | backend/app.py:27-28 | the reported failures are failures of listed tickers |
| Store.LoadedSnocLoads | backend/app.py:18-28 | a ticker that loads joins the table with its prepared rows |
| Store.LoadedSnocFails | backend/app.py:18-28 | a ticker that fails leaves the table as it was |
| Store.LoadedSnoc | backend/app.py:18-28 | one more loop iteration adds the ticker exactly when it loads |
| Store.Loader.constructor | backend/app.py:15 | the dictionary starts empty with nothing reported |
| Store.Loader.Load | backend/app.py:19-28 | one iteration stores the prepared ticker, or reports its failure and keeps the dictionary |
| Store.Loader.LoadAll | backend/app.py:18-28 | after the loop the dictionary is `Loaded` and the reports are the failures in ticker order |
| Store.Loader.LoadNext | backend/app.py:18-28 | one more iteration extends `Loaded` and the failure reports to the next ticker of the list |
| Series.SumConstant | backend/app.py:56 | the sum of n copies of v is n·v |
| Series.MeanConstant | backend/app.py:56 | the mean of a constant window is that constant |
| Series.SumNonNegative | backend/app.py:82 | a sum of non-negative terms is non-negative, and positive when one term is |
| Series.MeanNonNegative | backend/app.py:82-83 | the mean of non-negative terms is non-negative, and positive when one term is |
| Series.SumBounds | backend/app.py:56 | a sum of n terms in [lo, hi] lies in [n·lo, n·hi] |
| Series.MeanBounds | backend/app.py:56 | a mean of terms in [lo, hi] lies in [lo, hi] |
| Series.RatioBelowOne | backend/app.py:85 | a part over a positive whole is at most 1 |
| Series.MinOf | backend/app.py:56 | the least element: it occurs and bounds every element from below |
| Series.MaxOf | backend/app.py:56 | the greatest element: it occurs and bounds every element from above |
| Series.Lift | backend/app.py:47 | a gap-free column as a column with every value present |
| Series.Present | backend/app.py:99 | the present values, in order, never more than the column |
| Series.PresentMembers | backend/app.py:99 | a real is among the present values exactly when the column holds it |
| Series.PresentAppend | backend/app.py:99 | dropping NaNs distributes over concatenation |
| Series.PresentLift | backend/app.py:99 | a gap-free column keeps every value |
| Align.ValidSymbols | backend/app.py:43 | keeps exactly the requested symbols that were loaded, in request order, duplicates included |
| Align.ValidSymbolsAppend | backend/app.py:43 | the filter distributes over concatenation |
| Align.ValidSymbolsAllKnown | backend/app.py:43 | when every symbol was loaded, the filter keeps the whole list |
| Align.FirstIndex | backend/app.py:47 | the first position of a listed symbol |
| Align.FirstIndexFrom | backend/app.py:47 | scanning from a position finds the first later occurrence of the symbol |
| Align.FirstIndexPrefix | backend/app.py:47 | the first position is the same in any prefix holding the symbol |
| Align.Distinct | backend/app.py:47 | the keys of a dict comprehension: each symbol once, in first-occurrence order |
| Align.DistinctSnoc | backend/app.py:47 | one more symbol leaves the key list alone when it is already a key, and appends it otherwise, keeping keys unique and in first-occurrence order |
| Align.DistinctOfDistinct | backend/app.py:47 | a list without repeats is its own key list |
| Align.Insert | backend/app.py:47 | inserting a date into a strictly increasing index keeps it strictly increasing and adds only that date |
| Align.SortedUnion | backend/app.py:47 | the union of the columns' dates, strictly increasing, holding exactly the given dates |
| Align.SortedUnique | backend/app.py:47 | two strictly increasing indices with the same dates are equal |
| Align.SortedUnionOfSorted | backend/app.py:47 | a single already sorted date list is its own union |
| Align.DatesOf | backend/app.py:24 | the index of a frame: one date per row, in order |
| Align.ValueAt | backend/app.py:47 | the value a column holds at a date, or NaN when the column lacks that date |
| Align.ValueAtOwnDate | backend/app.py:47 | a column with increasing dates holds its own value at each of its own dates |
| Align.AllDates | backend/app.py:47 | a date is in the union exactly when some symbol's frame has it |
| Align.AlignColumn | backend/app.py:47 | a column whose own dates are the index is kept as it is; any other is reindexed onto it, with each index date's first row or NaN where it has no row |
| Align.AlignIncreasing | backend/app.py:47 | placing a column whose dates increase is looking each index date up in it |
| Align.Union | backend/app.py:47 | `Index.union`: the left index when the right one is empty or equal to it, the right one when the left is empty, otherwise the sorted union; it holds exactly both indexes' dates and increases when both do |
| Align.UnionIndexes | backend/app.py:47 | `union_indexes`: the indexes folded by `Union`; a date is in the result exactly when some index holds it |
| Align.UnionIndexesCommon | backend/app.py:47 | equal indexes give that index back, in file order and with its repeats |
| Align.UnionIndexesSorted | backend/app.py:47 | strictly increasing indexes give a strictly increasing union |
| Align.DateLists | backend/app.py:47 | the index of each symbol's column, one per symbol in order |
| Align.FrameIndex | backend/app.py:47 | the frame's index holds exactly the columns' dates, and increases when each column's dates do |
| Align.AdjCloseFrame | backend/app.py:47 | `pd.DataFrame({s: data[s]['Adj_Close'] ...})`: one column per distinct valid symbol in first-occurrence order, aligned (`Aligned`) on the union of their indexes: a column on its own index keeps its prices as they are, any other holds each index date's price or NaN |
| Align.AdjCloseFrameCommon | backend/app.py:47 | symbols sharing one date list get it as the index, in file order with repeats, and keep their prices unchanged |
| Align.AdjCloseFrameSorted | backend/app.py:47 | symbols whose dates increase get the sorted union of all their dates as the index, each cell the symbol's price at that date or NaN |
| Align.AdjCloseFrameSingle | backend/app.py:47 | a single symbol is its own frame: its dates in file order are the index and its prices the only column |
| Returns.PctChange | backend/app.py:52 | `pct_change()`: NaN first, and each later value defined exactly when both neighbours are present and the earlier is non-zero, with new = old·(1 + r) |
| Returns.SimpleReturns | backend/app.py:31-32 | n prices give n − 1 returns |
| Returns.DailyReturnsFormula | backend/app.py:31-32 | `calculate_daily_returns`: return t is p[t+1] / p[t] − 1 |
| Returns.SimpleReturnsSnoc | backend/app.py:31-32 | one more price appends one more return |
| Returns.SimpleReturnsPrefix | backend/app.py:31-32 | the first k returns are the returns of the first k + 1 prices |
| Returns.GrowthSnoc | backend/plot.py:143 | the growth factor of one more return multiplies by 1 + r |
| Returns.CumulativeReturns | backend/plot.py:143 | `(1 + r).cumprod()`: starts at 1 + r[0] and multiplies in each next 1 + r |
| Returns.CumulativeReturnsAt | backend/plot.py:143 | each cumulative value is the growth factor of the returns so far |
| Returns.QuotientChain | backend/plot.py:143 | (a/b)·(1 + (c/a − 1)) = c/b, the step of the telescoping product |
| Returns.GrowthStep | backend/plot.py:143 | the telescoping product extends by one price |
| Returns.GrowthTelescopes | backend/plot.py:143 | compounding all daily returns gives last price over first price |
| Returns.GrowthOfPrefix | backend/plot.py:143 | compounding the first k + 1 returns gives p[k+1] / p[0] |
| Returns.CumulativeReturnsTelescope | backend/plot.py:143 | cumulative return k of a price series is p[k+1] / p[0] |
| Returns.CumProdSkipNa | backend/tradingvolume.py:38 | the NaN-skipping `cumprod` is defined exactly where the daily return is |
| Returns.PrefixMax | backend/tradingvolume.py:41 | the running maximum bounds every present value so far |
| Returns.PrefixMaxAttained | backend/tradingvolume.py:41 | the running maximum exists exactly when a value is present so far, and is one of them |
| Returns.CumMaxSkipNa | backend/tradingvolume.py:41 | `cummax()`: NaN where the column is NaN, otherwise the running maximum |
| Returns.Relative | backend/tradingvolume.py:41 | x / peak − 1, defined exactly when both are present and the peak is non-zero |
| Returns.Drawdown | backend/tradingvolume.py:41 | each drawdown is the value relative to its running peak |
| Returns.RatioInUnitInterval | backend/tradingvolume.py:41 | a positive value over a peak at least as large lies in (0, 1], and is 1 exactly at the peak |
| Returns.DrawdownBounds | backend/tradingvolume.py:41 | a positive cumulative value has drawdown in (−1, 0], and 0 exactly at a new peak |
| Returns.PctChangePrefix | backend/tradingvolume.py:35 | `pct_change` of a prefix is the prefix of `pct_change` |
| Returns.PresentReturnsOfPrefix | backend/tradingvolume.py:35-38 | the present daily returns up to t are the simple returns of the prices up to t |
| Returns.CumProdSkipNaTelescopes | backend/tradingvolume.py:35-38 | the cumulative return at t is p[t] / p[0], NaN at row 0 |
| Returns.PositiveQuotient | backend/tradingvolume.py:41 | a quotient of positives is positive |
| Returns.PositivePricesDrawdown | backend/tradingvolume.py:35-41 | positive prices give a drawdown in (−1, 0] at every row after the first |
| Rolling.Window | backend/app.py:56 | the last w values up to t, in order |
| Rolling.WindowOfLift | backend/app.py:56 | in a gap-free column every window is full and is the slice of prices |
| Rolling.RollingMean | backend/app.py:56 | `rolling(w).mean()`: defined exactly when t ≥ w − 1 and the window has no NaN, and then w times the value is the window's sum |
| Rolling.RollingMeanBounds | backend/app.py:56 | a rolling mean lies between its window's minimum and maximum |
| Rolling.RollingMeanConstant | backend/app.py:56 | the rolling mean of a constant window is the constant |
| Rolling.Square | backend/app.py:64 | squares are non-negative |
| Rolling.CancelSquare | backend/app.py:64 | y² / y = y for non-zero y |
| Rolling.ZeroSquare | backend/app.py:64 | only 0 squares to 0 |
| Rolling.SquaredDeviations | backend/app.py:64 | one non-negative squared deviation per value, zero at the mean |
| Rolling.Variance | backend/app.py:64 | the sample variance (n − 1 divisor) is non-negative |
| Rolling.VarianceConstant | backend/app.py:64 | a constant window has variance 0 |
| Rolling.SquareRootOfZero | backend/app.py:64 | the square root of 0 is 0 |
| Rolling.RollingStd | backend/app.py:64 | `rolling(w).std()`: defined exactly when w ≥ 2 and the window is full, and then non-negative with its square equal to the sample variance |
| Rolling.StdAt | backend/app.py:64 | the deviation at one position exists exactly for a full window of at least two values, and is then a non-negative square root of the sample variance |
| Rolling.RollingStdConstant | backend/app.py:64 | the rolling standard deviation of a constant window is 0 |
| Rolling.Bollinger | backend/app.py:63-66 | sma ± 2·std: the bands exist exactly where the std does, enclose the SMA symmetrically and are 4·std apart |
| Rolling.BollingerConstant | backend/tempCodeRunnerFile.py:45-50 | on a constant window all three lines equal the constant |
| Momentum.Gains | backend/app.py:79-80 | `diff(1).where(delta > 0, 0)`: non-negative, 0 at row 0, positive exactly on a rise between two present prices |
| Momentum.Losses | backend/app.py:79-81 | `-diff(1).where(delta < 0, 0)`: non-negative, 0 at row 0, positive exactly on a fall between two present prices |
| Momentum.GainsMinusLosses | backend/app.py:79-81 | gain − loss is the price change, and one of the two is 0 |
| Momentum.RsiFromAverages | backend/app.py:84-85 | `100 − 100/(1 + g/l)`: defined exactly when g + l > 0, lies in [0, 100] and equals 100·g/(g + l) |
| Momentum.DivUnique | backend/app.py:84 | x·d = n with d ≠ 0 means x = n/d |
| Momentum.DivSum | backend/app.py:85 | a/d + b/d = (a + b)/d |
| Momentum.RsiAlgebra | backend/app.py:84-85 | with a positive average loss the formula equals 100·g/(g + l), within [0, 100] |
| Momentum.AverageGain | backend/app.py:82 | the 14-day mean of the gains, non-negative |
| Momentum.AverageLoss | backend/app.py:83 | the 14-day mean of the losses, non-negative |
| Momentum.Rsi | backend/tempCodeRunnerFile.py:35-43 | `calculate_rsi`: NaN before row w − 1, from there defined exactly when the averages are not both 0, always within [0, 100] |
| Momentum.RsiFormula | backend/tempCodeRunnerFile.py:35-43 | where defined, RSI is 100·G/(G + L) of the window averages |
| Momentum.RsiRatio | backend/app.py:84-85 | the formula in ratio form |
| Momentum.RsiRising | backend/plot.py:215-228 | strictly rising prices give RSI 100 from row w − 1 |
| Momentum.RsiFalling | backend/plot.py:215-228 | strictly falling prices give RSI 0 from row w − 1 |
| Momentum.RsiFlat | backend/plot.py:215-228 | flat prices give NaN (0/0) from row w − 1 |
| Ewm.Alpha | backend/app.py:99 | the smoothing factor 2/(span + 1), in (0, 1] |
| Ewm.Ema | backend/app.py:99-100 | `ewm(span, adjust=False).mean()`: starts at the first value, then e[t] = α·p[t] + (1 − α)·e[t−1] |
| Ewm.ProductNonNegative | backend/app.py:99 | a product of non-negatives is non-negative |
| Ewm.Convex | backend/app.py:99 | a convex combination of two values in [lo, hi] stays in [lo, hi] |
| Ewm.EmaAtWithin | backend/app.py:99 | the EMA at t stays within any bounds of the values up to t |
| Ewm.EmaBounds | backend/app.py:99 | the EMA lies between the minimum and the maximum of the values so far |
| Ewm.EmaConstant | backend/app.py:99 | the EMA of a constant column is that constant |
| Ewm.MacdOf | backend/tempCodeRunnerFile.py:52-57 | `calculate_macd`: macd = EMA(short) − EMA(long) pointwise, signal = EMA of the macd line |
| Ewm.SignalBounds | backend/app.py:102 | the signal lies between the minimum and the maximum of the macd line so far |
| Ewm.MacdConstant | backend/app.py:99-102 | a constant price gives macd and signal 0 |
| Frames.CompleteRows | backend/app.py:52 | positions before n of rows without NaN |
| Frames.CompleteRowsHas | backend/app.py:52 | every row before n without NaN is among the complete positions |
| Frames.RowValues | backend/app.py:52 | the values of a complete row, one per column |
| Frames.LinesAt | backend/app.py:52 | the rows at the given positions, with their dates and values |
| Frames.DropNa | backend/app.py:52 | `dropna()`: keeps every complete row, and only rows with one value per column |
| Frames.DropNaIncreasing | backend/app.py:52 | over an increasing date index the kept rows stay in date order |
| Frames.DropNaLine | backend/app.py:52 | kept line k is the row at the k-th complete position |
| Frames.CompleteRowsIncreasing | backend/app.py:52 | the complete positions are increasing |
| Frames.DropNaSource | backend/app.py:52 | each kept row comes from a complete row of the table |
| Frames.PctChangeFrame | backend/app.py:52 | `pct_change` column by column on the same index and columns |
| Frames.DailyReturnsFrame | backend/app.py:52 | `pct_change().dropna()` keeps at most one row per date, each with one value per column |
| Frames.DailyReturnsFrameRows | backend/app.py:52 | every kept row of daily returns has, at its date, every column's p[i] / p[i−1] − 1 with both prices present |
| Frames.PctChangeStep | backend/app.py:52 | a defined percent change comes from two present prices, the earlier one non-zero |
| Frames.CompleteRowsAfterFirst | backend/app.py:52 | a single column that is NaN only at row 0 keeps rows 1 … n − 1, in order |
| Frames.SingleCompleteRows | backend/app.py:52 | for one gap-free non-zero column, daily returns keep rows 1 … n − 1 |
| Frames.SingleRowValues | backend/app.py:52 | for one gap-free non-zero column, row k + 1 of the percent changes is complete with value p[k+1] / p[k] − 1 |
| Frames.SingleLine | backend/app.py:52 | row k of one column's daily returns is dated k + 1 with value p[k+1] / p[k] − 1 |
| Frames.DailyReturnsFrameSingle | backend/app.py:52 | the daily-returns frame of one column is exactly its simple returns, dated from row 1 |
| Frames.RollingMeanFrame | backend/app.py:56 | `rolling(window).mean()` column by column on the same index |
| Charts.ColumnOf | backend/app.py:62 | `adj_close[symbol]` has one value per index date |
| Charts.FrameCurves | backend/app.py:57 | `px.line(frame)`: one curve per column, named after it, over the index |
| Charts.LineDates | backend/app.py:53 | the dates of the kept rows, in order |
| Charts.LineCurves | backend/app.py:53 | one curve per column over the kept rows, with that column's values |
| Charts.PresentDates | backend/app.py:99 | the dates of the present values, all from the index |
| Charts.BandCurves | backend/app.py:68-71 | the four Bollinger traces of one symbol, named Price, SMA, Upper Band and Lower Band, with lower ≤ SMA ≤ upper wherever the bands exist |
| Charts.RsiCurve | backend/app.py:86 | the RSI curve of one symbol, named after it, NaN for the first 13 rows, within [0, 100] |
| Charts.MacdCurves | backend/app.py:103-104 | the MACD and signal curves over the symbol's present dates, with the EMA values |
| Charts.Canvas.constructor | backend/app.py:60 | `go.Figure()` starts with no title, traces or reference lines |
| Charts.Canvas.AddTrace | backend/app.py:68 | `add_trace` appends one trace and changes nothing else |
| Charts.Canvas.AddLevel | backend/app.py:91 | `add_hline` appends one reference line and changes nothing else |
| Charts.Canvas.SetTitle | backend/app.py:73 | `update_layout(title=...)` sets the title and keeps the traces and lines |
| Charts.Canvas.Value | backend/app.py:112 | the figure's title, traces and lines as the canvas holds them |
| App.RequestedSymbols | backend/app.py:36 | `request.args.get('symbols', '').split(',')`: at least one part, [""] with no parameter, parts that join back to the parameter |
| App.RequestedGraphType | backend/app.py:37 | the `graph_type` parameter, defaulting to "daily_returns" |
| App.LoadedAdjCloseNumeric | backend/app.py:25-26 | after startup every stored ticker has a numeric Adj_Close column |
| App.BollingerTraces | backend/app.py:61-71 | four traces per valid symbol, in order; block i is that symbol's Bollinger traces |
| App.RsiTraces | backend/app.py:77-86 | one RSI trace per valid symbol, in order |
| App.MacdTraces | backend/app.py:97-104 | two traces per valid symbol, its MACD and signal, in order |
| App.BollingerTracesSnoc | backend/app.py:61-71 | one more loop iteration appends that symbol's four traces |
| App.BollingerBlocksSnoc | backend/app.py:61-71 | a further symbol's four Bollinger traces land after every earlier symbol's block, which stay in place |
| App.MacdTracesSnoc | backend/app.py:97-104 | one more loop iteration appends that symbol's two traces |
| App.MacdBlocksSnoc | backend/app.py:96-104 | a further symbol's MACD and signal curves land after every earlier symbol's pair, which stay in place |
| App.Draw | backend/app.py:51-109 | a figure exists exactly for the five known graph types, with one curve per column, 4, 1 or 2 traces per valid symbol, and the 70/30 lines only for RSI |
| App.ValidLoadable | backend/app.py:43-47 | every valid symbol can be put into the Adj_Close table |
| App.Respond | backend/app.py:36-112 | 400 "Please provide…" exactly for an empty graph type, 400 "No valid stock symbols" exactly when no symbol is loaded, 400 "Invalid graph type" exactly for an unknown type, and a chart otherwise |
| App.DailyReturnsOneSymbol | backend/app.py:51-53 | a request for one loaded symbol with no graph type gives one daily-returns curve of p[k+1] / p[k] − 1 |
| App.AddBands | backend/app.py:62-71 | the loop body appends the symbol's four Bollinger traces to the figure |
| App.DrawBollinger | backend/app.py:59-73 | the Bollinger figure built trace by trace is the titled figure of all valid symbols' bands |
| App.DrawRsi | backend/app.py:75-93 | the RSI figure built step by step has every valid symbol's RSI curve and the 70 and 30 lines |
| App.DrawMacd | backend/app.py:95-106 | the MACD figure built step by step has every valid symbol's MACD and signal |
| App.AddMacd | backend/app.py:96-104 | one pass of the MACD loop appends that symbol's MACD and signal curves and changes nothing else on the figure |
| App.StockGraph | backend/app.py:35-112 | the endpoint's response, statement by statement, is `Respond` |
| App.DrawGraph | backend/app.py:51-109 | the graph-type branches build exactly the figure `Draw` owes, and none for an unknown type |
| Runner.BandTraces | backend/tempCodeRunnerFile.py:126-130 | price and SMA curves and one shaded area between the bands, enclosing the SMA symmetrically |
| Runner.BollingerTraces | backend/tempCodeRunnerFile.py:125-130 | three traces per valid symbol, in order |
| Runner.BollingerTracesSnoc | backend/tempCodeRunnerFile.py:125-130 | one more loop iteration appends that symbol's three traces |
| Runner.BollingerBlocksSnoc | backend/tempCodeRunnerFile.py:125-130 | a further symbol's three Bollinger traces land after every earlier symbol's block, which stay in place |
| Runner.Draw | backend/tempCodeRunnerFile.py:110-152 | a plot exists exactly for the five known types; Bollinger uses filled bands, the others draw what `/stock/graph` draws |
| Runner.CandlestickRows | backend/tempCodeRunnerFile.py:80-84 | one candle per row, each of its five columns coerced to numbers |
| Runner.Respond | backend/tempCodeRunnerFile.py:61-160 | the same 400 errors as `/stock/graph`; a candlestick exactly for one valid symbol, a 400 "single symbol" error for more |
| Runner.RespondCandlestick | backend/tempCodeRunnerFile.py:72-107 | a candlestick answer charts the one valid symbol's coerced rows, titled `<symbol> Candlestick Chart` |
| Runner.Candlestick | backend/tempCodeRunnerFile.py:76-103 | the candlestick chart of the symbol's coerced rows |
| Runner.AddBand | backend/tempCodeRunnerFile.py:126-130 | the loop body appends the symbol's three Bollinger traces |
| Runner.DrawBollinger | backend/tempCodeRunnerFile.py:124-132 | the figure built step by step holds every valid symbol's band traces |
| Runner.StockGraph | backend/tempCodeRunnerFile.py:60-160 | the matplotlib endpoint's response, statement by statement, is `Respond` |
| Runner.DrawGraph | backend/tempCodeRunnerFile.py:110-152 | the graph-type branches build exactly the figure `Draw` owes: the shaded Bollinger chart here, the shared figures otherwise |
| Trading.NotFound | backend/trading.py:36 | the 404 text names the ticker right after "Data for " |
| Trading.NotFoundInjective | backend/trading.py:36 | different tickers get different 404 texts |
| Trading.LoadFailure | backend/trading.py:27 | a load failure is re-raised with the cause's own text right after "Error loading data: " |
| Trading.LoadFailureKeepsCause | backend/trading.py:27 | failures with different texts get different messages |
| Trading.Kept | backend/trading.py:22 | the rows kept after the header filter are the read rows without "Date" in the date |
| Trading.LoadStockData | backend/trading.py:19-27 | succeeds exactly when every kept date parses, one row per kept row with its timestamp; otherwise reports the first failing date |
| Trading.GetTradingVolume | backend/trading.py:29-51 | 404 exactly for a missing file, 500 with the load error exactly when loading fails, otherwise x and y of equal length: each row's `%Y-%m-%d` date and its volume |
| Trading.VolumeSeries | backend/trading.py:42-48 | the volume body has one x and one y per loaded row: the row's date as `%Y-%m-%d` text and its volume cell, in row order |
| Trading.VolumeMatchesFile | backend/trading.py:42-45 | one x and one y per kept record in file order: x is the record's date text with month and day zero-padded, y the record's volume cell |
| Trading.VolumeDatesArePrefixes | backend/trading.py:43 | for a file writing month and day with two digits, each x is the first 10 characters of the record's date text |
| Trading.WellFormedFileAnswers | backend/trading.py:38-48 | a file whose records are headers or carry parseable dates always answers with data |
| Candlestick.NotFound | backend/candelstick.py:59 | the 404 text names the ticker right after "Data for " and then the directory |
| Candlestick.NotFoundInjective | backend/candelstick.py:59 | different tickers get different 404 texts |
| Candlestick.Trace | backend/candelstick.py:36-46 | one trace entry per row in order: its date and its four prices |
| Candlestick.CandlestickChart | backend/candelstick.py:13-62 | 404 exactly for a missing file, 500 with the error exactly when loading fails, otherwise the trace of the cleaned rows named by the upper-cased ticker, titled `<TICKER> Candlestick Chart` |
| Candlestick.ChartMatchesFile | backend/candelstick.py:21-43 | one candle per kept record in file order, its date the record's parsed timestamp, its prices the record's cells |
| Candlestick.SameRowsAsVolume | backend/candelstick.py:13-62 | the candlestick and volume endpoints both answer or both fail, and their dates are the same rows, formatted for volume |
| Volume.SkipMessage | backend/tradingvolume.py:61 | the skip line names the ticker right after "Data for " and then the directory |
| Volume.SkipMessageInjective | backend/tradingvolume.py:61 | different tickers get different skip lines |
| Volume.TickerDrawdown | backend/tradingvolume.py:35-41 | a ticker's drawdown exists exactly when Adj_Close is numeric, one value per row, the drawdown of the compounded daily returns |
| Volume.Step | backend/tradingvolume.py:19-61 | a missing file logs a skip line; a present file that loads appends one drawdown for that ticker; a failure names the ticker |
| Volume.Outcome | backend/tradingvolume.py:17-61 | a failure of the script names a listed ticker whose file exists |
| Volume.Tickers | backend/tradingvolume.py:65 | the tickers of the stored drawdowns, in order |
| Volume.SkipLog | backend/tradingvolume.py:60-61 | one skip line at most per listed ticker |
| Volume.OutcomeReport | backend/tradingvolume.py:17-61 | a completed run holds drawdowns exactly for the listed tickers whose file exists, in order, and logs a skip for the rest |
| Volume.OutcomeFailure | backend/tradingvolume.py:23-38 | the script stops on a ticker whose file does not clean, or whose Adj_Close is not numeric |
| Volume.OutcomeStops | backend/tradingvolume.py:17 | a failure at a prefix is the outcome of the whole run |
| Volume.TickerDrawdownBounds | backend/tradingvolume.py:35-41 | with positive prices every drawdown after row 0 lies in (−1, 0], and is 0 exactly at a new peak |
| Volume.DrawdownFigure | backend/tradingvolume.py:63-73 | one curve per stored ticker, labelled `<ticker> Drawdown`, titled "Drawdown Over Time" |
| Volume.DailyReturnsOf | backend/tradingvolume.py:35 | the loop computes `pct_change` of Adj_Close when the column is numeric |
| Volume.CumProdStep | backend/tradingvolume.py:38 | the running product advances exactly at present returns |
| Volume.CumulativeReturnsOf | backend/tradingvolume.py:38 | the loop computes the NaN-skipping cumulative product |
| Volume.PeakStep | backend/tradingvolume.py:41 | the running peak advances exactly on a larger present value |
| Volume.DrawdownAt | backend/tradingvolume.py:41 | the drawdown at a row is the value relative to the running peak |
| Volume.DrawdownOf | backend/tradingvolume.py:41 | the loop computes the drawdown column |
| Volume.TickerFrame.constructor | backend/tradingvolume.py:23-32 | the frame holds the cleaned rows and no derived columns yet |
| Volume.TickerFrame.AddDailyReturns | backend/tradingvolume.py:35 | adds the `Daily_Returns` column exactly when Adj_Close is numeric, and changes nothing else |
| Volume.TickerFrame.AddCumulativeReturns | backend/tradingvolume.py:38 | adds the `Cumulative_Returns` column from the daily returns |
| Volume.TickerFrame.AddDrawdown | backend/tradingvolume.py:41 | adds the `Drawdown` column from the cumulative returns |
| Volume.PresentSnoc | backend/tradingvolume.py:38 | extending the column by one row extends its present values by that row's value, if any |
| Volume.Script.constructor | backend/tradingvolume.py:14 | the drawdown dictionary and the log start empty |
| Volume.Script.Run | backend/tradingvolume.py:17-61 | the loop's state after the run is `Outcome`: the report, or the failure that stopped it |
| Volume.Script.Visit | backend/tradingvolume.py:18-61 | one pass of the loop extends `Outcome` by that ticker: a skip line, a kept drawdown, or the failure that stops the run |
| PlotScript.LoadMessageCases | backend/plot.py:45-53 | each ticker logs `... Skipping.` when its file is missing, "Successfully processed" when it loads, "Error processing" with the cause otherwise |
| PlotScript.LoadLog | backend/plot.py:18-53 | one log line per ticker |
| PlotScript.LoadLogAt | backend/plot.py:18-53 | line i of the log is ticker i's message |
| PlotScript.Stored | backend/plot.py:18-43 | `data` holds exactly the tickers whose file exists and cleans, all six columns numeric |
| PlotScript.StockSymbolsDistinct | backend/plot.py:10-12 | the ticker list has no repeats |
| PlotScript.ValidSymbolsDistinct | backend/plot.py:60 | filtering a list without repeats keeps it without repeats |
| PlotScript.AdjCloseTable | backend/plot.py:60 | `pd.DataFrame(data)`: one column per loaded ticker in ticker order, aligned on the union of their indexes as `Align.AdjCloseFrame` aligns them |
| PlotScript.ReturnsColumn | backend/plot.py:70 | `daily_returns[symbol]`: the column's value in each kept row |
| PlotScript.ReturnsLines | backend/plot.py:68-70 | one curve per ticker over the kept rows, with its daily returns |
| PlotScript.MeanLines | backend/plot.py:96-104 | the 30-day rolling-mean curve: defined exactly where the window is full, and then 30 times the value is the window's sum |
| PlotScript.StdLines | backend/plot.py:98-118 | the 30-day rolling-std curve: defined exactly where the window is full, non-negative, with its square the sample variance |
| PlotScript.CumulativeLines | backend/plot.py:143-149 | the cumulative-returns curve compounds the ticker's daily returns |
| PlotScript.AverageLines | backend/plot.py:164-173 | price, 50-day SMA, and 50-day EMA over the present values |
| PlotScript.BandLines | backend/plot.py:188-204 | price, 20-day SMA and the upper and lower bands, enclosing the SMA symmetrically |
| PlotScript.RsiLines | backend/plot.py:232-235 | the `<ticker> RSI` curve, NaN for the first 13 rows, within [0, 100] |
| PlotScript.MacdLines | backend/plot.py:255-269 | MACD as EMA(12) − EMA(26) and the signal line as EMA(9) of it |
| PlotScript.DailyReturnsChart | backend/plot.py:66-72 | "Daily Returns Over Time", one daily-returns curve per loaded ticker |
| PlotScript.RollingMeanChart | backend/plot.py:101-106 | the 30-day rolling-mean chart, one curve per ticker |
| PlotScript.RollingStdChart | backend/plot.py:115-120 | the 30-day rolling-std chart, one curve per ticker |
| PlotScript.CumulativeChart | backend/plot.py:146-151 | "Cumulative Returns Over Time", one curve per ticker |
| PlotScript.AverageChart | backend/plot.py:163-176 | "SMA and EMA", three curves per ticker |
| PlotScript.BandChart | backend/plot.py:187-207 | "Bollinger Bands", four curves per ticker |
| PlotScript.RsiChart | backend/plot.py:231-241 | "RSI for Stocks", one curve per ticker, and the 70 and 30 lines |
| PlotScript.MacdChart | backend/plot.py:254-272 | the MACD chart, two curves per ticker |
| PlotScript.AllCharts | backend/plot.py:65-280 | eight charts titled in the script's order ("Daily Returns Over Time" … "MACD (Moving Average Convergence Divergence)"), each drawing one group of lines per ticker |
| PlotScript.Run | backend/plot.py:55-286 | "No data" exactly when no ticker loads, "No valid daily returns" exactly when the daily-returns frame is empty, otherwise the eight charts |
| PlotScript.StoredNumeric | backend/plot.py:36-43 | every stored Adj_Close column is numeric, and every stored ticker is its prepared file |
| PlotScript.CumulativeSingle | backend/plot.py:143 | for one gap-free ticker, cumulative return k is p[k+1] / p[0] |
| PlotScript.AverageWithinPrices | backend/plot.py:173 | the EMA stays between the lowest and the highest price so far |
| PlotScript.StatsConstant | backend/plot.py:96-98 | on a constant 30-day window the rolling mean is the constant and the std is 0 |
| PlotScript.LoadLogSnoc | backend/plot.py:18 | one more loop iteration appends that ticker's message |
| PlotScript.LoadedStep | backend/plot.py:18-43 | one more loop iteration stores the ticker exactly when it loads |
| PlotScript.LoadAll | backend/plot.py:18-53 | the loop leaves `data` as `Loaded` and prints the log in ticker order |
| PlotScript.LoadStep | backend/plot.py:18-53 | one pass of the loop stores the ticker exactly when it loads and returns that ticker's log line |
| PlotScript.RunScript | backend/plot.py:18-286 | the whole script's outcome is `Run`, after the load log |
| Frontend.Filter | frontend/src/App.js:104-106 | keeps exactly the entries whose lower case contains the lower-cased query, in their original order |
| Frontend.FilteredSymbols | frontend/src/App.js:104-106 | the suggestions are the known tickers matching the typed text, in list order |
| Frontend.EmptyQueryKeepsAll | frontend/src/App.js:104-106 | an empty query keeps every entry |
| Frontend.FilterIgnoresCase | frontend/src/App.js:104-106 | lower-casing the query first changes nothing |
| Frontend.PickedSymbolStaysListed | frontend/src/App.js:133 | a clicked ticker still appears among the suggestions for its own name |
| Frontend.Member | frontend/src/App.js:32 | property access throws exactly on undefined or null, and gives undefined for a missing key |
| Frontend.First | frontend/src/App.js:32 | `[0]` throws exactly on undefined or null, and gives undefined for an empty list |
| Frontend.CellValue | backend/trading.py:44 | `jsonify` sends a text cell as a string and a present number as a number |
| Frontend.CellList | backend/trading.py:44 | `tolist()` of a column without NaN sends one JSON value per cell, in order |
| Frontend.TextList | backend/trading.py:43 | a list of date strings is sent as that list |
| Frontend.StampList | backend/candelstick.py:39 | a list of timestamps is sent as that list |
| Frontend.VolumeBody | backend/trading.py:42-48 | the parsed volume answer is an object with exactly the keys x and y |
| Frontend.VolumeReply | backend/trading.py:48 | the page gets the parsed body when no volume is NaN, and the answer's text otherwise |
| Frontend.CandleBody | backend/candelstick.py:36-56 | the parsed candlestick answer holds data with one trace, and layout |
| Frontend.CandleReply | backend/candelstick.py:56 | the page gets the parsed body when no price is NaN, and the answer's text otherwise |
| Frontend.CandleTraceValue | backend/candelstick.py:38-46 | the trace object has x, open, high, low and close with the endpoint's lists, and no key named dates |
| Frontend.RequestFor | frontend/src/App.js:25-92 | candlestick goes to port 5002, trading_volume to port 5003, and any other type to `/stock/graph` on port 5000 with `symbols` and `graph_type` |
| Frontend.PlotOf | frontend/src/App.js:58 | the plot's data is the single trace built |
| Frontend.CandlePlotReading | frontend/src/App.js:32-58 | a plot is built exactly when `response.data.data[0]` can be read without a TypeError |
| Frontend.VolumePlot | frontend/src/App.js:66-87 | a plot is built exactly when the answer is not undefined or null |
| Frontend.Render | frontend/src/App.js:25-95 | a failed request gives no plot; `/stock/graph` answers are kept as sent; volume answers are rebuilt into a bar trace and candlestick answers into a trace whose x is read from `dates`, as written |
| Frontend.TraceField | frontend/src/App.js:35-45 | reads a key of the plot's first trace |
| Frontend.VolumeShowsBackendData | frontend/src/App.js:66-75 | every successful volume answer without NaN is drawn as a bar trace of exactly the dates and volumes it holds |
| Frontend.VolumeWithNaNLosesData | frontend/src/App.js:66-75 | a volume answer with a NaN volume is drawn with x and y undefined |
| Frontend.CandleShowsBackendData | frontend/src/App.js:32-45 | reading the trace's x, every successful candlestick answer without NaN is drawn with exactly its dates and its four price lists |
| Frontend.CandleAsWrittenLosesDates | frontend/src/App.js:32-37 | the page as written, reading the trace's `dates`, draws every successful candlestick answer without NaN with undefined as its x |
| Frontend.CandleWithNaNFails | frontend/src/App.js:32 | a candlestick answer with a NaN price makes `response.data.data[0]` throw: no plot is kept, whichever field the dates are read from |
| Frontend.Viewer.constructor | frontend/src/App.js:7-11 | the page starts with empty text, "daily_returns", no plot, not loading and no error |
| Frontend.Viewer.SetSymbols | frontend/src/App.js:118 | typing or clicking a suggestion sets the text and nothing else |
| Frontend.Viewer.SetGraphType | frontend/src/App.js:152-153 | the select sets the graph type and nothing else |
| Frontend.Viewer.Suggestions | frontend/src/App.js:128-130 | no list for empty text, otherwise exactly the matching tickers |
| Frontend.Viewer.FetchGraphData | frontend/src/App.js:13-102 | blank text sets the input error and sends nothing; otherwise one request is sent, loading ends, and the plot or the fetch error is set as `Render`, the page as written, decides |

## Left out

- Floating point: prices and indicators are exact reals, so IEEE rounding, infinities and the NaN that 0/0 produces appear only as `None`.
- Rolling.IsSquareRoot: `std()` takes a floating square root; the model takes any function returning a non-negative square root as a parameter.
- Returns.PctChange: `pct_change()` pads missing values forward before dividing; the model leaves those positions NaN. The two differ wherever a table holds NaN: where a ticker lacks a date of the union, and inside a ticker's own dates where a cell was empty or `to_numeric(errors='coerce')` turned its text into NaN. There pandas gives 0 at that row and a return over two steps at the next, while the model's `dropna()` drops both rows.
- Ewm.Ema: the model smooths the present values of a column, skipping NaNs; pandas' exact weighting across gaps is not modelled.
- Charts.MacdCurves, PlotScript.AverageLines, PlotScript.MacdLines: `ewm(span, adjust=False).mean()` keeps the default `ignore_na=False`. Its output is NaN before the first price and has a value at every later index date; in a gap that value is the last EMA carried forward. So pandas' EMA and MACD curves have a point at every index date after the first price, and the signal line smooths the MACD over those carried values too. The model's curves hold only the dates of the present values (`Charts.PresentDates`), and its signal smooths only the MACD values at those dates. On a column without gaps the two agree.
- Numeric.ToNumeric: accepts plain decimal numbers with an optional sign and fraction; exponents, "inf", "nan", thousands separators and surrounding spaces are left out.
- Text.ToLower, Text.ToUpper: ASCII letters only; Unicode case maps (Python's `upper()`, JavaScript's `toLowerCase()`) are left out.
- Text.TrimStart, Text.TrimEnd, Text.TrimEmptyIff: the whitespace set is ASCII whitespace, the no-break space U+00A0 and the byte-order mark U+FEFF. JavaScript's `trim()` also strips U+1680, U+2000–U+200A, U+2028, U+2029, U+202F, U+205F and U+3000, which the model keeps.
- Dates.ParseDateTime: reads the format as `strptime` does for four year digits and one- or two-digit fields with single separators. It rejects what pandas' fallback also accepts: several whitespace characters between date and time, a field led by a space ("2024-01- 5"), and the leap seconds 60 and 61. The nanosecond Timestamp range (years 1677–2262) is left out too, and so are the texts pandas turns into NaT (NA tokens, "NaT", "NAT", "nat", "NAN"; see the Records.ReadRow line); every valid calendar date with a four-digit year parses.
- Align.AdjCloseFrame, PlotScript.AdjCloseTable: when the tickers' indexes differ and one of them repeats a date, pandas' union keeps the repeats, and reindexing a ticker with repeats onto a different index raises. The model's union then holds each date once, and a ticker's column takes its first row for a repeated date. Equal indexes, repeats included, are modelled exactly.
- Records.Describe: the text of pandas' exceptions is a model-chosen message, not pandas' wording.
- PlotScript.LoadMessage: has no contract of its own; PlotScript.LoadMessageCases states its three cases.
- Rendering: matplotlib and seaborn drawing, PNG encoding, `send_file`, `plt.show()` and console output are left out; figures are the data they draw.
- plot.py's correlation heatmap (lines 87-93), the return histograms with KDE (lines 128-141) and the rounded statistics printouts (lines 80-85) are left out, because they are presentation only.
- plot.py's debug printouts of raw rows (lines 25-27, 49-51) are left out.
- tradingvolume.py's per-ticker volume plots (lines 46-58) are left out, because they draw the raw column without computing anything.
- Flask routing, CORS, the port a server listens on, and jsonify's status-code and header handling are left out; each endpoint is a function from its parameters and the files to a response.
- jsonify renders timestamps as HTTP-date text; the model sends them as `Stamp` values.
- Frontend.VolumeReply, Frontend.CandleReply: `jsonify` writes a NaN cell as the bare token `NaN`, which `JSON.parse` rejects, so `axios` hands the page the answer's text. The model takes that text as a free parameter, because the page reads every string alike; jsonify's spelling of the body is not modelled.
- Frontend.Render: the `/stock/graph` answer (the JSON of a Plotly figure) is passed through as an opaque value; its encoding is not modelled.
- axios URL encoding of the text box, the async timing of React state updates, `console.log`/`console.error` and the page's HTML layout are left out.
- Frontend.Member: property lookup on primitives and prototype chains is left out; only objects carry keys.
- backend/candelstcik.py is not part of this model.
- Records.ReadRow, Records.ParseDates: a date field that is an NA token (empty, "NA", "null", …) is NaN in pandas. `str.contains(..., na=False)` keeps the row and `to_datetime` makes its date NaT, so the file still loads. The model reads the date as text, and `ParseDates` fails on it with the bad-date error. A file whose every date is an NA token gives pandas a float Date column, and `.str` then raises an error. The model reports the bad-date error for that file too. Before matching the format, `to_datetime` also turns the texts "NaT", "NAT", "nat" and "NAN" into NaT, so a row dated one of them loads too. The model rejects those four texts with the bad-date error as well. "NaT", "NAT" and "nat" are not read_csv NA tokens, and neither is "NAN". NaT index values are not modelled.
- File system: `os.path.exists` and `read_csv` are modelled by the map from ticker to records, so a directory listing, file encodings and CSV quoting are left out.

## Findings

`Frontend.Render` and `Frontend.Viewer.FetchGraphData` model the page as written, with the `dates` reader; `Frontend.CandlePlot` is the corrected reader, and `Frontend.CandleShowsBackendData` states what the corrected page would draw.

| source | as written | input that shows it | evidently intended | confidence | as-written member | corrected member |
|---|---|---|---|---|---|---|
| frontend/src/App.js:32 | the page takes `dates` from the candlestick trace, but backend/candelstick.py:39 sends the dates under `x` | any ticker whose candlestick request succeeds without NaN, e.g. AAPL with a one-row price file: the plot's x is undefined | read `x` and plot those dates | not executed | Frontend.CandleAsWrittenLosesDates | Frontend.CandleShowsBackendData |
