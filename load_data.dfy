/** The preprocessing of the invoice table into a daily revenue series: drop
    cancelled invoices and rows with an unreadable date, a missing quantity or
    price, or a non-positive quantity or price; price every remaining line;
    sum the lines of each calendar day; fill the days in between with zero;
    and derive a copy divided by 10000. */
module LoadData {
  import opened Common

  /** One invoice line, reduced to the columns the preprocessing reads.
      `invoiceNo` is the text of the InvoiceNo cell (what `astype(str)` gives);
      a missing Quantity or UnitPrice is `None`. */
  datatype RawRow = RawRow(invoiceNo: string, invoiceDate: string, quantity: Option<real>, unitPrice: Option<real>)

  /** A line after `pd.to_datetime(..., errors='coerce')`: `None` stands for NaT. */
  datatype ParsedRow = ParsedRow(invoiceNo: string, invoiceDate: Option<Timestamp>, quantity: Option<real>, unitPrice: Option<real>)

  /** A line with all three cells present. */
  datatype Sale = Sale(invoiceNo: string, invoiceDate: Timestamp, quantity: real, unitPrice: real)

  /** A sale with its Revenue column. */
  datatype Line = Line(sale: Sale, revenue: real)

  /** A row of the daily tables: a day ordinal and its sales. */
  datatype DayRow = DayRow(date: int, sales: real)

  /** The two tables the preprocessing writes: `daily_revenue` and `daily_revenue_scaled`. */
  datatype Tables = Tables(revenueRaw: seq<DayRow>, revenueScaled: seq<DayRow>)

  const SCALE_DIVISOR: real := 10000.0

  predicate StartsWithC(s: string)
  {
    |s| > 0 && s[0] == 'C'
  }

  // ---------------------------------------------------------------------
  // The stages, one per statement of the preprocessing block
  // ---------------------------------------------------------------------

  predicate NotCancelledRow(r: RawRow)
  {
    !StartsWithC(r.invoiceNo)
  }

  /** `df[~df['InvoiceNo'].astype(str).str.startswith('C')]` */
  function NotCancelled(rows: seq<RawRow>): (r: seq<RawRow>)
    ensures |r| <= |rows|
    ensures forall k :: 0 <= k < |r| ==> !StartsWithC(r[k].invoiceNo)
  {
    Filter(rows, NotCancelledRow)
  }

  /** `df['InvoiceDate'] = pd.to_datetime(df['InvoiceDate'], errors='coerce')`;
      the parser itself is pandas' and is a parameter here. */
  function CoerceDates(rows: seq<RawRow>, toDatetime: string -> Option<Timestamp>): (r: seq<ParsedRow>)
    ensures |r| == |rows|
    ensures forall k :: 0 <= k < |rows| ==>
      && r[k].invoiceDate == toDatetime(rows[k].invoiceDate)
      && r[k].invoiceNo == rows[k].invoiceNo
      && r[k].quantity == rows[k].quantity
      && r[k].unitPrice == rows[k].unitPrice
  {
    seq(|rows|, k requires 0 <= k < |rows| =>
      ParsedRow(rows[k].invoiceNo, toDatetime(rows[k].invoiceDate), rows[k].quantity, rows[k].unitPrice))
  }

  /** The row as a sale when none of the three cells is missing. */
  function Complete(p: ParsedRow): (r: Option<Sale>)
    ensures r.Some? <==> p.invoiceDate.Some? && p.quantity.Some? && p.unitPrice.Some?
    ensures r.Some? ==>
      r.value == Sale(p.invoiceNo, p.invoiceDate.value, p.quantity.value, p.unitPrice.value)
  {
    match (p.invoiceDate, p.quantity, p.unitPrice)
    case (Some(t), Some(q), Some(u)) => Some(Sale(p.invoiceNo, t, q, u))
    case _ => None
  }

  /** `df.dropna(subset=['InvoiceDate', 'Quantity', 'UnitPrice'])` */
  function DropMissing(rows: seq<ParsedRow>): (r: seq<Sale>)
    ensures |r| <= |rows|
  {
    FilterMap(rows, Complete)
  }

  predicate Positive(s: Sale)
  {
    s.quantity > 0.0 && s.unitPrice > 0.0
  }

  /** `df[(df['Quantity'] > 0) & (df['UnitPrice'] > 0)]` */
  function KeepPositive(rows: seq<Sale>): (r: seq<Sale>)
    ensures |r| <= |rows|
    ensures forall k :: 0 <= k < |r| ==> r[k].quantity > 0.0 && r[k].unitPrice > 0.0
  {
    Filter(rows, Positive)
  }

  /** `df['Revenue'] = df['Quantity'] * df['UnitPrice']` */
  function AddRevenue(rows: seq<Sale>): (r: seq<Line>)
    ensures |r| == |rows|
    ensures forall k :: 0 <= k < |rows| ==> r[k].sale == rows[k] && r[k].revenue == rows[k].quantity * rows[k].unitPrice
  {
    seq(|rows|, k requires 0 <= k < |rows| => Line(rows[k], rows[k].quantity * rows[k].unitPrice))
  }

  /** The lines that reach the group-by, every stage applied in the source's order. */
  function Cleaned(raw: seq<RawRow>, toDatetime: string -> Option<Timestamp>): (r: seq<Line>)
    ensures |r| <= |raw|
    ensures forall k :: 0 <= k < |r| ==>
      && r[k].sale.quantity > 0.0 && r[k].sale.unitPrice > 0.0
      && r[k].revenue == r[k].sale.quantity * r[k].sale.unitPrice
  {
    AddRevenue(KeepPositive(DropMissing(CoerceDates(NotCancelled(raw), toDatetime))))
  }

  function DayOf(l: Line): int
  {
    l.sale.invoiceDate.day
  }

  /** A series sorted by strictly increasing date, as `groupby` produces it. */
  predicate Increasing(s: seq<DayRow>)
  {
    forall i, j :: 0 <= i < j < |s| ==> s[i].date < s[j].date
  }

  /** The value a series holds on day `d`, or 0 when `d` is not in its index. */
  function Lookup(s: seq<DayRow>, d: int): real
  {
    if s == [] then 0.0 else if s[0].date == d then s[0].sales else Lookup(s[1..], d)
  }

  /** Adds `v` to day `d` of a sorted series, inserting the day if it is new. */
  function Accumulate(s: seq<DayRow>, d: int, v: real): (r: seq<DayRow>)
    requires Increasing(s)
    ensures r != [] && Increasing(r)
    ensures r[0].date == if s == [] || d < s[0].date then d else s[0].date
  {
    if s == [] then [DayRow(d, v)]
    else if s[0].date == d then [DayRow(d, s[0].sales + v)] + s[1..]
    else if d < s[0].date then [DayRow(d, v)] + s
    else [s[0]] + Accumulate(s[1..], d, v)
  }

  /** `df.groupby(df['InvoiceDate'].dt.date)['Revenue'].sum()`: one row per
      calendar day that has a line, in date order. */
  function GroupByDay(lines: seq<Line>): (r: seq<DayRow>)
    ensures Increasing(r)
    ensures r == [] <==> lines == []
  {
    if lines == [] then [] else Accumulate(GroupByDay(lines[1..]), DayOf(lines[0]), lines[0].revenue)
  }

  /** `asfreq('D', fill_value=0)`: every day from the first to the last date of
      the series, with 0 on the days the series does not hold. */
  function AsFreqDaily(s: seq<DayRow>): (r: seq<DayRow>)
    requires Increasing(s)
    ensures r == [] <==> s == []
    ensures Contiguous(r)
    ensures r != [] ==> r[0].date == s[0].date && r[|r| - 1].date == s[|s| - 1].date
  {
    if s == [] then []
    else
      var first := s[0].date;
      var last := s[|s| - 1].date;
      seq(last - first + 1, k => DayRow(first + k, Lookup(s, first + k)))
  }

  /** `df_revenue_scaled["sales"] = df_revenue_scaled["sales"] / 10000` on a copy. */
  function ScaledTable(t: seq<DayRow>): (r: seq<DayRow>)
    ensures |r| == |t|
    ensures forall k :: 0 <= k < |t| ==> r[k].date == t[k].date && r[k].sales * SCALE_DIVISOR == t[k].sales
  {
    seq(|t|, k requires 0 <= k < |t| => DayRow(t[k].date, t[k].sales / SCALE_DIVISOR))
  }

  /** The whole preprocessing block: the raw daily table and its scaled copy. */
  function Preprocess(raw: seq<RawRow>, toDatetime: string -> Option<Timestamp>): (r: Tables)
    ensures r.revenueRaw == [] <==> Cleaned(raw, toDatetime) == []
    ensures Contiguous(r.revenueRaw)
    ensures |r.revenueScaled| == |r.revenueRaw|
    ensures forall k :: 0 <= k < |r.revenueRaw| ==>
      r.revenueScaled[k].date == r.revenueRaw[k].date
      && r.revenueScaled[k].sales * SCALE_DIVISOR == r.revenueRaw[k].sales
  {
    var daily := AsFreqDaily(GroupByDay(Cleaned(raw, toDatetime)));
    Tables(daily, ScaledTable(daily))
  }

  // ---------------------------------------------------------------------
  // Reference definitions
  // ---------------------------------------------------------------------

  /** A row is dropped by some filter: cancelled, NaT date, missing cell, or
      non-positive quantity or price. */
  predicate Dropped(r: RawRow, toDatetime: string -> Option<Timestamp>)
  {
    || StartsWithC(r.invoiceNo)
    || toDatetime(r.invoiceDate).None?
    || r.quantity.None?
    || r.unitPrice.None?
    || r.quantity.value <= 0.0
    || r.unitPrice.value <= 0.0
  }

  /** What one row becomes, judged on its own. */
  function CleanRow(r: RawRow, toDatetime: string -> Option<Timestamp>): Option<Line>
  {
    if Dropped(r, toDatetime) then None
    else
      var q, u := r.quantity.value, r.unitPrice.value;
      Some(Line(Sale(r.invoiceNo, toDatetime(r.invoiceDate).value, q, u), q * u))
  }

  function RowLines(r: RawRow, toDatetime: string -> Option<Timestamp>): seq<Line>
  {
    match CleanRow(r, toDatetime)
    case Some(l) => [l]
    case None => []
  }

  /** The revenue of the lines dated on day `d`. */
  function DayTotal(lines: seq<Line>, d: int): real
  {
    if lines == [] then 0.0
    else (if DayOf(lines[0]) == d then lines[0].revenue else 0.0) + DayTotal(lines[1..], d)
  }

  function TotalRevenue(lines: seq<Line>): real
  {
    if lines == [] then 0.0 else lines[0].revenue + TotalRevenue(lines[1..])
  }

  function TotalSales(t: seq<DayRow>): real
  {
    if t == [] then 0.0 else TotalSales(t[..|t| - 1]) + t[|t| - 1].sales
  }

  /** The calendar days on which some line falls. */
  function DaysOf(lines: seq<Line>): set<int>
  {
    set k | 0 <= k < |lines| :: DayOf(lines[k])
  }

  function DatesOf(s: seq<DayRow>): set<int>
  {
    set k | 0 <= k < |s| :: s[k].date
  }

  /** Day `first + k` for every `k`: ascending by one day, no gaps. */
  predicate Contiguous(t: seq<DayRow>)
  {
    forall k :: 0 <= k < |t| ==> t[k].date == t[0].date + k
  }

  // ---------------------------------------------------------------------
  // The filters, row by row
  // ---------------------------------------------------------------------

  lemma CoerceDatesConcat(a: seq<RawRow>, b: seq<RawRow>, toDatetime: string -> Option<Timestamp>)
    ensures CoerceDates(a + b, toDatetime) == CoerceDates(a, toDatetime) + CoerceDates(b, toDatetime)
  {
  }

  lemma AddRevenueConcat(a: seq<Sale>, b: seq<Sale>)
    ensures AddRevenue(a + b) == AddRevenue(a) + AddRevenue(b)
  {
    var whole, parts := AddRevenue(a + b), AddRevenue(a) + AddRevenue(b);
    forall k | 0 <= k < |whole| ensures whole[k] == parts[k] {
      if k < |a| {
        assert (a + b)[k] == a[k];
      } else {
        assert (a + b)[k] == b[k - |a|];
      }
    }
  }

  lemma CleanedConcat(a: seq<RawRow>, b: seq<RawRow>, toDatetime: string -> Option<Timestamp>)
    ensures Cleaned(a + b, toDatetime) == Cleaned(a, toDatetime) + Cleaned(b, toDatetime)
  {
    FilterConcat(a, b, NotCancelledRow);
    var a1, b1 := NotCancelled(a), NotCancelled(b);
    CoerceDatesConcat(a1, b1, toDatetime);
    var a2, b2 := CoerceDates(a1, toDatetime), CoerceDates(b1, toDatetime);
    FilterMapConcat(a2, b2, Complete);
    var a3, b3 := DropMissing(a2), DropMissing(b2);
    FilterConcat(a3, b3, Positive);
    AddRevenueConcat(KeepPositive(a3), KeepPositive(b3));
  }

  /** The stages, applied to a table of one row, do what `CleanRow` says of it. */
  lemma CleanedSingle(r: RawRow, toDatetime: string -> Option<Timestamp>)
    ensures Cleaned([r], toDatetime) == RowLines(r, toDatetime)
  {
    var s1 := NotCancelled([r]);
    assert [r][1..] == [];
    assert s1 == if StartsWithC(r.invoiceNo) then [] else [r];
    var s2 := CoerceDates(s1, toDatetime);
    var s3 := DropMissing(s2);
    if s2 != [] {
      assert s2[1..] == [];
    }
    var s4 := KeepPositive(s3);
    if s3 != [] {
      assert s3[1..] == [];
    }
  }

  lemma CleanedCons(r: RawRow, rest: seq<RawRow>, toDatetime: string -> Option<Timestamp>)
    ensures Cleaned([r] + rest, toDatetime) == RowLines(r, toDatetime) + Cleaned(rest, toDatetime)
  {
    CleanedConcat([r], rest, toDatetime);
    CleanedSingle(r, toDatetime);
  }

  /** Every line that reaches the group-by is what `CleanRow` makes of some input row. */
  lemma {:induction false} CleanedLinesFromRows(raw: seq<RawRow>, toDatetime: string -> Option<Timestamp>)
    ensures forall k :: 0 <= k < |Cleaned(raw, toDatetime)| ==>
      exists j :: 0 <= j < |raw| && CleanRow(raw[j], toDatetime) == Some(Cleaned(raw, toDatetime)[k])
  {
    if raw != [] {
      assert raw == [raw[0]] + raw[1..];
      CleanedCons(raw[0], raw[1..], toDatetime);
      CleanedLinesFromRows(raw[1..], toDatetime);
      var lines := Cleaned(raw, toDatetime);
      var head, tail := RowLines(raw[0], toDatetime), Cleaned(raw[1..], toDatetime);
      assert lines == head + tail;
      forall k | 0 <= k < |lines|
        ensures exists j :: 0 <= j < |raw| && CleanRow(raw[j], toDatetime) == Some(lines[k])
      {
        if k < |head| {
          assert CleanRow(raw[0], toDatetime) == Some(lines[k]);
        } else {
          assert lines[k] == tail[k - |head|];
          var j :| 0 <= j < |raw[1..]| && CleanRow(raw[1..][j], toDatetime) == Some(tail[k - |head|]);
          assert raw[1..][j] == raw[j + 1];
          assert CleanRow(raw[j + 1], toDatetime) == Some(lines[k]);
        }
      }
    } else {
      var s2 := CoerceDates(NotCancelled(raw), toDatetime);
      assert |DropMissing(s2)| == 0;
      assert |Cleaned(raw, toDatetime)| == 0;
    }
  }

  /** What reaches the group-by: no cancelled invoice, only positive quantity
      and price, and Revenue = Quantity * UnitPrice on every line. */
  lemma KeptLineFacts(raw: seq<RawRow>, toDatetime: string -> Option<Timestamp>)
    ensures forall k :: 0 <= k < |Cleaned(raw, toDatetime)| ==>
      var l := Cleaned(raw, toDatetime)[k];
      && !StartsWithC(l.sale.invoiceNo)
      && l.sale.quantity > 0.0 && l.sale.unitPrice > 0.0
      && l.revenue == l.sale.quantity * l.sale.unitPrice
      && l.revenue > 0.0
  {
    CleanedLinesFromRows(raw, toDatetime);
    var lines := Cleaned(raw, toDatetime);
    forall k | 0 <= k < |lines|
      ensures lines[k].revenue > 0.0
    {
      var l := lines[k];
      var j :| 0 <= j < |raw| && CleanRow(raw[j], toDatetime) == Some(l);
      assert l.sale.quantity > 0.0 && l.sale.unitPrice > 0.0;
      MulPositive(l.sale.quantity, l.sale.unitPrice);
    }
  }

  lemma MulPositive(x: real, y: real)
    requires x > 0.0 && y > 0.0
    ensures x * y > 0.0
  {
  }

  /** A single row survives every filter exactly when it is not `Dropped`, and
      then it becomes one line priced at Quantity * UnitPrice. */
  lemma SingleRowKept(r: RawRow, toDatetime: string -> Option<Timestamp>)
    ensures Cleaned([r], toDatetime) == [] <==> Dropped(r, toDatetime)
    ensures !Dropped(r, toDatetime) ==>
      Cleaned([r], toDatetime) == [Line(Sale(r.invoiceNo, toDatetime(r.invoiceDate).value, r.quantity.value, r.unitPrice.value),
                                        r.quantity.value * r.unitPrice.value)]
  {
    CleanedSingle(r, toDatetime);
  }

  /** A row that some filter drops contributes nothing to either table. */
  lemma DroppedRowContributesNothing(a: seq<RawRow>, r: RawRow, b: seq<RawRow>, toDatetime: string -> Option<Timestamp>)
    requires Dropped(r, toDatetime)
    ensures Preprocess(a + [r] + b, toDatetime) == Preprocess(a + b, toDatetime)
  {
    CleanedSkipsDropped(a, r, b, toDatetime);
  }

  lemma CleanedSkipsDropped(a: seq<RawRow>, r: RawRow, b: seq<RawRow>, toDatetime: string -> Option<Timestamp>)
    requires Dropped(r, toDatetime)
    ensures Cleaned(a + [r] + b, toDatetime) == Cleaned(a + b, toDatetime)
  {
    CleanedConcat(a + [r], b, toDatetime);
    CleanedConcat(a, [r], toDatetime);
    CleanedConcat(a, b, toDatetime);
    CleanedSingle(r, toDatetime);
  }

  // ---------------------------------------------------------------------
  // The group-by
  // ---------------------------------------------------------------------

  lemma {:induction false} LookupAbsent(s: seq<DayRow>, d: int)
    requires d !in DatesOf(s)
    ensures Lookup(s, d) == 0.0
  {
    if s != [] {
      assert s[0].date in DatesOf(s);
      assert DatesOf(s[1..]) <= DatesOf(s) by {
        forall e | e in DatesOf(s[1..]) ensures e in DatesOf(s) {
          var k :| 0 <= k < |s[1..]| && s[1..][k].date == e;
          assert s[k + 1].date == e;
        }
      }
      LookupAbsent(s[1..], d);
    }
  }

  lemma DatesOfCons(x: DayRow, s: seq<DayRow>, e: int)
    ensures e in DatesOf([x] + s) <==> e == x.date || e in DatesOf(s)
  {
    var t := [x] + s;
    assert t[0] == x;
    if e in DatesOf(s) {
      var k :| 0 <= k < |s| && s[k].date == e;
      assert t[k + 1].date == e;
    }
    if e in DatesOf(t) {
      var k :| 0 <= k < |t| && t[k].date == e;
      if k > 0 {
        assert t[k] == s[k - 1];
        assert s[k - 1].date == e;
      } else {
        assert t[0] == x;
      }
    }
  }

  /** Accumulating `v` on day `d` adds `d` to the dates of the series and `v`
      to what it holds on `d`, and changes no other day. */
  lemma {:induction false} AccumulateSpec(s: seq<DayRow>, d: int, v: real)
    requires Increasing(s)
    ensures forall e :: e in DatesOf(Accumulate(s, d, v)) <==> e in DatesOf(s) || e == d
    ensures forall e :: Lookup(Accumulate(s, d, v), e) == Lookup(s, e) + (if e == d then v else 0.0)
  {
    var r := Accumulate(s, d, v);
    if s == [] {
      forall e ensures e in DatesOf(r) <==> e == d {
        DatesOfCons(DayRow(d, v), [], e);
      }
    } else if s[0].date == d {
      assert s == [s[0]] + s[1..];
      forall e ensures e in DatesOf(r) <==> e in DatesOf(s) || e == d {
        DatesOfCons(DayRow(d, s[0].sales + v), s[1..], e);
        DatesOfCons(s[0], s[1..], e);
      }
    } else if d < s[0].date {
      assert d !in DatesOf(s) by {
        forall k | 0 <= k < |s| ensures s[k].date != d {
          assert k == 0 || s[0].date < s[k].date;
        }
      }
      LookupAbsent(s, d);
      forall e ensures e in DatesOf(r) <==> e in DatesOf(s) || e == d {
        DatesOfCons(DayRow(d, v), s, e);
      }
    } else {
      assert s == [s[0]] + s[1..];
      AccumulateSpec(s[1..], d, v);
      forall e ensures e in DatesOf(r) <==> e in DatesOf(s) || e == d {
        DatesOfCons(s[0], Accumulate(s[1..], d, v), e);
        DatesOfCons(s[0], s[1..], e);
      }
    }
  }

  lemma DaysOfCons(l: Line, rest: seq<Line>, e: int)
    ensures e in DaysOf([l] + rest) <==> e == DayOf(l) || e in DaysOf(rest)
  {
    var t := [l] + rest;
    assert t[0] == l;
    if e in DaysOf(rest) {
      var k :| 0 <= k < |rest| && DayOf(rest[k]) == e;
      assert DayOf(t[k + 1]) == e;
    }
    if e in DaysOf(t) {
      var k :| 0 <= k < |t| && DayOf(t[k]) == e;
      if k > 0 {
        assert t[k] == rest[k - 1];
        assert DayOf(rest[k - 1]) == e;
      } else {
        assert t[0] == l;
      }
    }
  }

  /** The group-by has exactly the days of the lines in its index, and on each
      day the sum of that day's revenue. */
  lemma {:induction false} GroupByDaySpec(lines: seq<Line>)
    ensures forall e :: e in DatesOf(GroupByDay(lines)) <==> e in DaysOf(lines)
    ensures forall e :: Lookup(GroupByDay(lines), e) == DayTotal(lines, e)
  {
    if lines != [] {
      var rest := lines[1..];
      assert lines == [lines[0]] + rest;
      GroupByDaySpec(rest);
      AccumulateSpec(GroupByDay(rest), DayOf(lines[0]), lines[0].revenue);
      forall e ensures e in DatesOf(GroupByDay(lines)) <==> e in DaysOf(lines) {
        DaysOfCons(lines[0], rest, e);
      }
    }
  }

  /** Two line lists that agree on every line's calendar day
      and revenue. */
  predicate SameDaysAndRevenues(lines: seq<Line>, lines': seq<Line>)
  {
    && |lines| == |lines'|
    && forall k :: 0 <= k < |lines| ==> DayOf(lines[k]) == DayOf(lines'[k]) && lines[k].revenue == lines'[k].revenue
  }

  lemma {:induction false} GroupByDaySameDays(lines: seq<Line>, lines': seq<Line>)
    requires SameDaysAndRevenues(lines, lines')
    ensures GroupByDay(lines) == GroupByDay(lines')
  {
    if lines != [] {
      GroupByDaySameDays(lines[1..], lines'[1..]);
    }
  }

  predicate SameDay(a: Option<Timestamp>, b: Option<Timestamp>)
  {
    a.Some? == b.Some? && (a.Some? ==> a.value.day == b.value.day)
  }

  lemma {:induction false} CleanedSameDays(raw: seq<RawRow>, p: string -> Option<Timestamp>, p': string -> Option<Timestamp>)
    requires forall k :: 0 <= k < |raw| ==> SameDay(p(raw[k].invoiceDate), p'(raw[k].invoiceDate))
    ensures SameDaysAndRevenues(Cleaned(raw, p), Cleaned(raw, p'))
  {
    if raw != [] {
      assert raw == [raw[0]] + raw[1..];
      CleanedCons(raw[0], raw[1..], p);
      CleanedCons(raw[0], raw[1..], p');
      CleanedSameDays(raw[1..], p, p');
      var h, h' := RowLines(raw[0], p), RowLines(raw[0], p');
      var t, t' := Cleaned(raw[1..], p), Cleaned(raw[1..], p');
      assert SameDaysAndRevenues(h, h');
      SameDaysConcat(h, h', t, t');
    }
  }

  lemma SameDaysConcat(h: seq<Line>, h': seq<Line>, t: seq<Line>, t': seq<Line>)
    requires SameDaysAndRevenues(h, h') && SameDaysAndRevenues(t, t')
    ensures SameDaysAndRevenues(h + t, h' + t')
  {
    forall k | 0 <= k < |h + t|
      ensures DayOf((h + t)[k]) == DayOf((h' + t')[k]) && (h + t)[k].revenue == (h' + t')[k].revenue
    {
      if k >= |h| {
        assert (h + t)[k] == t[k - |h|] && (h' + t')[k] == t'[k - |h|];
      }
    }
  }

  /** Only the calendar day of each InvoiceDate matters: two date parsers that
      agree on the day of every row, whatever the time of day they read, give
      the same tables. */
  lemma TimeOfDayIgnored(raw: seq<RawRow>, p: string -> Option<Timestamp>, p': string -> Option<Timestamp>)
    requires forall k :: 0 <= k < |raw| ==> SameDay(p(raw[k].invoiceDate), p'(raw[k].invoiceDate))
    ensures Preprocess(raw, p) == Preprocess(raw, p')
  {
    CleanedSameDays(raw, p, p');
    GroupByDaySameDays(Cleaned(raw, p), Cleaned(raw, p'));
  }

  // ---------------------------------------------------------------------
  // The daily table
  // ---------------------------------------------------------------------

  /** The raw table runs without a gap from the earliest to the latest day on
      which a kept line falls, and is empty exactly when no line is kept. */
  lemma DailyTableSpan(raw: seq<RawRow>, toDatetime: string -> Option<Timestamp>)
    ensures var lines, t := Cleaned(raw, toDatetime), Preprocess(raw, toDatetime).revenueRaw;
      && (t == [] <==> lines == [])
      && Contiguous(t)
      && (t != [] ==>
            && t[0].date in DaysOf(lines)
            && t[|t| - 1].date in DaysOf(lines)
            && forall e :: e in DaysOf(lines) ==> t[0].date <= e <= t[|t| - 1].date)
  {
    var lines := Cleaned(raw, toDatetime);
    var g := GroupByDay(lines);
    GroupByDaySpec(lines);
    if g != [] {
      assert g[0].date in DatesOf(g);
      assert g[|g| - 1].date in DatesOf(g);
      forall e | e in DaysOf(lines) ensures g[0].date <= e <= g[|g| - 1].date {
        assert e in DatesOf(g);
        var k :| 0 <= k < |g| && g[k].date == e;
        assert k == 0 || g[0].date < g[k].date;
        assert k == |g| - 1 || g[k].date < g[|g| - 1].date;
      }
    }
  }

  /** Each day's sales in the raw table is the revenue of the kept lines dated
      that day, 0 on a day without any, and never negative. */
  lemma DailyTableValues(raw: seq<RawRow>, toDatetime: string -> Option<Timestamp>)
    ensures var lines, t := Cleaned(raw, toDatetime), Preprocess(raw, toDatetime).revenueRaw;
      forall k :: 0 <= k < |t| ==>
        && t[k].sales == DayTotal(lines, t[k].date)
        && t[k].sales >= 0.0
        && (t[k].date !in DaysOf(lines) ==> t[k].sales == 0.0)
  {
    var lines := Cleaned(raw, toDatetime);
    GroupByDaySpec(lines);
    KeptLineFacts(raw, toDatetime);
    var t := Preprocess(raw, toDatetime).revenueRaw;
    forall k | 0 <= k < |t|
      ensures DayTotal(lines, t[k].date) >= 0.0
      ensures t[k].date !in DaysOf(lines) ==> DayTotal(lines, t[k].date) == 0.0
    {
      DayTotalNonNegative(lines, t[k].date);
      if t[k].date !in DaysOf(lines) {
        DayTotalAbsent(lines, t[k].date);
      }
    }
  }

  /** No line falls on day `d`, so the day's total is 0: a day the group-by
      does not hold gets the fill value. */
  lemma {:induction false} DayTotalAbsent(lines: seq<Line>, d: int)
    requires d !in DaysOf(lines)
    ensures DayTotal(lines, d) == 0.0
  {
    if lines != [] {
      assert lines == [lines[0]] + lines[1..];
      DaysOfCons(lines[0], lines[1..], d);
      DayTotalAbsent(lines[1..], d);
    }
  }

  lemma {:induction false} DayTotalNonNegative(lines: seq<Line>, d: int)
    requires forall k :: 0 <= k < |lines| ==> lines[k].revenue > 0.0
    ensures DayTotal(lines, d) >= 0.0
  {
    if lines != [] {
      DayTotalNonNegative(lines[1..], d);
    }
  }

  /** The revenue of the days first, ..., first + n - 1. */
  function SpanTotal(lines: seq<Line>, first: int, n: nat): real
  {
    if n == 0 then 0.0 else SpanTotal(lines, first, n - 1) + DayTotal(lines, first + n - 1)
  }

  lemma {:induction false} SpanTotalCons(l: Line, rest: seq<Line>, first: int, n: nat)
    ensures SpanTotal([l] + rest, first, n)
         == SpanTotal(rest, first, n) + (if first <= DayOf(l) < first + n then l.revenue else 0.0)
  {
    var lines := [l] + rest;
    assert lines[1..] == rest;
    if n > 0 {
      SpanTotalCons(l, rest, first, n - 1);
    }
  }

  lemma {:induction false} SpanTotalCoversAll(lines: seq<Line>, first: int, n: nat)
    requires forall k :: 0 <= k < |lines| ==> first <= DayOf(lines[k]) < first + n
    ensures SpanTotal(lines, first, n) == TotalRevenue(lines)
  {
    if lines == [] {
      SpanTotalEmpty(first, n);
    } else {
      assert lines == [lines[0]] + lines[1..];
      SpanTotalCons(lines[0], lines[1..], first, n);
      SpanTotalCoversAll(lines[1..], first, n);
    }
  }

  lemma {:induction false} SpanTotalEmpty(first: int, n: nat)
    ensures SpanTotal([], first, n) == 0.0
  {
    if n > 0 {
      SpanTotalEmpty(first, n - 1);
    }
  }

  lemma {:induction false} TableTotal(t: seq<DayRow>, lines: seq<Line>, first: int)
    requires forall k :: 0 <= k < |t| ==> t[k].sales == DayTotal(lines, first + k)
    ensures TotalSales(t) == SpanTotal(lines, first, |t|)
  {
    if t != [] {
      TableTotal(t[..|t| - 1], lines, first);
    }
  }

  /** The raw table's sales add up to the total revenue of the kept lines:
      the gap filling adds nothing and the grouping loses nothing. */
  lemma DailyTableTotal(raw: seq<RawRow>, toDatetime: string -> Option<Timestamp>)
    ensures TotalSales(Preprocess(raw, toDatetime).revenueRaw) == TotalRevenue(Cleaned(raw, toDatetime))
  {
    var lines := Cleaned(raw, toDatetime);
    var t := Preprocess(raw, toDatetime).revenueRaw;
    DailyTableSpan(raw, toDatetime);
    DailyTableValues(raw, toDatetime);
    if t != [] {
      var first := t[0].date;
      TableTotal(t, lines, first);
      forall k | 0 <= k < |lines| ensures first <= DayOf(lines[k]) < first + |t| {
        assert DayOf(lines[k]) in DaysOf(lines);
      }
      SpanTotalCoversAll(lines, first, |t|);
    }
  }
}
