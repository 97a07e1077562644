/** The ledger of main.py: the append-only store behind `finance_data.csv`
    (class `CSV`), the range query with its totals (`get_transactions`), the
    two daily series that `plot_transactions` draws, and `add`, which fills a
    new row from the validators of data_entry.py. */
module Ledger {
  import opened Wrappers
  import opened Dates
  import opened DataEntry

  /** A stored row, its fields in the order of the header `COLUMNS`: date,
      amount, category, description. The date is the text that
      was written; nothing is checked when a row is appended. */
  datatype Row = Row(date: string, amount: real, category: string, description: string)

  /** A row as `get_transactions` loads it, with its date parsed. */
  datatype Entry = Entry(date: Date, amount: real, category: string, description: string)

  /** Why `get_transactions` fails: a store without the header row (pandas
      then finds no `date` column), a stored date that does not parse (at the
      position of the first such row), or a bound that does not parse. */
  datatype QueryError = MissingHeader | BadStoredDate(position: nat) | BadStartDate | BadEndDate

  /** The three figures of the summary. */
  datatype Totals = Totals(income: real, expense: real, net: real)

  /** What `get_transactions` returns, with the summary it prints: none when
      nothing is in range ("No transactions found in given range"). */
  datatype Query = Query(filtered: seq<Entry>, totals: Option<Totals>)

  /** The rows that `add` writes: a canonical date, a positive amount and one
      of the two labels. */
  predicate WellFormed(r: Row)
  {
    Canonical(r.date) && Parse(r.date).Some? && r.amount > 0.0 && (r.category == Income || r.category == Expense)
  }

  // ---------------------------------------------------------------- the store

  /** `finance_data.csv`: whether the file exists, whether it starts with the
      header, and its data rows in the order they were appended. */
  class Store {
    var fileExists: bool
    var headed: bool
    var rows: seq<Row>

    /** Only an existing file has a header or rows, and a file without the
        header was created by appending a row to a missing file. */
    ghost predicate Valid()
      reads this
    {
      (!fileExists ==> !headed && rows == []) && (fileExists && !headed ==> rows != [])
    }

    /** No file yet. */
    constructor ()
      ensures Valid() && !fileExists && !headed && rows == []
    {
      fileExists, headed, rows := false, false, [];
    }

    /** `initialize_csv`: a missing file is created holding only the header;
        an existing file is left as it is. */
    method InitializeCsv()
      requires Valid()
      modifies this
      ensures Valid() && fileExists
      ensures old(fileExists) ==> headed == old(headed) && rows == old(rows)
      ensures !old(fileExists) ==> headed && rows == []
    {
      if !fileExists {
        fileExists, headed, rows := true, true, [];
      }
    }

    /** `add_entry`: one row appended at the end, in append mode, so a missing
        file is created (without the header); earlier rows and the header are
        untouched. */
    method AddEntry(date: string, amount: real, category: string, description: string)
      requires Valid()
      modifies this
      ensures Valid() && fileExists
      ensures headed == old(headed)
      ensures rows == old(rows) + [Row(date, amount, category, description)]
    {
      fileExists := true;
      rows := rows + [Row(date, amount, category, description)];
    }

    /** `get_transactions(start_date, end_date)`. The file must exist: reading
        a missing one raises. */
    function GetTransactions(start: string, end: string): (r: Result<Query, QueryError>)
      reads this
      requires fileExists
      ensures !headed ==> r == Err(MissingHeader)
      ensures r.Ok? <==> headed && Load(rows).Ok? && Parse(start).Some? && Parse(end).Some?
      ensures headed && Load(rows).Err? ==> r == Err(Load(rows).error)
      ensures headed && Load(rows).Ok? && Parse(start).None? ==> r == Err(BadStartDate)
      ensures headed && Load(rows).Ok? && Parse(start).Some? && Parse(end).None? ==> r == Err(BadEndDate)
      ensures r.Ok? ==> forall e :: e in r.value.filtered <==>
                          e in Load(rows).value && InRange(e.date, Parse(start).value, Parse(end).value)
      ensures r.Ok? ==> (r.value.totals.None? <==> r.value.filtered == [])
      ensures r.Ok? && r.value.totals.Some? ==> r.value.totals.value.net ==
                                                 r.value.totals.value.income - r.value.totals.value.expense
    {
      if !headed then Err(MissingHeader)
      else
        match Load(rows)
        case Err(e) => Err(e)
        case Ok(entries) =>
          match (Parse(start), Parse(end))
          case (None, _) => Err(BadStartDate)
          case (Some(_), None) => Err(BadEndDate)
          case (Some(s), Some(t)) =>
            var filtered := Filter(entries, s, t);
            Ok(Query(filtered, if filtered == [] then None else Some(Summarize(filtered))))
    }
  }

  /** The row that `add()` builds: a date (today's on an empty line), an
      amount, a category and a description, each read by its validator from
      the lines the previous one left unread, and the lines still unread
      after the description. None when the input runs out first. */
  function NewRow(lines: seq<string>, today: Date, parseFloat: string -> Option<real>): (r: Option<DataEntry.Read<Row>>)
    requires Valid(today)
    ensures r.Some? <==>
              var date := DataEntry.GetDate(lines, true, today);
              date.Some? &&
              var amount := DataEntry.GetAmount(date.value.rest, parseFloat);
              amount.Some? &&
              var category := DataEntry.GetCategory(amount.value.rest);
              category.Some? && DataEntry.GetDescription(category.value.rest).Some?
    ensures r.Some? ==>
              var date := DataEntry.GetDate(lines, true, today).value;
              var amount := DataEntry.GetAmount(date.rest, parseFloat).value;
              var category := DataEntry.GetCategory(amount.rest).value;
              var description := DataEntry.GetDescription(category.rest).value;
              r.value == DataEntry.Read(Row(date.value, amount.value, category.value, description.value), description.rest)
    ensures r.Some? ==> WellFormed(r.value.value)
  {
    match DataEntry.GetDate(lines, true, today)
    case None => None
    case Some(date) =>
      match DataEntry.GetAmount(date.rest, parseFloat)
      case None => None
      case Some(amount) =>
        match DataEntry.GetCategory(amount.rest)
        case None => None
        case Some(category) =>
          match DataEntry.GetDescription(category.rest)
          case None => None
          case Some(description) =>
            Some(DataEntry.Read(Row(date.value, amount.value, category.value, description.value), description.rest))
  }

  /** `add()`: initialise the store, read a date (today's by default), an
      amount, a category and a description, and append them as one row. When
      the input runs out first, nothing is appended. */
  method Add(store: Store, lines: seq<string>, today: Date, parseFloat: string -> Option<real>)
    returns (rest: Option<seq<string>>)
    requires store.Valid() && Valid(today)
    modifies store
    ensures store.Valid() && store.fileExists
    ensures store.headed == (old(store.headed) || !old(store.fileExists))
    ensures rest.Some? <==> NewRow(lines, today, parseFloat).Some?
    ensures rest.None? ==> store.rows == old(store.rows)
    ensures rest.Some? ==> store.rows == old(store.rows) + [NewRow(lines, today, parseFloat).value.value] &&
                           rest.value == NewRow(lines, today, parseFloat).value.rest
  {
    store.InitializeCsv();
    rest := None;
    var date := DataEntry.GetDate(lines, true, today);
    if date.None? { return; }
    var amount := DataEntry.GetAmount(date.value.rest, parseFloat);
    if amount.None? { return; }
    var category := DataEntry.GetCategory(amount.value.rest);
    if category.None? { return; }
    var description := DataEntry.GetDescription(category.value.rest);
    if description.None? { return; }
    var row := Row(date.value.value, amount.value.value, category.value.value, description.value.value);
    assert NewRow(lines, today, parseFloat) == Some(DataEntry.Read(row, description.value.rest));
    store.AddEntry(row.date, row.amount, row.category, row.description);
    rest := Some(description.value.rest);
  }

  // ---------------------------------------------------------------- loading

  /** `pd.to_datetime(df["date"], format=FORMAT)` over the stored rows: every
      date must parse, and the first one that does not is reported. */
  function Load(rows: seq<Row>): (r: Result<seq<Entry>, QueryError>)
    ensures r.Ok? <==> forall i :: 0 <= i < |rows| ==> Parse(rows[i].date).Some?
    ensures r.Ok? ==> |r.value| == |rows| &&
                      forall i :: 0 <= i < |rows| ==>
                        r.value[i] == Entry(Parse(rows[i].date).value, rows[i].amount, rows[i].category, rows[i].description)
    ensures r.Err? ==> r.error.BadStoredDate? && r.error.position < |rows| &&
                       Parse(rows[r.error.position].date).None? &&
                       forall i :: 0 <= i < r.error.position ==> Parse(rows[i].date).Some?
  {
    if rows == [] then Ok([])
    else
      var n := |rows| - 1;
      assert forall i :: 0 <= i < n ==> rows[..n][i] == rows[i];
      match Load(rows[..n])
      case Err(e) => Err(e)
      case Ok(es) =>
        match Parse(rows[n].date)
        case None => Err(BadStoredDate(n))
        case Some(d) =>
          var last := Entry(d, rows[n].amount, rows[n].category, rows[n].description);
          assert forall i :: 0 <= i < n ==> (es + [last])[i] == es[i];
          Ok(es + [last])
  }

  /** A row appended to a loadable store loads back as itself, its date text
      parsed: the date round-trips through the fixed format. */
  lemma {:induction false} LoadAppended(rows: seq<Row>, date: Date, amount: real, category: string, description: string)
    requires Load(rows).Ok? && Valid(date)
    ensures Load(rows + [Row(Format(date), amount, category, description)]) ==
            Ok(Load(rows).value + [Entry(date, amount, category, description)])
  {
    var all := rows + [Row(Format(date), amount, category, description)];
    assert all[..|rows|] == rows;
    ParseFormat(date);
  }

  /** A store holding only well-formed rows always loads. */
  lemma WellFormedLoads(rows: seq<Row>)
    requires forall i :: 0 <= i < |rows| ==> WellFormed(rows[i])
    ensures Load(rows).Ok?
    ensures forall i :: 0 <= i < |rows| ==> Load(rows).value[i].amount > 0.0
  {
  }

  // ---------------------------------------------------------------- filtering

  /** The mask of `get_transactions`: both ends inclusive. */
  predicate InRange(d: Date, start: Date, end: Date)
    ensures InRange(d, start, end) ==> Le(start, end)
  {
    Le(start, d) && Le(d, end)
  }

  /** `df.loc[mask]`: the entries in range, in their original order. */
  function Filter(es: seq<Entry>, start: Date, end: Date): (r: seq<Entry>)
    ensures |r| <= |es|
    ensures forall e :: e in r <==> e in es && InRange(e.date, start, end)
  {
    if es == [] then []
    else
      var n := |es| - 1;
      Filter(es[..n], start, end) + (if InRange(es[n].date, start, end) then [es[n]] else [])
  }

  /** The positions the mask selects, in increasing order. */
  function KeptIndices(es: seq<Entry>, start: Date, end: Date): (ks: seq<nat>)
    ensures forall k :: 0 <= k < |ks| ==> ks[k] < |es|
    ensures forall k, l :: 0 <= k < l < |ks| ==> ks[k] < ks[l]
    ensures forall i :: 0 <= i < |es| ==> (i in ks <==> InRange(es[i].date, start, end))
  {
    if es == [] then []
    else
      var n := |es| - 1;
      KeptIndices(es[..n], start, end) + (if InRange(es[n].date, start, end) then [n] else [])
  }

  /** The filtered table is the subsequence of the ledger at exactly the
      positions in range: an order-preserving selection, not a sort. */
  lemma {:induction false} FilterIsSelection(es: seq<Entry>, start: Date, end: Date)
    ensures var r, ks := Filter(es, start, end), KeptIndices(es, start, end);
            |r| == |ks| && forall k :: 0 <= k < |ks| ==> r[k] == es[ks[k]]
  {
    if es != [] {
      var n := |es| - 1;
      FilterIsSelection(es[..n], start, end);
    }
  }

  /** A range whose start is after its end selects nothing. */
  lemma EmptyRange(es: seq<Entry>, start: Date, end: Date)
    requires !Le(start, end)
    ensures Filter(es, start, end) == []
  {
  }

  /** The table `get_transactions` returns is the loaded ledger at exactly
      the positions in range, in ledger order, and the summary is printed for
      it whenever it is not empty. */
  lemma GetTransactionsSelects(store: Store, start: string, end: string)
    requires store.fileExists && store.GetTransactions(start, end).Ok?
    ensures var q, es := store.GetTransactions(start, end).value, Load(store.rows).value;
            var ks := KeptIndices(es, Parse(start).value, Parse(end).value);
            |q.filtered| == |ks| && (forall k :: 0 <= k < |ks| ==> q.filtered[k] == es[ks[k]]) &&
            (q.filtered != [] ==> q.totals == Some(Summarize(q.filtered)))
  {
    FilterIsSelection(Load(store.rows).value, Parse(start).value, Parse(end).value);
  }

  /** With the start after the end, `get_transactions` finds nothing and
      computes no totals. */
  lemma EmptyRangeQuery(store: Store, start: string, end: string)
    requires store.fileExists && store.headed && Load(store.rows).Ok?
    requires Parse(start).Some? && Parse(end).Some? && !Le(Parse(start).value, Parse(end).value)
    ensures store.GetTransactions(start, end) == Ok(Query([], None))
  {
  }

  // ---------------------------------------------------------------- totals

  /** `df[df["category"] == category]["amount"].sum()`: zero when no entry matches. */
  function SumOf(es: seq<Entry>, category: string): (s: real)
    ensures (forall i :: 0 <= i < |es| ==> es[i].category != category) ==> s == 0.0
    ensures (forall i :: 0 <= i < |es| ==> es[i].amount >= 0.0) ==> s >= 0.0
  {
    if es == [] then 0.0
    else
      var n := |es| - 1;
      assert forall i :: 0 <= i < n ==> es[..n][i] == es[i];
      SumOf(es[..n], category) + (if es[n].category == category then es[n].amount else 0.0)
  }

  /** The summary of `get_transactions`. */
  function Summarize(es: seq<Entry>): (t: Totals)
    ensures t.net == t.income - t.expense
    ensures (forall i :: 0 <= i < |es| ==> es[i].amount >= 0.0) ==> t.income >= 0.0 && t.expense >= 0.0
  {
    var income := SumOf(es, Income);
    var expense := SumOf(es, Expense);
    Totals(income, expense, income - expense)
  }

  lemma {:induction false} SumOfAppend(a: seq<Entry>, b: seq<Entry>, category: string)
    ensures SumOf(a + b, category) == SumOf(a, category) + SumOf(b, category)
  {
    if b != [] {
      var n := |b| - 1;
      assert (a + b)[..|a + b| - 1] == a + b[..n];
      assert (a + b)[|a + b| - 1] == b[n];
      SumOfAppend(a, b[..n], category);
    } else {
      assert a + b == a;
    }
  }

  /** An entry whose label is neither `Income` nor `Expense` counts toward
      neither total. */
  lemma OtherCategoryIgnored(a: seq<Entry>, e: Entry, b: seq<Entry>)
    requires e.category != Income && e.category != Expense
    ensures Summarize(a + [e] + b) == Summarize(a + b)
  {
    SumOfAppend(a + [e], b, Income);
    SumOfAppend(a + [e], b, Expense);
    SumOfAppend(a, [e], Income);
    SumOfAppend(a, [e], Expense);
    SumOfAppend(a, b, Income);
    SumOfAppend(a, b, Expense);
    assert [e][..0] == [];
  }

  /** The sum of all amounts. */
  function Total(es: seq<Entry>): (s: real)
  {
    if es == [] then 0.0 else Total(es[..|es| - 1]) + es[|es| - 1].amount
  }

  /** When every label is one of the two and every amount is positive, the
      totals are not negative and together they account for every amount. */
  lemma {:induction false} TotalsPartition(es: seq<Entry>)
    requires forall i :: 0 <= i < |es| ==> (es[i].category == Income || es[i].category == Expense) && es[i].amount > 0.0
    ensures Summarize(es).income >= 0.0 && Summarize(es).expense >= 0.0
    ensures Summarize(es).income + Summarize(es).expense == Total(es)
  {
    if es != [] {
      TotalsPartition(es[..|es| - 1]);
    }
  }

  // ---------------------------------------------------------------- daily series

  /** The amounts of one category on one day: one cell of the resampled frame. */
  function DaySum(es: seq<Entry>, category: string, d: Date): (s: real)
  {
    if es == [] then 0.0
    else
      var n := |es| - 1;
      DaySum(es[..n], category, d) + (if es[n].category == category && es[n].date == d then es[n].amount else 0.0)
  }

  /** `df[df["category"] == category].resample("D").sum()` as a map from day to
      the summed amount. Days between the first and the last that carry no
      such entry are left out rather than held at zero: the reindexing below
      fills them with zero either way. */
  function Resample(es: seq<Entry>, category: string): (m: map<Date, real>)
    ensures forall d :: d in m <==> exists i :: 0 <= i < |es| && es[i].date == d && es[i].category == category
  {
    if es == [] then map[]
    else
      var n := |es| - 1;
      var m := Resample(es[..n], category);
      assert forall i :: 0 <= i < n ==> es[..n][i] == es[i];
      if es[n].category == category then
        m[es[n].date := (if es[n].date in m then m[es[n].date] else 0.0) + es[n].amount]
      else m
  }

  lemma {:induction false} ResampleSums(es: seq<Entry>, category: string, d: Date)
    ensures d in Resample(es, category) ==> Resample(es, category)[d] == DaySum(es, category, d)
    ensures d !in Resample(es, category) ==> DaySum(es, category, d) == 0.0
  {
    if es != [] {
      ResampleSums(es[..|es| - 1], category, d);
    }
  }

  /** At each row's own day, the resampled map holds that day's sum, or lacks
      the day and the sum is zero. */
  lemma ResampleRows(es: seq<Entry>, category: string)
    ensures var m := Resample(es, category);
            forall i :: 0 <= i < |es| ==>
              (if es[i].date in m then m[es[i].date] else 0.0) == DaySum(es, category, es[i].date)
  {
    forall i | 0 <= i < |es| {
      ResampleSums(es, category, es[i].date);
    }
  }

  /** `reindex(index, fill_value=0)`: one value per index position, zero for a
      day the map does not hold. */
  function Reindex(m: map<Date, real>, index: seq<Date>): (r: seq<real>)
    ensures |r| == |index|
    ensures forall i :: 0 <= i < |index| && index[i] in m ==> r[i] == m[index[i]]
    ensures forall i :: 0 <= i < |index| && index[i] !in m ==> r[i] == 0.0
  {
    seq(|index|, i requires 0 <= i < |index| => if index[i] in m then m[index[i]] else 0.0)
  }

  /** `set_index('date')`: the table's own dates, in table order, with repeats. */
  function DateIndex(es: seq<Entry>): (index: seq<Date>)
    ensures |index| == |es| && forall i :: 0 <= i < |es| ==> index[i] == es[i].date
  {
    seq(|es|, i requires 0 <= i < |es| => es[i].date)
  }

  /** The series of one category in `plot_transactions`. */
  function DailySeries(es: seq<Entry>, category: string): (series: seq<real>)
    ensures |series| == |es|
    ensures forall i :: 0 <= i < |es| ==> series[i] == DaySum(es, category, es[i].date)
  {
    ResampleRows(es, category);
    Reindex(Resample(es, category), DateIndex(es))
  }


  /** The Income and Expense series that `plot_transactions` draws. */
  datatype Plot = Plot(income: seq<real>, expense: seq<real>)

  function PlotSeries(filtered: seq<Entry>): (p: Plot)
    ensures |p.income| == |filtered| && |p.expense| == |filtered|
  {
    Plot(DailySeries(filtered, Income), DailySeries(filtered, Expense))
  }

  /** Both series have one value per row of the filtered table, and position
      `i` holds that category's amounts on row `i`'s day, or zero. */
  lemma PlotSeriesAt(filtered: seq<Entry>, i: int)
    requires 0 <= i < |filtered|
    ensures |PlotSeries(filtered).income| == |PlotSeries(filtered).expense| == |filtered|
    ensures PlotSeries(filtered).income[i] == DaySum(filtered, Income, filtered[i].date)
    ensures PlotSeries(filtered).expense[i] == DaySum(filtered, Expense, filtered[i].date)
  {
  }

  /** Two entries two days apart: the series are indexed by the two table
      dates only, not by the calendar days between them. */
  lemma PlotSeriesExample()
    ensures var salary := Entry(Date(1, 3, 2024), 100.0, Income, "salary");
            var food := Entry(Date(3, 3, 2024), 20.0, Expense, "food");
            PlotSeries([salary, food]) == Plot([100.0, 0.0], [0.0, 20.0])
  {
    var salary := Entry(Date(1, 3, 2024), 100.0, Income, "salary");
    var food := Entry(Date(3, 3, 2024), 20.0, Expense, "food");
    var es := [salary, food];
    assert es[..|es| - 1] == [salary] && [salary][..0] == [];
    assert Income != Expense by { assert Income[0] != Expense[0]; }
    assert salary.date != food.date;
    PlotSeriesAt(es, 0);
    PlotSeriesAt(es, 1);
    assert DaySum([salary], Income, salary.date) == 100.0 && DaySum([salary], Income, food.date) == 0.0;
    assert DaySum([salary], Expense, salary.date) == 0.0 && DaySum([salary], Expense, food.date) == 0.0;
    assert DaySum(es, Income, salary.date) == 100.0 && DaySum(es, Income, food.date) == 0.0;
    assert DaySum(es, Expense, salary.date) == 0.0 && DaySum(es, Expense, food.date) == 20.0;
    var p := PlotSeries(es);
    assert p.income == [100.0, 0.0] && p.expense == [0.0, 20.0];
  }
}
