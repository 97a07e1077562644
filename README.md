# Personal finance ledger — a Dafny model

This project models the core of a small personal finance tracker: an
append-only ledger of dated income and expense entries kept in
`finance_data.csv`, the range query that prints the entries between two dates
with their income, expense and net totals, the two daily series that are
plotted for such a range, and the input validators that produce a new entry
(a `dd-mm-yyyy` date, a positive amount, an `I`/`E` category code, a free-text
description).

Four modules, one file each:

- `Wrappers` (`wrappers.dfy`): `Option` and `Result`, used where the program
  raises.
- `Dates` (`dates.dfy`): calendar dates as `(day, month, year)` values with
  Gregorian validity (leap years included), chronological order, and the
  `%d-%m-%Y` text: `Parse` follows `strptime` (one- or two-digit day and month,
  a space before a one-digit day, exactly four year digits, the whole text
  consumed), `Format` follows `strftime` (zero-padded). Proved: the round trip
  both ways, rejection of text without a separator, of a month above 12, of a
  day past the end of its month, and of 29 February outside leap years.
- `DataEntry` (`data_entry.dfy`): `get_date`, `get_amount`, `get_category`,
  `get_description`. The terminal is a list of lines; each validator returns
  the value for the first acceptable line and the lines still unread. The
  retry-by-recursion shared by the validators is one function, `Retry`, whose
  contract says the result comes from the first acceptable line and that it
  fails only when no line is acceptable. The clock (`datetime.today()`) and
  `float()` are parameters.
- `Ledger` (`ledger.dfy`): the store as a class whose fields are the file
  (`fileExists`, `headed`, `rows`) with `InitializeCsv` and `AddEntry` changing
  them in place; `GetTransactions` as a function reading the store; the
  loading, filtering, totals and series as functions over sequences; and
  `add()` as a method composing the validators with the store.

Behaviour the model takes from the code:

- Querying a store whose file is missing raises (`pd.read_csv` on a missing
  file), so `GetTransactions` requires the file to exist.
- The daily series are reindexed over the filtered table's own date column:
  in table order, with repeats, one value per row; `PlotSeriesExample` shows
  two entries two days apart giving two-element series.
- `add_entry` checks nothing, so a stored category may be any text; the totals
  count only the exact labels `Income` and `Expense`.
- `add_entry` writes in append mode, so on a missing file it creates a file
  without the header; the model keeps a `headed` flag for that case.

## Model

| member | source | states |
|---|---|---|
| Dates.DaysInMonth | data_entry.py:19 | every month has 28 to 31 days, and February has 29 exactly in leap years |
| Dates.DayField | data_entry.py:19 | a day read by `%d` is between 1 and 31 |
| Dates.DayFieldReads | data_entry.py:19 | `%d` reads text as day n exactly when 1 <= n <= 31 and the text is n as two digits or, for n <= 9, as one digit or a space and one digit |
| Dates.MonthField | data_entry.py:19 | a month read by `%m` is between 1 and 12 |
| Dates.MonthFieldReads | data_entry.py:19 | `%m` reads text as month n exactly when 1 <= n <= 12 and the text is n as two digits or, for n <= 9, as one digit (no leading space) |
| Dates.YearField | data_entry.py:19 | a year read by `%Y` is between 0 and 9999 |
| Dates.YearFieldReads | data_entry.py:19 | `%Y` reads text as year n exactly when 0 <= n <= 9999 and the text is n as four zero-padded digits |
| Dates.Parse | data_entry.py:19 | whatever `strptime` accepts is a valid Gregorian date |
| Dates.Format | data_entry.py:20 | `strftime` output is canonical: ten characters, zero-padded digit pairs, four-digit year, `-` at positions 2 and 5 |
| Dates.ParseFormat | data_entry.py:19-20 | formatting a valid date and parsing the text gives the same date back |
| Dates.FormatParse | data_entry.py:19-20 | canonical text that parses is exactly the format of its date, so normalising it changes nothing |
| Dates.ParseCanonical | data_entry.py:18-19 | on canonical text, parsing succeeds exactly when the day, month and year read from it form a valid date |
| Dates.NoSeparatorRejected | data_entry.py:18-22 | text without a `-` (a wrong separator) never parses |
| Dates.LeapDay | data_entry.py:18-22 | `29-02-yyyy` parses if and only if the year is a leap year |
| Dates.RejectsBadMonth | data_entry.py:18-22 | canonical text whose month is above 12 is rejected |
| Dates.RejectsDayPastMonthEnd | data_entry.py:18-22 | canonical text whose day is past the end of its month (31 April, 30 February) is rejected |
| Dates.AcceptsShortFields | data_entry.py:19 | a valid date with day and month below 10, written with a one-digit day (or a space and a digit) and a one-digit month, parses to that date |
| Dates.AcceptsOneDigitFields | data_entry.py:19 | `1-3-2024` is accepted as 1 March 2024 |
| Dates.FormatPadsFields | data_entry.py:20 | 1 March 2024 is written `01-03-2024` |
| Dates.LeTotalOrder | main.py:51 | the date comparison is a total order |
| DataEntry.Retry | data_entry.py:21-23 | a retrying validator fails only when no line is acceptable; otherwise its value is that of the first acceptable line, every earlier line was rejected, and reading resumes after it |
| DataEntry.DateAnswer | data_entry.py:14-20 | one `get_date` attempt succeeds exactly on an empty line with the default allowed (giving today's date) or a parsable line, and then returns canonical text naming the same date |
| DataEntry.GetDate | data_entry.py:10-23 | `get_date` returns the canonical text of the first acceptable line, having rejected every earlier one |
| DataEntry.GetDateIdempotent | data_entry.py:19-20 | feeding canonical date text, which is what `get_date` returns, back into it returns the same text and reads one line |
| DataEntry.GetDateDefault | data_entry.py:14-15 | with the default allowed, an empty line gives today's date as `dd-mm-yyyy` |
| DataEntry.AmountAnswer | data_entry.py:29-33 | one `get_amount` attempt succeeds exactly when the line parses as a number greater than zero, and returns that number |
| DataEntry.GetAmount | data_entry.py:26-37 | `get_amount` returns only amounts greater than zero: the number of the first line that parses to one, unparsable and non-positive lines before it rejected |
| DataEntry.UpperChar | data_entry.py:42 | a character upper-cases to `I` exactly when it is `I`, `i` or the dotless `ı`, and to `E` exactly when it is `E` or `e` |
| DataEntry.Upper | data_entry.py:42 | upper-casing keeps the length and maps each character on its own |
| DataEntry.Categories | data_entry.py:4-7 | the code `I` stands for the label `Income` and `E` for `Expense`; `CategoryAnswer` states which lines reach them |
| DataEntry.CategoryAnswer | data_entry.py:42-44 | a line maps through `CATEGORIES` to `Income` exactly when it is `I`, `i` or `ı`, to `Expense` exactly when it is `E` or `e`, and is rejected otherwise |
| DataEntry.GetCategory | data_entry.py:40-48 | `get_category` returns only `Income` or `Expense`, the label of the first line that is a category code |
| DataEntry.GetDescription | data_entry.py:51-52 | `get_description` returns the next line unchanged, possibly empty |
| Ledger.Store.InitializeCsv | main.py:17-23 | a missing file becomes a header-only store with no rows; an existing store is left unchanged, so a second call does nothing |
| Ledger.Store.AddEntry | main.py:25-38 | exactly one row, the given fields in column order, is appended at the end; earlier rows and the header are unchanged |
| Ledger.Store.GetTransactions | main.py:41-68 | fails on a missing header, an unparsable stored date, start or end, in that order; otherwise keeps an entry exactly when `start <= date <= end`, and gives totals exactly when something is kept, with net = income - expense |
| Ledger.NewRow | main.py:70-77 | the row `add()` builds exists exactly when the date, amount, category and description validators each succeed in turn on the lines the previous one left; its fields are their four values, the lines left are those the description leaves, and the row has a canonical date, a positive amount and the label `Income` or `Expense` |
| Ledger.Add | main.py:70-77 | `add()` leaves an existing store with a header; it appends exactly the row that the validators produce, and only when all four succeed, returning the unread lines; otherwise the rows are unchanged |
| Ledger.Load | main.py:43-45 | in the model (without pandas' timestamp range), loading succeeds exactly when every stored date parses, keeps the rows in order with their dates parsed, and otherwise reports the first bad row |
| Ledger.LoadAppended | main.py:36-45 | a row appended with a formatted date loads back as the same entry after all earlier ones |
| Ledger.WellFormedLoads | main.py:43-45 | in the model, a store written only through `add()` always loads, with positive amounts; pandas itself guarantees this only for dates from 22-09-1677 to 11-04-2262 |
| Ledger.InRange | main.py:51 | the mask keeps a date when it lies between both bounds inclusive, which can only happen when the start is not after the end |
| Ledger.Filter | main.py:51-52 | an entry is in the filtered table exactly when it is in the ledger and its date is within both inclusive bounds |
| Ledger.KeptIndices | main.py:51 | the mask selects, in increasing order, exactly the positions whose date is in range |
| Ledger.FilterIsSelection | main.py:51-52 | the filtered table is the ledger at the selected positions, in ledger order |
| Ledger.GetTransactionsSelects | main.py:51-62 | the returned table is the loaded ledger at exactly the in-range positions, in order, and is summarised whenever it is not empty |
| Ledger.EmptyRange | main.py:51-52 | a start after the end selects nothing |
| Ledger.EmptyRangeQuery | main.py:51-55 | a start after the end gives an empty table and no totals |
| Ledger.OtherCategoryIgnored | main.py:61-62 | an entry labelled neither `Income` nor `Expense` changes neither total |
| Ledger.SumOf | main.py:61-62 | the sum of one label's amounts: zero when no entry carries the label, never negative when no amount is; `SumOfAppend` splits it over concatenation |
| Ledger.SumOfAppend | main.py:61-62 | the sum of a label over two tables placed one after the other is the sum of the two sums |
| Ledger.Summarize | main.py:61-67 | per-label sums with net = income - expense, and non-negative totals when no amount is negative; `OtherCategoryIgnored` and `TotalsPartition` state its further properties |
| Ledger.TotalsPartition | main.py:61-67 | when every label is `Income` or `Expense` and every amount is positive, both totals are non-negative and add up to the sum of all amounts |
| Ledger.Resample | main.py:84-94 | the days the resampled frame of a label holds are exactly the days of the entries carrying that label; `ResampleSums` states the sums it holds |
| Ledger.ResampleSums | main.py:84-87 | the per-day resampled sum of a category is the sum of that category's amounts on that day, and a day absent from it has none |
| Ledger.ResampleRows | main.py:84-88 | at every row's own day, the resampled map holds that day's sum of the label, or lacks the day and the sum is zero |
| Ledger.Reindex | main.py:88 | reindexing gives one value per index position: the map's value for that day, or 0 (`fill_value=0`) for a day the map does not hold |
| Ledger.DateIndex | main.py:80 | `set_index('date')` gives one index entry per row, row i's date at position i, in table order with repeats |
| Ledger.DailySeries | main.py:84-96 | one label's series has one value per row, and position i is the sum of that label's amounts on row i's day, or zero |
| Ledger.PlotSeries | main.py:84-96 | the income and expense series are both as long as the filtered table; `PlotSeriesAt` states their values |
| Ledger.PlotSeriesAt | main.py:79-96 | both series have one value per filtered row, and position i holds the sum of that category's amounts on row i's day, or zero |
| Ledger.PlotSeriesExample | main.py:79-96 | income 100 on 1 March and expense 20 on 3 March give the series [100, 0] and [0, 20], with no value for 2 March |

## Left out

- Terminal input and output: every `print`, the prompts, and the menu loop `main` (main.py:119-138). Input is a list of lines; when the lines run out before an acceptable one, a validator returns `None` where the program would wait for more input.
- The matplotlib calls (main.py:98-117), which only draw the two series.
- The exact CSV bytes written by `csv.DictWriter` (quoting, the text of a float) and the type inference of `pd.read_csv`: a row is a four-field value. In particular pandas reads an empty or `NA` date field as a missing date that is silently excluded from every range; the model treats it as an unparsable date.
- The non-numeric columns of `resample("D").sum()` (main.py:86-87, 93-94); only `amount` is modelled. The days between the first and last of a category that `resample` fills with zero are left out of the map, which gives the same series after `reindex(..., fill_value=0)`.
- The in-place `set_index('date', inplace=True)` (main.py:80) acts on the filtered copy only; it is modelled as taking the date column as the index.
- Floating point: amounts are exact reals, so sums have no rounding. `float()` is a parameter of `GetAmount` and its accepted syntax is not modelled; the source's guard `amount <= 0` lets `nan` through, which the model cannot express.
- The `£` two-decimal display of the totals and the `to_string` table layout (main.py:57-58, 65-67).
- The clock: `datetime.today()` (data_entry.py:15) is the parameter `today`.
- Storage failures (disk full, permission denied) while writing the file.
- Dates.Parse: rejects the years 0001 to 0999, which `strptime` accepts (it rejects 0000 itself) but whose `%Y` output is platform dependent; ASCII digits only, where Python's `\d` also matches other Unicode digits.
- DataEntry.Retry: the validators retry by recursion (data_entry.py:23, 37, 48), so CPython raises `RecursionError` after about a thousand rejected lines in a row; `Retry` accepts after any number of rejections.
- Ledger.Load: `pd.to_datetime` (main.py:45) in pandas before 3.0 parses at nanosecond resolution and raises `OutOfBoundsDatetime` for a date before 22-09-1677 or after 11-04-2262, although `get_date` accepts and `add()` stores such dates; the model's `Load` accepts every date `Parse` reads, so `WellFormedLoads` holds for the model and for pandas only within that range.
- DataEntry.UpperChar: upper-cases ASCII letters and the dotless `ı` only; other characters are kept as they are, which does not change which lines `get_category` accepts.
- Ledger.Store.GetTransactions: requires the file to exist, because reading a missing file raises. On a store without the header it returns `MissingHeader`; pandas would take the first data row as the header, so this differs only if that row's date text were literally `date`.
