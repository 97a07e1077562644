/** The input validators of data_entry.py. Each reads a line, and on an
    unacceptable line reports it and asks again (by recursing). The model
    abstracts the terminal as the list of lines the user will type: a
    validator's result is the value for the first acceptable line together
    with the lines not yet read, or None when the lines run out before an
    acceptable one (the program would wait for more input). */
module DataEntry {
  import opened Wrappers
  import opened Dates

  /** A value read from the input, and the input lines still unread. */
  datatype Read<T> = Read(value: T, rest: seq<string>)

  /** Line `i` is the first line that `accept` takes. */
  predicate FirstAcceptedAt<T>(lines: seq<string>, accept: string -> Option<T>, i: int)
  {
    0 <= i < |lines| && accept(lines[i]).Some? && forall j :: 0 <= j < i ==> accept(lines[j]).None?
  }

  /** The retry-until-valid pattern of the validators: each line is tried in
      turn, a rejected line leads to a fresh attempt on the next one. */
  function Retry<T(==)>(lines: seq<string>, accept: string -> Option<T>): (r: Option<Read<T>>)
    ensures r.None? <==> forall i :: 0 <= i < |lines| ==> accept(lines[i]).None?
    ensures r.Some? ==> exists i :: FirstAcceptedAt(lines, accept, i) &&
                                   accept(lines[i]) == Some(r.value.value) && r.value.rest == lines[i + 1..]
    decreases |lines|
  {
    if lines == [] then None
    else
      match accept(lines[0])
      case Some(v) => Some(Read(v, lines[1..]))
      case None =>
        var r := Retry(lines[1..], accept);
        assert forall i :: 1 <= i < |lines| ==> lines[i] == lines[1..][i - 1];
        if r.Some? then
          var k :| FirstAcceptedAt(lines[1..], accept, k) &&
                   accept(lines[1..][k]) == Some(r.value.value) && r.value.rest == lines[1..][k + 1..];
          assert lines[k + 2..] == lines[1..][k + 1..];
          assert FirstAcceptedAt(lines, accept, k + 1);
          r
        else
          r
  }

  // ---------------------------------------------------------------- get_date

  /** One attempt of `get_date`: the empty line means today when the default is
      allowed; otherwise the line must parse as `%d-%m-%Y`, and the result is
      the date printed back in that format. */
  function DateAnswer(line: string, allowDefault: bool, today: Date): (r: Option<string>)
    requires Valid(today)
    ensures r.Some? <==> (allowDefault && line == []) || Parse(line).Some?
    ensures r.Some? ==> Canonical(r.value) && Parse(r.value).Some?
    ensures allowDefault && line == [] ==> r == Some(Format(today))
    ensures r.Some? && line != [] ==> Parse(r.value) == Parse(line)
  {
    if allowDefault && line == [] then
      ParseFormat(today);
      Some(Format(today))
    else
      match Parse(line)
      case Some(d) =>
        ParseFormat(d);
        Some(Format(d))
      case None => None
  }

  /** `get_date(prompt, allow_default)`; `today` is the clock's date. */
  function GetDate(lines: seq<string>, allowDefault: bool, today: Date): (r: Option<Read<string>>)
    requires Valid(today)
    ensures r.Some? ==> Canonical(r.value.value) && Parse(r.value.value).Some?
    ensures r.Some? ==> exists i :: 0 <= i < |lines| && r.value.rest == lines[i + 1..] &&
                                   DateAnswer(lines[i], allowDefault, today) == Some(r.value.value) &&
                                   forall j :: 0 <= j < i ==> DateAnswer(lines[j], allowDefault, today).None?
    ensures r.None? <==> forall i :: 0 <= i < |lines| ==> DateAnswer(lines[i], allowDefault, today).None?
  {
    Retry(lines, line => DateAnswer(line, allowDefault, today))
  }

  /** Feeding a date that `get_date` returned (canonical text of a valid
      date, by its contract) back into it returns the same text: the
      normalisation through `strptime` and `strftime` is idempotent. */
  lemma GetDateIdempotent(x: string, allowDefault: bool, today: Date, more: seq<string>)
    requires Valid(today) && Canonical(x) && Parse(x).Some?
    ensures GetDate([x] + more, allowDefault, today) == Some(Read(x, more))
  {
    FormatParse(x);
    assert DateAnswer(x, allowDefault, today) == Some(x);
    assert ([x] + more)[1..] == more;
  }

  /** With the default allowed, an empty first line gives today's date. */
  lemma GetDateDefault(lines: seq<string>, today: Date)
    requires Valid(today) && |lines| > 0 && lines[0] == []
    ensures GetDate(lines, true, today) == Some(Read(Format(today), lines[1..]))
  {
  }

  // ---------------------------------------------------------------- get_amount

  /** One attempt of `get_amount`: `float()` of the line (a parameter, None
      when it raises), refused unless greater than zero. */
  function AmountAnswer(line: string, parseFloat: string -> Option<real>): (r: Option<real>)
    ensures r.Some? <==> parseFloat(line).Some? && parseFloat(line).value > 0.0
    ensures r.Some? ==> r.value == parseFloat(line).value
  {
    match parseFloat(line)
    case None => None
    case Some(x) => if x <= 0.0 then None else Some(x)
  }

  /** `get_amount()`: the first line that is a number greater than zero. */
  function GetAmount(lines: seq<string>, parseFloat: string -> Option<real>): (r: Option<Read<real>>)
    ensures r.Some? ==> r.value.value > 0.0
    ensures r.Some? ==> exists i :: 0 <= i < |lines| && r.value.rest == lines[i + 1..] &&
                                   parseFloat(lines[i]) == Some(r.value.value) &&
                                   forall j :: 0 <= j < i ==> AmountAnswer(lines[j], parseFloat).None?
    ensures r.None? <==> forall i :: 0 <= i < |lines| ==> AmountAnswer(lines[i], parseFloat).None?
  {
    Retry(lines, line => AmountAnswer(line, parseFloat))
  }

  // ---------------------------------------------------------------- get_category

  /** The two category labels: what a new row's category is, and what the
      totals and the daily series of the ledger look for. */
  const Income := "Income"
  const Expense := "Expense"

  /** `CATEGORIES`: the one-letter codes and the labels they stand for. */
  const Categories: map<string, string> := map["I" := Income, "E" := Expense]

  /** `str.upper` on one character: ASCII letters, and the dotless i (U+0131),
      whose upper case is `I`; other characters are left as they are. */
  function UpperChar(c: char): (u: char)
    ensures u == 'I' <==> c == 'I' || c == 'i' || c == 'ı'
    ensures u == 'E' <==> c == 'E' || c == 'e'
  {
    if 'a' <= c <= 'z' then (c as int - 'a' as int + 'A' as int) as char
    else if c == 'ı' then 'I'
    else c
  }

  function Upper(s: string): (u: string)
    ensures |u| == |s|
    ensures forall i :: 0 <= i < |s| ==> u[i] == UpperChar(s[i])
  {
    if s == [] then [] else [UpperChar(s[0])] + Upper(s[1..])
  }

  /** One attempt of `get_category`: the upper-cased line looked up in
      `Categories`. Case does not matter, and nothing else is accepted. */
  function CategoryAnswer(line: string): (r: Option<string>)
    ensures r.Some? ==> r.value == Income || r.value == Expense
    ensures r == Some(Income) <==> line == "I" || line == "i" || line == "ı"
    ensures r == Some(Expense) <==> line == "E" || line == "e"
  {
    var u := Upper(line);
    assert |line| == 1 ==> u == [UpperChar(line[0])] && line == [line[0]];
    if u in Categories then Some(Categories[u]) else None
  }

  /** `get_category()`: the label of the first line that is a category code. */
  function GetCategory(lines: seq<string>): (r: Option<Read<string>>)
    ensures r.Some? ==> r.value.value == Income || r.value.value == Expense
    ensures r.Some? ==> exists i :: 0 <= i < |lines| && r.value.rest == lines[i + 1..] &&
                                   CategoryAnswer(lines[i]) == Some(r.value.value) &&
                                   forall j :: 0 <= j < i ==> CategoryAnswer(lines[j]).None?
    ensures r.None? <==> forall i :: 0 <= i < |lines| ==> CategoryAnswer(lines[i]).None?
  {
    Retry(lines, CategoryAnswer)
  }

  // ---------------------------------------------------------------- get_description

  /** `get_description()`: the next line as typed, possibly empty. */
  function GetDescription(lines: seq<string>): (r: Option<Read<string>>)
    ensures r.None? <==> lines == []
    ensures r.Some? ==> r.value == Read(lines[0], lines[1..])
  {
    Retry(lines, line => Some(line))
  }
}
