/** The entities of the transaction service: a stored transaction, the dates it
    carries, the monthly summary record, and the request/response values of the
    add and delete operations. */
module Transaction {

  datatype Option<T> = None | Some(value: T)

  /** Calendar month of a date, as `time.Month` gives it. */
  datatype Month =
    | January | February | March | April | May | June
    | July | August | September | October | November | December

  /** The full English month name, as `Format("January")` prints it. */
  function MonthName(m: Month): string
  {
    match m
    case January => "January"
    case February => "February"
    case March => "March"
    case April => "April"
    case May => "May"
    case June => "June"
    case July => "July"
    case August => "August"
    case September => "September"
    case October => "October"
    case November => "November"
    case December => "December"
  }

  /** Reads a full English month name back. */
  function MonthFromName(name: string): Option<Month>
  {
    if name == "January" then Some(January)
    else if name == "February" then Some(February)
    else if name == "March" then Some(March)
    else if name == "April" then Some(April)
    else if name == "May" then Some(May)
    else if name == "June" then Some(June)
    else if name == "July" then Some(July)
    else if name == "August" then Some(August)
    else if name == "September" then Some(September)
    else if name == "October" then Some(October)
    else if name == "November" then Some(November)
    else if name == "December" then Some(December)
    else None
  }

  lemma MonthNameRoundTrip(m: Month)
    ensures MonthFromName(MonthName(m)) == Some(m)
  {
    match m
    case January =>
    case February =>
    case March =>
    case April =>
    case May =>
    case June =>
    case July =>
    case August =>
    case September =>
    case October =>
    case November =>
    case December =>
  }

  /** Distinct months print as distinct names, so a summary's month string
      identifies its month. */
  lemma MonthNameInjective(m1: Month, m2: Month)
    ensures MonthName(m1) == MonthName(m2) <==> m1 == m2
  {
    MonthNameRoundTrip(m1);
    MonthNameRoundTrip(m2);
  }

  /** A transaction date: its calendar year and month, and the day of the
      month. The time of day is not modelled; no operation looks at it. */
  datatype Date = Date(year: int, month: Month, day: int)

  /** One stored transaction. `kind` is the JSON field `type`; it is free text,
      and only the two values below mean anything to the summary. */
  datatype Transaction = Transaction(
    id: string,
    amount: real,
    category: string,
    description: string,
    date: Date,
    kind: string)

  const Income: string := "income"
  const Expense: string := "expense"

  /** Two transactions agree on every field except possibly the id. */
  predicate SameExceptId(a: Transaction, b: Transaction)
  {
    && a.amount == b.amount
    && a.category == b.category
    && a.description == b.description
    && a.date == b.date
    && a.kind == b.kind
  }

  /** The aggregate of one (month, year) group. */
  datatype MonthlySummary = MonthlySummary(
    month: string,
    year: int,
    totalIncome: real,
    totalExpenses: real,
    netAmount: real)

  /** The group a transaction is summarised under. */
  datatype GroupKey = GroupKey(month: Month, year: int)

  function KeyOf(t: Transaction): GroupKey
  {
    GroupKey(t.date.month, t.date.year)
  }

  /** The outcome of ShouldBindJSON on a request body: a parsed transaction or
      the parser's error message. */
  datatype Payload = Parsed(t: Transaction) | Malformed(reason: string)

  /** What the add handler answers: the stored record, or the parse error. */
  datatype AddResponse = Created(record: Transaction) | MalformedInput(message: string)

  /** What the delete handler answers. */
  datatype DeleteResponse = Deleted | NotFound

  // The source's map key is the string `month + "-" + string(year)`. Go's
  // integer-to-string conversion yields one rune: the integer itself when it
  // is a Unicode scalar value, U+FFFD otherwise. The model groups by the pair
  // GroupKey instead; the two lemmas below say when the two agree.

  predicate IsScalarValue(n: int)
  {
    0 <= n < 0xD800 || 0xE000 <= n < 0x11_0000
  }

  /** The rune Go's `string(year)` produces. */
  function RuneOf(year: int): char
  {
    if IsScalarValue(year) then year as char else '\U{FFFD}'
  }

  /** Distinct scalar-value years give distinct runes, and every year that is
      not a scalar value gives the same rune as year 0xFFFD. */
  lemma RuneOfInjective(a: int, b: int)
    ensures IsScalarValue(a) && IsScalarValue(b) ==> (RuneOf(a) == RuneOf(b) <==> a == b)
    ensures !IsScalarValue(a) ==> RuneOf(a) == RuneOf(0xFFFD)
  {
    if IsScalarValue(a) && IsScalarValue(b) && RuneOf(a) == RuneOf(b) {
      assert RuneOf(a) as int == a && RuneOf(b) as int == b;
    }
  }

  /** The grouping key string the source builds. */
  function SourceKey(month: Month, year: int): string
  {
    MonthName(month) + "-" + [RuneOf(year)]
  }

  /** For every year that is a Unicode scalar value (every year from 0 to 9999
      among them) the source's string key and the pair key coincide as
      groupings: equal strings exactly when the pairs are equal. */
  lemma SourceKeyInjective(m1: Month, y1: int, m2: Month, y2: int)
    requires IsScalarValue(y1) && IsScalarValue(y2)
    ensures SourceKey(m1, y1) == SourceKey(m2, y2) <==> GroupKey(m1, y1) == GroupKey(m2, y2)
  {
    var a, b := SourceKey(m1, y1), SourceKey(m2, y2);
    if a == b {
      var n1, n2 := MonthName(m1), MonthName(m2);
      assert |n1| == |a| - 2 == |n2|;
      assert n1 == a[..|n1|] && n2 == b[..|n2|];
      MonthNameInjective(m1, m2);
      assert a[|a| - 1] == RuneOf(y1) && b[|b| - 1] == RuneOf(y2);
      RuneOfInjective(y1, y2);
    }
  }

  /** Years that are not scalar values all collapse onto the key of year
      0xFFFD, so the source would merge those groups. */
  lemma SourceKeyCollision()
    ensures SourceKey(January, -1) == SourceKey(January, 0xFFFD)
    ensures GroupKey(January, -1) != GroupKey(January, 0xFFFD)
  {
  }
}
