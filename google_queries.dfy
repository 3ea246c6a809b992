/** `get_teachers` of src/google_queries.py: the access roster is read from
    the range A1:C100 of the accesses tab, the header row is skipped, and
    every other row `[name, id, disciplines]` becomes a Teacher whose
    disciplines are the third cell split at ", ". The spreadsheet itself is
    a parameter: `values` is the "values" entry of the read response, None
    when the response has none. */
module GoogleQueries {

  import opened Values
  import opened Strings
  import opened CustomTypes

  const RangeRows: nat := 100
  const RangeColumns: nat := 3

  /** The A1 range read from the accesses tab. */
  function RangeName(tab: string): string {
    tab + "!A1:C100"
  }

  function Min(a: nat, b: nat): nat { if a <= b then a else b }

  /** What the range A1:C100 returns of a sheet: its first 100 rows, each
      cut to its first three cells. */
  function ReadWindow(sheet: seq<seq<string>>): (rows: seq<seq<string>>)
    ensures |rows| == Min(|sheet|, RangeRows)
    ensures forall i :: 0 <= i < |rows| ==> rows[i] == sheet[i][..Min(|sheet[i]|, RangeColumns)]
  {
    var n := Min(|sheet|, RangeRows);
    seq(n, i requires 0 <= i < n => sheet[i][..Min(|sheet[i]|, RangeColumns)])
  }

  predicate IsDigit(c: char) { '0' <= c <= '9' }

  predicate AllDigits(s: string) {
    forall i :: 0 <= i < |s| ==> IsDigit(s[i])
  }

  /** The number a string of decimal digits denotes. */
  function DecimalValue(s: string): nat
    requires AllDigits(s)
    decreases |s|
  {
    if s == [] then 0
    else DecimalValue(s[..|s| - 1]) * 10 + (s[|s| - 1] as int - '0' as int)
  }

  /** The decimal spelling of a number, without leading zeros. */
  function Decimal(n: nat): (s: string)
    ensures s != [] && AllDigits(s)
    decreases n
  {
    var d := [('0' as int + n % 10) as char];
    if n < 10 then d else Decimal(n / 10) + d
  }

  /** Parsing a cell as pydantic's PositiveInt: a non-empty string of
      decimal digits denoting a number greater than zero. */
  function ParsePositiveInt(cell: string): (r: Result<PositiveInt>)
    ensures r.Ok? <==> cell != [] && AllDigits(cell) && DecimalValue(cell) > 0
    ensures r.Ok? ==> r.value == DecimalValue(cell)
    ensures r.Err? ==> r.error == ValidationError
  {
    if cell != [] && AllDigits(cell) && DecimalValue(cell) > 0 then Ok(DecimalValue(cell))
    else Err(ValidationError)
  }

  /** A roster row `[name, id, disciplines]`. */
  function ParseTeacher(row: seq<string>): (r: Result<Teacher>)
    ensures r.Ok? <==> |row| >= 3 && ParsePositiveInt(row[1]).Ok?
    ensures r.Err? ==> r.error == if |row| < 3 then IndexError else ValidationError
    ensures r.Ok? ==> r.value == Teacher(ParsePositiveInt(row[1]).value, row[0], Split(row[2], ", "))
  {
    if |row| < 3 then Err(IndexError)
    else
      var id :- ParsePositiveInt(row[1]);
      Ok(Teacher(id, row[0], Split(row[2], ", ")))
  }

  /** The rows after the header, in order; the first bad row's error wins. */
  function ParseRows(rows: seq<seq<string>>): (r: Result<seq<Teacher>>)
    ensures r.Ok? <==> forall i :: 0 <= i < |rows| ==> ParseTeacher(rows[i]).Ok?
    ensures r.Ok? ==> |r.value| == |rows| && forall i :: 0 <= i < |rows| ==> ParseTeacher(rows[i]) == Ok(r.value[i])
    ensures r.Err? ==> exists i :: 0 <= i < |rows| && ParseTeacher(rows[i]) == Err(r.error)
    decreases |rows|
  {
    if rows == [] then Ok([])
    else
      var t :- ParseTeacher(rows[0]);
      var ts :- ParseRows(rows[1..]);
      assert forall i :: 1 <= i < |rows| ==> rows[i] == rows[1..][i - 1];
      Ok([t] + ts)
  }

  /** `get_teachers` on the "values" entry of the read response. */
  function ParseTeachers(values: Option<seq<seq<string>>>): (r: Result<seq<Teacher>>)
    ensures values.None? ==> r == Err(TypeError)
  {
    match values
    case None => Err(TypeError)
    case Some(rows) => if rows == [] then Ok([]) else ParseRows(rows[1..])
  }

  // ---- properties ----

  /** The decimal spelling of a number parses back to that number. */
  lemma {:induction false} DecimalRoundTrip(n: nat)
    ensures DecimalValue(Decimal(n)) == n
    decreases n
  {
    var d := [('0' as int + n % 10) as char];
    if n >= 10 {
      DecimalRoundTrip(n / 10);
      var s := Decimal(n / 10) + d;
      assert s[..|s| - 1] == Decimal(n / 10);
    }
  }

  /** Every positive id written in decimal is accepted. */
  lemma ParsesDecimalIds(n: nat)
    requires n > 0
    ensures ParsePositiveInt(Decimal(n)) == Ok(n)
  {
    DecimalRoundTrip(n);
  }

  /** A parsed roster has one teacher per row after the header; teacher `i`
      is row `i + 1` with its name, its id, and disciplines that join back
      to the third cell. */
  lemma {:induction false} TeachersFromRows(rows: seq<seq<string>>)
    requires ParseTeachers(Some(rows)).Ok?
    ensures var ts := ParseTeachers(Some(rows)).value;
      && |ts| == (if rows == [] then 0 else |rows| - 1)
      && forall i :: 0 <= i < |ts| ==>
           && ts[i].name == rows[i + 1][0]
           && ParsePositiveInt(rows[i + 1][1]) == Ok(ts[i].id)
           && ts[i].disciplines == Split(rows[i + 1][2], ", ")
           && Join(ts[i].disciplines, ", ") == rows[i + 1][2]
           && |ts[i].disciplines| >= 1
  {
    if rows != [] {
      var ts := ParseTeachers(Some(rows)).value;
      forall i | 0 <= i < |ts|
        ensures Join(ts[i].disciplines, ", ") == rows[i + 1][2]
        ensures ts[i].name == rows[i + 1][0]
      {
        assert rows[1..][i] == rows[i + 1];
        JoinSplit(rows[i + 1][2], ", ");
      }
    }
  }

  /** The roster parses exactly when the "values" entry is present and
      every row after the header has three cells and a positive id. */
  lemma ParseSucceedsIff(values: Option<seq<seq<string>>>)
    ensures ParseTeachers(values).Ok? <==>
      values.Some? && forall i :: 1 <= i < |values.value| ==>
        |values.value[i]| >= 3 && ParsePositiveInt(values.value[i][1]).Ok?
  {
    if values.Some? && values.value != [] {
      var rows := values.value;
      assert forall i :: 1 <= i < |rows| ==> rows[i] == rows[1..][i - 1];
    }
  }

  /** A cell with no ", " gives a single discipline, the whole cell. */
  lemma SingleDiscipline(row: seq<string>)
    requires ParseTeacher(row).Ok? && !Contains(row[2], ", ")
    ensures ParseTeacher(row).value.disciplines == [row[2]]
  {
    SplitWithoutSeparator(row[2], ", ");
  }

  /** Through the A1:C100 window at most 99 teachers can be read. */
  lemma RosterBound(sheet: seq<seq<string>>)
    requires ParseTeachers(Some(ReadWindow(sheet))).Ok?
    ensures |ParseTeachers(Some(ReadWindow(sheet))).value| <= RangeRows - 1
  {
    TeachersFromRows(ReadWindow(sheet));
  }
}
