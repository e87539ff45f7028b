/**
  Import and shaping of SKYRAD.pack retrieval products: the classification
  of the lines of a `par` or `vol` file, the chunking of the data rows into
  one block per retrieval, the conversion of the tag-line date, and the
  column selection that turns the blocks into per-product arrays.

  The file is given as its sequence of lines; number parsing (`int()`,
  `float()`) is a pair of parameter functions, `None` standing for the
  `ValueError` the conversion raises.
*/
module Skyrad {
  import opened Wrappers
  import Ephemeris

  /** The exception that ends the import instead of a result. */
  datatype ImportError =
    | IndexError         // a missing field or row
    | ValueError         // a malformed number, an invalid date, or a `range` step of 0
    | ZeroDivisionError  // data but no tag line
    | OverflowError      // a date pushed past year 9999

  // ---------------------------------------------------------------------------
  // Words of a line

  /** The whitespace `str.split()` separates on. */
  predicate IsSpace(c: char)
  {
    c == ' ' || c == '\t' || c == '\n' || c == '\r' || c == 11 as char || c == 12 as char
  }

  /** The length of the word that starts the text. */
  function WordLength(s: string): (n: nat)
    ensures n <= |s|
    ensures forall i :: 0 <= i < n ==> !IsSpace(s[i])
    ensures n < |s| ==> IsSpace(s[n])
  {
    if s == [] || IsSpace(s[0]) then 0 else 1 + WordLength(s[1..])
  }

  /** `line.split()`: the maximal runs of non-whitespace, in order. */
  function Words(s: string): (ws: seq<string>)
    ensures forall i :: 0 <= i < |ws| ==> ws[i] != []
    ensures forall i, j :: 0 <= i < |ws| && 0 <= j < |ws[i]| ==> !IsSpace(ws[i][j])
    decreases |s|
  {
    if s == [] then []
    else if IsSpace(s[0]) then Words(s[1..])
    else
      var n := WordLength(s);
      [s[..n]] + Words(s[n..])
  }

  /** Words joined by single spaces. */
  function Unwords(ws: seq<string>): string
  {
    if ws == [] then [] else if |ws| == 1 then ws[0] else ws[0] + " " + Unwords(ws[1..])
  }

  lemma WordsOfSpaced(w: string, rest: string)
    requires w != []
    requires forall j :: 0 <= j < |w| ==> !IsSpace(w[j])
    ensures Words(w + " " + rest) == [w] + Words(rest)
  {
    var s := w + " " + rest;
    WordLengthOf(w, " " + rest);
    assert s[..|w|] == w;
    assert s[|w|..] == " " + rest;
    assert (" " + rest)[1..] == rest;
  }

  lemma WordLengthOf(w: string, rest: string)
    requires forall j :: 0 <= j < |w| ==> !IsSpace(w[j])
    requires rest != [] && IsSpace(rest[0])
    ensures WordLength(w + rest) == |w|
    decreases |w|
  {
    if w != [] {
      assert (w + rest)[1..] == w[1..] + rest;
      WordLengthOf(w[1..], rest);
    }
  }

  /** Splitting words written out with single spaces gives them back. */
  lemma {:induction false} WordsUnwords(ws: seq<string>)
    requires forall i :: 0 <= i < |ws| ==> ws[i] != []
    requires forall i, j :: 0 <= i < |ws| && 0 <= j < |ws[i]| ==> !IsSpace(ws[i][j])
    ensures Words(Unwords(ws)) == ws
  {
    if ws == [] {
    } else if |ws| == 1 {
      WordsWhole(ws[0]);
    } else {
      WordsUnwords(ws[1..]);
      WordsOfSpaced(ws[0], Unwords(ws[1..]));
    }
  }

  lemma WordsWhole(w: string)
    requires w != []
    requires forall j :: 0 <= j < |w| ==> !IsSpace(w[j])
    ensures Words(w) == [w]
  {
    WordLengthAll(w);
    assert w[..|w|] == w;
  }

  lemma WordLengthAll(w: string)
    requires forall j :: 0 <= j < |w| ==> !IsSpace(w[j])
    ensures WordLength(w) == |w|
  {
    if w != [] {
      WordLengthAll(w[1..]);
    }
  }

  // ---------------------------------------------------------------------------
  // dateconvert

  /** The date fields of a tag line: year, month and day from `int()`, the
      decimal hour from `float()`. */
  datatype DateRow = DateRow(year: int, month: int, day: int, hour: real)

  /** A `datetime` to the minute. */
  datatype Stamp = Stamp(year: int, month: int, day: int, hour: int, minute: int)

  predicate IsLeap(y: int)
  {
    y % 4 == 0 && (y % 100 != 0 || y % 400 == 0)
  }

  function DaysInMonth(y: int, m: int): int
    requires 1 <= m <= 12
  {
    if m == 2 then (if IsLeap(y) then 29 else 28)
    else if m == 4 || m == 6 || m == 9 || m == 11 then 30
    else 31
  }

  /** The ranges the `datetime` constructor accepts. */
  predicate ValidStamp(s: Stamp)
  {
    1 <= s.year <= 9999 && 1 <= s.month <= 12 && 1 <= s.day <= DaysInMonth(s.year, s.month)
    && 0 <= s.hour < 24 && 0 <= s.minute < 60
  }

  /** Strictly earlier, field by field. */
  predicate Before(a: Stamp, b: Stamp)
  {
    a.year < b.year
    || (a.year == b.year && a.month < b.month)
    || (a.year == b.year && a.month == b.month && a.day < b.day)
    || (a.year == b.year && a.month == b.month && a.day == b.day && a.hour < b.hour)
    || (a.year == b.year && a.month == b.month && a.day == b.day && a.hour == b.hour && a.minute < b.minute)
  }

  /** Adding 60 minutes to a stamp on the hour: the next hour, carried into the
      day, month and year; past 9999-12-31 23:00 it overflows. */
  function NextHour(s: Stamp): (r: Result<Stamp, ImportError>)
    requires ValidStamp(s)
    ensures r.Ok? ==> ValidStamp(r.value) && r.value.minute == s.minute && Before(s, r.value)
    ensures r.Err? <==> s.year == 9999 && s.month == 12 && s.day == 31 && s.hour == 23
  {
    if s.hour < 23 then Ok(s.(hour := s.hour + 1))
    else if s.day < DaysInMonth(s.year, s.month) then Ok(s.(day := s.day + 1, hour := 0))
    else if s.month < 12 then Ok(s.(month := s.month + 1, day := 1, hour := 0))
    else if s.year < 9999 then Ok(s.(year := s.year + 1, month := 1, day := 1, hour := 0))
    else Err(OverflowError)
  }

  /** `int()` of a float: truncation toward zero. */
  function TruncateTowardZero(x: real): int
  {
    if x >= 0.0 then x.Floor else -((-x).Floor)
  }

  /** `np.round`: to the nearest integer, halves to the even one. */
  function RoundHalfEven(x: real): (r: int)
    ensures -0.5 <= r as real - x <= 0.5
    ensures (r as real - x == 0.5 || x - r as real == 0.5) ==> r % 2 == 0
  {
    var n := x.Floor;
    var f := x - n as real;
    if f < 0.5 then n
    else if f > 0.5 then n + 1
    else if n % 2 == 0 then n
    else n + 1
  }

  /** The whole minutes of the fractional hour: `round(H % 1 * 60)`. */
  function MinutesOf(hour: real): int
  {
    RoundHalfEven(Ephemeris.PyMod(hour, 1.0) * 60.0)
  }

  /** A fractional hour rounds to 0..60 minutes, 60 for a fraction within half
      a minute of the next hour. */
  lemma MinutesRange(hour: real)
    ensures 0 <= MinutesOf(hour) <= 60
  {
    var f := Ephemeris.PyMod(hour, 1.0);
    assert 0.0 <= f * 60.0 < 60.0;
  }

  /** `dateconvert`: the integer year, month, day and hour, plus the rounded
      minutes of the hour's fraction. */
  function DateConvert(d: DateRow): Result<Stamp, ImportError>
  {
    var start := Stamp(d.year, d.month, d.day, TruncateTowardZero(d.hour), 0);
    var minutes := MinutesOf(d.hour);
    if !ValidStamp(start) then Err(ValueError)
    else if minutes < 60 then Ok(start.(minute := minutes))
    else NextHour(start)
  }

  /** The converted date is a valid `datetime`: the stated day and hour with the
      rounded minutes, or the following hour on the minute when the minutes round
      up to 60. It fails exactly for an invalid date or hour, or for a rollover
      past the last hour of year 9999. */
  lemma DateConvertMeaning(d: DateRow)
    ensures var start := Stamp(d.year, d.month, d.day, TruncateTowardZero(d.hour), 0);
      match DateConvert(d)
      case Ok(s) =>
        && ValidStamp(start) && ValidStamp(s)
        && (MinutesOf(d.hour) < 60 ==> s == start.(minute := MinutesOf(d.hour)))
        && (MinutesOf(d.hour) == 60 ==> s.minute == 0 && Before(start, s))
      case Err(e) =>
        !ValidStamp(start)
        || (MinutesOf(d.hour) == 60 && start == Stamp(9999, 12, 31, 23, 0))
  {
    MinutesRange(d.hour);
  }

  /** 23.9999 hours on New Year's Eve rounds to 60 minutes and rolls over into
      the next year; 10.5 hours is half past ten. */
  lemma DateConvertExamples()
    ensures DateConvert(DateRow(2018, 12, 31, 23.9999)) == Ok(Stamp(2019, 1, 1, 0, 0))
    ensures DateConvert(DateRow(2018, 4, 19, 10.5)) == Ok(Stamp(2018, 4, 19, 10, 30))
    ensures DateConvert(DateRow(2018, 2, 29, 10.5)) == Err(ValueError)
  {
    assert (23.9999).Floor == 23;
    assert Ephemeris.PyMod(23.9999, 1.0) == 0.9999;
    assert MinutesOf(23.9999) == 60;
    assert (10.5).Floor == 10;
    assert Ephemeris.PyMod(10.5, 1.0) == 0.5;
    assert MinutesOf(10.5) == 30;
  }

  // ---------------------------------------------------------------------------
  // importskyrad

  /** What the line loop has gathered: the date fields and the observation
      error of each tag line, and the parsed data rows. */
  datatype Gathered = Gathered(dates: seq<DateRow>, errors: seq<real>, rows: seq<seq<real>>)

  /** What `importskyrad` returns. */
  datatype Import = Import(dates: seq<Stamp>, errors: seq<real>, data: seq<seq<seq<real>>>)

  predicate IsTagLine(line: string)
  {
    ')' in line
  }

  predicate EndsWith(s: string, suffix: string)
  {
    |suffix| <= |s| && s[|s| - |suffix|..] == suffix
  }

  /** Only `par` and `vol` files contribute data rows. */
  predicate IsProductFile(fileName: string)
  {
    EndsWith(fileName, "par") || EndsWith(fileName, "vol")
  }

  /** Field `i` through `int()`. */
  function IntField(ws: seq<string>, i: nat, parseInt: string -> Option<int>): Result<int, ImportError>
  {
    if i >= |ws| then Err(IndexError)
    else match parseInt(ws[i]) case None => Err(ValueError) case Some(v) => Ok(v)
  }

  /** Field `i` through `float()`. */
  function RealField(ws: seq<string>, i: nat, parseReal: string -> Option<real>): Result<real, ImportError>
  {
    if i >= |ws| then Err(IndexError)
    else match parseReal(ws[i]) case None => Err(ValueError) case Some(v) => Ok(v)
  }

  /** Fields 1 to 4 and field 12 of a tag line, read in the source's order. */
  function TagFields(ws: seq<string>, parseInt: string -> Option<int>, parseReal: string -> Option<real>)
    : (r: Result<(DateRow, real), ImportError>)
    ensures r.Ok? ==> 13 <= |ws|
    ensures r.Ok? ==> parseReal(ws[12]) == Some(r.value.1) && parseReal(ws[4]) == Some(r.value.0.hour)
    ensures r.Ok? ==> parseInt(ws[1]) == Some(r.value.0.year) && parseInt(ws[2]) == Some(r.value.0.month)
                      && parseInt(ws[3]) == Some(r.value.0.day)
    ensures |ws| < 13 ==> r.Err?
  {
    var y :- IntField(ws, 1, parseInt);
    var m :- IntField(ws, 2, parseInt);
    var d :- IntField(ws, 3, parseInt);
    var h :- RealField(ws, 4, parseReal);
    var e :- RealField(ws, 12, parseReal);
    Ok((DateRow(y, m, d, h), e))
  }

  /** `[float(x) for x in S]`. */
  function ParseRow(ws: seq<string>, parseReal: string -> Option<real>): (r: Option<seq<real>>)
    ensures r.Some? <==> forall i :: 0 <= i < |ws| ==> parseReal(ws[i]).Some?
    ensures r.Some? ==> |r.value| == |ws| && forall i :: 0 <= i < |ws| ==> Some(r.value[i]) == parseReal(ws[i])
  {
    if ws == [] then Some([])
    else match (parseReal(ws[0]), ParseRow(ws[1..], parseReal))
      case (Some(x), Some(xs)) => Some([x] + xs)
      case _ => None
  }

  /** The effect of one line on what has been gathered. */
  function AddLine(fileName: string, g: Gathered, line: string,
                   parseInt: string -> Option<int>, parseReal: string -> Option<real>): Result<Gathered, ImportError>
  {
    var ws := Words(line);
    if IsTagLine(line) then
      var t :- TagFields(ws, parseInt, parseReal);
      Ok(g.(dates := g.dates + [t.0], errors := g.errors + [t.1]))
    else if IsProductFile(fileName) then
      match ParseRow(ws, parseReal)
      case None => Err(ValueError)
      case Some(row) => Ok(g.(rows := g.rows + [row]))
    else Ok(g)
  }

  /** The line loop over the first lines of the file. */
  function Gather(fileName: string, lines: seq<string>,
                  parseInt: string -> Option<int>, parseReal: string -> Option<real>): Result<Gathered, ImportError>
  {
    if lines == [] then Ok(Gathered([], [], []))
    else
      var g :- Gather(fileName, lines[..|lines| - 1], parseInt, parseReal);
      AddLine(fileName, g, lines[|lines| - 1], parseInt, parseReal)
  }

  /** `[Data[i:i+L] for i in range(0, len(Data), L)]`. */
  function Chunk<T>(rows: seq<T>, size: nat): seq<seq<T>>
    requires size > 0
    decreases |rows|
  {
    if rows == [] then []
    else if |rows| <= size then [rows]
    else [rows[..size]] + Chunk(rows[size..], size)
  }

  function Flatten<T>(chunks: seq<seq<T>>): seq<T>
  {
    if chunks == [] then [] else chunks[0] + Flatten(chunks[1..])
  }

  /** `[dateconvert(Date[k]) for k in range(len(Date))]`, stopping at the first failure. */
  function ConvertAll(dates: seq<DateRow>): (r: Result<seq<Stamp>, ImportError>)
    ensures r.Ok? ==> |r.value| == |dates| && forall k :: 0 <= k < |dates| ==> DateConvert(dates[k]) == Ok(r.value[k])
  {
    if dates == [] then Ok([])
    else
      var init :- ConvertAll(dates[..|dates| - 1]);
      var last :- DateConvert(dates[|dates| - 1]);
      Ok(init + [last])
  }

  /** The slice length `len(data) / len(dates)`, Python 2's integer division. */
  function ChunkSize(rows: nat, dates: nat): nat
    requires dates > 0
  {
    rows / dates
  }

  /** What `importskyrad` does after the line loop: cut the rows into slices of
      `len(Data) / len(Date)` rows (integer division), then convert the dates. */
  function Assemble(g: Gathered): Result<Import, ImportError>
  {
    if |g.dates| == 0 then Err(ZeroDivisionError)
    else
      var size := ChunkSize(|g.rows|, |g.dates|);
      if size == 0 then Err(ValueError)
      else
        var dates :- ConvertAll(g.dates);
        Ok(Import(dates, g.errors, Chunk(g.rows, size)))
  }

  /** `importskyrad(File)` on a file with the given lines: an empty file gives
      three empty lists; otherwise the lines are gathered and assembled. */
  function ImportSpec(fileName: string, lines: seq<string>,
                      parseInt: string -> Option<int>, parseReal: string -> Option<real>): Result<Import, ImportError>
  {
    if lines == [] then Ok(Import([], [], []))
    else
      var g :- Gather(fileName, lines, parseInt, parseReal);
      Assemble(g)
  }

  /** Once a line raises, the import raises the same exception. */
  lemma {:induction false} GatherErrorPersists(fileName: string, lines: seq<string>, n: nat,
                                               parseInt: string -> Option<int>, parseReal: string -> Option<real>)
    requires n <= |lines|
    requires Gather(fileName, lines[..n], parseInt, parseReal).Err?
    ensures Gather(fileName, lines, parseInt, parseReal) == Gather(fileName, lines[..n], parseInt, parseReal)
    decreases |lines|
  {
    if n < |lines| {
      var init := lines[..|lines| - 1];
      assert init[..n] == lines[..n];
      GatherErrorPersists(fileName, init, n, parseInt, parseReal);
    } else {
      assert lines[..n] == lines;
    }
  }

  /** Once a date fails to convert, the conversion of all of them fails the same way. */
  lemma {:induction false} ConvertErrorPersists(dates: seq<DateRow>, n: nat)
    requires n <= |dates|
    requires ConvertAll(dates[..n]).Err?
    ensures ConvertAll(dates) == ConvertAll(dates[..n])
    decreases |dates|
  {
    if n < |dates| {
      var init := dates[..|dates| - 1];
      assert init[..n] == dates[..n];
      ConvertErrorPersists(init, n);
    } else {
      assert dates[..n] == dates;
    }
  }

  /** The slicing loop of `importskyrad`. */
  method ChunkRows(rows: seq<seq<real>>, size: nat) returns (chunks: seq<seq<seq<real>>>)
    requires size > 0
    ensures chunks == Chunk(rows, size)
  {
    chunks := [];
    var i := 0;
    while i < |rows|
      invariant 0 <= i <= |rows|
      invariant chunks + Chunk(rows[i..], size) == Chunk(rows, size)
      decreases |rows| - i
    {
      var j := if i + size < |rows| then i + size else |rows|;
      if i + size < |rows| {
        assert rows[i..][..size] == rows[i..j];
        assert rows[i..][size..] == rows[j..];
        assert Chunk(rows[i..], size) == [rows[i..j]] + Chunk(rows[j..], size);
      } else {
        assert rows[i..j] == rows[i..];
        assert Chunk(rows[i..], size) == [rows[i..j]];
        assert rows[j..] == [];
      }
      chunks := chunks + [rows[i..j]];
      i := j;
    }
    assert rows[i..] == [];
  }

  /** The line loop of `importskyrad`. */
  method GatherLines(fileName: string, lines: seq<string>,
                     parseInt: string -> Option<int>, parseReal: string -> Option<real>)
    returns (r: Result<Gathered, ImportError>)
    ensures r == Gather(fileName, lines, parseInt, parseReal)
  {
    var dates: seq<DateRow> := [];
    var errors: seq<real> := [];
    var rows: seq<seq<real>> := [];
    for i := 0 to |lines|
      invariant Gather(fileName, lines[..i], parseInt, parseReal) == Ok(Gathered(dates, errors, rows))
    {
      assert lines[..i + 1][..i] == lines[..i];
      var line := lines[i];
      var ws := Words(line);
      if ')' in line {
        var t := TagFields(ws, parseInt, parseReal);
        if t.Err? {
          GatherErrorPersists(fileName, lines, i + 1, parseInt, parseReal);
          return Err(t.error);
        }
        dates := dates + [t.value.0];
        errors := errors + [t.value.1];
      } else if IsProductFile(fileName) {
        var row := ParseRow(ws, parseReal);
        if row.None? {
          GatherErrorPersists(fileName, lines, i + 1, parseInt, parseReal);
          return Err(ValueError);
        }
        rows := rows + [row.value];
      }
    }
    assert lines[..|lines|] == lines;
    r := Ok(Gathered(dates, errors, rows));
  }

  /** The `dateconvert` comprehension of `importskyrad`. */
  method ConvertDates(dates: seq<DateRow>) returns (r: Result<seq<Stamp>, ImportError>)
    ensures r == ConvertAll(dates)
  {
    var stamps: seq<Stamp> := [];
    for k := 0 to |dates|
      invariant ConvertAll(dates[..k]) == Ok(stamps)
    {
      assert dates[..k + 1][..k] == dates[..k];
      var s := DateConvert(dates[k]);
      if s.Err? {
        ConvertErrorPersists(dates, k + 1);
        return Err(s.error);
      }
      stamps := stamps + [s.value];
    }
    assert dates[..|dates|] == dates;
    r := Ok(stamps);
  }

  /** `importskyrad(File)` on a file with the given lines. */
  method ImportSkyrad(fileName: string, lines: seq<string>,
                      parseInt: string -> Option<int>, parseReal: string -> Option<real>)
    returns (r: Result<Import, ImportError>)
    ensures r == ImportSpec(fileName, lines, parseInt, parseReal)
  {
    if lines == [] {
      return Ok(Import([], [], []));
    }
    var g :- GatherLines(fileName, lines, parseInt, parseReal);
    assert ImportSpec(fileName, lines, parseInt, parseReal) == Assemble(g);
    if |g.dates| == 0 {
      return Err(ZeroDivisionError);
    }
    var size := ChunkSize(|g.rows|, |g.dates|);
    if size == 0 {
      return Err(ValueError);
    }
    var data := ChunkRows(g.rows, size);
    var stamps :- ConvertDates(g.dates);
    r := Ok(Import(stamps, g.errors, data));
  }

  // ---------------------------------------------------------------------------
  // Properties of the import

  /** An empty file gives three empty lists. */
  lemma EmptyFile(fileName: string, parseInt: string -> Option<int>, parseReal: string -> Option<real>)
    ensures ImportSpec(fileName, [], parseInt, parseReal) == Ok(Import([], [], []))
  {
  }

  /** A tag line adds exactly one date (fields 1 to 4) and one error (field 12)
      and never a data row; any other line adds nothing but, in a `par` or `vol`
      file, the row of its parsed words. */
  lemma AddLineEffect(fileName: string, g: Gathered, line: string,
                      parseInt: string -> Option<int>, parseReal: string -> Option<real>)
    ensures var r := AddLine(fileName, g, line, parseInt, parseReal);
      && (r.Ok? && IsTagLine(line) ==>
           && |r.value.dates| == |g.dates| + 1 && r.value.dates[..|g.dates|] == g.dates
           && r.value.errors == g.errors + [parseReal(Words(line)[12]).value]
           && r.value.dates[|g.dates|].hour == parseReal(Words(line)[4]).value
           && parseInt(Words(line)[1]) == Some(r.value.dates[|g.dates|].year)
           && parseInt(Words(line)[2]) == Some(r.value.dates[|g.dates|].month)
           && parseInt(Words(line)[3]) == Some(r.value.dates[|g.dates|].day)
           && r.value.rows == g.rows)
      && (r.Ok? && !IsTagLine(line) ==> r.value.dates == g.dates && r.value.errors == g.errors)
      && (r.Ok? && !IsTagLine(line) && IsProductFile(fileName) ==>
           r.value.rows == g.rows + [ParseRow(Words(line), parseReal).value])
      && (!IsTagLine(line) && !IsProductFile(fileName) ==> r == Ok(g))
      && (IsTagLine(line) && |Words(line)| < 13 ==> r.Err?)
  {
  }

  /** The number of tag lines among the lines. */
  function TagCount(lines: seq<string>): nat
  {
    if lines == [] then 0 else TagCount(lines[..|lines| - 1]) + (if IsTagLine(lines[|lines| - 1]) then 1 else 0)
  }

  /** After the line loop there is one date and one error per tag line, and one
      data row per other line of a `par` or `vol` file, none otherwise. */
  lemma {:induction false} GatherCounts(fileName: string, lines: seq<string>,
                                        parseInt: string -> Option<int>, parseReal: string -> Option<real>)
    requires Gather(fileName, lines, parseInt, parseReal).Ok?
    ensures var g := Gather(fileName, lines, parseInt, parseReal).value;
      && |g.dates| == |g.errors| == TagCount(lines)
      && |g.rows| == (if IsProductFile(fileName) then |lines| - TagCount(lines) else 0)
  {
    if lines != [] {
      var init := lines[..|lines| - 1];
      var g0 := Gather(fileName, init, parseInt, parseReal);
      assert g0.Ok?;
      GatherCounts(fileName, init, parseInt, parseReal);
      AddLineEffect(fileName, g0.value, lines[|lines| - 1], parseInt, parseReal);
    }
  }

  /** Concatenating the slices gives back the rows, in order. */
  lemma {:induction false} FlattenChunk<T>(rows: seq<T>, size: nat)
    requires size > 0
    ensures Flatten(Chunk(rows, size)) == rows
    decreases |rows|
  {
    if rows == [] {
    } else if |rows| <= size {
      assert Flatten([rows]) == rows + Flatten([rows][1..]);
    } else {
      FlattenChunk(rows[size..], size);
      var c := Chunk(rows, size);
      assert c[1..] == Chunk(rows[size..], size);
      assert rows[..size] + rows[size..] == rows;
    }
  }

  /** Every slice but the last holds `size` rows, and the last one between 1 and
      `size`. */
  lemma {:induction false} ChunkSizes<T>(rows: seq<T>, size: nat)
    requires size > 0
    ensures var c := Chunk(rows, size);
      && (forall i :: 0 <= i < |c| - 1 ==> |c[i]| == size)
      && (c != [] ==> 1 <= |c[|c| - 1]| <= size)
      && (c == [] <==> rows == [])
    decreases |rows|
  {
    if |rows| > size {
      ChunkSizes(rows[size..], size);
      var c := Chunk(rows, size);
      assert c[1..] == Chunk(rows[size..], size);
    }
  }

  /** When the rows are a whole number `k` of slices, there are exactly `k`
      slices. */
  lemma {:induction false} ChunkExact<T>(rows: seq<T>, size: nat, k: nat)
    requires size > 0
    requires |rows| == k * size
    ensures |Chunk(rows, size)| == k
    decreases k
  {
    if k > 1 {
      assert |rows[size..]| == (k - 1) * size;
      ChunkExact(rows[size..], size, k - 1);
    }
  }

  lemma EvenSplit(n: nat, d: nat)
    requires d > 0 && n % d == 0
    ensures n == d * (n / d)
  {
  }

  /** Assembling keeps the errors, loses no row, and makes one slice per
      retrieval when the rows divide evenly among them. */
  lemma AssembleShape(g: Gathered)
    requires Assemble(g).Ok?
    ensures |Assemble(g).value.dates| == |g.dates|
    ensures Assemble(g).value.errors == g.errors
    ensures Flatten(Assemble(g).value.data) == g.rows
    ensures |g.rows| % |g.dates| == 0 ==> |Assemble(g).value.data| == |g.dates|
  {
    var size := ChunkSize(|g.rows|, |g.dates|);
    FlattenChunk(g.rows, size);
    if |g.rows| % |g.dates| == 0 {
      EvenSplit(|g.rows|, |g.dates|);
      ChunkExact(g.rows, size, |g.dates|);
    }
  }

  /** A successful import of a non-empty file has one date and one error per
      tag line, loses no row, and has one slice per retrieval when the rows
      divide evenly among the tag lines. */
  lemma ImportShape(fileName: string, lines: seq<string>,
                    parseInt: string -> Option<int>, parseReal: string -> Option<real>)
    requires lines != []
    requires ImportSpec(fileName, lines, parseInt, parseReal).Ok?
    ensures Gather(fileName, lines, parseInt, parseReal).Ok?
    ensures var g := Gather(fileName, lines, parseInt, parseReal).value;
      var imp := ImportSpec(fileName, lines, parseInt, parseReal).value;
      && |imp.dates| == |imp.errors| == TagCount(lines)
      && Flatten(imp.data) == g.rows
      && (|g.rows| % TagCount(lines) == 0 ==> |imp.data| == |imp.dates|)
  {
    var g := Gather(fileName, lines, parseInt, parseReal).value;
    GatherCounts(fileName, lines, parseInt, parseReal);
    AssembleShape(g);
  }

  /** A file that is neither `par` nor `vol` gathers no rows, so unless it is
      empty the import always fails (`len(Data) / len(Date)` is 0 or a division
      by zero). */
  lemma OtherProductsFail(fileName: string, lines: seq<string>,
                          parseInt: string -> Option<int>, parseReal: string -> Option<real>)
    requires !IsProductFile(fileName)
    requires lines != []
    ensures ImportSpec(fileName, lines, parseInt, parseReal).Err?
  {
    if Gather(fileName, lines, parseInt, parseReal).Ok? {
      GatherCounts(fileName, lines, parseInt, parseReal);
    }
  }

  /** With 7 rows and 3 retrievals the slice length is 2 and the rows fall into
      4 slices, the last holding a single row. */
  lemma UnevenChunks(rows: seq<int>)
    requires |rows| == 7
    ensures |Chunk(rows, 7 / 3)| == 4
    ensures Chunk(rows, 7 / 3)[3] == [rows[6]]
  {
    assert Chunk(rows[6..], 2) == [rows[6..]];
    assert Chunk(rows[4..], 2) == [rows[4..6]] + Chunk(rows[6..], 2) by {
      assert rows[4..][..2] == rows[4..6];
      assert rows[4..][2..] == rows[6..];
    }
    assert Chunk(rows[2..], 2) == [rows[2..4]] + Chunk(rows[4..], 2) by {
      assert rows[2..][..2] == rows[2..4];
      assert rows[2..][2..] == rows[4..];
    }
    assert rows[6..] == [rows[6]];
  }

  // ---------------------------------------------------------------------------
  // formatdata

  /** The arrays `formatdata` returns for each product. */
  datatype Formatted =
    | Par(aod: seq<seq<real>>, ssa: seq<seq<real>>, refIdx: seq<seq<(real, real)>>, wavelengths: seq<int>)
    | Vol(volDist: seq<seq<real>>, sizes: seq<real>)

  /** Every index the loops read exists: at least one retrieval, every
      retrieval with as many rows as the first, every one of those rows with
      `width` columns. */
  predicate WellShaped(data: seq<seq<seq<real>>>, width: nat)
  {
    && |data| > 0
    && (forall j :: 0 <= j < |data| ==> |data[j]| >= |data[0]|)
    && (forall j, k :: 0 <= j < |data| && 0 <= k < |data[0]| ==> |data[j][k]| >= width)
  }

  /** `formatdata(Data, product)`. For `par`: AOD from column 1, SSA from
      column 3, the refractive index from columns 4 and 5, and the wavelengths in
      nanometres from column 0 of the first retrieval. For `vol`: the volume
      distribution and the size classes, both from column 0. Any other product
      returns `None`; a missing index raises. */
  method FormatData(data: seq<seq<seq<real>>>, product: string) returns (r: Result<Option<Formatted>, ImportError>)
    ensures product != "par" && product != "vol" ==> r == Ok(None)
    ensures product == "par" ==> (r.Err? <==> !WellShaped(data, 6))
    ensures product == "vol" ==> (r.Err? <==> !WellShaped(data, 1))
    ensures product == "par" && r.Ok? ==> r.value.Some? && r.value.value.Par?
    ensures product == "vol" && r.Ok? ==> r.value.Some? && r.value.value.Vol?
    ensures r.Ok? && r.value.Some? && r.value.value.Par? ==>
      var f := r.value.value;
      && |f.aod| == |f.ssa| == |f.refIdx| == |data| && |f.wavelengths| == |data[0]|
      && (forall j :: 0 <= j < |data| ==> |f.aod[j]| == |f.ssa[j]| == |f.refIdx[j]| == |data[0]|)
      && (forall j, k :: 0 <= j < |data| && 0 <= k < |data[0]| ==>
            f.aod[j][k] == data[j][k][1] && f.ssa[j][k] == data[j][k][3] && f.refIdx[j][k] == (data[j][k][4], data[j][k][5]))
      && (forall l :: 0 <= l < |data[0]| ==> f.wavelengths[l] == TruncateTowardZero(data[0][l][0] * 1000.0))
    ensures r.Ok? && r.value.Some? && r.value.value.Vol? ==>
      var f := r.value.value;
      && |f.volDist| == |data| && |f.sizes| == |data[0]|
      && (forall j :: 0 <= j < |data| ==> |f.volDist[j]| == |data[0]|)
      && (forall j, k :: 0 <= j < |data| && 0 <= k < |data[0]| ==> f.volDist[j][k] == data[j][k][0])
      && (forall l :: 0 <= l < |data[0]| ==> f.sizes[l] == data[0][l][0])
  {
    if product == "par" {
      r := FormatPar(data);
    } else if product == "vol" {
      r := FormatVol(data);
    } else {
      r := Ok(None);
    }
  }

  /** The `par` branch of `formatdata`. */
  method FormatPar(data: seq<seq<seq<real>>>) returns (r: Result<Option<Formatted>, ImportError>)
    ensures r.Err? <==> !WellShaped(data, 6)
    ensures r.Ok? ==> r.value.Some? && r.value.value.Par?
    ensures r.Ok? ==>
      var f := r.value.value;
      && |f.aod| == |f.ssa| == |f.refIdx| == |data| && |f.wavelengths| == |data[0]|
      && (forall j :: 0 <= j < |data| ==> |f.aod[j]| == |f.ssa[j]| == |f.refIdx[j]| == |data[0]|)
      && (forall j, k :: 0 <= j < |data| && 0 <= k < |data[0]| ==>
            f.aod[j][k] == data[j][k][1] && f.ssa[j][k] == data[j][k][3] && f.refIdx[j][k] == (data[j][k][4], data[j][k][5]))
      && (forall l :: 0 <= l < |data[0]| ==> f.wavelengths[l] == TruncateTowardZero(data[0][l][0] * 1000.0))
  {
    var aod: seq<seq<real>> := [];
    var ssa: seq<seq<real>> := [];
    var refIdx: seq<seq<(real, real)>> := [];
    for j := 0 to |data|
      invariant |aod| == |ssa| == |refIdx| == j
      invariant forall i :: 0 <= i < j ==> |data[i]| >= |data[0]|
      invariant forall i, k :: 0 <= i < j && 0 <= k < |data[0]| ==> |data[i][k]| >= 6
      invariant forall i :: 0 <= i < j ==> |aod[i]| == |ssa[i]| == |refIdx[i]| == |data[0]|
      invariant forall i, k :: 0 <= i < j && 0 <= k < |data[0]| ==>
        aod[i][k] == data[i][k][1] && ssa[i][k] == data[i][k][3] && refIdx[i][k] == (data[i][k][4], data[i][k][5])
    {
      var block1: seq<real> := [];
      var block2: seq<real> := [];
      var block3: seq<(real, real)> := [];
      for k := 0 to |data[0]|
        invariant |block1| == |block2| == |block3| == k
        invariant k > 0 ==> |data[j]| >= k
        invariant forall m :: 0 <= m < k ==> |data[j][m]| >= 6
        invariant forall m :: 0 <= m < k ==>
          block1[m] == data[j][m][1] && block2[m] == data[j][m][3] && block3[m] == (data[j][m][4], data[j][m][5])
      {
        if k >= |data[j]| || |data[j][k]| < 6 {
          return Err(IndexError);
        }
        block1 := block1 + [data[j][k][1]];
        block2 := block2 + [data[j][k][3]];
        block3 := block3 + [(data[j][k][4], data[j][k][5])];
      }
      aod := aod + [block1];
      ssa := ssa + [block2];
      refIdx := refIdx + [block3];
    }
    if |data| == 0 {
      return Err(IndexError);
    }
    var wl: seq<int> := [];
    for l := 0 to |data[0]|
      invariant |wl| == l
      invariant forall m :: 0 <= m < l ==> wl[m] == TruncateTowardZero(data[0][m][0] * 1000.0)
    {
      wl := wl + [TruncateTowardZero(data[0][l][0] * 1000.0)];
    }
    r := Ok(Some(Par(aod, ssa, refIdx, wl)));
  }

  /** The `vol` branch of `formatdata`. */
  method FormatVol(data: seq<seq<seq<real>>>) returns (r: Result<Option<Formatted>, ImportError>)
    ensures r.Err? <==> !WellShaped(data, 1)
    ensures r.Ok? ==> r.value.Some? && r.value.value.Vol?
    ensures r.Ok? ==>
      var f := r.value.value;
      && |f.volDist| == |data| && |f.sizes| == |data[0]|
      && (forall j :: 0 <= j < |data| ==> |f.volDist[j]| == |data[0]|)
      && (forall j, k :: 0 <= j < |data| && 0 <= k < |data[0]| ==> f.volDist[j][k] == data[j][k][0])
      && (forall l :: 0 <= l < |data[0]| ==> f.sizes[l] == data[0][l][0])
  {
    var volDist: seq<seq<real>> := [];
    for j := 0 to |data|
      invariant |volDist| == j
      invariant forall i :: 0 <= i < j ==> |data[i]| >= |data[0]|
      invariant forall i, k :: 0 <= i < j && 0 <= k < |data[0]| ==> |data[i][k]| >= 1
      invariant forall i :: 0 <= i < j ==> |volDist[i]| == |data[0]|
      invariant forall i, k :: 0 <= i < j && 0 <= k < |data[0]| ==> volDist[i][k] == data[i][k][0]
    {
      var block: seq<real> := [];
      for k := 0 to |data[0]|
        invariant |block| == k
        invariant k > 0 ==> |data[j]| >= k
        invariant forall m :: 0 <= m < k ==> |data[j][m]| >= 1
        invariant forall m :: 0 <= m < k ==> block[m] == data[j][m][0]
      {
        if k >= |data[j]| || |data[j][k]| < 1 {
          return Err(IndexError);
        }
        block := block + [data[j][k][0]];
      }
      volDist := volDist + [block];
    }
    if |data| == 0 {
      return Err(IndexError);
    }
    var sizes: seq<real> := [];
    for l := 0 to |data[0]|
      invariant |sizes| == l
      invariant forall m :: 0 <= m < l ==> sizes[m] == data[0][m][0]
    {
      sizes := sizes + [data[0][l][0]];
    }
    r := Ok(Some(Vol(volDist, sizes)));
  }
}
