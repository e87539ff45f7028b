/**
  Field extraction from the two NMEA 0183 sentences the tracker reads from its
  GPS receiver at start-up: `$GPGGA` (position fix) and `$GPRMC` (recommended
  minimum data, carrying the UTC date and time).

  The numeric and date conversions the source applies to the extracted fields
  (`float(...)`, `datetime.strptime(...)`) are not part of this model: the
  functions return the field texts those conversions receive.
*/
module Nmea {
  import opened Wrappers

  /** Python's `s.split(sep)` with an explicit separator: never empty, one field
      more than there are separators. */
  function Split(s: string, sep: char): (fields: seq<string>)
    ensures |fields| >= 1
    ensures forall i :: 0 <= i < |fields| ==> sep !in fields[i]
    decreases |s|
  {
    if s == [] then [""]
    else
      var rest := Split(s[1..], sep);
      if s[0] == sep then [""] + rest
      else [[s[0]] + rest[0]] + rest[1..]
  }

  /** `sep.join(fields)`, the inverse of Split. */
  function Join(fields: seq<string>, sep: char): string
    requires |fields| >= 1
    decreases |fields|
  {
    if |fields| == 1 then fields[0] else fields[0] + [sep] + Join(fields[1..], sep)
  }

  /** Number of occurrences of `c` in `s`. */
  function Count(s: string, c: char): nat
  {
    if s == [] then 0 else (if s[0] == c then 1 else 0) + Count(s[1..], c)
  }

  /** Splitting loses nothing: joining the fields back gives the sentence. */
  lemma {:induction false} JoinSplit(s: string, sep: char)
    ensures Join(Split(s, sep), sep) == s
    decreases |s|
  {
    if s != [] {
      JoinSplit(s[1..], sep);
      var rest := Split(s[1..], sep);
      if s[0] != sep {
        if |rest| == 1 {
        } else {
          assert ([s[0]] + rest[0]) + [sep] + Join(rest[1..], sep)
              == [s[0]] + (rest[0] + [sep] + Join(rest[1..], sep));
        }
      } else {
        assert ([""] + rest)[1..] == rest;
      }
    }
  }

  /** Splitting the join of separator-free fields gives the same fields back. */
  lemma {:induction false} SplitJoin(fields: seq<string>, sep: char)
    requires |fields| >= 1
    requires forall i :: 0 <= i < |fields| ==> sep !in fields[i]
    ensures Split(Join(fields, sep), sep) == fields
    decreases |fields|, |fields[0]|
  {
    if fields[0] != [] {
      var f0 := fields[0];
      var tail := [f0[1..]] + fields[1..];
      assert Join(fields, sep) == [f0[0]] + Join(tail, sep) by {
        if |fields| == 1 {
          assert tail == [f0[1..]];
        } else {
          assert tail[1..] == fields[1..];
          assert Join(tail, sep) == f0[1..] + [sep] + Join(fields[1..], sep);
        }
      }
      assert f0[0] in f0;
      SplitJoin(tail, sep);
      assert Split(Join(fields, sep), sep) == [[f0[0]] + tail[0]] + tail[1..];
      assert [f0[0]] + f0[1..] == f0;
      assert [f0] + fields[1..] == fields;
    } else if |fields| > 1 {
      assert Join(fields, sep) == [sep] + Join(fields[1..], sep);
      SplitJoin(fields[1..], sep);
      assert [""] + fields[1..] == fields;
    }
  }

  /** There is one field per separator, plus one. */
  lemma {:induction false} SplitCount(s: string, sep: char)
    ensures |Split(s, sep)| == Count(s, sep) + 1
    decreases |s|
  {
    if s != [] {
      SplitCount(s[1..], sep);
    }
  }

  /** Why a sentence of the right type was still refused: it has fewer than the
      ten fields the source indexes (an IndexError in Python). */
  datatype SentenceError = MissingField

  /** The three GGA fields the source converts: latitude (field 2), longitude
      (field 4) and antenna height above mean sea level (field 9). NMEA 0183
      writes the latitude as ddmm.mmmm with its hemisphere in field 3; the source
      reads field 2 as it stands and ignores the hemisphere letters. */
  datatype GgaFields = GgaFields(latitude: string, longitude: string, height: string)

  const GgaTag: string := "$GPGGA"
  const RmcTag: string := "$GPRMC"

  /** `position_gps`: the GGA fields when field 0 is `$GPGGA`, None for any other
      sentence, an error when the sentence is too short to hold field 9. */
  function PositionGps(sentence: string): (r: Result<Option<GgaFields>, SentenceError>)
    ensures var f := Split(sentence, ',');
      && (r == Ok(None) <==> f[0] != GgaTag)
      && (r.Err? <==> f[0] == GgaTag && |f| < 10)
      && (r.Ok? && r.value.Some? ==> |f| >= 10 && r.value.value == GgaFields(f[2], f[4], f[9]))
  {
    var f := Split(sentence, ',');
    if f[0] == GgaTag then
      if |f| < 10 then Err(MissingField) else Ok(Some(GgaFields(f[2], f[4], f[9])))
    else Ok(None)
  }

  /** `datetime_gps`: for a `$GPRMC` sentence, the text handed to the date parser,
      the date (field 9, ddmmyy) followed by the UTC time (field 1, hhmmss.ss);
      None for any other sentence. */
  function DatetimeGps(sentence: string): (r: Result<Option<string>, SentenceError>)
    ensures var f := Split(sentence, ',');
      && (r == Ok(None) <==> f[0] != RmcTag)
      && (r.Err? <==> f[0] == RmcTag && |f| < 10)
      && (r.Ok? && r.value.Some? ==> |f| >= 10 && r.value.value == f[9] + f[1])
  {
    var f := Split(sentence, ',');
    if f[0] == RmcTag then
      if |f| < 10 then Err(MissingField) else Ok(Some(f[9] + f[1]))
    else Ok(None)
  }

  /** A well-formed GGA sentence built from its fields yields exactly the
      latitude, longitude and height fields it was built from. */
  lemma PositionGpsOfBuiltSentence(fields: seq<string>)
    requires |fields| >= 10 && fields[0] == GgaTag
    requires forall i :: 0 <= i < |fields| ==> ',' !in fields[i]
    ensures PositionGps(Join(fields, ',')) == Ok(Some(GgaFields(fields[2], fields[4], fields[9])))
  {
    SplitJoin(fields, ',');
  }

  /** A well-formed RMC sentence built from its fields yields date then time. */
  lemma DatetimeGpsOfBuiltSentence(fields: seq<string>)
    requires |fields| >= 10 && fields[0] == RmcTag
    requires forall i :: 0 <= i < |fields| ==> ',' !in fields[i]
    ensures DatetimeGps(Join(fields, ',')) == Ok(Some(fields[9] + fields[1]))
  {
    SplitJoin(fields, ',');
  }
}
