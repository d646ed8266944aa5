// The two line parsers of tire_catalog/import_goodyear_2022.py: a row of
// the tire data section becomes a tire specification, and a row of an
// application chart becomes an aircraft-to-tire mapping. Each parser is a
// method that walks its tokens as the source does, proved equal to a
// function that states the same reading declaratively; the lemmas state
// what the reading guarantees.

module GoodyearImport {
  import opened Wrappers
  import opened Strings
  import opened GoodyearPatterns
  import TireModels

  // =====================================================================
  // Data section rows
  // =====================================================================

  /** The tube-type codes a data row may carry after its ply rating. */
  predicate IsTubeTypeCode(code: string)
  {
    code == "TT" || code == "TL" || code == "TT/TL"
  }

  /** The optional ply rating and tube-type code at the head of the tokens, and the index after them. */
  datatype LeadingTokens = LeadingTokens(plyRating: Option<string>, ttTl: Option<string>, next: nat)

  function ReadLeadingTokens(tokens: seq<string>): (r: LeadingTokens)
    ensures r.next <= |tokens| && r.next <= 2
  {
    var ply := PlyRatingAt(tokens, 0);
    var idx := if ply.Some? then 1 else 0;
    var code := TubeTypeAt(tokens, idx);
    LeadingTokens(ply, code, if code.Some? then idx + 1 else idx)
  }

  /** The ply rating written at `i`, with its `PR` suffix removed. */
  function PlyRatingAt(tokens: seq<string>, i: nat): (ply: Option<string>)
    ensures ply.Some? ==> i < |tokens| && IsPlyToken(tokens[i])
  {
    if i < |tokens| && IsPlyToken(tokens[i]) then Some(Strip(RemoveAll(tokens[i], "PR"))) else None
  }

  /** The tube-type code written at `i`, in upper case. */
  function TubeTypeAt(tokens: seq<string>, i: nat): (code: Option<string>)
    ensures code.Some? ==> i < |tokens| && IsTubeTypeCode(code.value)
  {
    if i < |tokens| && IsTubeTypeCode(Upper(tokens[i])) then Some(Upper(tokens[i])) else None
  }

  /** `parse_number` of each token, in order. */
  function ParseAll(tokens: seq<string>): (parsed: seq<Option<real>>)
    ensures |parsed| == |tokens|
  {
    if tokens == [] then [] else ParseAll(tokens[..|tokens| - 1]) + [ParseNumber(tokens[|tokens| - 1])]
  }

  /** The values of the tokens that parse as numbers, in order. */
  function NumericValues(parsed: seq<Option<real>>): (values: seq<real>)
    ensures |values| <= |parsed|
  {
    if parsed == [] then []
    else
      var last := parsed[|parsed| - 1];
      NumericValues(parsed[..|parsed| - 1]) + (if last.Some? then [last.value] else [])
  }

  /** The tokens that do not parse as numbers and look like part numbers, in order. */
  function PartNumberCandidates(tokens: seq<string>, parsed: seq<Option<real>>): seq<string>
    requires |parsed| == |tokens|
  {
    if tokens == [] then []
    else
      var n := |tokens| - 1;
      PartNumberCandidates(tokens[..n], parsed[..n])
      + (if parsed[n].None? && LooksLikePartNumber(tokens[n]) then [tokens[n]] else [])
  }

  /** The value at `i` when it lies strictly between `lo` and `hi`. */
  function ColumnIn(values: seq<real>, i: nat, lo: real, hi: real): (c: Option<real>)
    ensures c.Some? ==> i < |values| && c.value == values[i] && lo < c.value < hi
  {
    if i < |values| && lo < values[i] < hi then Some(values[i]) else None
  }

  function After(i: nat, column: Option<real>): nat
  {
    if column.Some? then i + 1 else i
  }

  /** Speed, rated load, inflation, braking and bottoming loads read in turn, and the index after them. */
  datatype LoadColumns = LoadColumns(
    speed: Option<real>,
    load: Option<real>,
    inflation: Option<real>,
    braking: Option<real>,
    bottoming: Option<real>,
    next: nat)

  function ReadLoadColumns(values: seq<real>): (r: LoadColumns)
    ensures r.next <= |values|
  {
    if values == [] then LoadColumns(None, None, None, None, None, 0)
    else
      var speed := if values[0] < 300.0 then Some(values[0]) else None;
      var i1 := After(0, speed);
      var load := ColumnIn(values, i1, 100.0, 100000.0);
      var i2 := After(i1, load);
      var inflation := ColumnIn(values, i2, 10.0, 600.0);
      var i3 := After(i2, inflation);
      var braking := ColumnIn(values, i3, 100.0, 200000.0);
      var i4 := After(i3, braking);
      var bottoming := ColumnIn(values, i4, 100.0, 200000.0);
      LoadColumns(speed, load, inflation, braking, bottoming, After(i4, bottoming))
  }

  /** Outside diameter and section width, in inches, as found so far. */
  datatype Dimensions = Dimensions(outsideDiameter: Option<real>, sectionWidth: Option<real>)

  /** One value of the trailing scan: the first in (5, 60) is the diameter; a later one in (2, 20) the width. */
  function DimensionStep(d: Dimensions, v: real): Dimensions
  {
    if 5.0 < v < 60.0 && d.outsideDiameter.None? then Dimensions(Some(v), d.sectionWidth)
    else if 2.0 < v < 20.0 && d.sectionWidth.None? && d.outsideDiameter.Some? then Dimensions(d.outsideDiameter, Some(v))
    else d
  }

  /** The scan over `values[start..stop]`. */
  function ScanDimensions(values: seq<real>, start: nat, stop: nat): Dimensions
    requires start <= stop <= |values|
    decreases stop
  {
    if stop == start then Dimensions(None, None) else DimensionStep(ScanDimensions(values, start, stop - 1), values[stop - 1])
  }

  /** The specification read from the tokens after the size, or nothing when no rated load is found. */
  function TireSpecOfTokens(size: string, tokens: seq<string>, rawLine: string, page: int): Option<TireModels.TireSpec>
  {
    var lead := ReadLeadingTokens(tokens);
    var rest := tokens[lead.next..];
    var parsed := ParseAll(rest);
    var values := NumericValues(parsed);
    var columns := ReadLoadColumns(values);
    var dims := if values == [] then Dimensions(None, None) else ScanDimensions(values, columns.next, |values|);
    var parts := PartNumberCandidates(rest, parsed);
    if columns.load.None? then None
    else
      Some(TireModels.ImportedTireSpec(
        size, lead.plyRating, lead.ttTl, columns.speed, columns.load.value, columns.inflation,
        columns.braking, columns.bottoming, dims.outsideDiameter, dims.sectionWidth,
        if parts == [] then None else Some(parts[0]), rawLine, page))
  }

  /** `parse_tire_data_line` as a function of the line and page. */
  function TireDataLine(line: string, page: int): Option<TireModels.TireSpec>
  {
    var stripped := Strip(line);
    if stripped == [] then None
    else
      match SizeMatchEnd(stripped)
      case None => None
      case Some(g) =>
        var tokens := Split(Strip(stripped[SpaceRun(stripped, g)..]));
        if |tokens| < 3 then None
        else TireSpecOfTokens(Upper(stripped[..g]), tokens, stripped, page)
  }

  /** The first step of `parse_tire_data_line`'s token walk: an optional ply rating, then an optional tube-type code. */
  method ReadLeading(tokens: seq<string>) returns (plyRating: Option<string>, ttTl: Option<string>, idx: nat)
    ensures LeadingTokens(plyRating, ttTl, idx) == ReadLeadingTokens(tokens)
  {
    var afterPly;
    plyRating, afterPly := ReadPlyRating(tokens);
    ttTl, idx := ReadTubeType(tokens, afterPly);
  }

  /** The ply rating when the first token is one; the index moves past it. */
  method ReadPlyRating(tokens: seq<string>) returns (plyRating: Option<string>, idx: nat)
    ensures plyRating == PlyRatingAt(tokens, 0)
    ensures idx == if plyRating.Some? then 1 else 0
  {
    plyRating, idx := None, 0;
    if idx < |tokens| {
      var token := tokens[idx];
      if IsPlyToken(token) {
        plyRating := Some(Strip(RemoveAll(token, "PR")));
        idx := idx + 1;
      }
    }
  }

  /** The tube-type code when the token at `start` is one; the index moves past it. */
  method ReadTubeType(tokens: seq<string>, start: nat) returns (ttTl: Option<string>, idx: nat)
    ensures ttTl == TubeTypeAt(tokens, start)
    ensures idx == if ttTl.Some? then start + 1 else start
  {
    ttTl, idx := None, start;
    if idx < |tokens| {
      var token := Upper(tokens[idx]);
      if IsTubeTypeCode(token) {
        ttTl := Some(token);
        idx := idx + 1;
      }
    }
  }

  /** The loop over the tokens after the leading ones: numbers are kept, and non-numeric tokens that look like part numbers. */
  method CollectTokens(rest: seq<string>) returns (numbers: seq<real>, partNums: seq<string>)
    ensures numbers == NumericValues(ParseAll(rest))
    ensures partNums == PartNumberCandidates(rest, ParseAll(rest))
  {
    numbers, partNums := [], [];
    ghost var parsed: seq<Option<real>> := [];
    var i := 0;
    while i < |rest|
      invariant i <= |rest|
      invariant parsed == ParseAll(rest[..i])
      invariant numbers == NumericValues(parsed)
      invariant partNums == PartNumberCandidates(rest[..i], parsed)
    {
      var num := ParseNumber(rest[i]);
      PrefixStep(rest, i);
      CollectStep(rest[..i], rest[i]);
      NumericValuesStep(parsed, num);
      PartNumberCandidatesStep(rest[..i], parsed, rest[i], num);
      if num.Some? {
        numbers := numbers + [num.value];
      } else if LooksLikePartNumber(rest[i]) {
        partNums := partNums + [rest[i]];
      }
      parsed := parsed + [num];
      i := i + 1;
    }
    assert rest[..i] == rest;
  }

  lemma PrefixStep<X>(xs: seq<X>, i: nat)
    requires i < |xs|
    ensures xs[..i + 1] == xs[..i] + [xs[i]]
  {
  }

  /** One more parse adds its value to the numbers when it is present. */
  lemma NumericValuesStep(parsed: seq<Option<real>>, o: Option<real>)
    ensures NumericValues(parsed + [o]) == if o.Some? then NumericValues(parsed) + [o.value] else NumericValues(parsed)
  {
    assert (parsed + [o])[..|parsed|] == parsed;
  }

  /** One more token is added to the candidates when it did not parse and looks like a part number. */
  lemma PartNumberCandidatesStep(tokens: seq<string>, parsed: seq<Option<real>>, t: string, o: Option<real>)
    requires |tokens| == |parsed|
    ensures PartNumberCandidates(tokens + [t], parsed + [o])
      == if o.None? && LooksLikePartNumber(t) then PartNumberCandidates(tokens, parsed) + [t]
         else PartNumberCandidates(tokens, parsed)
  {
    assert (parsed + [o])[..|parsed|] == parsed;
    assert (tokens + [t])[..|tokens|] == tokens;
  }

  /** One more token extends the parses by its own. */
  lemma CollectStep(tokens: seq<string>, t: string)
    ensures ParseAll(tokens + [t]) == ParseAll(tokens) + [ParseNumber(t)]
  {
    assert (tokens + [t])[..|tokens|] == tokens;
  }

  /** The numeric columns, each taken when the next value lies in its range. */
  method AssignColumns(numbers: seq<real>) returns (columns: LoadColumns)
    ensures columns == ReadLoadColumns(numbers)
  {
    if |numbers| == 0 {
      return LoadColumns(None, None, None, None, None, 0);
    }
    var ratedSpeed, ratedLoad, ratedInflation, maxBraking, maxBottoming: Option<real> := None, None, None, None, None;
    var firstVal := numbers[0];
    var numIdx := 0;
    if firstVal < 300.0 {
      ratedSpeed := Some(firstVal);
      numIdx := 1;
    }
    if numIdx < |numbers| {
      var val := numbers[numIdx];
      if 100.0 < val < 100000.0 {
        ratedLoad := Some(val);
        numIdx := numIdx + 1;
      }
    }
    if numIdx < |numbers| {
      var val := numbers[numIdx];
      if 10.0 < val < 600.0 {
        ratedInflation := Some(val);
        numIdx := numIdx + 1;
      }
    }
    if numIdx < |numbers| {
      var val := numbers[numIdx];
      if 100.0 < val < 200000.0 {
        maxBraking := Some(val);
        numIdx := numIdx + 1;
      }
    }
    if numIdx < |numbers| {
      var val := numbers[numIdx];
      if 100.0 < val < 200000.0 {
        maxBottoming := Some(val);
        numIdx := numIdx + 1;
      }
    }
    columns := LoadColumns(ratedSpeed, ratedLoad, ratedInflation, maxBraking, maxBottoming, numIdx);
  }

  /** The loop over the values after the columns: the first in (5, 60) is the diameter, a later one in (2, 20) the width. */
  method ScanTrailing(numbers: seq<real>, start: nat) returns (outsideDiameter: Option<real>, sectionWidth: Option<real>)
    requires start <= |numbers|
    ensures Dimensions(outsideDiameter, sectionWidth) == ScanDimensions(numbers, start, |numbers|)
  {
    outsideDiameter, sectionWidth := None, None;
    var j := start;
    while j < |numbers|
      invariant start <= j <= |numbers|
      invariant Dimensions(outsideDiameter, sectionWidth) == ScanDimensions(numbers, start, j)
    {
      var val := numbers[j];
      if 5.0 < val < 60.0 && outsideDiameter.None? {
        outsideDiameter := Some(val);
      } else if 2.0 < val < 20.0 && sectionWidth.None? && outsideDiameter.Some? {
        sectionWidth := Some(val);
      }
      j := j + 1;
    }
  }

  /**
   * `parse_tire_data_line`: match the size at the start of the stripped
   * line, split the rest, consume an optional ply rating and tube-type
   * code, collect the numeric and part-number tokens, assign the numeric
   * columns in turn and scan the rest for diameter and width.
   */
  method ParseTireDataLine(line: string, page: int) returns (spec: Option<TireModels.TireSpec>)
    ensures spec == TireDataLine(line, page)
  {
    var stripped := Strip(line);
    if stripped == [] {
      return None;
    }
    var sizeEnd := SizeMatchEnd(stripped);
    if sizeEnd.None? {
      return None;
    }
    var size := Upper(stripped[..sizeEnd.value]);
    var remainder := Strip(stripped[SpaceRun(stripped, sizeEnd.value)..]);
    var tokens := Split(remainder);
    if |tokens| < 3 {
      return None;
    }
    spec := ReadTokens(size, tokens, stripped, page);
  }

  /** The part of `parse_tire_data_line` that reads the tokens after the size. */
  method ReadTokens(size: string, tokens: seq<string>, rawLine: string, page: int) returns (spec: Option<TireModels.TireSpec>)
    ensures spec == TireSpecOfTokens(size, tokens, rawLine, page)
  {
    var plyRating, ttTl, idx := ReadLeading(tokens);
    var numbers, partNums := CollectTokens(tokens[idx..]);
    var columns := AssignColumns(numbers);
    var outsideDiameter, sectionWidth: Option<real> := None, None;
    if |numbers| >= 1 {
      outsideDiameter, sectionWidth := ScanTrailing(numbers, columns.next);
    }
    var partNumber: Option<string> := None;
    if partNums != [] {
      partNumber := Some(partNums[0]);
    }
    if columns.load.None? {
      return None;
    }
    spec := Some(TireModels.ImportedTireSpec(
      size, plyRating, ttTl, columns.speed, columns.load.value, columns.inflation, columns.braking,
      columns.bottoming, outsideDiameter, sectionWidth, partNumber, rawLine, page));
  }

  // ---------------------------------------------------------------------
  // What a data row yields
  // ---------------------------------------------------------------------

  /**
   * A row is read only when its stripped text starts with a size followed
   * by whitespace: the size is that first word in upper case, the row keeps
   * the stripped line and the page, and a rated load in (100, 100000) was
   * found among its numbers.
   */
  lemma TireDataLineShape(line: string, page: int)
    ensures Strip(line) == [] ==> TireDataLine(line, page).None?
    ensures TireDataLine(line, page).Some? ==>
      var s := Strip(line);
      var spec := TireDataLine(line, page).value;
      SizeMatchEnd(s).Some? && spec.size == Upper(s[..WordLength(s)])
      && spec.source == "goodyear_2022" && spec.rawLine == Some(s) && spec.page == Some(page)
      && 100.0 < spec.ratedLoadLbs < 100000.0
  {
    var s := Strip(line);
    if TireDataLine(line, page).Some? {
      var g := SizeMatchEnd(s).value;
      SizeIsFirstWord(s);
      var tokens := Split(Strip(s[SpaceRun(s, g)..]));
      assert TireDataLine(line, page) == TireSpecOfTokens(Upper(s[..g]), tokens, s, page);
      TireSpecOfTokensShape(Upper(s[..g]), tokens, s, page);
    }
  }

  /** The specification read from the tokens carries the size, line and page it was given, and a rated load in (100, 100000). */
  lemma TireSpecOfTokensShape(size: string, tokens: seq<string>, rawLine: string, page: int)
    ensures var r := TireSpecOfTokens(size, tokens, rawLine, page);
      r.Some? ==>
        r.value.size == size && r.value.source == "goodyear_2022"
        && r.value.rawLine == Some(rawLine) && r.value.page == Some(page)
        && 100.0 < r.value.ratedLoadLbs < 100000.0
  {
    var lead := ReadLeadingTokens(tokens);
    LoadColumnsProperties(NumericValues(ParseAll(tokens[lead.next..])));
  }

  /** A row whose text starts with neither a digit nor a letter and a digit cannot start with a size, and is skipped. */
  lemma NonSizeLineSkipped(line: string, page: int)
    requires var s := Strip(line); s != [] && !IsDigit(s[0]) && !(IsLetter(s[0]) && 1 < |s| && IsDigit(s[1]))
    ensures TireDataLine(line, page).None?
  {
    var s := Strip(line);
    assert DigitRun(s, 0) == 0;
    if IsLetter(s[0]) {
      assert DigitRun(s, 1) == 1;
    }
    assert XSizeEnd(s).None? && AltSizeEnd(s).None? && MetricSizeEnd(s).None?;
    assert SizeMatchEnd(s).None?;
  }

  lemma EmptyLineSkipped(page: int)
    ensures TireDataLine("", page).None?
  {
    TireDataLineShape("", page);
  }

  lemma HeaderLineSkipped(page: int)
    ensures TireDataLine("This is a header row with no tire data", page).None?
  {
    var header := "This is a header row with no tire data";
    HeaderLineUnpadded(header);
    NonSizeLineSkipped(header, page);
  }

  lemma HeaderLineUnpadded(header: string)
    requires header == "This is a header row with no tire data"
    ensures |header| > 1 && header[0] == 'T' && header[1] == 'h'
    ensures Strip(header) == header
  {
    assert header[0] == 'T' && header[1] == 'h' && header[|header| - 1] == 'a';
    StripUnpadded(header);
  }

  /** The present columns, in the order they are read. */
  function PresentColumns(c: LoadColumns): seq<real>
  {
    (if c.speed.Some? then [c.speed.value] else [])
    + (if c.load.Some? then [c.load.value] else [])
    + (if c.inflation.Some? then [c.inflation.value] else [])
    + (if c.braking.Some? then [c.braking.value] else [])
    + (if c.bottoming.Some? then [c.bottoming.value] else [])
  }

  /**
   * The columns take consecutive values from the front: the present ones
   * are exactly the values before `next`, each within its range; the speed
   * is the first value when it is below 300, and the rated load is the
   * value after it (the first value otherwise) when that lies in (100, 100000).
   */
  lemma LoadColumnsProperties(values: seq<real>)
    ensures var c := ReadLoadColumns(values);
      PresentColumns(c) == values[..c.next]
      && (c.speed.Some? ==> c.speed.value < 300.0)
      && (c.load.Some? ==> 100.0 < c.load.value < 100000.0)
      && (c.inflation.Some? ==> 10.0 < c.inflation.value < 600.0)
      && (c.braking.Some? ==> 100.0 < c.braking.value < 200000.0)
      && (c.bottoming.Some? ==> 100.0 < c.bottoming.value < 200000.0)
    ensures values != [] ==>
      var c := ReadLoadColumns(values);
      var i := if values[0] < 300.0 then 1 else 0;
      (c.speed.Some? <==> values[0] < 300.0)
      && (c.load.Some? <==> i < |values| && 100.0 < values[i] < 100000.0)
      && (c.load.Some? ==> c.load.value == values[i])
  {
    var c := ReadLoadColumns(values);
    if values != [] {
      var i1 := After(0, c.speed);
      var i2 := After(i1, c.load);
      var i3 := After(i2, c.inflation);
      var i4 := After(i3, c.braking);
      assert values[..i1] == (if c.speed.Some? then [c.speed.value] else []);
      assert values[..i2] == values[..i1] + (if c.load.Some? then [c.load.value] else []);
      assert values[..i3] == values[..i2] + (if c.inflation.Some? then [c.inflation.value] else []);
      assert values[..i4] == values[..i3] + (if c.braking.Some? then [c.braking.value] else []);
      assert values[..c.next] == values[..i4] + (if c.bottoming.Some? then [c.bottoming.value] else []);
    }
  }

  /** The first index in `values[start..stop]` whose value lies strictly between `lo` and `hi`. */
  function FirstIn(values: seq<real>, start: nat, stop: nat, lo: real, hi: real): (r: Option<nat>)
    requires start <= stop <= |values|
    ensures r.Some? ==> start <= r.value < stop && lo < values[r.value] < hi
    ensures r.Some? ==> forall m :: start <= m < r.value ==> !(lo < values[m] < hi)
    ensures r.None? ==> forall m :: start <= m < stop ==> !(lo < values[m] < hi)
    decreases stop - start
  {
    if start == stop then None
    else if lo < values[start] < hi then Some(start)
    else FirstIn(values, start + 1, stop, lo, hi)
  }

  /** Extending the range by one value changes the first match only when there was none. */
  lemma FirstInExtend(values: seq<real>, start: nat, stop: nat, lo: real, hi: real)
    requires start < stop <= |values|
    ensures FirstIn(values, start, stop, lo, hi)
      == if FirstIn(values, start, stop - 1, lo, hi).Some? then FirstIn(values, start, stop - 1, lo, hi)
         else if lo < values[stop - 1] < hi then Some(stop - 1) else None
  {
  }

  function ValueAt(values: seq<real>, i: Option<nat>): (v: Option<real>)
    requires i.Some? ==> i.value < |values|
    ensures v.Some? <==> i.Some?
  {
    if i.Some? then Some(values[i.value]) else None
  }

  /**
   * The trailing scan finds the first value in (5, 60) as the outside
   * diameter, and the first value in (2, 20) after that one as the section
   * width; there is no width without a diameter.
   */
  lemma {:induction false} ScanDimensionsFirst(values: seq<real>, start: nat, stop: nat)
    requires start <= stop <= |values|
    ensures var d := ScanDimensions(values, start, stop);
      var od := FirstIn(values, start, stop, 5.0, 60.0);
      d.outsideDiameter == ValueAt(values, od)
      && d.sectionWidth == (if od.Some? then ValueAt(values, FirstIn(values, od.value + 1, stop, 2.0, 20.0)) else None)
    decreases stop
  {
    if stop > start {
      ScanDimensionsFirst(values, start, stop - 1);
      FirstInExtend(values, start, stop, 5.0, 60.0);
      var od := FirstIn(values, start, stop - 1, 5.0, 60.0);
      if od.Some? && od.value + 1 < stop {
        FirstInExtend(values, od.value + 1, stop, 2.0, 20.0);
      }
    }
  }

  /** Each entry of the parses is `parse_number` of the token at the same place. */
  lemma {:induction false} ParseAllAt(tokens: seq<string>, k: nat)
    requires k < |tokens|
    ensures ParseAll(tokens)[k] == ParseNumber(tokens[k])
  {
    if k < |tokens| - 1 {
      ParseAllAt(tokens[..|tokens| - 1], k);
    }
  }

  /** The collected numbers are exactly the values of the tokens that parse as numbers. */
  lemma {:induction false} NumericValuesMembers(parsed: seq<Option<real>>, v: real)
    ensures v in NumericValues(parsed) <==> exists k :: 0 <= k < |parsed| && parsed[k] == Some(v)
  {
    if parsed != [] {
      var n := |parsed| - 1;
      NumericValuesMembers(parsed[..n], v);
      if v in NumericValues(parsed[..n]) {
        var k :| 0 <= k < n && parsed[..n][k] == Some(v);
        assert parsed[k] == Some(v);
      }
      if k :| 0 <= k < |parsed| && parsed[k] == Some(v) {
        if k < n {
          assert parsed[..n][k] == Some(v);
        }
      }
    }
  }

  /** The part-number candidates are exactly the tokens that are not numbers and start with five letters or digits. */
  lemma {:induction false} PartNumberCandidatesMembers(tokens: seq<string>, parsed: seq<Option<real>>, t: string)
    requires |parsed| == |tokens|
    ensures t in PartNumberCandidates(tokens, parsed)
      <==> exists k :: 0 <= k < |tokens| && tokens[k] == t && parsed[k].None? && LooksLikePartNumber(t)
  {
    if tokens != [] {
      var n := |tokens| - 1;
      PartNumberCandidatesMembers(tokens[..n], parsed[..n], t);
      if t in PartNumberCandidates(tokens[..n], parsed[..n]) {
        var k :| 0 <= k < n && tokens[..n][k] == t && parsed[..n][k].None? && LooksLikePartNumber(t);
        assert tokens[k] == t && parsed[k].None?;
      }
      if k :| 0 <= k < |tokens| && tokens[k] == t && parsed[k].None? && LooksLikePartNumber(t) {
        if k < n {
          assert tokens[..n][k] == t && parsed[..n][k].None?;
        }
      }
    }
  }

  /** The column reading of the first data row in the catalogue's own tests: 160 mph, 1600 lb, 55 psi, 2400 and 3200 lb. */
  lemma ColumnsExample()
    ensures var values := [160.0, 1600.0, 55.0, 2400.0, 3200.0, 301234.0, 17.5, 15.5, 6.0];
      ReadLoadColumns(values) == LoadColumns(Some(160.0), Some(1600.0), Some(55.0), Some(2400.0), Some(3200.0), 5)
      && ScanDimensions(values, 5, |values|) == Dimensions(Some(17.5), Some(15.5))
  {
    var values := [160.0, 1600.0, 55.0, 2400.0, 3200.0, 301234.0, 17.5, 15.5, 6.0];
    ScanDimensionsFirst(values, 5, |values|);
    assert FirstIn(values, 5, 9, 5.0, 60.0) == Some(6);
    assert FirstIn(values, 7, 9, 2.0, 20.0) == Some(7);
  }

  // =====================================================================
  // Application chart rows
  // =====================================================================

  /** Text whose presence, in upper case, marks a header or a note rather than an application row. */
  const HEADER_KEYWORDS: seq<string> :=
    ["AIRCRAFT", "MODEL", "MAIN", "NOSE", "TAIL", "AUX", "NOTE:", "WARNING", "TIRE SIZE", "PLY", "---", "==="]

  /** The manufacturer prefixes, tried in this order. */
  const MANUFACTURERS: seq<string> :=
    ["CESSNA", "PIPER", "BEECH", "BEECHCRAFT", "MOONEY", "CIRRUS",
     "DIAMOND", "GRUMMAN", "BELLANCA", "MAULE", "VANS", "VAN'S",
     "AMERICAN CHAMPION", "AVIAT", "EXTRA", "PITTS", "AERONCA",
     "BOEING", "AIRBUS", "EMBRAER", "BOMBARDIER", "PILATUS"]

  /** `any(w in text for w in words)`. */
  predicate ContainsAny(text: string, words: seq<string>)
  {
    words != [] && (Contains(text, words[0]) || ContainsAny(text, words[1..]))
  }

  /** Whether each token is a tire size. */
  function SizeFlags(tokens: seq<string>): (flags: seq<bool>)
    ensures |flags| == |tokens|
  {
    seq(|tokens|, k requires 0 <= k < |tokens| => IsSizeToken(tokens[k]))
  }

  /** The positions of the flagged tokens, in order. */
  function FlaggedIndices(flags: seq<bool>): (indices: seq<nat>)
    ensures forall j :: 0 <= j < |indices| ==> indices[j] < |flags|
  {
    if flags == [] then []
    else
      var n := |flags| - 1;
      FlaggedIndices(flags[..n]) + (if flags[n] then [n] else [])
  }

  /** The flagged tokens, in upper case and in order. */
  function FlaggedUpper(tokens: seq<string>, flags: seq<bool>): (sizes: seq<string>)
    requires |flags| == |tokens|
  {
    if tokens == [] then []
    else
      var n := |tokens| - 1;
      FlaggedUpper(tokens[..n], flags[..n]) + (if flags[n] then [Upper(tokens[n])] else [])
  }

  /** The tokens that read TT or TL in any case, in upper case and in order. */
  function TubeCodes(tokens: seq<string>): (codes: seq<string>)
  {
    if tokens == [] then []
    else
      var n := |tokens| - 1;
      var u := Upper(tokens[n]);
      TubeCodes(tokens[..n]) + (if u == "TT" || u == "TL" then [u] else [])
  }

  /** The ply rating in the token after position `idx`, with `PR` removed (case-sensitively, as the source does). */
  function PlyAfter(tokens: seq<string>, idx: nat): Option<string>
  {
    if idx + 1 < |tokens| && IsPlyToken(tokens[idx + 1]) then Some(RemoveAll(tokens[idx + 1], "PR")) else None
  }

  /** The first of `manufacturers` that the upper-cased model starts with. */
  function FirstManufacturer(model: string, manufacturers: seq<string>): (m: Option<string>)
    ensures m.Some? ==> m.value in manufacturers && StartsWith(Upper(model), m.value)
  {
    if manufacturers == [] then None
    else if StartsWith(Upper(model), manufacturers[0]) then Some(manufacturers[0])
    else FirstManufacturer(model, manufacturers[1..])
  }

  /** A model text split into its manufacturer, when one is recognised, and the rest. */
  datatype ModelName = ModelName(manufacturer: Option<string>, model: string)

  function SplitManufacturer(model: string): ModelName
  {
    match FirstManufacturer(model, MANUFACTURERS)
    case None => ModelName(None, model)
    case Some(m) => ModelName(Some(m), Strip(model[|m|..]))
  }

  /** The row read from the tokens of a stripped line that is not a header. */
  function ApplicationOfTokens(tokens: seq<string>, line: string, page: int): Option<TireModels.ApplicationRow>
  {
    var flags := SizeFlags(tokens);
    var sizes := FlaggedUpper(tokens, flags);
    var indices := FlaggedIndices(flags);
    var first := if indices != [] then indices[0] else |tokens|;
    if |tokens| < 2 || sizes == [] || first == 0 then None
    else Some(RowOf(tokens, sizes, indices, first, line, page))
  }

  /** The row itself, once the sizes are found and the model text before the first is not empty. */
  function RowOf(tokens: seq<string>, sizes: seq<string>, indices: seq<nat>, first: nat, line: string, page: int)
    : TireModels.ApplicationRow
    requires sizes != [] && first <= |tokens|
  {
    var name := SplitManufacturer(Join(" ", tokens[..first]));
    var codes := TubeCodes(tokens);
    TireModels.ApplicationRow(
      name.manufacturer, name.model,
      Some(sizes[0]), if |sizes| >= 2 then Some(sizes[1]) else None,
      if |indices| >= 1 then PlyAfter(tokens, indices[0]) else None,
      if |indices| >= 2 then PlyAfter(tokens, indices[1]) else None,
      if codes == [] then None else Some(Join("/", codes)),
      Some(page), Some(line))
  }

  /** `parse_application_line` as a function of the line and page. */
  function ApplicationLine(line: string, page: int): Option<TireModels.ApplicationRow>
  {
    var s := Strip(line);
    if s == [] || ContainsAny(Upper(s), HEADER_KEYWORDS) then None
    else ApplicationOfTokens(Split(s), s, page)
  }

  // ---------------------------------------------------------------------
  // The application-row parser, token by token
  // ---------------------------------------------------------------------

  /**
   * `parse_application_line`: strip the line, skip blank lines and lines
   * holding a header keyword, then read the tokens.
   */
  method ParseApplicationLine(line: string, page: int) returns (row: Option<TireModels.ApplicationRow>)
    ensures row == ApplicationLine(line, page)
  {
    var s := Strip(line);
    if s == [] {
      return None;
    }
    var header := HasHeaderKeyword(Upper(s), HEADER_KEYWORDS);
    if header {
      return None;
    }
    row := ReadApplicationTokens(Split(s), s, page);
  }

  /** Tries the keywords one by one against the upper-cased line. */
  method HasHeaderKeyword(text: string, keywords: seq<string>) returns (found: bool)
    ensures found == ContainsAny(text, keywords)
  {
    var k := 0;
    while k < |keywords|
      invariant k <= |keywords|
      invariant ContainsAny(text, keywords) == ContainsAny(text, keywords[k..])
    {
      if Contains(text, keywords[k]) {
        return true;
      }
      assert keywords[k..][1..] == keywords[k + 1..];
      k := k + 1;
    }
    return false;
  }

  /** The row read from the tokens of a line that is neither blank nor a header. */
  method ReadApplicationTokens(tokens: seq<string>, line: string, page: int) returns (row: Option<TireModels.ApplicationRow>)
    ensures row == ApplicationOfTokens(tokens, line, page)
  {
    if |tokens| < 2 {
      return None;
    }
    var sizes, indices := FindSizes(tokens);
    if sizes == [] {
      return None;
    }
    var first := if indices != [] then indices[0] else |tokens|;
    var modelParts := tokens[..first];
    if modelParts == [] {
      return None;
    }
    var r := AssembleRow(tokens, sizes, indices, first, line, page);
    row := Some(r);
  }

  /** Names the model, takes the first two sizes and their ply ratings, and joins the codes. */
  method AssembleRow(tokens: seq<string>, sizes: seq<string>, indices: seq<nat>, first: nat, line: string, page: int)
    returns (row: TireModels.ApplicationRow)
    requires sizes != [] && first <= |tokens|
    ensures row == RowOf(tokens, sizes, indices, first, line, page)
  {
    var name := SplitModel(Join(" ", tokens[..first]));
    var mainTire := Some(sizes[0]);
    var auxTire := if |sizes| >= 2 then Some(sizes[1]) else None;
    var mainPly, auxPly := ReadPlies(tokens, indices);
    var codes := CollectCodes(tokens);
    var code := if codes == [] then None else Some(Join("/", codes));
    row := TireModels.ApplicationRow(name.manufacturer, name.model, mainTire, auxTire,
                                     mainPly, auxPly, code, Some(page), Some(line));
  }

  /** Walks the tokens, keeping the upper-cased size tokens and their positions. */
  method FindSizes(tokens: seq<string>) returns (sizes: seq<string>, indices: seq<nat>)
    ensures sizes == FlaggedUpper(tokens, SizeFlags(tokens))
    ensures indices == FlaggedIndices(SizeFlags(tokens))
  {
    sizes, indices := [], [];
    ghost var flags: seq<bool> := [];
    var i := 0;
    while i < |tokens|
      invariant i <= |tokens|
      invariant flags == SizeFlags(tokens[..i])
      invariant sizes == FlaggedUpper(tokens[..i], flags)
      invariant indices == FlaggedIndices(flags)
    {
      var isSize := IsSizeToken(tokens[i]);
      FindSizesStep(tokens, i, flags, isSize);
      if isSize {
        sizes := sizes + [Upper(tokens[i])];
        indices := indices + [i];
      }
      flags := flags + [isSize];
      i := i + 1;
    }
    assert tokens[..i] == tokens;
  }

  /** One more token extends the flags, and the sizes and positions when it is a size. */
  lemma FindSizesStep(tokens: seq<string>, i: nat, flags: seq<bool>, isSize: bool)
    requires i < |tokens| && flags == SizeFlags(tokens[..i]) && isSize == IsSizeToken(tokens[i])
    ensures flags + [isSize] == SizeFlags(tokens[..i + 1])
    ensures FlaggedUpper(tokens[..i + 1], flags + [isSize])
         == FlaggedUpper(tokens[..i], flags) + (if isSize then [Upper(tokens[i])] else [])
    ensures FlaggedIndices(flags + [isSize]) == FlaggedIndices(flags) + (if isSize then [i] else [])
  {
    PrefixStep(tokens, i);
    SizeFlagsStep(tokens[..i], tokens[i]);
    FlaggedUpperStep(tokens[..i], flags, tokens[i], isSize);
    FlaggedIndicesStep(flags, isSize);
  }

  lemma SizeFlagsStep(tokens: seq<string>, t: string)
    ensures SizeFlags(tokens + [t]) == SizeFlags(tokens) + [IsSizeToken(t)]
  {
    var longer := tokens + [t];
    assert forall k :: 0 <= k < |tokens| ==> longer[k] == tokens[k];
  }

  lemma FlaggedIndicesStep(flags: seq<bool>, b: bool)
    ensures FlaggedIndices(flags + [b]) == FlaggedIndices(flags) + (if b then [|flags|] else [])
  {
    assert (flags + [b])[..|flags|] == flags;
  }

  lemma FlaggedUpperStep(tokens: seq<string>, flags: seq<bool>, t: string, b: bool)
    requires |flags| == |tokens|
    ensures FlaggedUpper(tokens + [t], flags + [b]) == FlaggedUpper(tokens, flags) + (if b then [Upper(t)] else [])
  {
    assert (tokens + [t])[..|tokens|] == tokens;
    assert (flags + [b])[..|flags|] == flags;
  }

  /** Splits off the manufacturer, if the model starts with one. */
  method SplitModel(model: string) returns (name: ModelName)
    ensures name == SplitManufacturer(model)
  {
    var m := FindManufacturer(model, MANUFACTURERS);
    if m.Some? {
      name := ModelName(m, Strip(model[|m.value|..]));
    } else {
      name := ModelName(None, model);
    }
  }

  /** Tries the manufacturers in order and stops at the first prefix of the upper-cased model. */
  method FindManufacturer(model: string, manufacturers: seq<string>) returns (m: Option<string>)
    ensures m == FirstManufacturer(model, manufacturers)
  {
    var upper := Upper(model);
    var k := 0;
    while k < |manufacturers|
      invariant k <= |manufacturers|
      invariant FirstManufacturer(model, manufacturers) == FirstManufacturer(model, manufacturers[k..])
    {
      if StartsWith(upper, manufacturers[k]) {
        return Some(manufacturers[k]);
      }
      assert manufacturers[k..][1..] == manufacturers[k + 1..];
      k := k + 1;
    }
    return None;
  }

  /** The ply ratings after the first and the second size token. */
  method ReadPlies(tokens: seq<string>, indices: seq<nat>) returns (mainPly: Option<string>, auxPly: Option<string>)
    ensures mainPly == if |indices| >= 1 then PlyAfter(tokens, indices[0]) else None
    ensures auxPly == if |indices| >= 2 then PlyAfter(tokens, indices[1]) else None
  {
    mainPly, auxPly := None, None;
    var i := 0;
    while i < |indices|
      invariant i <= |indices|
      invariant mainPly == if i >= 1 then PlyAfter(tokens, indices[0]) else None
      invariant auxPly == if i >= 2 then PlyAfter(tokens, indices[1]) else None
    {
      var idx := indices[i];
      if idx + 1 < |tokens| {
        var next := tokens[idx + 1];
        if IsPlyToken(next) {
          if i == 0 {
            mainPly := Some(RemoveAll(next, "PR"));
          } else if i == 1 {
            auxPly := Some(RemoveAll(next, "PR"));
          }
        }
      }
      i := i + 1;
    }
  }

  /** Walks the tokens, keeping every TT or TL in upper case. */
  method CollectCodes(tokens: seq<string>) returns (codes: seq<string>)
    ensures codes == TubeCodes(tokens)
  {
    codes := [];
    var i := 0;
    while i < |tokens|
      invariant i <= |tokens|
      invariant codes == TubeCodes(tokens[..i])
    {
      var u := Upper(tokens[i]);
      PrefixStep(tokens, i);
      TubeCodesStep(tokens[..i], tokens[i]);
      if u == "TT" || u == "TL" {
        codes := codes + [u];
      }
      i := i + 1;
    }
    assert tokens[..i] == tokens;
  }

  lemma TubeCodesStep(tokens: seq<string>, t: string)
    ensures TubeCodes(tokens + [t]) == TubeCodes(tokens) + (if Upper(t) == "TT" || Upper(t) == "TL" then [Upper(t)] else [])
  {
    assert (tokens + [t])[..|tokens|] == tokens;
  }

  // ---------------------------------------------------------------------
  // What an application row is made of
  // ---------------------------------------------------------------------

  lemma {:induction false} ContainsAnyMembers(text: string, words: seq<string>)
    ensures ContainsAny(text, words) <==> exists w :: w in words && Contains(text, w)
  {
    if words != [] {
      ContainsAnyMembers(text, words[1..]);
      assert words[0] in words;
      assert forall w :: w in words[1..] ==> w in words;
      assert forall w :: w in words ==> w == words[0] || w in words[1..];
    }
  }

  /** A line that holds any header keyword, in any case, is never a row. */
  lemma HeaderKeywordSkipped(line: string, page: int, keyword: string)
    requires keyword in HEADER_KEYWORDS
    requires Contains(Upper(Strip(line)), keyword)
    ensures ApplicationLine(line, page) == None
  {
    ContainsAnyMembers(Upper(Strip(line)), HEADER_KEYWORDS);
  }

  /** A line with no header keyword reads its whitespace-separated tokens. */
  lemma NonHeaderLineReadsTokens(line: string, page: int)
    requires Strip(line) != []
    requires forall w :: w in HEADER_KEYWORDS ==> !Contains(Upper(Strip(line)), w)
    ensures ApplicationLine(line, page) == ApplicationOfTokens(Split(Strip(line)), Strip(line), page)
  {
    ContainsAnyMembers(Upper(Strip(line)), HEADER_KEYWORDS);
  }

  lemma SizeFlagsAt(tokens: seq<string>)
    ensures forall k :: 0 <= k < |tokens| ==> SizeFlags(tokens)[k] == IsSizeToken(tokens[k])
  {
  }

  /** The positions are exactly the flagged ones, in increasing order. */
  lemma {:induction false} FlaggedIndicesMembers(flags: seq<bool>)
    ensures forall n: nat :: n in FlaggedIndices(flags) <==> n < |flags| && flags[n]
    ensures forall i, j :: 0 <= i < j < |FlaggedIndices(flags)| ==> FlaggedIndices(flags)[i] < FlaggedIndices(flags)[j]
  {
    if flags != [] {
      var n := |flags| - 1;
      var init := flags[..n];
      FlaggedIndicesMembers(init);
      assert flags == init + [flags[n]];
      FlaggedIndicesStep(init, flags[n]);
    }
  }

  /** Each kept size is the upper-cased token at the matching position. */
  lemma {:induction false} FlaggedUpperAt(tokens: seq<string>, flags: seq<bool>)
    requires |flags| == |tokens|
    ensures |FlaggedUpper(tokens, flags)| == |FlaggedIndices(flags)|
    ensures forall j :: 0 <= j < |FlaggedIndices(flags)| ==>
              FlaggedUpper(tokens, flags)[j] == Upper(tokens[FlaggedIndices(flags)[j]])
  {
    if tokens != [] {
      var n := |tokens| - 1;
      FlaggedUpperAt(tokens[..n], flags[..n]);
      assert tokens == tokens[..n] + [tokens[n]];
      assert flags == flags[..n] + [flags[n]];
      FlaggedIndicesStep(flags[..n], flags[n]);
      FlaggedUpperStep(tokens[..n], flags[..n], tokens[n], flags[n]);
    }
  }

  /** The first flagged position comes first. */
  lemma FirstFlagged(flags: seq<bool>, f: nat)
    requires f < |flags| && flags[f]
    requires forall k :: 0 <= k < f ==> !flags[k]
    ensures |FlaggedIndices(flags)| >= 1 && FlaggedIndices(flags)[0] == f
  {
    var indices := FlaggedIndices(flags);
    FlaggedIndicesMembers(flags);
    assert f in indices;
    assert flags[indices[0]];
  }

  /** The next flagged position after the first comes second. */
  lemma SecondFlagged(flags: seq<bool>, f: nat, g: nat)
    requires f < g < |flags| && flags[f] && flags[g]
    requires forall k :: 0 <= k < g && k != f ==> !flags[k]
    ensures |FlaggedIndices(flags)| >= 2 && FlaggedIndices(flags)[1] == g
  {
    var indices := FlaggedIndices(flags);
    FirstFlagged(flags, f);
    FlaggedIndicesMembers(flags);
    assert g in indices;
    assert flags[indices[1]];
  }

  /** With one flagged position there is one index. */
  lemma OnlyFlagged(flags: seq<bool>, f: nat)
    requires f < |flags| && flags[f]
    requires forall k :: 0 <= k < |flags| && k != f ==> !flags[k]
    ensures FlaggedIndices(flags) == [f]
  {
    var indices := FlaggedIndices(flags);
    FirstFlagged(flags, f);
    FlaggedIndicesMembers(flags);
  }

  /** With no flagged position there is no index. */
  lemma NoneFlagged(flags: seq<bool>)
    requires forall k :: 0 <= k < |flags| ==> !flags[k]
    ensures FlaggedIndices(flags) == []
  {
    FlaggedIndicesMembers(flags);
  }

  /** A row needs a size token; without one the line is skipped. */
  lemma ApplicationWithoutSize(tokens: seq<string>, line: string, page: int)
    requires forall k :: 0 <= k < |tokens| ==> !IsSizeToken(tokens[k])
    ensures ApplicationOfTokens(tokens, line, page) == None
  {
    var flags := SizeFlags(tokens);
    SizeFlagsAt(tokens);
    NoneFlagged(flags);
    FlaggedUpperAt(tokens, flags);
  }

  /** A row needs a model before its first size; a line that starts with a size is skipped. */
  lemma ApplicationSizeFirst(tokens: seq<string>, line: string, page: int)
    requires tokens != [] && IsSizeToken(tokens[0])
    ensures ApplicationOfTokens(tokens, line, page) == None
  {
    var flags := SizeFlags(tokens);
    SizeFlagsAt(tokens);
    FirstFlagged(flags, 0);
  }

  /**
   * When the first size token is at position `f > 0` the line is a row:
   * its main tire is that token in upper case, its name is read from the
   * tokens before it, and its main ply rating is the token after it.
   */
  lemma ApplicationMainTire(tokens: seq<string>, line: string, page: int, f: nat)
    requires 0 < f < |tokens| && IsSizeToken(tokens[f])
    requires forall k :: 0 <= k < f ==> !IsSizeToken(tokens[k])
    ensures var r := ApplicationOfTokens(tokens, line, page);
            && r.Some?
            && r.value.mainTireSize == Some(Upper(tokens[f]))
            && ModelName(r.value.manufacturer, r.value.model) == SplitManufacturer(Join(" ", tokens[..f]))
            && r.value.mainPly == PlyAfter(tokens, f)
            && r.value.page == Some(page) && r.value.rawLine == Some(line)
  {
    var flags := SizeFlags(tokens);
    SizeFlagsAt(tokens);
    FirstFlagged(flags, f);
    FlaggedUpperAt(tokens, flags);
  }

  /** The auxiliary tire is the next size token after the main one, with the ply rating after it. */
  lemma ApplicationAuxTire(tokens: seq<string>, line: string, page: int, f: nat, g: nat)
    requires 0 < f < g < |tokens| && IsSizeToken(tokens[f]) && IsSizeToken(tokens[g])
    requires forall k :: 0 <= k < g && k != f ==> !IsSizeToken(tokens[k])
    ensures var r := ApplicationOfTokens(tokens, line, page);
            && r.Some?
            && r.value.auxTireSize == Some(Upper(tokens[g]))
            && r.value.auxPly == PlyAfter(tokens, g)
  {
    SecondSize(tokens, f, g);
    ApplicationMainTire(tokens, line, page, f);
  }

  lemma SecondSize(tokens: seq<string>, f: nat, g: nat)
    requires f < g < |tokens| && IsSizeToken(tokens[f]) && IsSizeToken(tokens[g])
    requires forall k :: 0 <= k < g && k != f ==> !IsSizeToken(tokens[k])
    ensures var flags := SizeFlags(tokens);
            && |FlaggedIndices(flags)| >= 2 && FlaggedIndices(flags)[1] == g
            && |FlaggedUpper(tokens, flags)| >= 2 && FlaggedUpper(tokens, flags)[1] == Upper(tokens[g])
  {
    var flags := SizeFlags(tokens);
    SizeFlagsAt(tokens);
    SecondFlagged(flags, f, g);
    FlaggedUpperAt(tokens, flags);
  }

  /** With a single size token there is no auxiliary tire. */
  lemma ApplicationSingleTire(tokens: seq<string>, line: string, page: int, f: nat)
    requires 0 < f < |tokens| && IsSizeToken(tokens[f])
    requires forall k :: 0 <= k < |tokens| && k != f ==> !IsSizeToken(tokens[k])
    ensures var r := ApplicationOfTokens(tokens, line, page);
            && r.Some?
            && r.value.auxTireSize == None
            && r.value.auxPly == None
  {
    var flags := SizeFlags(tokens);
    SizeFlagsAt(tokens);
    OnlyFlagged(flags, f);
    FlaggedUpperAt(tokens, flags);
  }

  /** The codes are the TT and TL tokens, upper-cased, and nothing else. */
  lemma {:induction false} TubeCodesMembers(tokens: seq<string>)
    ensures forall c :: c in TubeCodes(tokens) ==> c == "TT" || c == "TL"
    ensures forall k :: 0 <= k < |tokens| && (Upper(tokens[k]) == "TT" || Upper(tokens[k]) == "TL") ==>
              Upper(tokens[k]) in TubeCodes(tokens)
  {
    if tokens != [] {
      var n := |tokens| - 1;
      TubeCodesMembers(tokens[..n]);
      assert tokens == tokens[..n] + [tokens[n]];
      TubeCodesStep(tokens[..n], tokens[n]);
    }
  }

  /** A row carries a code exactly when some token reads TT or TL. */
  lemma ApplicationCode(tokens: seq<string>, line: string, page: int)
    requires ApplicationOfTokens(tokens, line, page).Some?
    ensures ApplicationOfTokens(tokens, line, page).value.code.None? <==>
              forall k :: 0 <= k < |tokens| ==> Upper(tokens[k]) != "TT" && Upper(tokens[k]) != "TL"
  {
    TubeCodesMembers(tokens);
    if TubeCodes(tokens) != [] {
      assert TubeCodes(tokens)[0] in TubeCodes(tokens);
      TubeCodesFrom(tokens, TubeCodes(tokens)[0]);
    }
  }

  /** Every code comes from some token. */
  lemma {:induction false} TubeCodesFrom(tokens: seq<string>, c: string)
    requires c in TubeCodes(tokens)
    ensures exists k :: 0 <= k < |tokens| && Upper(tokens[k]) == c
  {
    var n := |tokens| - 1;
    assert tokens == tokens[..n] + [tokens[n]];
    TubeCodesStep(tokens[..n], tokens[n]);
    if Upper(tokens[n]) != c {
      TubeCodesFrom(tokens[..n], c);
      var k :| 0 <= k < n && Upper(tokens[..n][k]) == c;
      assert Upper(tokens[k]) == c;
    }
  }

  // ---------------------------------------------------------------------
  // Manufacturers
  // ---------------------------------------------------------------------

  /** The reported manufacturer is the first one in the list that the model starts with. */
  lemma {:induction false} FirstManufacturerAt(model: string, manufacturers: seq<string>, i: nat)
    requires i < |manufacturers| && StartsWith(Upper(model), manufacturers[i])
    requires forall j :: 0 <= j < i ==> !StartsWith(Upper(model), manufacturers[j])
    ensures FirstManufacturer(model, manufacturers) == Some(manufacturers[i])
  {
    if i > 0 {
      FirstManufacturerAt(model, manufacturers[1..], i - 1);
    }
  }

  /** No manufacturer is reported when the model starts with none of them. */
  lemma {:induction false} FirstManufacturerNone(model: string, manufacturers: seq<string>)
    requires forall j :: 0 <= j < |manufacturers| ==> !StartsWith(Upper(model), manufacturers[j])
    ensures FirstManufacturer(model, manufacturers) == None
  {
    if manufacturers != [] {
      FirstManufacturerNone(model, manufacturers[1..]);
    }
  }

  /**
   * BEECH comes before BEECHCRAFT in the list and is a prefix of it, so a
   * model that starts with BEECHCRAFT is reported as BEECH followed by the
   * rest of the word.
   */
  lemma BeechShadowsBeechcraft(model: string)
    requires StartsWith(Upper(model), "BEECHCRAFT")
    ensures SplitManufacturer(model) == ModelName(Some("BEECH"), Strip(model[5..]))
  {
    var u := Upper(model);
    ShorterPrefix(u, "BEECHCRAFT", "BEECH");
    OtherInitial(u, "BEECH", MANUFACTURERS[0]);
    OtherInitial(u, "BEECH", MANUFACTURERS[1]);
    FirstManufacturerAt(model, MANUFACTURERS, 2);
  }

  lemma ShorterPrefix(s: string, p: string, q: string)
    requires StartsWith(s, p) && StartsWith(p, q)
    ensures StartsWith(s, q)
  {
    assert s[..|q|] == p[..|q|];
  }

  lemma OtherInitial(s: string, p: string, q: string)
    requires StartsWith(s, p) && p != [] && q != [] && p[0] != q[0]
    ensures !StartsWith(s, q)
  {
    assert s[..|p|][0] == s[0];
  }

  /** Hence BEECHCRAFT itself is never reported. */
  lemma BeechcraftNeverReported(model: string)
    ensures SplitManufacturer(model).manufacturer != Some("BEECHCRAFT")
  {
    if FirstManufacturer(model, MANUFACTURERS) == Some("BEECHCRAFT") {
      BeechShadowsBeechcraft(model);
    }
  }

  /** A note line is a header: it holds NOTE: once upper-cased. */
  lemma NoteLineSkipped(line: string, page: int)
    requires line == "Note: TT = Tube Type, TL = Tubeless"
    ensures ApplicationLine(line, page) == None
  {
    NoteLineText(line);
    HeaderKeywordSkipped(line, page, "NOTE:");
  }

  lemma NoteLineText(line: string)
    requires line == "Note: TT = Tube Type, TL = Tubeless"
    ensures Strip(line) == line && StartsWith(Upper(line), "NOTE:")
  {
    NoteLineUnpadded(line);
    NoteLinePrefix(line);
    UpperStartsWith(line, "NOTE:");
  }

  lemma NoteLineUnpadded(line: string)
    requires line == "Note: TT = Tube Type, TL = Tubeless"
    ensures |line| > 5 && line[0] == 'N'
    ensures Strip(line) == line
  {
    assert line[0] == 'N' && line[|line| - 1] == 's';
    StripUnpadded(line);
  }

  lemma NoteLinePrefix(line: string)
    requires line == "Note: TT = Tube Type, TL = Tubeless"
    ensures |line| >= 5 && Upper(line[..5]) == "NOTE:"
  {
    assert line[..5] == "Note:";
    assert UpperChar('o') == 'O' && UpperChar('t') == 'T' && UpperChar('e') == 'E';
  }

  /** A prefix that upper-cases to `p` makes the upper-cased text start with `p`. */
  lemma UpperStartsWith(s: string, p: string)
    requires |p| <= |s| && Upper(s[..|p|]) == p
    ensures StartsWith(Upper(s), p)
  {
    assert Upper(s)[..|p|] == Upper(s[..|p|]);
  }

  /** An example of the shadowing: BEECHCRAFT KING AIR is read as BEECH, CRAFT KING AIR. */
  lemma BeechcraftKingAirExample(model: string)
    requires model == "BEECHCRAFT KING AIR"
    ensures SplitManufacturer(model) == ModelName(Some("BEECH"), "CRAFT KING AIR")
  {
    BeechcraftKingAirText(model);
    BeechShadowsBeechcraft(model);
  }

  lemma BeechcraftKingAirText(model: string)
    requires model == "BEECHCRAFT KING AIR"
    ensures |model| > 10 && StartsWith(Upper(model), "BEECHCRAFT")
    ensures Strip(model[5..]) == "CRAFT KING AIR"
  {
    BeechcraftKingAirUpper(model);
    BeechcraftKingAirRest(model, model[5..]);
  }

  lemma BeechcraftKingAirUpper(model: string)
    requires model == "BEECHCRAFT KING AIR"
    ensures |model| > 10 && StartsWith(Upper(model), "BEECHCRAFT")
  {
    BeechcraftUpper(model[..10]);
    UpperStartsWith(model, "BEECHCRAFT");
  }

  lemma BeechcraftUpper(head: string)
    requires head == "BEECHCRAFT"
    ensures Upper(head) == "BEECHCRAFT"
  {
    UpperUnchanged(head);
  }

  lemma BeechcraftKingAirRest(model: string, rest: string)
    requires model == "BEECHCRAFT KING AIR" && |model| > 5 && rest == model[5..]
    ensures Strip(rest) == "CRAFT KING AIR"
  {
    assert rest == "CRAFT KING AIR";
    StripUnpadded(rest);
  }

  lemma UpperUnchanged(s: string)
    requires forall k :: 0 <= k < |s| ==> !('a' <= s[k] <= 'z')
    ensures Upper(s) == s
  {
  }
}
