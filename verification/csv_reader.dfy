/** Strict reading of a replay file: src/csv_reader.cpp. */
module CsvReading {
  import opened Types
  import opened Decimal
  import opened Splitting

  datatype Category = SchemaError | ValueError | OrderingError | MultiSymbolError

  datatype CsvError = CsvError(category: Category, line: nat)

  datatype Result<T> = Ok(value: T) | Err(error: CsvError)

  /** Seven complete integers of the right widths. */
  function RowOf(fields: seq<string>): Option<MarketTick> {
    if |fields| != 7 then Absent
    else
      var ex, rx := ParseInteger(fields[0], INT64_MIN, INT64_MAX), ParseInteger(fields[1], INT64_MIN, INT64_MAX);
      var symbol := ParseInteger(fields[2], 0, UINT32_MAX);
      var bid, ask := ParseInteger(fields[3], INT64_MIN, INT64_MAX), ParseInteger(fields[4], INT64_MIN, INT64_MAX);
      var bidQty, askQty := ParseInteger(fields[5], INT32_MIN, INT32_MAX), ParseInteger(fields[6], INT32_MIN, INT32_MAX);
      if ex.Absent? || rx.Absent? || symbol.Absent? || bid.Absent? || ask.Absent? || bidQty.Absent? || askQty.Absent? then Absent
      else Some(MarketTick(ex.value, rx.value, bid.value, ask.value, symbol.value, bidQty.value, askQty.value))
  }

  function WithoutReturn(line: string): string {
    if line != [] && line[|line| - 1] == '\r' then line[..|line| - 1] else line
  }

  function Row(line: string): Option<MarketTick> {
    RowOf(Split(WithoutReturn(line), ','))
  }

  /** The market invariants of a single row. */
  predicate Sane(t: MarketTick) {
    && t.bidPrice > 0 && t.askPrice > 0 && t.bidQty >= 0 && t.askQty >= 0
    && t.bidPrice <= t.askPrice && t.receiveTs >= t.exchangeTs
  }

  /** What is wrong with row `i`, judged by the row itself, the row before it and the first row only. */
  function Problem(rows: seq<string>, i: nat): Option<Category>
    requires i < |rows|
  {
    var tick := Row(rows[i]);
    if tick.Absent? then Some(SchemaError)
    else if !Sane(tick.value) then Some(ValueError)
    else if i > 0 && Row(rows[i - 1]).Some? && tick.value.receiveTs < Row(rows[i - 1]).value.receiveTs then Some(OrderingError)
    else if i > 0 && Row(rows[0]).Some? && tick.value.symbolId != Row(rows[0]).value.symbolId then Some(MultiSymbolError)
    else Absent
  }

  /** `fields` and the unfinished `piece` are what a walk up to `cursor` has found. */
  ghost predicate Walked(line: string, cursor: nat, fields: seq<string>, piece: string)
    requires cursor <= |line|
  {
    Split(line, ',') == fields + Glued(piece, Split(line[cursor..], ','))
  }

  lemma WalkStart(line: string)
    ensures Walked(line, 0, [], [])
  {
    hide Split;
    assert line[0..] == line;
    GluedNothing(Split(line, ','));
  }

  lemma WalkOn(line: string, cursor: nat, fields: seq<string>, piece: string)
    requires cursor < |line| && Walked(line, cursor, fields, piece)
    ensures line[cursor] == ',' ==> Walked(line, cursor + 1, fields + [piece], []) && |Split(line, ',')| >= |fields| + 2
    ensures line[cursor] != ',' ==> Walked(line, cursor + 1, fields, piece + [line[cursor]])
  {
    var here, rest := line[cursor..], Split(line[cursor + 1..], ',');
    assert here[1..] == line[cursor + 1..];
    assert Split(here, ',') == if line[cursor] == ',' then [[]] + rest else [[line[cursor]] + rest[0]] + rest[1..];
    hide Split, Glued;
    if line[cursor] == ',' {
      GluedSeparator(piece, rest);
      GluedNothing(rest);
      assert fields + ([piece] + rest) == fields + [piece] + rest;
    } else {
      GluedChar(piece, line[cursor], rest);
    }
  }

  lemma WalkEnd(line: string, fields: seq<string>, piece: string)
    requires Walked(line, |line|, fields, piece)
    ensures Split(line, ',') == fields + [piece]
  {
    assert line[|line|..] == [];
    GluedSeparator(piece, []);
  }

  /** The cursor walk of `parse_line`: it gives up on an eighth field. */
  method SplitFields(line: string) returns (ok: bool, fields: seq<string>)
    ensures ok <==> |Split(line, ',')| == 7
    ensures ok ==> fields == Split(line, ',')
  {
    hide Split, Walked;
    fields := [];
    var piece: string := [];
    var cursor := 0;
    WalkStart(line);
    while cursor < |line|
      invariant 0 <= cursor <= |line| && |fields| <= 7
      invariant Walked(line, cursor, fields, piece)
    {
      WalkOn(line, cursor, fields, piece);
      if line[cursor] == ',' {
        if |fields| >= 7 {
          return false, fields;
        }
        fields := fields + [piece];
        piece := [];
      } else {
        piece := piece + [line[cursor]];
      }
      cursor := cursor + 1;
    }
    WalkEnd(line, fields, piece);
    if |fields| >= 7 {
      return false, fields;
    }
    fields := fields + [piece];
    ok := |fields| == 7;
  }

  method ParseLine(line: string) returns (row: Option<MarketTick>)
    ensures row == RowOf(Split(line, ','))
  {
    var ok, fields := SplitFields(line);
    if !ok {
      return Absent;
    }
    return RowOf(fields);
  }

  /** `problem` is what the checks of the row loop find in row `n`, given the ticks read before it. */
  lemma ProblemOf(rows: seq<string>, ticks: seq<MarketTick>)
    requires |ticks| < |rows|
    requires forall i :: 0 <= i < |ticks| ==> Row(rows[i]) == Some(ticks[i])
    ensures var n, row := |ticks|, Row(rows[|ticks|]);
      && (row.Absent? ==> Problem(rows, n) == Some(SchemaError))
      && (row.Some? && !Sane(row.value) ==> Problem(rows, n) == Some(ValueError))
      && (row.Some? && Sane(row.value) ==>
            var late := ticks != [] && row.value.receiveTs < ticks[n - 1].receiveTs;
            var other := ticks != [] && row.value.symbolId != ticks[0].symbolId;
            Problem(rows, n) == (if late then Some(OrderingError) else if other then Some(MultiSymbolError) else Absent))
  {
    hide Row, Sane;
  }

  /** The rows of the file, after the header line. */
  method ReadRows(rows: seq<string>) returns (result: Result<seq<MarketTick>>)
    ensures result.Ok? ==>
      && rows != [] && |result.value| == |rows|
      && (forall i :: 0 <= i < |rows| ==> Problem(rows, i) == Absent && Row(rows[i]) == Some(result.value[i]))
    ensures result.Err? && rows != [] ==>
      && 2 <= result.error.line < |rows| + 2
      && Problem(rows, result.error.line - 2) == Some(result.error.category)
      && (forall i :: 0 <= i < result.error.line - 2 ==> Problem(rows, i) == Absent)
    ensures rows == [] ==> result == Err(CsvError(SchemaError, 1))
  {
    hide RowOf, Split, Problem;
    var ticks: seq<MarketTick> := [];
    var n := 0;
    while n < |rows|
      invariant 0 <= n <= |rows| && |ticks| == n
      invariant forall i :: 0 <= i < n ==> Problem(rows, i) == Absent && Row(rows[i]) == Some(ticks[i])
    {
      ProblemOf(rows, ticks);
      var row := ParseLine(WithoutReturn(rows[n]));
      if row.Absent? {
        return Err(CsvError(SchemaError, n + 2));
      }
      var tick := row.value;
      if tick.bidPrice <= 0 || tick.askPrice <= 0 {
        return Err(CsvError(ValueError, n + 2));
      }
      if tick.bidQty < 0 || tick.askQty < 0 {
        return Err(CsvError(ValueError, n + 2));
      }
      if tick.bidPrice > tick.askPrice {
        return Err(CsvError(ValueError, n + 2));
      }
      if tick.receiveTs < tick.exchangeTs {
        return Err(CsvError(ValueError, n + 2));
      }
      if ticks != [] && tick.receiveTs < ticks[|ticks| - 1].receiveTs {
        return Err(CsvError(OrderingError, n + 2));
      }
      if ticks != [] && tick.symbolId != ticks[0].symbolId {
        return Err(CsvError(MultiSymbolError, n + 2));
      }
      ticks := ticks + [tick];
      n := n + 1;
    }
    if ticks == [] {
      return Err(CsvError(SchemaError, 1));
    }
    return Ok(ticks);
  }

  /** The lines `std::getline` delivers: what follows the last newline counts only if it is not empty. */
  function Lines(text: string): seq<string> {
    var pieces := Split(text, '\n');
    if pieces[|pieces| - 1] == [] then pieces[..|pieces| - 1] else pieces
  }

  /** A whole file: the result is determined by its rows, success and failure alike. */
  ghost predicate Reads(text: string, result: Result<seq<MarketTick>>) {
    if |Lines(text)| <= 1 then result == Err(CsvError(SchemaError, 1))
    else
      var rows := Lines(text)[1..];
      match result
      case Ok(ticks) =>
        && |ticks| == |rows|
        && (forall i :: 0 <= i < |rows| ==> Problem(rows, i) == Absent && Row(rows[i]) == Some(ticks[i]))
      case Err(e) =>
        && 2 <= e.line < |rows| + 2
        && Problem(rows, e.line - 2) == Some(e.category)
        && (forall i :: 0 <= i < e.line - 2 ==> Problem(rows, i) == Absent)
  }

  method ReadAll(text: string) returns (result: Result<seq<MarketTick>>)
    ensures Reads(text, result)
  {
    var lines := Lines(text);
    if lines == [] {
      return Err(CsvError(SchemaError, 1));
    }
    result := ReadRows(lines[1..]);
  }

  /** A file without data rows is rejected at its header. */
  lemma NoRowsRejected(text: string, result: Result<seq<MarketTick>>)
    requires Reads(text, result)
    ensures |Lines(text)| <= 1 <==> result.Err? && result.error.line == 1
    ensures |Lines(text)| <= 1 ==> result.error.category == SchemaError
  {
    hide Lines, Problem, Row;
  }

  /** There is only one result a file can have. */
  lemma ReadsIsFunctional(text: string, a: Result<seq<MarketTick>>, b: Result<seq<MarketTick>>)
    requires Reads(text, a) && Reads(text, b)
    ensures a == b
  {
    hide Row, Problem, Split;
    if |Lines(text)| > 1 {
      var rows := Lines(text)[1..];
      if a.Ok? && b.Ok? {
        assert forall i :: 0 <= i < |rows| ==> a.value[i] == Some(a.value[i]).value == Row(rows[i]).value == b.value[i];
        assert a.value == b.value;
      } else if a.Err? && b.Err? {
        assert a.error.line == b.error.line;
      }
    }
  }

  lemma {:induction false} Nondecreasing(rows: seq<string>, ticks: seq<MarketTick>, i: nat, j: nat)
    requires |rows| == |ticks| && i <= j < |rows|
    requires forall k :: 0 <= k < |rows| ==> Problem(rows, k) == Absent && Row(rows[k]) == Some(ticks[k])
    ensures ticks[i].receiveTs <= ticks[j].receiveTs
    decreases j - i
  {
    hide Row, Sane;
    if i < j {
      Nondecreasing(rows, ticks, i, j - 1);
      assert Problem(rows, j) == Absent && Row(rows[j - 1]) == Some(ticks[j - 1]) && Row(rows[j]) == Some(ticks[j]);
    }
  }

  /** Accepted ticks satisfy every per-row and cross-row promise. */
  lemma AcceptedTicksAreSane(text: string, ticks: seq<MarketTick>)
    requires Reads(text, Ok(ticks))
    ensures ticks != []
    ensures forall i :: 0 <= i < |ticks| ==>
      && 0 < ticks[i].bidPrice <= ticks[i].askPrice
      && ticks[i].bidQty >= 0 && ticks[i].askQty >= 0
      && ticks[i].exchangeTs <= ticks[i].receiveTs
      && ticks[i].symbolId == ticks[0].symbolId
    ensures forall i, j :: 0 <= i <= j < |ticks| ==> ticks[i].receiveTs <= ticks[j].receiveTs
  {
    hide Split, RowOf;
    var rows := Lines(text)[1..];
    forall i | 0 <= i < |ticks|
      ensures Sane(ticks[i]) && ticks[i].symbolId == ticks[0].symbolId
    {
      assert Problem(rows, i) == Absent && Row(rows[i]) == Some(ticks[i]) && Row(rows[0]) == Some(ticks[0]);
    }
    forall i, j | 0 <= i <= j < |ticks|
      ensures ticks[i].receiveTs <= ticks[j].receiveTs
    {
      Nondecreasing(rows, ticks, i, j);
    }
  }

  // ---------------------------------------------------------------------------
  // What a file looks like that is accepted, and why one is not
  // ---------------------------------------------------------------------------

  /** The text of one number of a row. */
  ghost predicate Denotes(token: string, v: int, lo: int, hi: int) {
    lo <= v <= hi && Numeral(token, v, lo)
  }

  /** Seven numerals, each of a width its field can hold. */
  ghost predicate FieldsDenote(fields: seq<string>, t: MarketTick) {
    && |fields| == 7
    && Denotes(fields[0], t.exchangeTs, INT64_MIN, INT64_MAX) && Denotes(fields[1], t.receiveTs, INT64_MIN, INT64_MAX)
    && Denotes(fields[2], t.symbolId, 0, UINT32_MAX)
    && Denotes(fields[3], t.bidPrice, INT64_MIN, INT64_MAX) && Denotes(fields[4], t.askPrice, INT64_MIN, INT64_MAX)
    && Denotes(fields[5], t.bidQty, INT32_MIN, INT32_MAX) && Denotes(fields[6], t.askQty, INT32_MIN, INT32_MAX)
  }

  /** A line that states a tick: seven numerals between commas, and possibly one carriage return. */
  ghost predicate LineDenotes(line: string, t: MarketTick) {
    exists fields :: FieldsDenote(fields, t) && LineOf(fields, line)
  }

  ghost predicate LineOf(fields: seq<string>, line: string) {
    fields != [] && (line == Joined(fields, ',') || line == Joined(fields, ',') + "\r")
  }

  lemma RowOfExactly(fields: seq<string>, t: MarketTick)
    ensures RowOf(fields) == Some(t) <==> FieldsDenote(fields, t)
  {
    hide ParseInteger, Numeral;
    if |fields| == 7 {
      ParseIntegerExactly(fields[0], t.exchangeTs, INT64_MIN, INT64_MAX);
      ParseIntegerExactly(fields[1], t.receiveTs, INT64_MIN, INT64_MAX);
      ParseIntegerExactly(fields[2], t.symbolId, 0, UINT32_MAX);
      ParseIntegerExactly(fields[3], t.bidPrice, INT64_MIN, INT64_MAX);
      ParseIntegerExactly(fields[4], t.askPrice, INT64_MIN, INT64_MAX);
      ParseIntegerExactly(fields[5], t.bidQty, INT32_MIN, INT32_MAX);
      ParseIntegerExactly(fields[6], t.askQty, INT32_MIN, INT32_MAX);
    }
  }

  lemma NumeralText(token: string, v: int, lo: int, hi: int)
    requires Denotes(token, v, lo, hi)
    ensures token != [] && Free(token, ',') && Free(token, '\r')
  {
    hide Numeral;
    NumeralParses(token, v, lo, hi);
  }

  lemma FieldsText(fields: seq<string>, t: MarketTick)
    requires FieldsDenote(fields, t)
    ensures forall i :: 0 <= i < 7 ==> fields[i] != [] && Free(fields[i], ',') && Free(fields[i], '\r')
  {
    hide Denotes, Free;
    NumeralText(fields[0], t.exchangeTs, INT64_MIN, INT64_MAX);
    NumeralText(fields[1], t.receiveTs, INT64_MIN, INT64_MAX);
    NumeralText(fields[2], t.symbolId, 0, UINT32_MAX);
    NumeralText(fields[3], t.bidPrice, INT64_MIN, INT64_MAX);
    NumeralText(fields[4], t.askPrice, INT64_MIN, INT64_MAX);
    NumeralText(fields[5], t.bidQty, INT32_MIN, INT32_MAX);
    NumeralText(fields[6], t.askQty, INT32_MIN, INT32_MAX);
  }

  lemma FieldCount(fields: seq<string>, t: MarketTick)
    requires FieldsDenote(fields, t)
    ensures |fields| == 7
  {
  }

  lemma DenotedRow(fields: seq<string>, line: string, t: MarketTick)
    requires FieldsDenote(fields, t) && LineOf(fields, line)
    ensures Row(line) == Some(t)
  {
    hide FieldsDenote, RowOf, Joined;
    assert |fields| == 7 by { RowOfExactly(fields, t); FieldCount(fields, t); }
    FieldsText(fields, t);
    var text := Joined(fields, ',');
    JoinedFree(fields, ',', '\r');
    SplitJoined(fields, ',');
    assert WithoutReturn(line) == text;
    RowOfExactly(fields, t);
  }

  /** A line is read as a tick exactly if it states that tick. */
  lemma RowExactly(line: string, t: MarketTick)
    ensures Row(line) == Some(t) <==> LineDenotes(line, t)
  {
    hide FieldsDenote, RowOf, Joined, Split;
    if Row(line) == Some(t) {
      var text := WithoutReturn(line);
      var fields := Split(text, ',');
      JoinedSplit(text, ',');
      RowOfExactly(fields, t);
      assert LineOf(fields, line);
    }
    if LineDenotes(line, t) {
      var fields :| FieldsDenote(fields, t) && LineOf(fields, line);
      DenotedRow(fields, line, t);
    }
  }

  /** The promises of a row on its own. */
  predicate Quotes(t: MarketTick) {
    0 < t.bidPrice <= t.askPrice && t.bidQty >= 0 && t.askQty >= 0 && t.exchangeTs <= t.receiveTs
  }

  /** Row `i` of an accepted file: it states its tick, keeps the promises, is no earlier than the row
      before it and has the symbol of the first. */
  ghost predicate Accepts(rows: seq<string>, ticks: seq<MarketTick>, i: nat)
    requires i < |rows| == |ticks|
  {
    && LineDenotes(rows[i], ticks[i]) && Quotes(ticks[i])
    && (i > 0 ==> ticks[i - 1].receiveTs <= ticks[i].receiveTs && ticks[i].symbolId == ticks[0].symbolId)
  }

  lemma AcceptedRow(rows: seq<string>, ticks: seq<MarketTick>, i: nat)
    requires i < |rows| == |ticks|
    requires forall j :: 0 <= j < i ==> Row(rows[j]) == Some(ticks[j])
    ensures Problem(rows, i) == Absent && Row(rows[i]) == Some(ticks[i]) <==> Accepts(rows, ticks, i)
  {
    hide Row, LineDenotes;
    RowExactly(rows[i], ticks[i]);
  }

  ghost predicate AllAccepted(rows: seq<string>, ticks: seq<MarketTick>) {
    |rows| == |ticks| && forall i :: 0 <= i < |rows| ==> Accepts(rows, ticks, i)
  }

  lemma {:induction false} RowsOfAccepted(rows: seq<string>, ticks: seq<MarketTick>, n: nat)
    requires AllAccepted(rows, ticks) && n <= |rows|
    ensures forall i :: 0 <= i < n ==> Problem(rows, i) == Absent && Row(rows[i]) == Some(ticks[i])
  {
    hide Problem, Row, Accepts;
    if n == 0 {
    } else {
      RowsOfAccepted(rows, ticks, n - 1);
      AcceptedRow(rows, ticks, n - 1);
    }
  }

  /** A file is accepted exactly if it has a header and rows that all keep the promises. */
  lemma AcceptedExactly(text: string, ticks: seq<MarketTick>)
    ensures Reads(text, Ok(ticks)) <==> |Lines(text)| >= 2 && AllAccepted(Lines(text)[1..], ticks)
  {
    hide Row, Problem, Lines, Accepts;
    if |Lines(text)| >= 2 {
      var rows := Lines(text)[1..];
      if Reads(text, Ok(ticks)) {
        forall i | 0 <= i < |rows|
          ensures Accepts(rows, ticks, i)
        {
          AcceptedRow(rows, ticks, i);
        }
      }
      if AllAccepted(rows, ticks) {
        RowsOfAccepted(rows, ticks, |rows|);
      }
    }
  }

  /** What is wrong with a tick that a row states, after the ticks of the rows before it. */
  function Fault(ticks: seq<MarketTick>, t: MarketTick): Option<Category> {
    if !Quotes(t) then Some(ValueError)
    else if ticks != [] && t.receiveTs < ticks[|ticks| - 1].receiveTs then Some(OrderingError)
    else if ticks != [] && t.symbolId != ticks[0].symbolId then Some(MultiSymbolError)
    else Absent
  }

  /** The reason given for a bad row after rows that state `ticks`. */
  ghost predicate Blames(row: string, ticks: seq<MarketTick>, category: Category) {
    || (category == SchemaError && forall t :: !LineDenotes(row, t))
    || exists t :: LineDenotes(row, t) && Fault(ticks, t) == Some(category)
  }

  lemma BlamedRow(rows: seq<string>, ticks: seq<MarketTick>, category: Category)
    requires |ticks| < |rows|
    requires forall i :: 0 <= i < |ticks| ==> Row(rows[i]) == Some(ticks[i])
    requires Problem(rows, |ticks|) == Some(category)
    ensures Blames(rows[|ticks|], ticks, category)
  {
    var n := |ticks|;
    hide Row, LineDenotes;
    if Row(rows[n]).Absent? {
      forall t
        ensures !LineDenotes(rows[n], t)
      {
        RowExactly(rows[n], t);
      }
    } else {
      RowExactly(rows[n], Row(rows[n]).value);
    }
  }

  lemma GoodRow(rows: seq<string>, i: nat)
    requires i < |rows| && Problem(rows, i) == Absent
    ensures Row(rows[i]) == Some(RowAt(rows, i))
  {
  }

  lemma SameProblem(rows: seq<string>, n: nat, i: nat)
    requires i < n <= |rows|
    ensures Problem(rows[..n], i) == Problem(rows, i)
  {
    hide Row;
  }

  /** A rejected file has a first bad row; the rows before it are those of an accepted file, and the
      error names its line, counted from 1 with the header, and its first fault. */
  lemma RejectedFor(text: string, e: CsvError) returns (ticks: seq<MarketTick>)
    requires Reads(text, Err(e)) && |Lines(text)| >= 2
    ensures var rows := Lines(text)[1..];
      && e.line == |ticks| + 2 && |ticks| < |rows|
      && AllAccepted(rows[..|ticks|], ticks) && Blames(rows[|ticks|], ticks, e.category)
  {
    hide Row, Problem, Lines, Accepts, Blames;
    var rows := Lines(text)[1..];
    var n := e.line - 2;
    ticks := seq(n, i requires 0 <= i < n => RowAt(rows, i));
    forall i | 0 <= i < n
      ensures Row(rows[i]) == Some(ticks[i])
    {
      assert Problem(rows, i) == Absent;
      GoodRow(rows, i);
    }
    var before := rows[..n];
    forall i | 0 <= i < n
      ensures Accepts(before, ticks, i)
    {
      SameProblem(rows, n, i);
      AcceptedRow(before, ticks, i);
    }
    BlamedRow(rows, ticks, e.category);
  }

  function RowAt(rows: seq<string>, i: nat): MarketTick
    requires i < |rows|
  {
    if Row(rows[i]).Some? then Row(rows[i]).value else MarketTick(0, 0, 0, 0, 0, 0, 0)
  }

  // ---------------------------------------------------------------------------
  // Lines
  // ---------------------------------------------------------------------------

  /** Lines, each followed by a newline. */
  function Ended(lines: seq<string>): string {
    if lines == [] then [] else lines[0] + "\n" + Ended(lines[1..])
  }

  lemma {:induction false} EndedJoined(lines: seq<string>, last: string)
    ensures Joined(lines + [last], '\n') == Ended(lines) + last
  {
    if lines == [] {
    } else {
      assert (lines + [last])[1..] == lines[1..] + [last];
      EndedJoined(lines[1..], last);
    }
  }

  /** The lines of a text are what its newlines separate; the last one may lack its newline if it is not
      empty. */
  lemma LinesExactly(text: string)
    ensures var lines := Lines(text);
      && (forall i :: 0 <= i < |lines| ==> Free(lines[i], '\n'))
      && (|| text == Ended(lines)
          || (lines != [] && lines[|lines| - 1] != [] && text == Ended(lines[..|lines| - 1]) + lines[|lines| - 1]))
  {
    hide Split, Free;
    var pieces := Split(text, '\n');
    JoinedSplit(text, '\n');
    var n := |pieces| - 1;
    EndedJoined(pieces[..n], pieces[n]);
    assert pieces[..n] + [pieces[n]] == pieces;
  }
}
