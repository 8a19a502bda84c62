/** The replay generator of bench/generate_replay.cpp and its round trip through the reader. */
module ReplayGenerator {
  import opened Types
  import opened Decimal
  import opened Splitting
  import opened CsvReading

  const WORD: int := 0x1_0000_0000_0000_0000
  const SEED: int := 0x4d595df4d0f33173
  const NAMES: seq<string> :=
    ["exchange_ts_ns", "receive_ts_ns", "symbol_id", "bid_price", "ask_price", "bid_qty", "ask_qty"]

  function Header(): string {
    Joined(NAMES, ',')
  }

  /** One step of the 64-bit congruential generator, wrapping as unsigned arithmetic does. */
  function NextState(state: int): int {
    (state * 6364136223846793005 + 1442695040888963407) % WORD
  }

  function StateAfter(n: nat): int {
    if n == 0 then SEED else NextState(StateAfter(n - 1))
  }

  function BidFrom(state: int): int {
    99800 + (state / 0x1_0000_0000) % 401 - 200
  }

  /** The tick written for index `i`. */
  function GeneratedTick(i: nat): MarketTick {
    var bid := BidFrom(StateAfter(i + 1));
    MarketTick((i + 1) * 1000, (i + 1) * 1000 + 50, bid, bid + 200, 1, 50, 50)
  }

  function Fields(t: MarketTick): seq<string> {
    [Printed(t.exchangeTs), Printed(t.receiveTs), Printed(t.symbolId), Printed(t.bidPrice), Printed(t.askPrice),
     Printed(t.bidQty), Printed(t.askQty)]
  }

  function PrintedRow(t: MarketTick): string {
    Joined(Fields(t), ',')
  }

  function GeneratedTicks(n: nat): seq<MarketTick> {
    seq(n, i requires i >= 0 => GeneratedTick(i))
  }

  /** The file for `n` ticks, with the given line ending. */
  function GeneratedText(n: nat, eol: string): string {
    if n == 0 then Header() + eol else GeneratedText(n - 1, eol) + PrintedRow(GeneratedTick(n - 1)) + eol
  }

  method Generate(count: nat) returns (text: string)
    ensures text == GeneratedText(count, "\n")
  {
    hide Header, PrintedRow;
    text := Header() + "\n";
    var state := SEED;
    var i := 0;
    while i < count
      invariant 0 <= i <= count
      invariant state == StateAfter(i) && text == GeneratedText(i, "\n")
    {
      state := (state * 6364136223846793005 + 1442695040888963407) % WORD;
      var drift := (state / 0x1_0000_0000) % 401 - 200;
      var bid := 99800 + drift;
      var ask := bid + 200;
      var ts := (i + 1) * 1000;
      text := text + PrintedRow(MarketTick(ts, ts + 50, bid, ask, 1, 50, 50)) + "\n";
      i := i + 1;
    }
  }

  // ---------------------------------------------------------------------------
  // What the generator writes
  // ---------------------------------------------------------------------------

  /** Every generated tick: a fixed spread around a drifting price, one a microsecond. */
  lemma GeneratedShape(i: nat)
    ensures var t := GeneratedTick(i);
      && 99600 <= t.bidPrice <= 100000 && t.askPrice - t.bidPrice == 200
      && t.exchangeTs == 1000 * i + 1000 && t.receiveTs - t.exchangeTs == 50
      && t.symbolId == 1 && t.bidQty == t.askQty == 50
  {
    hide StateAfter;
  }

  lemma FirstStates()
    ensures StateAfter(1) == 0x132190a1439e3f86 && StateAfter(2) == 0x65e20e81cba25dd
  {
    assert StateAfter(0) == SEED;
  }

  lemma SmallNumbers()
    ensures Printed(1) == "1" && Printed(50) == "50"
    ensures Printed(1000) == "1000" && Printed(1050) == "1050" && Printed(2000) == "2000" && Printed(2050) == "2050"
  {
    assert Digits(5) == "5" && Digits(1) == "1" && Digits(2) == "2";
    assert Digits(10) == "10" && Digits(20) == "20";
    assert Digits(100) == "100" && Digits(105) == "105" && Digits(200) == "200" && Digits(205) == "205";
  }

  lemma SmallPrices()
    ensures Printed(99601) == "99601" && Printed(99801) == "99801" && Printed(99690) == "99690" && Printed(99890) == "99890"
  {
    assert Digits(9) == "9";
    assert Digits(99) == "99";
    assert Digits(996) == "996" && Digits(998) == "998";
    assert Digits(9960) == "9960" && Digits(9980) == "9980" && Digits(9969) == "9969" && Digits(9989) == "9989";
  }

  lemma JoinedFrom(f: seq<string>, k: nat)
    requires k + 1 < |f|
    ensures Joined(f[k..], ',') == f[k] + [','] + Joined(f[k + 1..], ',')
  {
    assert f[k..][1..] == f[k + 1..];
  }

  lemma SevenJoined(f: seq<string>)
    requires |f| == 7
    ensures Joined(f, ',') ==
      f[0] + [','] + (f[1] + [','] + (f[2] + [','] + (f[3] + [','] + (f[4] + [','] + (f[5] + [','] + f[6])))))
  {
    assert Joined(f[6..], ',') == f[6];
    hide Joined;
    JoinedFrom(f, 5);
    JoinedFrom(f, 4);
    JoinedFrom(f, 3);
    JoinedFrom(f, 2);
    JoinedFrom(f, 1);
    JoinedFrom(f, 0);
    assert f[0..] == f;
  }

  lemma FirstRow()
    ensures PrintedRow(GeneratedTick(0)) == "1000,1050,1,99601,99801,50,50"
  {
    hide StateAfter, Printed, Joined;
    FirstStates();
    SmallNumbers();
    SmallPrices();
    SevenJoined(Fields(GeneratedTick(0)));
  }

  lemma SecondRow()
    ensures PrintedRow(GeneratedTick(1)) == "2000,2050,1,99690,99890,50,50"
  {
    hide StateAfter, Printed, Joined;
    FirstStates();
    SmallNumbers();
    SmallPrices();
    SevenJoined(Fields(GeneratedTick(1)));
  }

  /** How a generated file begins. */
  lemma FileBegins()
    ensures GeneratedText(2, "\n") ==
      Joined(["exchange_ts_ns", "receive_ts_ns", "symbol_id", "bid_price", "ask_price", "bid_qty", "ask_qty"], ',')
      + "\n1000,1050,1,99601,99801,50,50\n" + "2000,2050,1,99690,99890,50,50\n"
  {
    hide PrintedRow, Joined;
    FirstRow();
    SecondRow();
    assert GeneratedText(0, "\n") == Header() + "\n";
    assert GeneratedText(1, "\n") == GeneratedText(0, "\n") + PrintedRow(GeneratedTick(0)) + "\n";
  }

  // ---------------------------------------------------------------------------
  // Row level
  // ---------------------------------------------------------------------------

  /** Field widths: what a tick must satisfy to be a value of the C++ struct. */
  ghost predicate Fits(t: MarketTick) {
    && INT64_MIN <= t.exchangeTs <= INT64_MAX && INT64_MIN <= t.receiveTs <= INT64_MAX
    && INT64_MIN <= t.bidPrice <= INT64_MAX && INT64_MIN <= t.askPrice <= INT64_MAX
    && 0 <= t.symbolId <= UINT32_MAX
    && INT32_MIN <= t.bidQty <= INT32_MAX && INT32_MIN <= t.askQty <= INT32_MAX
  }

  lemma NumberText(n: int)
    ensures Free(Printed(n), ',') && Free(Printed(n), '\n') && Free(Printed(n), '\r') && Printed(n) != []
  {
    PrintedParses(n, if n < 0 then n else 0, if n < 0 then 0 else n);
  }

  lemma FieldsFree(t: MarketTick)
    ensures forall i :: 0 <= i < |Fields(t)| ==>
      Free(Fields(t)[i], ',') && Free(Fields(t)[i], '\n') && Free(Fields(t)[i], '\r')
  {
    hide Printed, Free;
    NumberText(t.exchangeTs);
    NumberText(t.receiveTs);
    NumberText(t.symbolId);
    NumberText(t.bidPrice);
    NumberText(t.askPrice);
    NumberText(t.bidQty);
    NumberText(t.askQty);
  }

  lemma FieldsParse(t: MarketTick)
    requires Fits(t)
    ensures RowOf(Fields(t)) == Some(t)
  {
    hide Printed, ParseInteger;
    PrintedParses(t.exchangeTs, INT64_MIN, INT64_MAX);
    PrintedParses(t.receiveTs, INT64_MIN, INT64_MAX);
    PrintedParses(t.symbolId, 0, UINT32_MAX);
    PrintedParses(t.bidPrice, INT64_MIN, INT64_MAX);
    PrintedParses(t.askPrice, INT64_MIN, INT64_MAX);
    PrintedParses(t.bidQty, INT32_MIN, INT32_MAX);
    PrintedParses(t.askQty, INT32_MIN, INT32_MAX);
  }

  lemma SevenFields(t: MarketTick)
    ensures |Fields(t)| == 7
  {
  }

  /** Every tick that fits its struct is read back from its printed row, with or without a return. */
  lemma RowRoundTrip(t: MarketTick)
    requires Fits(t)
    ensures Row(PrintedRow(t)) == Some(t) && Row(PrintedRow(t) + "\r") == Some(t)
    ensures Free(PrintedRow(t), '\n') && Free(PrintedRow(t), '\r')
  {
    hide Fields, RowOf, Split, Joined;
    FieldsFree(t);
    FieldsParse(t);
    assert |Fields(t)| == 7 by { SevenFields(t); }
    SplitJoined(Fields(t), ',');
    JoinedFree(Fields(t), ',', '\n');
    JoinedFree(Fields(t), ',', '\r');
    var row := PrintedRow(t);
    assert WithoutReturn(row) == row;
    assert (row + "\r")[..|row + "\r"| - 1] == row;
  }

  // ---------------------------------------------------------------------------
  // File level
  // ---------------------------------------------------------------------------

  predicate LineEnding(eol: string) {
    eol == "\n" || eol == "\r\n"
  }

  /** A row as it stands in the file, before `getline` removes the newline. */
  function Stored(t: MarketTick, eol: string): string {
    if eol == "\n" then PrintedRow(t) else PrintedRow(t) + "\r"
  }

  function StoredHeader(eol: string): string {
    if eol == "\n" then Header() else Header() + "\r"
  }

  ghost function StoredRows(n: nat, eol: string): seq<string> {
    seq(n, i requires i >= 0 => Stored(GeneratedTick(i), eol))
  }

  /** Appending a finished line to a text that ends in a newline appends one piece. */
  lemma {:induction false} SplitAppend(a: string, b: string)
    requires Free(b, '\n') && Split(a, '\n')[|Split(a, '\n')| - 1] == []
    ensures var p := Split(a, '\n');
      Split(a + b + "\n", '\n') == p[..|p| - 1] + [b, []]
    decreases |a|
  {
    var p := Split(a, '\n');
    if a == [] {
      SplitFirst(b, [], '\n');
      assert a + b + "\n" == b + ['\n'] + [];
      assert Split([], '\n') == [[]];
      assert [b] + [[]] == [b, []];
      assert p == [[]];
    } else {
      var q := Split(a[1..], '\n');
      assert (a + b + "\n")[1..] == a[1..] + b + "\n";
      if a[0] == '\n' {
        assert p == [[]] + q;
        SplitAppend(a[1..], b);
        assert [[]] + (q[..|q| - 1] + [b, []]) == p[..|p| - 1] + [b, []];
      } else {
        assert p == [[a[0]] + q[0]] + q[1..];
        assert |q| > 1;
        SplitAppend(a[1..], b);
        var r := q[..|q| - 1] + [b, []];
        assert [[a[0]] + r[0]] + r[1..] == p[..|p| - 1] + [b, []];
      }
    }
  }

  lemma StoredText(text: string, t: MarketTick, eol: string)
    requires LineEnding(eol)
    ensures text + PrintedRow(t) + eol == text + Stored(t, eol) + "\n"
  {
    hide PrintedRow;
  }

  lemma StoredFree(t: MarketTick, eol: string)
    requires Fits(t)
    ensures Free(Stored(t, eol), '\n')
  {
    hide PrintedRow, Fits;
    RowRoundTrip(t);
  }

  /** One more row adds one more piece. */
  lemma PiecesGrow(text: string, p: seq<string>, t: MarketTick, eol: string)
    requires LineEnding(eol) && Fits(t) && Split(text, '\n') == p + [[]]
    ensures Split(text + PrintedRow(t) + eol, '\n') == p + [Stored(t, eol)] + [[]]
  {
    hide Split, PrintedRow, Fits, Stored, Free, LineEnding;
    StoredFree(t, eol);
    StoredText(text, t, eol);
    SplitAppend(text, Stored(t, eol));
    assert (p + [[]])[..|p|] == p;
    assert p + [Stored(t, eol), []] == p + [Stored(t, eol)] + [[]];
  }

  lemma EmptySplit()
    ensures Split([], '\n') == [[]]
  {
  }

  lemma HeaderFree()
    ensures Free(Header(), '\n')
  {
    assert forall i :: 0 <= i < |NAMES| ==> Free(NAMES[i], '\n');
    hide Joined;
    JoinedFree(NAMES, ',', '\n');
  }

  lemma HeaderPieces(eol: string)
    requires LineEnding(eol)
    ensures Split(Header() + eol, '\n') == [StoredHeader(eol)] + [[]]
  {
    hide Split, Header;
    HeaderFree();
    assert Header() + eol == StoredHeader(eol) + ['\n'] + [];
    SplitFirst(StoredHeader(eol), [], '\n');
    EmptySplit();
  }

  lemma GeneratedFits(i: nat)
    requires (i + 1) * 1000 + 50 <= INT64_MAX
    ensures Fits(GeneratedTick(i)) && Sane(GeneratedTick(i))
    ensures GeneratedTick(i).receiveTs == (i + 1) * 1000 + 50 && GeneratedTick(i).symbolId == 1
  {
    hide StateAfter;
    var d := StateAfter(i + 1) / 0x1_0000_0000 % 401;
    assert 0 <= d < 401;
  }

  lemma {:induction false} GeneratedPieces(n: nat, eol: string)
    requires LineEnding(eol) && n * 1000 + 50 <= INT64_MAX
    ensures Split(GeneratedText(n, eol), '\n') == [StoredHeader(eol)] + StoredRows(n, eol) + [[]]
  {
    hide Split, PrintedRow, GeneratedTick, Header, StoredHeader, Stored, Fits;
    if n == 0 {
      HeaderPieces(eol);
      assert [StoredHeader(eol)] + StoredRows(0, eol) == [StoredHeader(eol)];
    } else {
      GeneratedPieces(n - 1, eol);
      GeneratedFits(n - 1);
      PiecesGrow(GeneratedText(n - 1, eol), [StoredHeader(eol)] + StoredRows(n - 1, eol), GeneratedTick(n - 1), eol);
      assert StoredRows(n - 1, eol) + [Stored(GeneratedTick(n - 1), eol)] == StoredRows(n, eol);
      assert [StoredHeader(eol)] + StoredRows(n - 1, eol) + [Stored(GeneratedTick(n - 1), eol)]
             == [StoredHeader(eol)] + StoredRows(n, eol);
    }
  }

  lemma GeneratedRows(n: nat, eol: string)
    requires LineEnding(eol) && n * 1000 + 50 <= INT64_MAX
    ensures Lines(GeneratedText(n, eol)) == [StoredHeader(eol)] + StoredRows(n, eol)
  {
    hide Split, GeneratedText, StoredHeader, StoredRows, LineEnding;
    GeneratedPieces(n, eol);
    var p := [StoredHeader(eol)] + StoredRows(n, eol);
    assert (p + [[]])[..|p|] == p;
  }

  lemma StoredRowReads(n: nat, eol: string, i: nat)
    requires i < n && LineEnding(eol) && n * 1000 + 50 <= INT64_MAX
    ensures Row(StoredRows(n, eol)[i]) == Some(GeneratedTick(i))
  {
    hide GeneratedTick, PrintedRow, Row, Fits;
    GeneratedFits(i);
    RowRoundTrip(GeneratedTick(i));
  }

  lemma StoredSize(n: nat, eol: string)
    ensures |StoredRows(n, eol)| == n
  {
  }

  lemma StoredRowSound(n: nat, eol: string, i: nat)
    requires i < n && LineEnding(eol) && n * 1000 + 50 <= INT64_MAX
    ensures Problem(StoredRows(n, eol), i) == Absent
  {
    hide GeneratedTick, Row, Fits, Sane, StoredRows;
    StoredSize(n, eol);
    GeneratedFits(i);
    GeneratedFits(0);
    StoredRowReads(n, eol, i);
    StoredRowReads(n, eol, 0);
    if i > 0 {
      GeneratedFits(i - 1);
      StoredRowReads(n, eol, i - 1);
    }
  }

  /** For every tick count whose timestamps fit, the generated file is accepted and read back as
      exactly the generated ticks, with either line ending. */
  lemma GeneratedFileReadsBack(n: nat, eol: string)
    requires n >= 1 && LineEnding(eol) && n * 1000 + 50 <= INT64_MAX
    ensures Reads(GeneratedText(n, eol), Ok(GeneratedTicks(n)))
    ensures forall r :: Reads(GeneratedText(n, eol), r) ==> r == Ok(GeneratedTicks(n))
  {
    hide Lines, GeneratedTick, GeneratedText, Row, Problem, StoredRows, StoredHeader, LineEnding;
    var text, rows := GeneratedText(n, eol), StoredRows(n, eol);
    GeneratedRows(n, eol);
    StoredSize(n, eol);
    assert Lines(text)[1..] == rows;
    forall i | 0 <= i < n
      ensures Problem(rows, i) == Absent && Row(rows[i]) == Some(GeneratedTick(i))
    {
      StoredRowReads(n, eol, i);
      StoredRowSound(n, eol, i);
    }
    assert Reads(text, Ok(GeneratedTicks(n)));
    hide Reads;
    forall r | Reads(text, r)
      ensures r == Ok(GeneratedTicks(n))
    {
      ReadsIsFunctional(text, r, Ok(GeneratedTicks(n)));
    }
  }
}
