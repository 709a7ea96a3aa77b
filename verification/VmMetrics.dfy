/** The parsers for /proc/<pid>/stat and /proc/<pid>/status. */
module VmMetrics {
  import opened Slots
  import opened Decimal
  import opened Text

  datatype ProcStat = ProcStat(state: char, utime: nat, stime: nat, numThreads: nat)

  datatype StatError = MissingParen | TooFewFields | InvalidField(field: string)

  /** The fields after the command name start with the third of the line. */
  function ParseFields(fields: seq<string>): Result<ProcStat, StatError>
    requires forall k :: 0 <= k < |fields| ==> |fields[k]| > 0
  {
    if |fields| < 18 then Err(TooFewFields)
    else
      var utime := ParseUnsigned(fields[11], U64);
      var stime := ParseUnsigned(fields[12], U64);
      var threads := ParseUnsigned(fields[17], U32);
      if utime.None? then Err(InvalidField("utime"))
      else if stime.None? then Err(InvalidField("stime"))
      else if threads.None? then Err(InvalidField("num_threads"))
      else Ok(ProcStat(fields[0][0], utime.value, stime.value, threads.value))
  }

  lemma {:induction false} WordsAreWords(text: string)
    ensures forall k :: 0 <= k < |Words(text)| ==> IsWord(Words(text)[k])
    decreases |text|
  {
    TrimStartShortens(text);
    var rest := TrimStart(text);
    if |rest| > 0 {
      WordsAreWords(rest[WordLength(rest)..]);
    }
  }

  function ParseProcStat(raw: string): Result<ProcStat, StatError> {
    match LastIndexOf(raw, ')')
    case None => Err(MissingParen)
    case Some(i) =>
      var fields := Words(raw[i + 1..]);
      WordsAreWords(raw[i + 1..]);
      ParseFields(fields)
  }

  /** The result depends only on what follows the last closing parenthesis. */
  lemma StatDependsOnTail(before: string, other: string, tail: string)
    requires Lacks(tail, ')')
    ensures ParseProcStat(before + ")" + tail) == ParseProcStat(other + ")" + tail)
  {
    LastIndexOfLast(before, ')', tail);
    LastIndexOfLast(other, ')', tail);
    assert (before + ")" + tail)[|before| + 1..] == tail;
    assert (other + ")" + tail)[|other| + 1..] == tail;
  }

  /** The result is that of the words after the last closing parenthesis. */
  lemma StatOfFields(before: string, fields: seq<string>, trailer: string)
    requires forall k :: 0 <= k < |fields| ==> |fields[k]| > 0 && NoSpace(fields[k]) && Lacks(fields[k], ')')
    requires AllSpace(trailer)
    ensures ParseProcStat(before + ")" + (Join(fields) + trailer)) == ParseFields(fields)
  {
    assert forall k :: 0 <= k < |fields| ==> IsWord(fields[k]);
    var tail := Join(fields) + trailer;
    assert !IsSpace(')');
    JoinLacks(fields, trailer, ')');
    LastIndexOfLast(before, ')', tail);
    WordsOfJoin(fields, trailer);
    hide Words, Join, LastIndexOf, ParseFields, AllSpace;
    assert before + ")" + tail == before + [')'] + tail;
    assert (before + [')'] + tail)[|before| + 1..] == tail;
  }

  lemma StatNeedsParen(raw: string)
    requires Lacks(raw, ')')
    ensures ParseProcStat(raw) == Err(MissingParen)
  {
    hide Words, ParseFields;
  }

  lemma StatNeedsFields(fields: seq<string>)
    requires forall k :: 0 <= k < |fields| ==> |fields[k]| > 0
    ensures ParseFields(fields) == Err(TooFewFields) <==> |fields| < 18
  {
    hide ParseUnsigned;
  }

  /** A line of /proc/<pid>/stat: process id, command name in parentheses, and the other fields. */
  function PrintStat(pid: nat, comm: string, fields: seq<string>, trailer: string): string {
    Print(pid) + " (" + comm + ")" + (Join(fields) + trailer)
  }

  lemma {:induction false} JoinLacks(words: seq<string>, trailer: string, c: char)
    requires c != ' ' && (forall k :: 0 <= k < |words| ==> Lacks(words[k], c)) && Lacks(trailer, c)
    ensures Lacks(Join(words) + trailer, c)
  {
    if |words| > 0 {
      JoinLacks(words[1..], trailer, c);
      assert Join(words) + trailer == " " + words[0] + (Join(words[1..]) + trailer);
    }
  }

  /**
   Round trip: whatever the command name is, spaces and parentheses included, the state, the
   times and the thread count printed at their places are read back.
   */
  lemma StatRoundTrip(pid: nat, comm: string, fields: seq<string>, trailer: string, stat: ProcStat)
    requires |fields| >= 18 && forall k :: 0 <= k < |fields| ==> IsWord(fields[k]) && Lacks(fields[k], ')')
    requires AllSpace(trailer)
    requires fields[0] == [stat.state]
    requires fields[11] == Print(stat.utime) && fields[12] == Print(stat.stime) && fields[17] == Print(stat.numThreads)
    ensures ParseProcStat(PrintStat(pid, comm, fields, trailer))
         == if stat.utime >= U64 then Err(InvalidField("utime"))
            else if stat.stime >= U64 then Err(InvalidField("stime"))
            else if stat.numThreads >= U32 then Err(InvalidField("num_threads"))
            else Ok(stat)
  {
    StatOfFields(Print(pid) + " (" + comm, fields, trailer);
    ParsePrinted(stat.utime, U64);
    ParsePrinted(stat.stime, U64);
    ParsePrinted(stat.numThreads, U32);
  }

  // ---------- Key and value lines ----------

  /** What a line of "key: value" text contributes. */
  datatype Entry = Nothing | Unreadable(key: string) | Reading(key: string, value: nat)

  function ReadLine(line: string): Entry {
    match IndexOf(line, ':')
    case None => Nothing
    case Some(i) =>
      var words := Words(line[i + 1..]);
      if |words| == 0 then Nothing
      else match ParseUnsigned(words[0], U64)
        case None => Unreadable(Trim(line[..i]))
        case Some(value) => Reading(Trim(line[..i]), value)
  }

  /** The value the last line for this key gives, if a line gives one. */
  function LastReading(lines: seq<string>, key: string): Option<nat> {
    if |lines| == 0 then None
    else
      var last := ReadLine(lines[|lines| - 1]);
      if last.Reading? && last.key == key then Some(last.value) else LastReading(lines[..|lines| - 1], key)
  }

  /** The map holds, for every key, the value of its last readable line, and nothing else. */
  ghost predicate Collects(values: map<string, nat>, lines: seq<string>) {
    forall key :: LastReading(lines, key) == if key in values then Some(values[key]) else None
  }

  /** There is only one such map. */
  lemma CollectedOnce(a: map<string, nat>, b: map<string, nat>, lines: seq<string>)
    requires Collects(a, lines) && Collects(b, lines)
    ensures a == b
  {
    forall key | key in a ensures key in b && b[key] == a[key] {
      assert LastReading(lines, key) == Some(a[key]);
    }
    forall key | key in b ensures key in a {
      assert LastReading(lines, key) == Some(b[key]);
    }
  }

  lemma CollectNext(values: map<string, nat>, lines: seq<string>, line: string)
    requires Collects(values, lines)
    ensures ReadLine(line).Reading? ==> Collects(values[ReadLine(line).key := ReadLine(line).value], lines + [line])
    ensures !ReadLine(line).Reading? ==> Collects(values, lines + [line])
  {
    assert (lines + [line])[..|lines|] == lines;
  }

  /** Unreadable values are skipped. */
  method ParseStatusKib(raw: string) returns (out: map<string, nat>)
    ensures Collects(out, Lines(raw))
  {
    out := map[];
    var lines := Lines(raw);
    var i := 0;
    while i < |lines|
      invariant i <= |lines| && Collects(out, lines[..i])
    {
      CollectNext(out, lines[..i], lines[i]);
      assert lines[..i + 1] == lines[..i] + [lines[i]];
      match ReadLine(lines[i]) {
        case Nothing =>
        case Unreadable(_) =>
        case Reading(key, value) => out := out[key := value];
      }
      i := i + 1;
    }
    assert lines[..i] == lines;
  }

  // ---------- Printed files ----------

  /** What follows the colon of a line: nothing, a numeral, or another word first. */
  datatype Cell = Blank | Numeral(value: nat) | Other(word: string)

  /** A line without a colon, or a key with what follows it; the white space around them is part of the row. */
  datatype Row =
    | Plain(text: string)
    | Keyed(lead: string, key: string, trail: string, pad: string, cell: Cell, rest: string)

  /** Tabs and blanks. */
  predicate IsPad(text: string) {
    forall k :: 0 <= k < |text| ==> text[k] == '\t' || text[k] == ' '
  }

  predicate IsGraphic(c: char) {
    '!' <= c <= '~'
  }

  /** A key as it is printed: in one line, without a colon, beginning and ending with a visible character. */
  predicate IsKey(key: string) {
    Lacks(key, ':') && Lacks(key, '\n') && (|key| > 0 ==> IsGraphic(key[0]) && IsGraphic(key[|key| - 1]))
  }

  /** A word of visible characters that is no numeral of 64 bits. */
  predicate IsOther(word: string) {
    && |word| > 0 && (forall k :: 0 <= k < |word| ==> IsGraphic(word[k]))
    && Denoted(Unsigned(word), U64).None?
  }

  predicate IsRow(row: Row) {
    match row
    case Plain(text) => IsLine(text) && Lacks(text, ':')
    case Keyed(lead, key, trail, pad, cell, rest) =>
      && IsPad(lead) && IsKey(key) && IsPad(trail) && IsPad(pad)
      && IsLine(rest) && (|rest| > 0 ==> IsPad(rest[..1]))
      && match cell
         case Blank => IsPad(rest)
         case Numeral(value) => value < U64
         case Other(word) => IsOther(word)
  }

  function PrintCell(cell: Cell): string {
    match cell
    case Blank => ""
    case Numeral(value) => Print(value)
    case Other(word) => word
  }

  function PrintRow(row: Row): string {
    match row
    case Plain(text) => text
    case Keyed(lead, key, trail, pad, cell, rest) => lead + key + trail + ":" + pad + PrintCell(cell) + rest
  }

  /** What a row says. */
  function EntryOf(row: Row): Entry {
    match row
    case Plain(_) => Nothing
    case Keyed(_, key, _, _, cell, _) =>
      match cell
      case Blank => Nothing
      case Numeral(value) => Reading(key, value)
      case Other(_) => Unreadable(key)
  }

  lemma PadIsSpace(text: string)
    requires IsPad(text)
    ensures AllSpace(text) && Lacks(text, ':') && Lacks(text, '\n') && Lacks(text, '\r')
  {
  }

  /** The words after the colon. */
  lemma CellWords(pad: string, cell: Cell, rest: string)
    requires IsRow(Keyed("", "", "", pad, cell, rest))
    ensures var words := Words(pad + PrintCell(cell) + rest);
            match cell
            case Blank => words == []
            case Numeral(value) => |words| > 0 && ParseUnsigned(words[0], U64) == Some(value)
            case Other(word) => |words| > 0 && ParseUnsigned(words[0], U64) == None
  {
    PadIsSpace(pad);
    match cell {
      case Blank =>
        PadIsSpace(rest);
        assert pad + PrintCell(cell) + rest == pad + rest;
        NoWords(pad + rest);
      case Numeral(value) =>
        ParsePrinted(value, U64);
        WordsStep(pad, Print(value), rest);
      case Other(word) =>
        ParseUnsignedIsExact(word, U64);
        assert IsWord(word);
        WordsStep(pad, word, rest);
    }
  }

  /** The text before the first colon of a row, and the text after it. */
  lemma RowSplits(before: string, after: string)
    requires Lacks(before, ':')
    ensures var line := before + ":" + after;
            IndexOf(line, ':') == Some(|before|) && line[..|before|] == before && line[|before| + 1..] == after
  {
    IndexOfFirst(before, ':', after);
    assert before + ":" + after == before + [':'] + after;
  }

  lemma SplitIsRead(line: string, before: string, after: string, key: string, cell: Cell)
    requires IndexOf(line, ':') == Some(|before|) && line[..|before|] == before && line[|before| + 1..] == after && Trim(before) == key
    requires var words := Words(after);
             match cell
             case Blank => words == []
             case Numeral(value) => |words| > 0 && ParseUnsigned(words[0], U64) == Some(value)
             case Other(word) => |words| > 0 && ParseUnsigned(words[0], U64) == None
    ensures ReadLine(line) == EntryOf(Keyed("", key, "", "", cell, ""))
  {
    hide IndexOf, Words, ParseUnsigned, Trim, Lacks;
  }

  lemma LacksJoined(a: string, b: string, c: char)
    requires Lacks(a, c) && Lacks(b, c)
    ensures Lacks(a + b, c)
  {
  }

  lemma KeyIsTrimmed(row: Row)
    requires IsRow(row) && row.Keyed?
    ensures var before := row.lead + row.key + row.trail; Trim(before) == row.key && Lacks(before, ':')
  {
    PadIsSpace(row.lead);
    PadIsSpace(row.trail);
    TrimPadded(row.lead, row.key, row.trail);
    hide Trim;
    LacksJoined(row.lead, row.key, ':');
    LacksJoined(row.lead + row.key, row.trail, ':');
  }

  lemma KeyedIsRead(row: Row)
    requires IsRow(row) && row.Keyed?
    ensures ReadLine(PrintRow(row)) == EntryOf(row)
  {
    hide ReadLine, IndexOf, Words, ParseUnsigned, Trim, Lacks, PrintCell, IsPad, IsKey, IsLine, Denoted;
    var before, after := row.lead + row.key + row.trail, row.pad + PrintCell(row.cell) + row.rest;
    KeyIsTrimmed(row);
    CellIsRow(row);
    CellWords(row.pad, row.cell, row.rest);
    RowSplits(before, after);
    assert PrintRow(row) == before + ":" + after;
    SplitIsRead(PrintRow(row), before, after, row.key, row.cell);
  }

  /** A row stays one without what stands before its colon. */
  lemma CellIsRow(row: Row)
    requires IsRow(row) && row.Keyed?
    ensures IsRow(Keyed("", "", "", row.pad, row.cell, row.rest))
  {
    hide IsLine, Denoted, Unsigned;
  }

  /** A printed row is one line, and is read as what it says. */
  lemma RowIsRead(row: Row)
    requires IsRow(row)
    ensures ReadLine(PrintRow(row)) == EntryOf(row)
  {
    if row.Keyed? {
      KeyedIsRead(row);
    }
  }

  lemma CellLacks(cell: Cell)
    requires cell.Numeral? || (cell.Other? && IsOther(cell.word))
    ensures |PrintCell(cell)| > 0 && Lacks(PrintCell(cell), '\n') && PrintCell(cell)[|PrintCell(cell)| - 1] != '\r'
  {
    if cell.Numeral? {
      ParsePrinted(cell.value, U64);
    }
  }

  lemma RowIsLine(row: Row)
    requires IsRow(row)
    ensures IsLine(PrintRow(row))
  {
    if row.Keyed? {
      var before, cell := row.lead + row.key + row.trail + ":", PrintCell(row.cell);
      PadIsSpace(row.lead);
      PadIsSpace(row.trail);
      PadIsSpace(row.pad);
      if !row.cell.Blank? {
        CellLacks(row.cell);
      }
      hide IsPad, IsKey, IsOther, Lacks;
      LacksJoined(row.lead, row.key, '\n');
      LacksJoined(row.lead + row.key, row.trail, '\n');
      ColonIsNoNewline(row.lead + row.key + row.trail);
      LacksJoined(before, row.pad, '\n');
      LacksJoined(before + row.pad, cell, '\n');
      LacksJoined(before + row.pad + cell, row.rest, '\n');
      assert PrintRow(row) == before + row.pad + cell + row.rest;
      LastIsNoReturn(before, row.pad, cell, row.rest);
    }
  }

  lemma ColonIsNoNewline(text: string)
    requires Lacks(text, '\n')
    ensures Lacks(text + ":", '\n')
  {
  }

  lemma LastIsNoReturn(before: string, pad: string, cell: string, rest: string)
    requires |before| > 0 && before[|before| - 1] == ':' && Lacks(pad, '\r')
    requires |cell| > 0 ==> cell[|cell| - 1] != '\r'
    requires |rest| > 0 ==> rest[|rest| - 1] != '\r'
    ensures var text := before + pad + cell + rest; text[|text| - 1] != '\r'
  {
  }

  function PrintRows(rows: seq<Row>): seq<string> {
    seq(|rows|, k requires 0 <= k < |rows| => PrintRow(rows[k]))
  }

  /** The last numeral of every key. */
  function ToMap(rows: seq<Row>): map<string, nat> {
    if |rows| == 0 then map[]
    else
      var last := EntryOf(rows[|rows| - 1]);
      if last.Reading? then ToMap(rows[..|rows| - 1])[last.key := last.value] else ToMap(rows[..|rows| - 1])
  }

  ghost predicate AreRows(rows: seq<Row>) {
    forall k :: 0 <= k < |rows| ==> IsRow(rows[k])
  }

  lemma {:induction false} RowsAreCollected(rows: seq<Row>)
    requires AreRows(rows)
    ensures Collects(ToMap(rows), PrintRows(rows))
  {
    hide IsRow, ReadLine, EntryOf, PrintRow;
    if |rows| > 0 {
      var n := |rows| - 1;
      RowsAreCollected(rows[..n]);
      RowIsRead(rows[n]);
      hide Collects;
      CollectNext(ToMap(rows[..n]), PrintRows(rows[..n]), PrintRow(rows[n]));
      assert PrintRows(rows) == PrintRows(rows[..n]) + [PrintRow(rows[n])];
    }
  }

  lemma RowsAreLines(rows: seq<Row>, ends: seq<string>)
    requires AreRows(rows) && AreEnds(PrintRows(rows), ends)
    ensures Lines(Unlines(PrintRows(rows), ends)) == PrintRows(rows)
  {
    hide IsRow, IsLine, PrintRow, Unlines, Lines, AreEnds;
    forall k | 0 <= k < |rows| ensures IsLine(PrintRows(rows)[k]) {
      RowIsLine(rows[k]);
    }
    LinesOfUnlines(PrintRows(rows), ends);
  }

  /**
   Round trip: of a file printed from any rows, with any padding by tabs and blanks and any line
   ends, exactly the last numeral of every key is collected; lines whose first word is no numeral,
   or that have none, contribute nothing.
   */
  lemma StatusRoundTrip(rows: seq<Row>, ends: seq<string>, values: map<string, nat>)
    requires AreRows(rows) && AreEnds(PrintRows(rows), ends)
    ensures Collects(values, Lines(Unlines(PrintRows(rows), ends))) <==> values == ToMap(rows)
  {
    hide IsRow, PrintRow, Unlines, Lines, AreEnds, Collects;
    RowsAreLines(rows, ends);
    RowsAreCollected(rows);
    if Collects(values, PrintRows(rows)) {
      CollectedOnce(values, ToMap(rows), PrintRows(rows));
    }
  }
}
