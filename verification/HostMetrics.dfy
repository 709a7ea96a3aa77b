/** The parser for /proc/meminfo, and its agreement with the one for /proc/<pid>/status. */
module HostMetrics {
  import opened Slots
  import opened Text
  import opened VmMetrics

  ghost predicate AllReadable(lines: seq<string>) {
    forall k :: 0 <= k < |lines| ==> !ReadLine(lines[k]).Unreadable?
  }

  /** The first unreadable value ends the parse; the error names its key. */
  method ParseMeminfoKib(raw: string) returns (result: Result<map<string, nat>, string>)
    ensures result.Ok? <==> AllReadable(Lines(raw))
    ensures result.Ok? ==> Collects(result.value, Lines(raw))
    ensures result.Err? ==>
              exists k :: 0 <= k < |Lines(raw)| && ReadLine(Lines(raw)[k]) == Unreadable(result.error) && AllReadable(Lines(raw)[..k])
  {
    var values: map<string, nat> := map[];
    var lines := Lines(raw);
    var i := 0;
    while i < |lines|
      invariant i <= |lines| && Collects(values, lines[..i]) && AllReadable(lines[..i])
    {
      CollectNext(values, lines[..i], lines[i]);
      assert lines[..i + 1] == lines[..i] + [lines[i]];
      match ReadLine(lines[i]) {
        case Nothing =>
        case Unreadable(key) =>
          assert !AllReadable(lines);
          return Err(key);
        case Reading(key, value) => values := values[key := value];
      }
      i := i + 1;
    }
    assert lines[..i] == lines;
    return Ok(values);
  }

  /** The lines whose value is readable, or that have none. */
  function ReadableLines(lines: seq<string>): seq<string> {
    if |lines| == 0 then []
    else
      var n := |lines| - 1;
      ReadableLines(lines[..n]) + (if ReadLine(lines[n]).Unreadable? then [] else [lines[n]])
  }

  lemma {:induction false} KeptAreReadable(lines: seq<string>)
    ensures AllReadable(ReadableLines(lines))
    decreases |lines|
  {
    if |lines| > 0 {
      KeptAreReadable(lines[..|lines| - 1]);
    }
  }

  lemma {:induction false} DroppingKeepsReadings(lines: seq<string>, key: string)
    ensures LastReading(ReadableLines(lines), key) == LastReading(lines, key)
    decreases |lines|
  {
    if |lines| > 0 {
      var n := |lines| - 1;
      DroppingKeepsReadings(lines[..n], key);
      var kept := ReadableLines(lines[..n]);
      if !ReadLine(lines[n]).Unreadable? {
        assert (kept + [lines[n]])[..|kept|] == kept;
      } else {
        assert kept + [] == kept;
      }
    }
  }

  lemma {:induction false} FirstOfReadable(line: string, rest: seq<string>)
    ensures ReadableLines([line] + rest) == (if ReadLine(line).Unreadable? then [] else [line]) + ReadableLines(rest)
    decreases |rest|
  {
    hide ReadLine;
    var lines := [line] + rest;
    if |rest| == 0 {
      assert lines[..0] == [];
    } else {
      FirstOfReadable(line, rest[..|rest| - 1]);
      assert lines[..|lines| - 1] == [line] + rest[..|rest| - 1];
    }
  }

  lemma LinesOfFirst(line: string, rest: string)
    requires Lacks(line, '\n')
    ensures Lines(line + ['\n'] + rest) == [StripCarriageReturn(line)] + Lines(rest)
  {
    var text := line + ['\n'] + rest;
    IndexOfFirst(line, '\n', rest);
    assert text[..|line|] == line && text[|line| + 1..] == rest;
  }

  /** The text without its unreadable lines; the others keep their line ends. */
  function KeepReadable(raw: string): string
    decreases |raw|
  {
    if |raw| == 0 then ""
    else match IndexOf(raw, '\n')
      case None => if ReadLine(raw).Unreadable? then "" else raw
      case Some(i) =>
        (if ReadLine(StripCarriageReturn(raw[..i])).Unreadable? then "" else raw[..i] + ['\n']) + KeepReadable(raw[i + 1..])
  }

  lemma LastLineIsKept(raw: string)
    requires |raw| > 0 && IndexOf(raw, '\n').None?
    ensures Lines(KeepReadable(raw)) == ReadableLines(Lines(raw))
  {
    hide ReadLine, IndexOf;
    FirstOfReadable(raw, []);
    assert [raw] + [] == [raw] == Lines(raw);
  }

  lemma {:induction false} KeptTextHasReadableLines(raw: string)
    ensures Lines(KeepReadable(raw)) == ReadableLines(Lines(raw))
    decreases |raw|
  {
    hide ReadLine, IndexOf, StripCarriageReturn, Lacks;
    if |raw| > 0 {
      match IndexOf(raw, '\n') {
        case None => LastLineIsKept(raw);
        case Some(i) =>
          var line, rest := raw[..i], raw[i + 1..];
          var stripped := StripCarriageReturn(line);
          KeptTextHasReadableLines(rest);
          FirstOfReadable(stripped, Lines(rest));
          LinesOfFirst(line, KeepReadable(rest));
          assert Lines(raw) == [stripped] + Lines(rest);
          if ReadLine(stripped).Unreadable? {
            assert KeepReadable(raw) == KeepReadable(rest);
          } else {
            assert KeepReadable(raw) == line + ['\n'] + KeepReadable(rest);
          }
      }
    }
  }

  /**
   Dropping the unreadable lines from a file changes nothing for the lenient parser and makes the
   strict one succeed.
   */
  lemma LenientIsStrictOnReadable(values: map<string, nat>, raw: string)
    ensures AllReadable(Lines(KeepReadable(raw)))
    ensures Collects(values, Lines(raw)) <==> Collects(values, Lines(KeepReadable(raw)))
  {
    var lines := Lines(raw);
    KeptTextHasReadableLines(raw);
    KeptAreReadable(lines);
    forall key ensures LastReading(ReadableLines(lines), key) == LastReading(lines, key) {
      DroppingKeepsReadings(lines, key);
    }
  }

  /** Wherever the strict parser succeeds, both parsers return the same map. */
  method ParseBoth(raw: string) returns (meminfo: Result<map<string, nat>, string>, status: map<string, nat>)
    ensures meminfo.Ok? ==> meminfo.value == status
    ensures meminfo.Ok? <==> AllReadable(Lines(raw))
  {
    meminfo := ParseMeminfoKib(raw);
    status := ParseStatusKib(raw);
    if meminfo.Ok? {
      CollectedOnce(meminfo.value, status, Lines(raw));
    }
  }

  // ---------- Round trip ----------

  /** The first row whose first word is no numeral. */
  ghost predicate FirstOther(rows: seq<Row>, k: nat) {
    && k < |rows| && rows[k].Keyed? && rows[k].cell.Other?
    && forall j :: 0 <= j < k && rows[j].Keyed? ==> !rows[j].cell.Other?
  }

  lemma ReadableRows(rows: seq<Row>, n: nat)
    requires AreRows(rows) && n <= |rows|
    ensures AllReadable(PrintRows(rows)[..n]) <==> forall j :: 0 <= j < n && rows[j].Keyed? ==> !rows[j].cell.Other?
  {
    forall j | 0 <= j < n ensures ReadLine(PrintRows(rows)[..n][j]) == EntryOf(rows[j]) {
      RowIsRead(rows[j]);
    }
    hide IsRow, ReadLine, PrintRow;
    forall j: nat | j < n && rows[j].Keyed? && rows[j].cell.Other? ensures ReadLine(PrintRows(rows)[..n][j]).Unreadable? {
    }
  }

  /**
   Round trip: a meminfo file printed from any rows, with any padding by tabs and blanks and any
   line ends, is read back, the last numeral of a key winning, unless the first word of some row is
   no numeral; then the error names the key of the first such row.
   */
  lemma MeminfoRoundTrip(rows: seq<Row>, ends: seq<string>, values: map<string, nat>, k: nat, key: string)
    requires AreRows(rows) && AreEnds(PrintRows(rows), ends)
    ensures var lines := Lines(Unlines(PrintRows(rows), ends));
            && (AllReadable(lines) <==> forall j :: 0 <= j < |rows| && rows[j].Keyed? ==> !rows[j].cell.Other?)
            && (Collects(values, lines) <==> values == ToMap(rows))
            && (k < |lines| && ReadLine(lines[k]) == Unreadable(key) && AllReadable(lines[..k])
                <==> FirstOther(rows, k) && rows[k].key == key)
  {
    hide IsRow, PrintRow, Unlines, Lines, AreEnds, Collects, ReadLine, AllReadable;
    RowsAreLines(rows, ends);
    StatusRoundTrip(rows, ends, values);
    ReadableRows(rows, |rows|);
    assert PrintRows(rows)[..|rows|] == PrintRows(rows);
    if k < |rows| {
      ReadableRows(rows, k);
      RowIsRead(rows[k]);
    }
  }
}
