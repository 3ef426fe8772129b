/** The JSONL file reader (src-tauri/src/jsonl/reader.rs): counting lines
    with progress reports, loading a page of lines, searching for a keyword,
    and the manager that holds the currently open reader.

    The file is a sequence of lines (without their line terminators) plus,
    optionally, the position of a line whose read fails with an I/O error.
    JSON parsing is a parameter: a function from a trimmed line to a record
    or to the parser's error message. */
module Reader {
  import opened Models
  import opened Text

  /** A read of line `at` fails with `message`. */
  datatype Fault = Fault(at: nat, message: string)

  /** The file as a `BufReader` sees it. */
  datatype File = File(lines: seq<string>, fault: Option<Fault>)

  /** JSON parsing of one line: `serde_json::from_str::<JsonObject>`. */
  type Parser = string -> Result<Row, string>

  /** One report through the progress callback. The estimated totals and
      percentages of in-progress reports are not modelled. */
  datatype Progress = Counting(current: nat) | Finished(current: nat, total: nat)
  {
    function Current(): nat { match this case Counting(c) => c case Finished(c, _) => c }
  }

  /** Error text of the manager when no file is open. */
  const NoFileOpen := "未打开JSONL文件"

  /** Outcome of one `read_line` at line position `pos`. */
  datatype ReadOutcome = Eof | Line(text: string) | Failed(message: string)

  function ReadLine(file: File, pos: nat): (o: ReadOutcome)
    ensures o.Eof? <==> pos >= |file.lines|
    ensures o.Line? ==> o.text == file.lines[pos]
  {
    if pos >= |file.lines| then Eof
    else if file.fault.Some? && file.fault.value.at == pos then Failed(file.fault.value.message)
    else Line(file.lines[pos])
  }

  /** Reading the first `n` lines (or the whole file, if shorter) hits the fault. */
  predicate FaultBefore(file: File, n: nat)
  {
    file.fault.Some? && file.fault.value.at < Min(n, |file.lines|)
  }

  // ---------------------------------------------------------------------
  // Counting lines

  /** The in-progress reports of a count over `n` lines: one for each line
      after whose read the throttle let a report through. */
  function Throttled(report: nat -> bool, n: nat): (rs: seq<Progress>)
    ensures |rs| <= n
    ensures forall i :: 0 <= i < |rs| ==> rs[i].Counting? && 1 <= rs[i].current <= n
    ensures forall i, j :: 0 <= i < j < |rs| ==> rs[i].current < rs[j].current
  {
    if n == 0 then [] else Throttled(report, n - 1) + (if report(n) then [Counting(n)] else [])
  }

  /** The reports are in non-decreasing order of `current`. */
  predicate NonDecreasing(rs: seq<Progress>)
  {
    forall i, j :: 0 <= i < j < |rs| ==> rs[i].Current() <= rs[j].Current()
  }

  // ---------------------------------------------------------------------
  // Loading a page

  /** The lines with positions in `[start, end)` that exist in the file. */
  function Window(lines: seq<string>, start: nat, end: nat): (w: seq<string>)
    requires start <= end
    ensures |w| <= end - start
  {
    lines[Min(start, |lines|)..Min(end, |lines|)]
  }

  /** A window grows by the line at its end while that line exists, and
      stops growing past the last line. */
  lemma WindowStep(lines: seq<string>, start: nat, pos: nat, end: nat)
    requires start <= pos <= end
    ensures pos < |lines| ==> Window(lines, start, pos + 1) == Window(lines, start, pos) + [lines[pos]]
    ensures pos >= |lines| ==> Window(lines, start, pos) == Window(lines, start, end)
  {
  }

  /** What one line contributes to a page: its record, unless the line is
      blank after trimming or does not parse. */
  function LineRow(line: string, parse: Parser): (rs: seq<Row>)
    ensures |rs| <= 1
    ensures |rs| == 1 <==> Trim(line) != "" && parse(Trim(line)).Ok?
    ensures |rs| == 1 ==> rs[0] == parse(Trim(line)).value
  {
    var t := Trim(line);
    if t == [] then [] else match parse(t) case Ok(o) => [o] case Err(_) => []
  }

  /** What `f` yields for each line, concatenated in line order. */
  function Gather<T>(lines: seq<string>, f: string -> seq<T>): seq<T>
  {
    if lines == [] then [] else Gather(lines[..|lines| - 1], f) + f(lines[|lines| - 1])
  }

  /** Gathering two runs of lines one after the other gives what each yields, in order. */
  lemma {:induction false} GatherAppend<T>(a: seq<string>, b: seq<string>, f: string -> seq<T>)
    ensures Gather(a + b, f) == Gather(a, f) + Gather(b, f)
    decreases |b|
  {
    if b == [] {
      assert a + b == a;
    } else {
      assert (a + b)[..|a + b| - 1] == a + b[..|b| - 1];
      GatherAppend(a, b[..|b| - 1], f);
    }
  }

  /** A line yielding at most one item, there are at most as many items as lines. */
  lemma {:induction false} GatherAtMostOne<T>(lines: seq<string>, f: string -> seq<T>)
    requires forall line :: |f(line)| <= 1
    ensures |Gather(lines, f)| <= |lines|
    decreases |lines|
  {
    if lines != [] {
      GatherAtMostOne(lines[..|lines| - 1], f);
    }
  }

  /** Every item comes from one of the lines. */
  lemma {:induction false} GatherSound<T>(lines: seq<string>, f: string -> seq<T>, x: T)
    requires forall line :: |f(line)| <= 1
    requires x in Gather(lines, f)
    ensures exists i :: 0 <= i < |lines| && f(lines[i]) == [x]
    decreases |lines|
  {
    var init, last := lines[..|lines| - 1], lines[|lines| - 1];
    if x in Gather(init, f) {
      GatherSound(init, f, x);
      var i :| 0 <= i < |init| && f(init[i]) == [x];
      assert lines[i] == init[i];
    } else {
      assert f(last) == [x];
    }
  }

  /** What each line yields is among the items. */
  lemma {:induction false} GatherComplete<T>(lines: seq<string>, f: string -> seq<T>, i: nat)
    requires i < |lines| && f(lines[i]) != []
    ensures f(lines[i])[0] in Gather(lines, f)
    decreases |lines|
  {
    var init := lines[..|lines| - 1];
    if i < |init| {
      assert init[i] == lines[i];
      GatherComplete(init, f, i);
    }
  }

  function RowOf(parse: Parser): string -> seq<Row>
  {
    line => LineRow(line, parse)
  }

  /** The records of a run of lines, in order, skipping blank and malformed ones. */
  function PageRows(lines: seq<string>, parse: Parser): (rows: seq<Row>)
    ensures |rows| <= |lines|
  {
    GatherAtMostOne(lines, RowOf(parse));
    Gather(lines, RowOf(parse))
  }

  /** Reading two runs of lines one after the other gives the records of each, in order. */
  lemma PageRowsAppend(a: seq<string>, b: seq<string>, parse: Parser)
    ensures PageRows(a + b, parse) == PageRows(a, parse) + PageRows(b, parse)
  {
    GatherAppend(a, b, RowOf(parse));
  }

  /** Every record on a page comes from one of its lines. */
  lemma PageRowsSound(lines: seq<string>, parse: Parser, o: Row)
    requires o in PageRows(lines, parse)
    ensures exists i :: 0 <= i < |lines| && LineRow(lines[i], parse) == [o]
  {
    GatherSound(lines, RowOf(parse), o);
  }

  /** Every line that yields a record puts it on the page. */
  lemma PageRowsComplete(lines: seq<string>, parse: Parser, i: nat)
    requires i < |lines| && LineRow(lines[i], parse) != []
    ensures LineRow(lines[i], parse)[0] in PageRows(lines, parse)
  {
    GatherComplete(lines, RowOf(parse), i);
  }

  /** What `load_page` returns for the page starting at line `start`, in a
      file whose counted length is `totalLines`: `PageOutOfRange` when the
      page starts at or past that count (so every page of an empty file); an
      I/O error when a line up to the end of the page cannot be read;
      otherwise the records of the page's lines, with the full line count as
      total, whatever lines were skipped. */
  function LoadPageAt(file: File, totalLines: nat, parse: Parser, start: nat, pageSize: nat): (r: AppResult<PagedResponse>)
    ensures start >= totalLines ==> r == Err(PageOutOfRange)
    ensures start < totalLines ==>
      var end := Min(start + pageSize, totalLines);
      && (r.Err? <==> FaultBefore(file, end))
      && (r.Err? ==> r.error == Io(file.fault.value.message))
      && (r.Ok? ==> r.value.total == totalLines && |r.value.data| <= pageSize
                    && r.value.data == PageRows(Window(file.lines, start, end), parse))
  {
    var end := Min(start + pageSize, totalLines);
    if start >= totalLines then Err(PageOutOfRange)
    else if FaultBefore(file, end) then Err(Io(file.fault.value.message))
    else Ok(PagedResponse(PageRows(Window(file.lines, start, end), parse), totalLines))
  }

  // ---------------------------------------------------------------------
  // Searching

  /** What one line contributes to the matches: its trimmed text, when that
      is non-blank and its lowercase form contains the lowercased keyword. */
  function LineMatch(line: string, lowerKeyword: string): (m: seq<string>)
    ensures |m| <= 1
    ensures |m| == 1 <==> Trim(line) != "" && Contains(ToLower(Trim(line)), lowerKeyword)
    ensures |m| == 1 ==> m[0] == Trim(line)
  {
    var t := Trim(line);
    if t != [] && Contains(ToLower(t), lowerKeyword) then [t] else []
  }

  function MatchOf(lowerKeyword: string): string -> seq<string>
  {
    line => LineMatch(line, lowerKeyword)
  }

  /** The matching trimmed lines, in file order. */
  function Matches(lines: seq<string>, lowerKeyword: string): (m: seq<string>)
    ensures |m| <= |lines|
  {
    GatherAtMostOne(lines, MatchOf(lowerKeyword));
    Gather(lines, MatchOf(lowerKeyword))
  }

  /** Every match comes from one of the lines. */
  lemma MatchesSound(lines: seq<string>, lowerKeyword: string, t: string)
    requires t in Matches(lines, lowerKeyword)
    ensures exists i :: 0 <= i < |lines| && LineMatch(lines[i], lowerKeyword) == [t]
  {
    GatherSound(lines, MatchOf(lowerKeyword), t);
  }

  /** Every matching line is among the matches. */
  lemma MatchesComplete(lines: seq<string>, lowerKeyword: string, i: nat)
    requires i < |lines| && LineMatch(lines[i], lowerKeyword) != []
    ensures LineMatch(lines[i], lowerKeyword)[0] in Matches(lines, lowerKeyword)
  {
    GatherComplete(lines, MatchOf(lowerKeyword), i);
  }

  /** Matching keeps file order: the matches of two runs of lines are the
      matches of the first followed by those of the second. */
  lemma MatchesAppend(a: seq<string>, b: seq<string>, lowerKeyword: string)
    ensures Matches(a + b, lowerKeyword) == Matches(a, lowerKeyword) + Matches(b, lowerKeyword)
  {
    GatherAppend(a, b, MatchOf(lowerKeyword));
  }

  /** Parsing every text of a run, in order; the first failure wins. */
  function ParseAll(ts: seq<string>, parse: Parser): (r: Result<seq<Row>, string>)
    ensures r.Ok? <==> forall k :: 0 <= k < |ts| ==> parse(ts[k]).Ok?
    ensures r.Ok? ==> |r.value| == |ts| && forall k :: 0 <= k < |ts| ==> r.value[k] == parse(ts[k]).value
  {
    if ts == [] then Ok([])
    else
      match ParseAll(ts[..|ts| - 1], parse)
      case Err(e) => Err(e)
      case Ok(d) =>
        match parse(ts[|ts| - 1])
        case Err(e) => Err(e)
        case Ok(o) => Ok(d + [o])
  }

  /** A failure in a prefix is the failure of the whole run. */
  lemma {:induction false} ParseAllPrefixErr(ts: seq<string>, j: nat, parse: Parser)
    requires j <= |ts| && ParseAll(ts[..j], parse).Err?
    ensures ParseAll(ts, parse) == ParseAll(ts[..j], parse)
    decreases |ts|
  {
    if j < |ts| {
      var init := ts[..|ts| - 1];
      assert init[..j] == ts[..j];
      ParseAllPrefixErr(init, j, parse);
    } else {
      assert ts[..j] == ts;
    }
  }

  /** The page of matches `m` starting at match `start` (with the
      zero-match case as the guard at reader.rs:244 intends it, see
      SearchCapacityAsWritten): `PageOutOfRange` when there are matches and
      the page starts at or past them; otherwise the parsed matches of the
      page, where one unparsable match fails the whole call with its JSON
      error, and the number of matches as total. */
  function PageOfMatches(m: seq<string>, parse: Parser, start: nat, pageSize: nat): (r: AppResult<PagedResponse>)
    ensures r == Err(PageOutOfRange) <==> start >= |m| && |m| > 0
    ensures |m| == 0 ==> r == Ok(PagedResponse([], 0))
    ensures start < |m| ==>
      var end := Min(start + pageSize, |m|);
      && (r.Ok? <==> forall k :: start <= k < end ==> parse(m[k]).Ok?)
      && (r.Err? ==> r.error.Json?)
      && (r.Ok? ==> r.value.total == |m| && |r.value.data| == end - start
                    && forall k :: 0 <= k < end - start ==> r.value.data[k] == parse(m[start + k]).value)
  {
    var end := Min(start + pageSize, |m|);
    if start >= |m| && |m| > 0 then Err(PageOutOfRange)
    else if start >= end then Ok(PagedResponse([], |m|))
    else
      match ParseAll(m[start..end], parse)
      case Err(e) => Err(Json(e))
      case Ok(d) => Ok(PagedResponse(d, |m|))
  }

  /** What `search` returns for the page starting at match `start`: an I/O
      error when some line cannot be read, otherwise that page of the lines
      matching the keyword case-insensitively. */
  function SearchAt(file: File, parse: Parser, keyword: string, start: nat, pageSize: nat): (r: AppResult<PagedResponse>)
    ensures FaultBefore(file, |file.lines|) ==> r == Err(Io(file.fault.value.message))
    ensures !FaultBefore(file, |file.lines|) ==> r == PageOfMatches(Matches(file.lines, ToLower(keyword)), parse, start, pageSize)
  {
    if FaultBefore(file, |file.lines|) then Err(Io(file.fault.value.message))
    else PageOfMatches(Matches(file.lines, ToLower(keyword)), parse, start, pageSize)
  }

  /** The reading half of `load_page`: skips the lines before `start`, then
      reads the lines up to `end`, stopping early at the end of the file and
      keeping the record of each non-blank line that parses; a failed read
      ends the call with its message. */
  method ReadPage(file: File, parse: Parser, start: nat, end: nat) returns (r: Result<seq<Row>, string>)
    requires start <= end
    ensures r.Err? <==> FaultBefore(file, end)
    ensures r.Err? ==> r.error == file.fault.value.message
    ensures r.Ok? ==> r.value == PageRows(Window(file.lines, start, end), parse)
  {
    var failed := SkipLines(file, start);
    if failed.Some? {
      return Err(failed.value);
    }
    r := ReadRows(file, parse, start, end);
  }

  /** The skipping loop of `load_page`: reads and drops `count` lines. */
  method SkipLines(file: File, count: nat) returns (failed: Option<string>)
    ensures failed.Some? <==> FaultBefore(file, count)
    ensures failed.Some? ==> failed.value == file.fault.value.message
  {
    for pos := 0 to count
      invariant !FaultBefore(file, pos)
    {
      match ReadLine(file, pos)
      case Failed(message) =>
        return Some(message);
      case _ =>
    }
    failed := None;
  }

  /** The reading loop of `load_page`, from line `start` up to `end`. */
  method ReadRows(file: File, parse: Parser, start: nat, end: nat) returns (r: Result<seq<Row>, string>)
    requires start <= end && !FaultBefore(file, start)
    ensures r.Err? <==> FaultBefore(file, end)
    ensures r.Err? ==> r.error == file.fault.value.message
    ensures r.Ok? ==> r.value == PageRows(Window(file.lines, start, end), parse)
  {
    var data: seq<Row> := [];
    var pos := start;
    while pos < end
      invariant start <= pos <= end
      invariant !FaultBefore(file, pos)
      invariant data == PageRows(Window(file.lines, start, pos), parse)
      decreases end - pos
    {
      match ReadLine(file, pos)
      case Eof =>
        break;
      case Failed(message) =>
        return Err(message);
      case Line(text) =>
        WindowStep(file.lines, start, pos, end);
        data := data + LineRow(text, parse);
        pos := pos + 1;
    }
    WindowStep(file.lines, start, pos, end);
    r := Ok(data);
  }

  /** The scanning half of `search`: reads every line, keeping the trimmed
      ones whose lowercase form contains the lowercased keyword; a failed
      read ends the scan with its message. */
  method ScanMatches(file: File, lowerKeyword: string) returns (r: Result<seq<string>, string>)
    ensures r.Err? <==> FaultBefore(file, |file.lines|)
    ensures r.Err? ==> r.error == file.fault.value.message
    ensures r.Ok? ==> r.value == Matches(file.lines, lowerKeyword)
  {
    var matching: seq<string> := [];
    var pos := 0;
    while true
      invariant pos <= |file.lines|
      invariant !FaultBefore(file, pos)
      invariant matching == Matches(file.lines[..pos], lowerKeyword)
      decreases |file.lines| - pos
    {
      match ReadLine(file, pos)
      case Eof =>
        break;
      case Failed(message) =>
        return Err(message);
      case Line(text) =>
        matching := matching + LineMatch(text, lowerKeyword);
        assert file.lines[..pos + 1][..pos] == file.lines[..pos];
        pos := pos + 1;
    }
    assert file.lines[..pos] == file.lines;
    r := Ok(matching);
  }

  /** The paging half of `search`: `PageOutOfRange` past the matches, unless
      there are none; otherwise the matches of the page parsed in turn. */
  method PageMatches(matching: seq<string>, parse: Parser, start: nat, pageSize: nat) returns (r: AppResult<PagedResponse>)
    ensures r == PageOfMatches(matching, parse, start, pageSize)
  {
    var total := |matching|;
    var end := Min(start + pageSize, total);
    if start >= total && total > 0 {
      return Err(PageOutOfRange);
    }
    if start >= end {
      return Ok(PagedResponse([], total));
    }
    var parsed := ParseEach(matching[start..end], parse);
    match parsed {
      case Err(e) => r := Err(Json(e));
      case Ok(data) => r := Ok(PagedResponse(data, total));
    }
  }

  /** The parsing loop of `search`: each text in turn, the first failure
      ending the loop. */
  method ParseEach(ts: seq<string>, parse: Parser) returns (r: Result<seq<Row>, string>)
    ensures r == ParseAll(ts, parse)
  {
    var data: seq<Row> := [];
    for i := 0 to |ts|
      invariant ParseAll(ts[..i], parse) == Ok(data)
    {
      assert ts[..i + 1][..i] == ts[..i];
      match parse(ts[i]) {
        case Err(e) =>
          ParseAllPrefixErr(ts, i + 1, parse);
          return Err(e);
        case Ok(o) =>
          data := data + [o];
      }
    }
    assert ts[..|ts|] == ts;
    r := Ok(data);
  }

  /** `search` once the page's first match index is known. */
  method SearchFrom(file: File, parse: Parser, keyword: string, start: nat, pageSize: nat) returns (r: AppResult<PagedResponse>)
    ensures r == SearchAt(file, parse, keyword, start, pageSize)
  {
    var scanned := ScanMatches(file, ToLower(keyword));
    match scanned
    case Err(message) =>
      r := Err(Io(message));
    case Ok(matching) =>
      r := PageMatches(matching, parse, start, pageSize);
  }

  /** The capacity `search` reserves for its page, `end_idx - start_idx` in
      `usize` as written at reader.rs:249: None when the subtraction
      underflows, which panics instead of returning a page. */
  function SearchCapacityAsWritten(totalMatches: nat, page: nat, pageSize: nat): (r: Option<nat>)
    requires page >= 1
    ensures r.None? <==> (page - 1) * pageSize > Min((page - 1) * pageSize + pageSize, totalMatches)
  {
    var start := (page - 1) * pageSize;
    var end := Min(start + pageSize, totalMatches);
    if end >= start then Some(end - start) else None
  }

  /** The discrepancy: past the `PageOutOfRange` guard, the capacity
      underflows exactly when there are no matches and the page starts after
      position 0, i.e. page 2 or later with a non-zero page size. */
  lemma ZeroMatchesLaterPageUnderflows(totalMatches: nat, page: nat, pageSize: nat)
    requires page >= 1
    requires !((page - 1) * pageSize >= totalMatches && totalMatches > 0)
    ensures SearchCapacityAsWritten(totalMatches, page, pageSize).None? <==>
      totalMatches == 0 && page >= 2 && pageSize >= 1
  {
    var start := (page - 1) * pageSize;
    if page >= 2 && pageSize >= 1 {
      assert start >= pageSize by {
        assert (page - 1) * pageSize >= 1 * pageSize;
      }
    } else {
      assert start == 0;
    }
  }

  /** The corrected search: with no matches every page is empty, with total 0. */
  lemma ZeroMatchesGiveEmptyPage(file: File, parse: Parser, keyword: string, start: nat, pageSize: nat)
    requires !FaultBefore(file, |file.lines|)
    requires Matches(file.lines, ToLower(keyword)) == []
    ensures SearchAt(file, parse, keyword, start, pageSize) == Ok(PagedResponse([], 0))
  {
  }

  /** JsonlReader: an open file and its counted number of lines. */
  class JsonlReader {
    const path: string
    const file: File
    var totalLines: nat

    /** `JsonlReader::new` once the file exists: no lines counted yet. */
    constructor (path: string, file: File)
      ensures this.path == path && this.file == file && totalLines == 0
    {
      this.path := path;
      this.file := file;
      totalLines := 0;
    }

    /** `count_lines_with_progress`: reads the file line by line, reporting 0
        first, then the count after each line the throttle (`report`) lets
        through, then the final count as both current and total, and stores
        the count. A failed read stops the count with an I/O error and leaves
        the stored count as it was. */
    method CountLinesWithProgress(report: nat -> bool) returns (r: AppResult<nat>, reports: seq<Progress>)
      modifies this
      ensures r.Ok? <==> !FaultBefore(file, |file.lines|)
      ensures r.Ok? ==> r.value == |file.lines| && totalLines == |file.lines|
      ensures r.Ok? ==> reports == [Counting(0)] + Throttled(report, |file.lines|) + [Finished(|file.lines|, |file.lines|)]
      ensures r.Err? ==> r == Err(Io(file.fault.value.message)) && totalLines == old(totalLines)
      ensures r.Err? ==> reports == [Counting(0)] + Throttled(report, file.fault.value.at)
      ensures |reports| >= 1 && reports[0] == Counting(0) && NonDecreasing(reports)
    {
      var lineCount: nat := 0;
      reports := [Counting(0)];
      while true
        invariant lineCount <= |file.lines|
        invariant !FaultBefore(file, lineCount)
        invariant reports == [Counting(0)] + Throttled(report, lineCount)
        decreases |file.lines| - lineCount
      {
        match ReadLine(file, lineCount)
        case Eof =>
          break;
        case Failed(message) =>
          r := Err(Io(message));
          return;
        case Line(_) =>
          lineCount := lineCount + 1;
          if report(lineCount) {
            reports := reports + [Counting(lineCount)];
          }
      }
      reports := reports + [Finished(lineCount, lineCount)];
      totalLines := lineCount;
      r := Ok(lineCount);
    }

    /** `total_lines`. */
    function TotalLines(): (n: nat)
      reads this
      ensures n == totalLines
    {
      totalLines
    }

    /** `load_page`: rejects a page that starts past the counted lines,
        then reads the page's lines. */
    method LoadPage(parse: Parser, page: nat, pageSize: nat) returns (r: AppResult<PagedResponse>)
      requires page >= 1
      ensures r == LoadPageAt(file, totalLines, parse, (page - 1) * pageSize, pageSize)
    {
      var start := (page - 1) * pageSize;
      if start >= totalLines {
        return Err(PageOutOfRange);
      }
      var read := ReadPage(file, parse, start, Min(start + pageSize, totalLines));
      match read
      case Err(message) =>
        r := Err(Io(message));
      case Ok(data) =>
        r := Ok(PagedResponse(data, totalLines));
    }

    /** `search`: collects the matching lines of the whole file, then
        parses the requested page of them. */
    method Search(parse: Parser, keyword: string, page: nat, pageSize: nat) returns (r: AppResult<PagedResponse>)
      requires page >= 1
      ensures r == SearchAt(file, parse, keyword, (page - 1) * pageSize, pageSize)
    {
      r := SearchFrom(file, parse, keyword, (page - 1) * pageSize, pageSize);
    }
  }

  /** JsonlReaderManager: holds the reader of the open file, if any. */
  class JsonlReaderManager {
    var current: Option<JsonlReader>

    constructor ()
      ensures current == None
    {
      current := None;
    }

    /** `set_reader_with_progress`: opens the file (None: it does not exist),
        counts its lines, and installs the new reader only once the count has
        succeeded; on any failure the previous reader stays in place. */
    method SetReaderWithProgress(path: string, file: Option<File>, report: nat -> bool)
      returns (r: AppResult<()>, reports: seq<Progress>)
      modifies this
      ensures file.None? ==> r == Err(FileNotFound) && reports == []
      ensures file.Some? ==> (r.Ok? <==> !FaultBefore(file.value, |file.value.lines|))
      ensures r.Err? ==> current == old(current)
      ensures r.Ok? ==> current.Some? && fresh(current.value)
      ensures r.Ok? ==> current.value.path == path && current.value.file == file.value
      ensures r.Ok? ==> current.value.totalLines == |file.value.lines|
    {
      if file.None? {
        return Err(FileNotFound), [];
      }
      var reader := new JsonlReader(path, file.value);
      var counted;
      counted, reports := reader.CountLinesWithProgress(report);
      if counted.Err? {
        return Err(counted.error), reports;
      }
      current := Some(reader);
      r := Ok(());
    }

    /** `load_page`: an error while no file is open. */
    method LoadPage(parse: Parser, page: nat, pageSize: nat) returns (r: AppResult<PagedResponse>)
      requires current.Some? ==> page >= 1
      ensures current.None? ==> r == Err(General(NoFileOpen))
      ensures current.Some? ==> r == LoadPageAt(current.value.file, current.value.totalLines, parse, (page - 1) * pageSize, pageSize)
    {
      match current
      case Some(reader) => r := reader.LoadPage(parse, page, pageSize);
      case None => r := Err(General(NoFileOpen));
    }

    /** `search`: an error while no file is open. */
    method Search(parse: Parser, keyword: string, page: nat, pageSize: nat) returns (r: AppResult<PagedResponse>)
      requires current.Some? ==> page >= 1
      ensures current.None? ==> r == Err(General(NoFileOpen))
      ensures current.Some? ==> r == SearchAt(current.value.file, parse, keyword, (page - 1) * pageSize, pageSize)
    {
      match current
      case Some(reader) => r := reader.Search(parse, keyword, page, pageSize);
      case None => r := Err(General(NoFileOpen));
    }

    /** `total_lines`: an error while no file is open. */
    method TotalLines() returns (r: AppResult<nat>)
      ensures current.None? ==> r == Err(General(NoFileOpen))
      ensures current.Some? ==> r == Ok(current.value.totalLines)
    {
      match current
      case Some(reader) => r := Ok(reader.TotalLines());
      case None => r := Err(General(NoFileOpen));
    }
  }
}
