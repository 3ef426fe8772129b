/** The synthetic debug dataset (src-tauri/src/jsonl/debug.rs): a generator
    whose every row is a function of its index, paging and a simulated search
    over those rows, and the manager that holds the current generator. */
module Debug {
  import opened Models
  import opened Text

  /** Rows a generator holds when no count is given. */
  const DefaultRows: nat := 10000

  /** Error text of the manager before any generator was installed. */
  const NotInitialised := "调试数据未初始化"

  /** Error text for page number 0. */
  const PageStartsAtOne := "页码从1开始"

  /** The fields every generated row carries. */
  const GeneratedKeys: set<string> :=
    {"id", "name", "email", "status", "score", "visits", "isAdmin", "isVerified",
     "createdAt", "address", "tags"}

  /** DebugDataGenerator: how many rows the synthetic dataset has. */
  datatype Generator = Generator(totalRows: nat, isLoaded: bool)

  /** `DebugDataGenerator::new`: the given row count, or 10000 when none is given. */
  function NewGenerator(totalRows: Option<nat>): (g: Generator)
    ensures totalRows.None? ==> g.totalRows == DefaultRows
    ensures totalRows.Some? ==> g.totalRows == totalRows.value
    ensures !g.isLoaded
  {
    Generator(match totalRows case Some(n) => n case None => DefaultRows, false)
  }

  function RandomString(prefix: string, index: nat): string { prefix + NatToString(index) }

  function RandomBool(index: nat): bool { index % 2 == 0 }

  function RandomNumber(index: nat): int { index * 10 + index % 7 }

  function NameOf(index: nat): string { RandomString("用户-", index) }

  function EmailOf(index: nat): string { "user" + NatToString(index) + "@example.com" }

  function StatusName(index: nat): string
  {
    match index % 4
    case 0 => "活跃"
    case 1 => "非活跃"
    case 2 => "已封禁"
    case _ => "待验证"
  }

  /** `format!("{}-{:02}-{:02}", year, month, day)`. */
  function DateString(year: nat, month: nat, day: nat): string
  {
    NatToString(year) + "-" + ZeroPad(NatToString(month), 2) + "-" + ZeroPad(NatToString(day), 2)
  }

  function Visits(index: nat): int { index % 100 }

  function IsVerified(index: nat): bool { index % 3 == 0 }

  function CreatedAt(index: nat): string
  {
    DateString(2020 + index % 3, 1 + index % 12, 1 + index % 28)
  }

  function ZipCode(index: nat): string { ZeroPad(NatToString(index % 100000), 5) }

  function Address(index: nat): Value
  {
    Obj(map["city" := Str("城市-" + NatToString(index % 10)), "zipCode" := Str(ZipCode(index))])
  }

  function Tags(index: nat): Value
  {
    Arr([Str("标签-" + NatToString(index % 5)), Str("分类-" + NatToString(index % 3))])
  }

  /** `generate_object`: the row with the given index; its id is the index. */
  function GenerateObject(index: nat): (o: Row)
    ensures "id" in o && o["id"] == Num(index)
  {
    map[
      "id" := Num(index),
      "name" := Str(NameOf(index)),
      "email" := Str(EmailOf(index)),
      "status" := Str(StatusName(index)),
      "score" := Num(RandomNumber(index)),
      "visits" := Num(Visits(index)),
      "isAdmin" := Bool(RandomBool(index)),
      "isVerified" := Bool(IsVerified(index)),
      "createdAt" := Str(CreatedAt(index)),
      "address" := Address(index),
      "tags" := Tags(index)
    ]
  }

  /** Every generated row carries the same eleven fields. */
  lemma GeneratedKeysOf(index: nat)
    ensures GenerateObject(index).Keys == GeneratedKeys
  {
  }

  /** The flag and number fields follow the index: admins are the even rows,
      verified ones every third, visits are the index modulo 100 and the score
      encodes the index; the status is chosen by the index modulo 4. */
  lemma GeneratedScalars(index: nat)
    ensures GenerateObject(index)["isAdmin"] == Bool(index % 2 == 0)
    ensures GenerateObject(index)["isVerified"] == Bool(index % 3 == 0)
    ensures GenerateObject(index)["visits"] == Num(index % 100)
    ensures 0 <= index % 100 < 100
    ensures index % 4 == 0 ==> GenerateObject(index)["status"] == Str("活跃")
    ensures index % 4 == 1 ==> GenerateObject(index)["status"] == Str("非活跃")
    ensures index % 4 == 2 ==> GenerateObject(index)["status"] == Str("已封禁")
    ensures index % 4 == 3 ==> GenerateObject(index)["status"] == Str("待验证")
    ensures GenerateObject(index)["score"].Num?
    ensures GenerateObject(index)["score"].n / 10 == index
    ensures GenerateObject(index)["score"].n % 10 == index % 7
    ensures GenerateObject(index)["status"] == GenerateObject(index + 4)["status"]
  {
  }

  /** `DateString` of a four-digit year and one- or two-digit month and day
      is a well-formed `YYYY-MM-DD` whose parts read back as the inputs. */
  lemma {:induction false} DateStringWellFormed(y: nat, m: nat, d: nat)
    requires 1000 <= y < 10000 && m < 100 && d < 100
    ensures var s := DateString(y, m, d);
      && |s| == 10 && s[4] == '-' && s[7] == '-'
      && AllDigits(s[..4]) && AllDigits(s[5..7]) && AllDigits(s[8..])
      && RadixValue(s[..4], 10) == y && RadixValue(s[5..7], 10) == m && RadixValue(s[8..], 10) == d
  {
    var ys, ms, ds := NatToString(y), ZeroPad(NatToString(m), 2), ZeroPad(NatToString(d), 2);
    assert Pow10(4) == 10000 && Pow10(3) == 1000 && Pow10(2) == 100;
    NatToStringAtMost(y, 4);
    NatToStringAtLeast(y, 4);
    NatToStringAtMost(m, 2);
    NatToStringAtMost(d, 2);
    NatToStringRoundTrip(y);
    ZeroPadRoundTrip(m, 2);
    ZeroPadRoundTrip(d, 2);
    var s := ys + "-" + ms + "-" + ds;
    assert s[..4] == ys && s[5..7] == ms && s[8..] == ds;
  }

  /** The date field reads back as year 2020 + i%3, month 1 + i%12 (so 1..12)
      and day 1 + i%28 (so 1..28). */
  lemma CreatedAtWellFormed(index: nat)
    ensures GenerateObject(index)["createdAt"] == Str(CreatedAt(index))
    ensures var s := CreatedAt(index);
      && |s| == 10 && s[4] == '-' && s[7] == '-'
      && RadixValue(s[..4], 10) == 2020 + index % 3
      && 1 <= RadixValue(s[5..7], 10) == 1 + index % 12 <= 12
      && 1 <= RadixValue(s[8..], 10) == 1 + index % 28 <= 28
  {
    DateStringWellFormed(2020 + index % 3, 1 + index % 12, 1 + index % 28);
  }

  /** The zip code is exactly five digits and reads back as i % 100000. */
  lemma ZipCodeWellFormed(index: nat)
    ensures GenerateObject(index)["address"] == Address(index)
    ensures Address(index).Obj? && "zipCode" in Address(index).fields
    ensures Address(index).fields["zipCode"] == Str(ZipCode(index))
    ensures var z := ZipCode(index); |z| == 5 && AllDigits(z) && RadixValue(z, 10) == index % 100000
  {
    assert Pow10(5) == 100000;
    NatToStringAtMost(index % 100000, 5);
    ZeroPadRoundTrip(index % 100000, 5);
  }

  /** The rows `[start, end)` of the dataset, where end is clipped to the total. */
  function PageBounds(start: nat, pageSize: nat, total: nat): (end: nat)
    ensures end <= start + pageSize && end <= total
    ensures end == start + pageSize || end == total
    ensures start < total ==> start <= end <= total && end - start <= pageSize && (pageSize > 0 ==> start < end)
  {
    if start + pageSize <= total then start + pageSize else total
  }

  /** What `generate_page` returns: page 0 is an error; a page that starts at or
      past the last row is `PageOutOfRange`; otherwise the rows of the page, in
      index order, with the dataset's total. */
  function PageOf(g: Generator, page: nat, pageSize: nat): (r: AppResult<PagedResponse>)
    ensures page == 0 ==> r == Err(General(PageStartsAtOne))
    ensures page >= 1 ==> (r.Err? <==> (page - 1) * pageSize >= g.totalRows)
    ensures page >= 1 && r.Err? ==> r.error == PageOutOfRange
    ensures r.Ok? ==> r.value.total == g.totalRows && |r.value.data| <= pageSize
    ensures r.Ok? ==>
      var start := (page - 1) * pageSize;
      && start <= Min(start + pageSize, g.totalRows)
      && r.value.data == Rows(start, Min(start + pageSize, g.totalRows))
  {
    if page == 0 then Err(General(PageStartsAtOne))
    else
      var start := (page - 1) * pageSize;
      if start >= g.totalRows then Err(PageOutOfRange)
      else
        var end := PageBounds(start, pageSize, g.totalRows);
        Ok(PagedResponse(Rows(start, end), g.totalRows))
  }

  /** `generate_page`: fills the page row by row. */
  method GeneratePage(g: Generator, page: nat, pageSize: nat) returns (r: AppResult<PagedResponse>)
    ensures r == PageOf(g, page, pageSize)
  {
    if page == 0 {
      return Err(General(PageStartsAtOne));
    }
    var start := (page - 1) * pageSize;
    if start >= g.totalRows {
      return Err(PageOutOfRange);
    }
    var end := PageBounds(start, pageSize, g.totalRows);
    var data := GenerateRows(start, end);
    r := Ok(PagedResponse(data, g.totalRows));
  }

  /** The values `f(start), …, f(end - 1)`, in order. */
  function Tabulate<T>(start: nat, end: nat, f: nat -> T): (s: seq<T>)
    requires start <= end
    ensures |s| == end - start
    ensures forall k :: 0 <= k < |s| ==> s[k] == f(start + k)
  {
    seq(end - start, k requires 0 <= k < end - start => f(start + k))
  }

  lemma TabulateSnoc<T>(start: nat, end: nat, f: nat -> T)
    requires start <= end
    ensures Tabulate(start, end + 1, f) == Tabulate(start, end, f) + [f(end)]
  {
  }

  /** The generated rows with indices in `[start, end)`, in order. */
  function Rows(start: nat, end: nat): (rows: seq<Row>)
    requires start <= end
    ensures |rows| == end - start
    ensures forall k :: 0 <= k < |rows| ==> rows[k] == GenerateObject(start + k)
  {
    Tabulate(start, end, GenerateObject)
  }

  /** The loop of `generate_page`: one generated row per index. */
  method GenerateRows(start: nat, end: nat) returns (data: seq<Row>)
    requires start <= end
    ensures data == Rows(start, end)
  {
    data := [];
    for i := start to end
      invariant data == Tabulate(start, i, GenerateObject)
    {
      TabulateSnoc(start, i, GenerateObject);
      data := data + [GenerateObject(i)];
    }
  }

  /** Which string field the simulated search decorates for row `index`. */
  function HighlightField(index: nat): string
  {
    match index % 3
    case 0 => "name"
    case 1 => "email"
    case _ => "status"
  }

  /** The text the highlighted field of row `index` holds before the search
      decorates it. */
  function HighlightBase(index: nat): string
  {
    match index % 3
    case 0 => NameOf(index)
    case 1 => EmailOf(index)
    case _ => StatusName(index)
  }

  /** Row `index` of a simulated search: the generated row with the keyword
      and the index appended to its highlighted field. */
  function Highlighted(index: nat, keyword: string): (o: Row)
    ensures HighlightField(index) in o && o[HighlightField(index)].Str?
  {
    GenerateObject(index)[HighlightField(index) := Str(HighlightBase(index) + keyword + NatToString(index))]
  }

  /** The field `search` decorates is always present and a string (so its
      `if let` always applies); the row differs from the generated one only in
      that field, which now contains the keyword. */
  lemma HighlightedRow(index: nat, keyword: string)
    ensures var f := HighlightField(index);
      && f in GenerateObject(index) && GenerateObject(index)[f] == Str(HighlightBase(index))
    ensures var o, f := Highlighted(index, keyword), HighlightField(index);
      && o.Keys == GenerateObject(index).Keys
      && (forall key :: key in o && key != f ==> o[key] == GenerateObject(index)[key])
      && o[f] == Str(GenerateObject(index)[f].s + keyword + NatToString(index))
      && Contains(o[f].s, keyword)
  {
    ContainsInfix(HighlightBase(index), keyword, NatToString(index));
  }

  /** What `search` returns: the match count is a fifth of the rows (rounded
      down); a page starting at or past it is `PageOutOfRange` (so every page
      is when the count is 0); otherwise the decorated rows of the page. */
  function SearchOf(g: Generator, keyword: string, page: nat, pageSize: nat): (r: AppResult<PagedResponse>)
    requires page >= 1
    ensures r.Err? <==> (page - 1) * pageSize >= g.totalRows / 5
    ensures r.Err? ==> r.error == PageOutOfRange
    ensures r.Ok? ==> r.value.total == g.totalRows / 5 && |r.value.data| <= pageSize
    ensures r.Ok? ==>
      var start := (page - 1) * pageSize;
      && start <= Min(start + pageSize, g.totalRows / 5)
      && r.value.data == SearchRows(start, Min(start + pageSize, g.totalRows / 5), keyword)
  {
    var matched := g.totalRows / 5;
    var start := (page - 1) * pageSize;
    if start >= matched then Err(PageOutOfRange)
    else
      var end := PageBounds(start, pageSize, matched);
      Ok(PagedResponse(SearchRows(start, end, keyword), matched))
  }

  /** `search`: fills the page of decorated rows one by one. */
  method Search(g: Generator, keyword: string, page: nat, pageSize: nat) returns (r: AppResult<PagedResponse>)
    requires page >= 1
    ensures r == SearchOf(g, keyword, page, pageSize)
  {
    var matched := g.totalRows / 5;
    var start := (page - 1) * pageSize;
    if start >= matched {
      return Err(PageOutOfRange);
    }
    var end := PageBounds(start, pageSize, matched);
    var data := HighlightRows(start, end, keyword);
    r := Ok(PagedResponse(data, matched));
  }

  /** The decorated rows with indices in `[start, end)`, in order. */
  function SearchRows(start: nat, end: nat, keyword: string): (rows: seq<Row>)
    requires start <= end
    ensures |rows| == end - start
    ensures forall k :: 0 <= k < |rows| ==> rows[k] == Highlighted(start + k, keyword)
  {
    Tabulate(start, end, (i: nat) => Highlighted(i, keyword))
  }

  /** The loop of `search`: each generated row gets its highlighted string
      field extended by the keyword and the index. */
  method HighlightRows(start: nat, end: nat, keyword: string) returns (data: seq<Row>)
    requires start <= end
    ensures data == SearchRows(start, end, keyword)
  {
    var decorate := (i: nat) => Highlighted(i, keyword);
    data := [];
    for i := start to end
      invariant data == Tabulate(start, i, decorate)
    {
      TabulateSnoc(start, i, decorate);
      data := data + [Highlighted(i, keyword)];
    }
  }

  /** DebugDataManager: holds the current generator, if any. */
  class DebugDataManager {
    var generator: Option<Generator>

    constructor ()
      ensures generator == None
    {
      generator := None;
    }

    /** `init_debug_data`: replaces any previous generator; never fails. */
    method InitDebugData(totalRows: Option<nat>) returns (r: AppResult<()>)
      modifies this
      ensures r == Ok(())
      ensures generator == Some(NewGenerator(totalRows))
    {
      generator := Some(NewGenerator(totalRows));
      r := Ok(());
    }

    /** `load_debug_page`: an error until a generator is installed. */
    method LoadDebugPage(page: nat, pageSize: nat) returns (r: AppResult<PagedResponse>)
      ensures generator.None? ==> r == Err(DebugError(NotInitialised))
      ensures generator.Some? ==> r == PageOf(generator.value, page, pageSize)
    {
      match generator
      case Some(g) => r := GeneratePage(g, page, pageSize);
      case None => r := Err(DebugError(NotInitialised));
    }

    /** `search_debug`: an error until a generator is installed. */
    method SearchDebug(keyword: string, page: nat, pageSize: nat) returns (r: AppResult<PagedResponse>)
      requires generator.Some? ==> page >= 1
      ensures generator.None? ==> r == Err(DebugError(NotInitialised))
      ensures generator.Some? ==> r == SearchOf(generator.value, keyword, page, pageSize)
    {
      match generator
      case Some(g) => r := Search(g, keyword, page, pageSize);
      case None => r := Err(DebugError(NotInitialised));
    }

    /** `debug_total_rows`: an error until a generator is installed. */
    method DebugTotalRows() returns (r: AppResult<nat>)
      ensures generator.None? ==> r == Err(DebugError(NotInitialised))
      ensures generator.Some? ==> r == Ok(generator.value.totalRows)
    {
      match generator
      case Some(g) => r := Ok(g.totalRows);
      case None => r := Err(DebugError(NotInitialised));
    }
  }
}
