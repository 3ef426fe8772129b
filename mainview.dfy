/** The main view's controller (src/components/MainView.tsx): the React state
    fields, the handlers that update them, and the effect that decides when a
    page is reloaded. Each asynchronous handler runs to completion in one step,
    with the backend's answer (value or error text) given as a parameter and
    the backend request it makes returned; nothing discards a late answer. */
module MainView {
  import opened Models
  import opened Text
  import Debug

  /** `useState(100)` and the fallback of the page-size box. */
  const DefaultPageSize: int := 100

  /** `useState(1000)` and the fallback of the line-count box. */
  const DefaultLineCount: int := 1000

  /** Rows asked for when entering debug mode. */
  const DebugRows: nat := 10000

  /** `{ data: [], total: 0 }`. */
  const EmptyData := PagedResponse([], 0)

  /** A backend command the view invokes, with its arguments. */
  datatype Call =
    | SearchDebugPage(keyword: string, page: int, pageSize: int)
    | LoadDebugPage(page: int, pageSize: int)
    | SearchPage(keyword: string, page: int, pageSize: int)
    | LoadPage(page: int, pageSize: int)
    | SetJsonlFile(path: string)
    | InitDebugData(rows: nat)
    | GenerateTestJsonl(path: string, lines: int)

  /** The state fields of the view that the handlers read or write. Numbers
      are JavaScript numbers holding integers; `loadingProgress` keeps only
      the line counter of the progress record. */
  datatype ViewState = ViewState(
    isLoading: bool,
    currentPage: int,
    pageSize: int,
    totalPages: int,
    fileData: PagedResponse,
    searchKeyword: string,
    filePath: Option<string>,
    isDebugMode: bool,
    lineCount: int,
    loadingProgress: Option<nat>,
    isInitialLoading: bool)

  /** The state of a freshly mounted view. */
  const Initial := ViewState(false, 1, DefaultPageSize, 0, EmptyData, "", None, false,
                             DefaultLineCount, None, false)

  /** JavaScript truthiness of a `string | null`: the empty string is false. */
  predicate Truthy(p: Option<string>) { p.Some? && p.value != "" }

  /** `filePath || isDebugMode`: there is something to show. */
  predicate HasSource(s: ViewState) { Truthy(s.filePath) || s.isDebugMode }

  /** The page size is never 0: the box falls back to 100 on 0 and NaN. */
  predicate Valid(s: ViewState) { s.pageSize != 0 }

  /** `Math.ceil(total / pageSize)`: the least integer at or above the quotient. */
  function CeilDiv(total: nat, pageSize: int): (r: int)
    requires pageSize != 0
    ensures pageSize > 0 ==> (r - 1) * pageSize < total <= r * pageSize
    ensures pageSize < 0 ==> r * pageSize <= total < (r - 1) * pageSize
  {
    if pageSize > 0 then
      var q := (total + pageSize - 1) / pageSize;
      assert q * pageSize <= total + pageSize - 1 < (q + 1) * pageSize;
      q
    else
      var q := total / -pageSize;
      assert q * -pageSize <= total < (q + 1) * -pageSize;
      -q
  }

  /** `parseInt(text) || fallback`: NaN and 0 give the fallback. */
  function OrDefault(text: string, fallback: int): (n: int)
    requires fallback != 0
    ensures n != 0
    ensures ParseInt(text).Some? && ParseInt(text).value != 0 ==> n == ParseInt(text).value
    ensures ParseInt(text).None? || ParseInt(text).value == 0 ==> n == fallback
  {
    match ParseInt(text)
    case Some(v) => if v != 0 then v else fallback
    case None => fallback
  }

  predicate IsDebugCall(c: Call) { c.SearchDebugPage? || c.LoadDebugPage? }

  predicate IsSearchCall(c: Call) { c.SearchDebugPage? || c.SearchPage? }

  predicate IsPageCall(c: Call) { IsDebugCall(c) || IsSearchCall(c) || c.LoadPage? }

  /** The command `loadPageData` invokes: debug or file commands by the mode,
      search or plain load by whether the keyword is non-empty. */
  function PageCall(s: ViewState, page: int): (c: Call)
    ensures IsPageCall(c) && c.page == page && c.pageSize == s.pageSize
    ensures IsDebugCall(c) <==> s.isDebugMode
    ensures IsSearchCall(c) <==> s.searchKeyword != ""
    ensures IsSearchCall(c) ==> c.keyword == s.searchKeyword
  {
    if s.isDebugMode then
      if s.searchKeyword != "" then SearchDebugPage(s.searchKeyword, page, s.pageSize)
      else LoadDebugPage(page, s.pageSize)
    else
      if s.searchKeyword != "" then SearchPage(s.searchKeyword, page, s.pageSize)
      else LoadPage(page, s.pageSize)
  }

  /** The request `loadPageData(page)` makes: none without a source. */
  function LoadCall(s: ViewState, page: int): Option<Call>
  {
    if HasSource(s) then Some(PageCall(s, page)) else None
  }

  /** The state after `loadPageData(page)` completes with `outcome`. */
  function AfterLoad(s: ViewState, page: int, outcome: Result<PagedResponse, string>): (r: ViewState)
    requires Valid(s)
    ensures !HasSource(s) ==> r == s
    ensures HasSource(s) ==> !r.isLoading && r.loadingProgress == None
    ensures HasSource(s) && outcome.Ok? ==>
      r.fileData == outcome.value && r.totalPages == CeilDiv(outcome.value.total, s.pageSize)
    ensures outcome.Err? ==> r.fileData == s.fileData && r.totalPages == s.totalPages
    ensures r.(isLoading := s.isLoading, loadingProgress := s.loadingProgress,
               fileData := s.fileData, totalPages := s.totalPages) == s
  {
    if !HasSource(s) then s
    else
      var loaded := match outcome
        case Ok(result) => s.(fileData := result, totalPages := CeilDiv(result.total, s.pageSize))
        case Err(_) => s;
      loaded.(isLoading := false, loadingProgress := None)
  }

  /** `handleSearch(keyword)`. */
  function AfterSearch(s: ViewState, keyword: string): (r: ViewState)
    ensures r.searchKeyword == keyword && r.currentPage == 1
    ensures r.(searchKeyword := s.searchKeyword, currentPage := s.currentPage) == s
  {
    s.(searchKeyword := keyword, currentPage := 1)
  }

  /** Leaving debug mode, by the open-file action or by the toggle. */
  function LeaveDebug(s: ViewState): (r: ViewState)
    ensures !r.isDebugMode && r.filePath == None && r.fileData == EmptyData && !HasSource(r)
    ensures r.(isDebugMode := s.isDebugMode, filePath := s.filePath, fileData := s.fileData) == s
  {
    s.(isDebugMode := false, filePath := None, fileData := EmptyData)
  }

  /** The request `handleOpenFile` makes for the path the dialog gave. */
  function OpenFileCall(s: ViewState, selected: Option<string>): Option<Call>
  {
    if !s.isDebugMode && Truthy(selected) then Some(SetJsonlFile(selected.value)) else None
  }

  /** The state after `handleOpenFile` completes: in debug mode it only leaves
      debug mode; with no path chosen nothing changes; otherwise a `true`
      answer switches to the file on its first page with no keyword, and
      whatever the answer the loading flags and progress are cleared. */
  function AfterOpenFile(s: ViewState, selected: Option<string>, outcome: Result<bool, string>): (r: ViewState)
    ensures s.isDebugMode ==> r == LeaveDebug(s)
    ensures !s.isDebugMode && !Truthy(selected) ==> r == s
    ensures !s.isDebugMode && Truthy(selected) ==>
      && !r.isInitialLoading && !r.isLoading && r.loadingProgress == None
      && (outcome == Ok(true) ==> r.filePath == selected && r.currentPage == 1 && r.searchKeyword == "")
      && (outcome != Ok(true) ==> r.filePath == s.filePath && r.currentPage == s.currentPage
                                  && r.searchKeyword == s.searchKeyword)
      && r.isDebugMode == s.isDebugMode && r.fileData == s.fileData && r.pageSize == s.pageSize
  {
    if s.isDebugMode then LeaveDebug(s)
    else if !Truthy(selected) then s
    else
      var switched := if outcome == Ok(true) then s.(filePath := selected, currentPage := 1, searchKeyword := "") else s;
      switched.(isInitialLoading := false, isLoading := false, loadingProgress := None)
  }

  /** The request `toggleDebugMode` makes: only entering debug mode calls the backend. */
  function ToggleCall(s: ViewState): Option<Call>
  {
    if s.isDebugMode then None else Some(InitDebugData(DebugRows))
  }

  /** The state after `toggleDebugMode` completes. Entering clears only
      `isLoading` afterwards, not the progress record. */
  function AfterToggleDebug(s: ViewState, outcome: Result<(), string>): (r: ViewState)
    ensures s.isDebugMode ==> r == LeaveDebug(s)
    ensures !s.isDebugMode ==> !r.isLoading && r.loadingProgress == s.loadingProgress && r.fileData == s.fileData
    ensures !s.isDebugMode ==> (r.isDebugMode <==> outcome.Ok?)
    ensures !s.isDebugMode && outcome.Ok? ==> r.filePath == None && r.currentPage == 1 && r.searchKeyword == ""
    ensures !s.isDebugMode && outcome.Err? ==> r == s.(isLoading := false)
  {
    if s.isDebugMode then LeaveDebug(s)
    else
      var entered := if outcome.Ok? then s.(isDebugMode := true, filePath := None, currentPage := 1, searchKeyword := "") else s;
      entered.(isLoading := false)
  }

  /** The viewer's `onClose`: it clears the path and the mode but keeps the data. */
  function AfterClose(s: ViewState): (r: ViewState)
    ensures !HasSource(r) && r.filePath == None && !r.isDebugMode
    ensures r.(filePath := s.filePath, isDebugMode := s.isDebugMode) == s
  {
    s.(filePath := None, isDebugMode := false)
  }

  /** The request `generateFile` makes: none when the save dialog gave no path. */
  function GenerateCall(s: ViewState, savePath: Option<string>): Option<Call>
  {
    if Truthy(savePath) then Some(GenerateTestJsonl(savePath.value, s.lineCount)) else None
  }

  /** The values the reload effect depends on. */
  datatype Deps = Deps(currentPage: int, searchKeyword: string, filePath: Option<string>, isDebugMode: bool)

  function DepsOf(s: ViewState): Deps
  {
    Deps(s.currentPage, s.searchKeyword, s.filePath, s.isDebugMode)
  }

  /** React runs the effect on mount (no previous values) and whenever one of
      its dependencies differs from the previous render's. */
  predicate EffectFires(prev: Option<Deps>, s: ViewState) { prev != Some(DepsOf(s)) }

  /** The request the effect makes after a render. */
  function EffectCall(prev: Option<Deps>, s: ViewState): Option<Call>
  {
    if EffectFires(prev, s) then LoadCall(s, s.currentPage) else None
  }

  /** The state after the effect's load completes with `outcome`. */
  function AfterEffect(prev: Option<Deps>, s: ViewState, outcome: Result<PagedResponse, string>): (r: ViewState)
    requires Valid(s)
    ensures !EffectFires(prev, s) || !HasSource(s) ==> r == s
    ensures EffectFires(prev, s) ==> r == AfterLoad(s, s.currentPage, outcome)
    ensures DepsOf(r) == DepsOf(s) && Valid(r)
  {
    if EffectFires(prev, s) then AfterLoad(s, s.currentPage, outcome) else s
  }

  /** The view: its state fields and handlers. */
  class View {
    var isLoading: bool
    var currentPage: int
    var pageSize: int
    var totalPages: int
    var fileData: PagedResponse
    var searchKeyword: string
    var filePath: Option<string>
    var isDebugMode: bool
    var lineCount: int
    var loadingProgress: Option<nat>
    var isInitialLoading: bool

    function State(): ViewState
      reads this
    {
      ViewState(isLoading, currentPage, pageSize, totalPages, fileData, searchKeyword, filePath,
                isDebugMode, lineCount, loadingProgress, isInitialLoading)
    }

    /** The `useState` initial values. */
    constructor ()
      ensures State() == Initial && Valid(State())
    {
      isLoading := false;
      currentPage := 1;
      pageSize := DefaultPageSize;
      totalPages := 0;
      fileData := EmptyData;
      searchKeyword := "";
      filePath := None;
      isDebugMode := false;
      lineCount := DefaultLineCount;
      loadingProgress := None;
      isInitialLoading := false;
    }

    /** `loadPageData(page)`. */
    method LoadPageData(page: int, outcome: Result<PagedResponse, string>) returns (call: Option<Call>)
      requires Valid(State())
      modifies this
      ensures call == LoadCall(old(State()), page)
      ensures State() == AfterLoad(old(State()), page, outcome)
    {
      if !Truthy(filePath) && !isDebugMode {
        return None;
      }
      isLoading := true;
      var c: Call;
      if isDebugMode {
        c := if searchKeyword != "" then SearchDebugPage(searchKeyword, page, pageSize) else LoadDebugPage(page, pageSize);
      } else {
        c := if searchKeyword != "" then SearchPage(searchKeyword, page, pageSize) else LoadPage(page, pageSize);
      }
      call := Some(c);
      match outcome {
        case Ok(result) =>
          fileData := result;
          totalPages := CeilDiv(result.total, pageSize);
        case Err(_) =>
      }
      isLoading := false;
      loadingProgress := None;
    }

    /** `handlePageChange(page)`: no check on the page. */
    method HandlePageChange(page: int)
      modifies this
      ensures State() == old(State()).(currentPage := page)
    {
      currentPage := page;
    }

    /** `handleSearch(keyword)`. */
    method HandleSearch(keyword: string)
      modifies this
      ensures State() == AfterSearch(old(State()), keyword)
    {
      searchKeyword := keyword;
      currentPage := 1;
    }

    /** `handleOpenFile`, given the dialog's choice and `set_jsonl_file`'s answer. */
    method HandleOpenFile(selected: Option<string>, outcome: Result<bool, string>) returns (call: Option<Call>)
      modifies this
      ensures call == OpenFileCall(old(State()), selected)
      ensures State() == AfterOpenFile(old(State()), selected, outcome)
    {
      call := None;
      if isDebugMode {
        isDebugMode := false;
        filePath := None;
        fileData := EmptyData;
        return;
      }
      if Truthy(selected) {
        isLoading := true;
        isInitialLoading := true;
        loadingProgress := Some(0);
        call := Some(SetJsonlFile(selected.value));
        if outcome == Ok(true) {
          filePath := selected;
          currentPage := 1;
          searchKeyword := "";
        }
        isInitialLoading := false;
        isLoading := false;
        loadingProgress := None;
      }
    }

    /** `toggleDebugMode`, given `init_debug_data`'s answer. */
    method ToggleDebugMode(outcome: Result<(), string>) returns (call: Option<Call>)
      modifies this
      ensures call == ToggleCall(old(State()))
      ensures State() == AfterToggleDebug(old(State()), outcome)
    {
      if isDebugMode {
        isDebugMode := false;
        filePath := None;
        fileData := EmptyData;
        call := None;
      } else {
        isLoading := true;
        call := Some(InitDebugData(DebugRows));
        if outcome.Ok? {
          isDebugMode := true;
          filePath := None;
          currentPage := 1;
          searchKeyword := "";
        }
        isLoading := false;
      }
    }

    /** The viewer's `onClose`. */
    method Close()
      modifies this
      ensures State() == AfterClose(old(State()))
    {
      filePath := None;
      isDebugMode := false;
    }

    /** The page-size box's `onChange`. */
    method SetPageSize(text: string)
      modifies this
      ensures State() == old(State()).(pageSize := OrDefault(text, DefaultPageSize))
      ensures Valid(State())
    {
      pageSize := OrDefault(text, DefaultPageSize);
    }

    /** The line-count box's `onChange`. */
    method SetLineCount(text: string)
      modifies this
      ensures State() == old(State()).(lineCount := OrDefault(text, DefaultLineCount))
    {
      lineCount := OrDefault(text, DefaultLineCount);
    }

    /** `generateFile`, given the save dialog's path; the backend's message
        only reaches an alert. */
    method GenerateFile(savePath: Option<string>) returns (call: Option<Call>)
      modifies this
      ensures call == GenerateCall(old(State()), savePath)
      ensures State() == if Truthy(savePath) then old(State()).(isLoading := false) else old(State())
    {
      call := None;
      if !Truthy(savePath) {
        return;
      }
      isLoading := true;
      call := Some(GenerateTestJsonl(savePath.value, lineCount));
      isLoading := false;
    }

    /** The reload effect after a render whose previous dependencies were `prev`. */
    method RunEffect(prev: Option<Deps>, outcome: Result<PagedResponse, string>) returns (call: Option<Call>)
      requires Valid(State())
      modifies this
      ensures call == EffectCall(prev, old(State()))
      ensures State() == AfterEffect(prev, old(State()), outcome)
    {
      call := None;
      if prev != Some(Deps(currentPage, searchKeyword, filePath, isDebugMode)) {
        if Truthy(filePath) || isDebugMode {
          call := LoadPageData(currentPage, outcome);
        }
      }
    }
  }

  /** A load never changes the effect's dependencies, so it cannot trigger
      another load; and the state it leaves keeps a valid page size. */
  lemma LoadDoesNotRetrigger(s: ViewState, page: int, outcome: Result<PagedResponse, string>)
    requires Valid(s)
    ensures DepsOf(AfterLoad(s, page, outcome)) == DepsOf(s)
    ensures Valid(AfterLoad(s, page, outcome))
    ensures EffectCall(Some(DepsOf(s)), AfterLoad(s, page, outcome)) == None
  {
  }

  /** No answer is discarded: whichever load completes last and succeeds
      decides the data and the page count, whatever page it was for and
      whatever page is current; a failing last answer keeps the earlier one. */
  lemma LastCompletionWins(s: ViewState, p1: int, p2: int, a: PagedResponse, b: PagedResponse, e: string)
    requires Valid(s) && HasSource(s)
    ensures var t := AfterLoad(AfterLoad(s, p1, Ok(a)), p2, Ok(b));
      t.fileData == b && t.totalPages == CeilDiv(b.total, s.pageSize) && t.currentPage == s.currentPage
    ensures var t := AfterLoad(AfterLoad(s, p1, Ok(a)), p2, Err(e));
      t.fileData == a && t.totalPages == CeilDiv(a.total, s.pageSize)
  {
    LoadDoesNotRetrigger(s, p1, Ok(a));
  }

  /** A search with a new keyword, or from another page, reloads page 1 with
      that keyword; repeating the current keyword on page 1 reloads nothing. */
  lemma SearchReloadsFirstPage(s: ViewState, keyword: string)
    requires HasSource(s)
    ensures var t := AfterSearch(s, keyword);
      (keyword != s.searchKeyword || s.currentPage != 1) ==>
        && EffectCall(Some(DepsOf(s)), t) == Some(PageCall(t, 1))
        && (IsSearchCall(PageCall(t, 1)) <==> keyword != "")
    ensures keyword == s.searchKeyword && s.currentPage == 1 ==>
      EffectCall(Some(DepsOf(s)), AfterSearch(s, keyword)) == None
  {
  }

  /** Changing the page size triggers no reload: the page count and the data
      stay those computed with the old size until something else reloads. */
  lemma PageSizeChangeDoesNotReload(s: ViewState, text: string)
    ensures var t := s.(pageSize := OrDefault(text, DefaultPageSize));
      && Valid(t)
      && EffectCall(Some(DepsOf(s)), t) == None
      && t.totalPages == s.totalPages && t.fileData == s.fileData
  {
  }

  /** Both ways of leaving debug mode do the same: no backend call, no mode,
      no path and empty data; and the effect then loads nothing. */
  lemma LeavingDebugBothWays(s: ViewState, selected: Option<string>, answer: Result<bool, string>,
                             initialised: Result<(), string>)
    requires s.isDebugMode
    ensures OpenFileCall(s, selected) == None && ToggleCall(s) == None
    ensures AfterOpenFile(s, selected, answer) == AfterToggleDebug(s, initialised) == LeaveDebug(s)
    ensures var t := LeaveDebug(s);
      !t.isDebugMode && t.filePath == None && t.fileData == EmptyData
      && EffectCall(Some(DepsOf(s)), t) == None
  {
  }

  /** Opening a file successfully loads its first page without a keyword,
      unless that is exactly what was already shown. */
  lemma OpenedFileLoadsFirstPage(s: ViewState, path: string)
    requires !s.isDebugMode && path != ""
    requires DepsOf(s) != Deps(1, "", Some(path), false)
    ensures EffectCall(Some(DepsOf(s)), AfterOpenFile(s, Some(path), Ok(true))) == Some(LoadPage(1, s.pageSize))
  {
  }

  /** Re-opening the file already shown, on page 1 with no keyword, changes
      no dependency: nothing is reloaded and the data on screen stays the one
      loaded before. */
  lemma ReopenSameFileNoReload(s: ViewState, path: string)
    requires !s.isDebugMode && path != ""
    requires s.filePath == Some(path) && s.currentPage == 1 && s.searchKeyword == ""
    ensures OpenFileCall(s, Some(path)) == Some(SetJsonlFile(path))
    ensures var t := AfterOpenFile(s, Some(path), Ok(true));
      EffectCall(Some(DepsOf(s)), t) == None && t.fileData == s.fileData
  {
  }

  /** A failed or refused open keeps the previous file, page and keyword, so
      the effect reloads nothing. */
  lemma FailedOpenKeepsFile(s: ViewState, path: string, outcome: Result<bool, string>)
    requires !s.isDebugMode && path != "" && outcome != Ok(true)
    ensures var t := AfterOpenFile(s, Some(path), outcome);
      DepsOf(t) == DepsOf(s) && EffectCall(Some(DepsOf(s)), t) == None
  {
  }

  /** Entering debug mode always changes the mode, so the effect loads the
      first debug page without a keyword; a failed initialisation stays out
      of debug mode and reloads nothing. */
  lemma EnteringDebugLoadsFirstPage(s: ViewState, e: string)
    requires !s.isDebugMode
    ensures ToggleCall(s) == Some(InitDebugData(DebugRows))
    ensures EffectCall(Some(DepsOf(s)), AfterToggleDebug(s, Ok(()))) == Some(LoadDebugPage(1, s.pageSize))
    ensures EffectCall(Some(DepsOf(s)), AfterToggleDebug(s, Err(e))) == None
  {
  }

  /** Closing leaves nothing to show, so nothing is loaded, but unlike
      leaving debug mode it keeps the old data. */
  lemma CloseKeepsData(s: ViewState)
    ensures !HasSource(AfterClose(s)) && AfterClose(s).fileData == s.fileData
    ensures EffectCall(Some(DepsOf(s)), AfterClose(s)) == None
  {
  }

  /** With a positive page size, page `page` starts before the end of
      `total` rows exactly when it is at most the page count the view
      computes: the pages the view lets one reach are the pages the backend
      serves. */
  lemma {:induction false} PageCountMatchesBackend(total: nat, pageSize: int, page: int)
    requires pageSize > 0 && page >= 1
    ensures (page - 1) * pageSize < total <==> page <= CeilDiv(total, pageSize)
  {
    var r := CeilDiv(total, pageSize);
    if page <= r {
      assert (page - 1) * pageSize <= (r - 1) * pageSize by {
        MultiplyMonotone(page - 1, r - 1, pageSize);
      }
    } else {
      assert r * pageSize <= (page - 1) * pageSize by {
        MultiplyMonotone(r, page - 1, pageSize);
      }
    }
  }

  lemma MultiplyMonotone(a: int, b: int, c: int)
    requires a <= b && c >= 0
    ensures a * c <= b * c
  {
    assert b * c - a * c == (b - a) * c;
  }

  /** In debug mode, every page from 1 to the count the view computes from a
      load's total is served by `generate_page`, and the next one is not. */
  lemma DebugPagesInRange(g: Debug.Generator, pageSize: nat, page: nat)
    requires pageSize > 0 && page >= 1
    ensures Debug.PageOf(g, page, pageSize).Ok? <==> page <= CeilDiv(g.totalRows, pageSize)
  {
    PageCountMatchesBackend(g.totalRows, pageSize, page);
  }
}
