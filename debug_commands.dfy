/** The debug-data commands (src-tauri/src/commands/debug_commands.rs):
    thin wrappers over the debug data manager that hand errors to the front
    end as text, and the command that writes a generated JSONL file in
    batches of 1000 records. */
module DebugCommands {
  import opened Models
  import opened Text
  import opened Debug

  /** Records generated and written per batch. */
  const BatchSize: nat := 1000

  /** How a command hands a backend result to the front end: an error becomes
      its display text, a value passes through. */
  function ToCommandResult<T>(r: AppResult<T>): (c: Result<T, string>)
    ensures c.Ok? <==> r.Ok?
    ensures c.Ok? ==> c.value == r.value
    ensures c.Err? ==> c.error == ErrorMessage(r.error) && |c.error| > 0
  {
    match r
    case Ok(v) => Ok(v)
    case Err(e) => Err(ErrorMessage(e))
  }

  /** `init_debug_data`: installs a generator and reports `true`. */
  method InitDebugDataCommand(manager: DebugDataManager, rows: Option<nat>) returns (r: Result<bool, string>)
    modifies manager
    ensures r == Ok(true)
    ensures manager.generator == Some(NewGenerator(rows))
  {
    var initialised := manager.InitDebugData(rows);
    match initialised
    case Ok(_) => r := Ok(true);
    case Err(e) => r := Err(ErrorMessage(e));
  }

  /** `load_debug_page`. */
  method LoadDebugPageCommand(manager: DebugDataManager, page: nat, pageSize: nat) returns (r: Result<PagedResponse, string>)
    ensures manager.generator.None? ==> r == Err(ErrorMessage(DebugError(NotInitialised)))
    ensures manager.generator.Some? ==> r == ToCommandResult(PageOf(manager.generator.value, page, pageSize))
  {
    var loaded := manager.LoadDebugPage(page, pageSize);
    r := ToCommandResult(loaded);
  }

  /** `search_debug_page`. */
  method SearchDebugPageCommand(manager: DebugDataManager, keyword: string, page: nat, pageSize: nat)
    returns (r: Result<PagedResponse, string>)
    requires manager.generator.Some? ==> page >= 1
    ensures manager.generator.None? ==> r == Err(ErrorMessage(DebugError(NotInitialised)))
    ensures manager.generator.Some? ==> r == ToCommandResult(SearchOf(manager.generator.value, keyword, page, pageSize))
  {
    var found := manager.SearchDebug(keyword, page, pageSize);
    r := ToCommandResult(found);
  }

  /** `get_debug_total_rows`. */
  method DebugTotalRowsCommand(manager: DebugDataManager) returns (r: Result<nat, string>)
    ensures manager.generator.None? ==> r == Err(ErrorMessage(DebugError(NotInitialised)))
    ensures manager.generator.Some? ==> r == Ok(manager.generator.value.totalRows)
  {
    var total := manager.DebugTotalRows();
    r := ToCommandResult(total);
  }

  // ---------------------------------------------------------------------
  // Writing a test file

  /** The sizes of the batches `n` records are written in: full batches,
      then what is left. */
  function BatchSizes(n: nat): (xs: seq<nat>)
    ensures xs == [] <==> n == 0
    ensures |xs| <= n
    decreases n
  {
    if n == 0 then [] else [Min(BatchSize, n)] + BatchSizes(n - Min(BatchSize, n))
  }

  function Sum(xs: seq<nat>): nat
  {
    if xs == [] then 0 else xs[0] + Sum(xs[1..])
  }

  /** There are `ceil(n / 1000)` batches, as `(lines + batch_size - 1) /
      batch_size` computes; together they hold exactly `n` records, and all
      but the last are full. */
  lemma {:induction false} BatchSizesShape(n: nat)
    ensures |BatchSizes(n)| == (n + BatchSize - 1) / BatchSize
    ensures Sum(BatchSizes(n)) == n
    ensures forall i :: 0 <= i < |BatchSizes(n)| - 1 ==> BatchSizes(n)[i] == BatchSize
    ensures forall i :: 0 <= i < |BatchSizes(n)| ==> 1 <= BatchSizes(n)[i] <= BatchSize
    decreases n
  {
    if n > BatchSize {
      BatchSizesShape(n - BatchSize);
      var bs := BatchSizes(n);
      assert bs == [BatchSize] + BatchSizes(n - BatchSize);
      assert bs[1..] == BatchSizes(n - BatchSize);
    } else if n > 0 {
      assert BatchSizes(n) == [n];
    }
  }

  /** The id fix-up of lines 137-143: an `id` holding a non-negative integer
      is replaced by `id`; any other record is left alone. */
  function Renumber(o: Row, id: nat): (r: Row)
    ensures r.Keys == o.Keys
    ensures forall k :: k in o && k != "id" ==> r[k] == o[k]
    ensures "id" in o ==> r["id"] == if o["id"].Num? && o["id"].n >= 0 then Num(id) else o["id"]
  {
    if "id" in o && o["id"].Num? && o["id"].n >= 0 then o["id" := Num(id)] else o
  }

  /** Record `k` of the written file: each batch regenerates records
      0, 1, 2, ... of a fresh generator, so every field but the id repeats
      with period 1000. */
  function FileRow(k: nat): Row
  {
    Renumber(GenerateObject(k % BatchSize), k)
  }

  /** Record `k` of the file has the fields of generated record `k mod 1000`,
      and every field but the id holds that record's value. */
  lemma FileRowFields(k: nat)
    ensures FileRow(k).Keys == GenerateObject(k % BatchSize).Keys
    ensures forall key :: key in FileRow(k) && key != "id" ==> FileRow(k)[key] == GenerateObject(k % BatchSize)[key]
  {
  }

  /** The ids of the written file run 0, 1, 2, ... without a gap. */
  lemma FileRowIds(k: nat)
    ensures "id" in FileRow(k) && FileRow(k)["id"] == Num(k)
  {
  }

  /** Apart from the id, record `k + 1000` repeats record `k`. */
  lemma FileRowsRepeat(k: nat)
    ensures FileRow(k + BatchSize) == FileRow(k)["id" := Num(k + BatchSize)]
  {
    var j := k % BatchSize;
    assert (k + BatchSize) % BatchSize == j;
    var o := GenerateObject(j);
    assert FileRow(k + BatchSize) == Renumber(o, k + BatchSize);
    assert FileRow(k) == Renumber(o, k);
    RenumberAgain(o, k, k + BatchSize);
  }

  /** Renumbering a numbered record again only changes its id. */
  lemma RenumberAgain(o: Row, a: nat, b: nat)
    requires "id" in o && o["id"].Num? && o["id"].n >= 0
    ensures Renumber(o, b) == Renumber(o, a)["id" := Num(b)]
  {
    assert o["id" := Num(a)]["id" := Num(b)] == o["id" := Num(b)];
  }

  /** One batch after the id fix-up: record `i` gets id `offset + i`. */
  method RenumberBatch(data: seq<Row>, offset: nat) returns (out: seq<Row>)
    ensures |out| == |data|
    ensures forall i :: 0 <= i < |data| ==> out[i] == Renumber(data[i], offset + i)
  {
    out := [];
    for i := 0 to |data|
      invariant |out| == i
      invariant forall j :: 0 <= j < i ==> out[j] == Renumber(data[j], offset + j)
    {
      out := out + [Renumber(data[i], offset + i)];
    }
  }

  /** A batch written at an offset that is a multiple of 1000 holds the
      file's records at those positions. */
  lemma BatchIsFileRows(offset: nat, data: seq<Row>, i: nat)
    requires offset % BatchSize == 0 && |data| <= BatchSize && i < |data|
    requires data == Rows(0, |data|)
    ensures Renumber(data[i], offset + i) == FileRow(offset + i)
  {
    assert (offset + i) % BatchSize == i;
  }

  /** One batch of `generate_test_jsonl` (lines 116-144): a generator of
      `size` rows is installed, its first page of `size` rows is loaded, and
      the ids are renumbered from `offset`. Neither call can fail. */
  method GenerateBatch(manager: DebugDataManager, offset: nat, size: nat) returns (rows: seq<Row>)
    requires 1 <= size <= BatchSize && offset % BatchSize == 0
    modifies manager
    ensures manager.generator == Some(NewGenerator(Some(size)))
    ensures |rows| == size
    ensures forall i :: 0 <= i < size ==> rows[i] == FileRow(offset + i)
  {
    var initialised := manager.InitDebugData(Some(size));
    var response := manager.LoadDebugPage(1, size);
    assert response.Ok?;
    var data := response.value.data;
    rows := RenumberBatch(data, offset);
    forall i | 0 <= i < |data|
      ensures rows[i] == FileRow(offset + i)
    {
      BatchIsFileRows(offset, data, i);
    }
  }

  /** Text of the error when the target's directory does not exist. */
  const DirectoryMissing := "目录不存在: "

  /** `written` holds the first `n` records of the file. */
  predicate FileRowsUpTo(written: seq<Row>, n: nat)
  {
    |written| == n && forall k :: 0 <= k < n ==> written[k] == FileRow(k)
  }

  lemma FileRowsExtend(written: seq<Row>, rows: seq<Row>, offset: nat)
    requires FileRowsUpTo(written, offset)
    requires forall i :: 0 <= i < |rows| ==> rows[i] == FileRow(offset + i)
    ensures FileRowsUpTo(written + rows, offset + |rows|)
  {
    forall k | 0 <= k < offset + |rows|
      ensures (written + rows)[k] == FileRow(k)
    {
      if k >= offset {
        assert (written + rows)[k] == rows[k - offset];
      }
    }
  }

  /** The batch loop of `generate_test_jsonl` (lines 93-173): batches of at
      most 1000 records, each regenerated and renumbered, until `lines`
      records are written. */
  method WriteBatches(manager: DebugDataManager, lines: nat) returns (written: seq<Row>, batches: seq<nat>)
    modifies manager
    ensures batches == BatchSizes(lines)
    ensures FileRowsUpTo(written, lines)
  {
    written, batches := [], [];
    var batchCount := (lines + BatchSize - 1) / BatchSize;
    var remaining: nat := lines;
    var offset: nat := 0;
    for batch := 0 to batchCount
      invariant offset + remaining == lines
      invariant batches + BatchSizes(remaining) == BatchSizes(lines)
      invariant |batches| == batch
      invariant remaining > 0 ==> offset % BatchSize == 0
      invariant FileRowsUpTo(written, offset)
    {
      var currentBatchSize := Min(BatchSize, remaining);
      if currentBatchSize <= 0 {
        break;
      }
      BatchesStep(batches, remaining, lines);
      var renumbered := GenerateBatch(manager, offset, currentBatchSize);
      FileRowsExtend(written, renumbered, offset);
      written := written + renumbered;
      batches := batches + [currentBatchSize];
      remaining := remaining - currentBatchSize;
      offset := offset + currentBatchSize;
    }
    BatchSizesShape(lines);
    BatchesDone(batches, remaining, lines);
  }

  /** One more batch of `min(1000, remaining)` records keeps the batches
      written so far a prefix of the whole plan. */
  lemma BatchesStep(batches: seq<nat>, remaining: nat, lines: nat)
    requires remaining > 0 && batches + BatchSizes(remaining) == BatchSizes(lines)
    ensures (batches + [Min(BatchSize, remaining)]) + BatchSizes(remaining - Min(BatchSize, remaining)) == BatchSizes(lines)
  {
    assert BatchSizes(remaining) == [Min(BatchSize, remaining)] + BatchSizes(remaining - Min(BatchSize, remaining));
  }

  /** Once as many batches as planned are written, the plan is complete. */
  lemma BatchesDone(batches: seq<nat>, remaining: nat, lines: nat)
    requires batches + BatchSizes(remaining) == BatchSizes(lines)
    requires remaining == 0 || |batches| == |BatchSizes(lines)|
    ensures batches == BatchSizes(lines)
  {
    assert BatchSizes(remaining) == [] <==> remaining == 0;
  }

  /** `generate_test_jsonl`. `missingParent` is the display form of the
      target's parent directory when that directory does not exist, and
      `createError` the operating system's message when the file cannot be
      created. Returns the records written, in order, and the size of each
      batch. */
  method GenerateTestJsonl(manager: DebugDataManager, path: string, lines: nat,
                           missingParent: Option<string>, createError: Option<string>)
    returns (r: Result<string, string>, written: seq<Row>, batches: seq<nat>)
    modifies manager
    ensures missingParent.Some? ==>
      r == Err(DirectoryMissing + missingParent.value) && written == [] && manager.generator == old(manager.generator)
    ensures missingParent.None? ==> manager.generator == Some(NewGenerator(Some(lines)))
    ensures missingParent.None? && createError.Some? ==>
      r == Err("创建文件失败: " + path + ", 错误: " + createError.value) && written == []
    ensures missingParent.None? && createError.None? ==>
      && r == Ok("成功生成包含 " + NatToString(lines) + " 行的 JSONL 文件: " + path)
      && batches == BatchSizes(lines)
      && FileRowsUpTo(written, lines)
  {
    written, batches := [], [];
    if missingParent.Some? {
      return Err(DirectoryMissing + missingParent.value), written, batches;
    }
    var initialised := manager.InitDebugData(Some(lines));
    if createError.Some? {
      return Err("创建文件失败: " + path + ", 错误: " + createError.value), written, batches;
    }
    written, batches := WriteBatches(manager, lines);
    initialised := manager.InitDebugData(Some(lines));
    r := Ok("成功生成包含 " + NatToString(lines) + " 行的 JSONL 文件: " + path);
  }
}
