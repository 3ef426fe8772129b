/** Shared data types of the viewer: JSON values and rows, paged responses,
    and the backend's error enumeration with its display strings
    (src-tauri/src/models/data.rs and src-tauri/src/models/error.rs). */
module Models {

  datatype Option<+T> = None | Some(value: T)

  datatype Result<+T, +E> = Ok(value: T) | Err(error: E)

  /** A JSON value as serde_json and the front end see it. Numbers are
      modelled as integers. The generated rows hold only integers; the
      fractional numbers, and the numbers beyond 2^53, that a loaded file may
      hold are not modelled. */
  datatype Value =
    | Null
    | Bool(b: bool)
    | Num(n: int)
    | Str(s: string)
    | Arr(items: seq<Value>)
    | Obj(fields: map<string, Value>)

  /** One JSONL record: an open mapping from field name to value. */
  type Row = map<string, Value>

  /** One page of rows plus the total the page was cut from. */
  datatype PagedResponse = PagedResponse(data: seq<Row>, total: nat)

  /** The backend's error enumeration. */
  datatype AppError =
    | Io(detail: string)
    | Json(detail: string)
    | InvalidJsonl
    | FileNotFound
    | PageOutOfRange
    | DebugError(message: string)
    | General(message: string)

  type AppResult<T> = Result<T, AppError>

  /** The text each error variant displays, as its `#[error]` attribute says;
      commands hand this text to the front end. */
  function ErrorMessage(e: AppError): (m: string)
    ensures |m| > 0
  {
    match e
    case Io(d) => "文件 I/O 错误: " + d
    case Json(d) => "JSON 解析错误: " + d
    case InvalidJsonl => "无效的 JSONL 文件"
    case FileNotFound => "文件不存在"
    case PageOutOfRange => "页码超出范围"
    case DebugError(m) => "调试数据生成错误: " + m
    case General(m) => "一般错误: " + m
  }

  function Min(a: int, b: int): int { if a <= b then a else b }
}
