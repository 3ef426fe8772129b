/** The record table (src/components/DataTable.tsx): its column headers —
    every key of every row, priority keys first — the text of each cell, and
    the rows of the table body. */
module DataTable {
  import opened Models
  import opened Text

  // ---------------------------------------------------------------------
  // Header keys

  /** Every key of every row. */
  function KeysOf(data: seq<Row>): set<string>
  {
    if data == [] then {} else KeysOf(data[..|data| - 1]) + data[|data| - 1].Keys
  }

  /** A key is a header exactly when some row has it. */
  lemma {:induction false} KeysOfMembers(data: seq<Row>, k: string)
    ensures k in KeysOf(data) <==> exists i :: 0 <= i < |data| && k in data[i]
    decreases |data|
  {
    if data != [] {
      var init := data[..|data| - 1];
      KeysOfMembers(init, k);
      if exists i :: 0 <= i < |init| && k in init[i] {
        var i :| 0 <= i < |init| && k in init[i];
        assert data[i] == init[i];
      }
      if exists i :: 0 <= i < |data| && k in data[i] {
        var i :| 0 <= i < |data| && k in data[i];
        if i < |init| { assert init[i] == data[i]; }
      }
    }
  }

  /** The `allKeys` set of lines 24-27: each row's keys added in turn. */
  method CollectKeys(data: seq<Row>) returns (allKeys: set<string>)
    ensures allKeys == KeysOf(data)
  {
    allKeys := {};
    for i := 0 to |data|
      invariant allKeys == KeysOf(data[..i])
    {
      var rest := data[i].Keys;
      while rest != {}
        invariant rest <= data[i].Keys
        invariant KeysOf(data[..i]) <= allKeys
        invariant allKeys + rest == KeysOf(data[..i]) + data[i].Keys
        decreases |rest|
      {
        var key :| key in rest;
        allKeys := allKeys + {key};
        rest := rest - {key};
      }
      assert data[..i + 1][..i] == data[..i];
    }
    assert data[..|data|] == data;
  }

  // ---------------------------------------------------------------------
  // Header order

  /** The keys shown first, in this order. */
  const PriorityKeys: seq<string> := ["id", "name", "title", "date", "type", "status"]

  /** `Array.prototype.indexOf`: the first position of `k`, or -1. */
  function IndexOf(xs: seq<string>, k: string): (i: int)
    ensures -1 <= i < |xs|
    ensures i == -1 <==> k !in xs
    ensures i >= 0 ==> xs[i] == k && forall j :: 0 <= j < i ==> xs[j] != k
  {
    if xs == [] then -1
    else if xs[0] == k then 0
    else var i := IndexOf(xs[1..], k); if i == -1 then -1 else i + 1
  }

  /** Code-unit order on strings, standing in for `localeCompare`. */
  predicate LexLess(a: string, b: string)
  {
    if a == [] then b != []
    else if b == [] then false
    else if a[0] != b[0] then a[0] < b[0]
    else LexLess(a[1..], b[1..])
  }

  lemma {:induction false} LexIrreflexive(a: string)
    ensures !LexLess(a, a)
    decreases |a|
  {
    if a != [] { LexIrreflexive(a[1..]); }
  }

  lemma {:induction false} LexTransitive(a: string, b: string, c: string)
    requires LexLess(a, b) && LexLess(b, c)
    ensures LexLess(a, c)
    decreases |a|
  {
    if a != [] && b != [] && c != [] && a[0] == b[0] && b[0] == c[0] {
      LexTransitive(a[1..], b[1..], c[1..]);
    }
  }

  lemma {:induction false} LexTotal(a: string, b: string)
    requires a != b
    ensures LexLess(a, b) != LexLess(b, a)
    decreases |a|
  {
    if a != [] && b != [] && a[0] == b[0] {
      assert a == [a[0]] + a[1..] && b == [b[0]] + b[1..];
      LexTotal(a[1..], b[1..]);
    }
  }

  /** `a.localeCompare(b)`, as code-unit order. */
  function LocaleCompare(a: string, b: string): int
  {
    if a == b then 0 else if LexLess(a, b) then -1 else 1
  }

  /** The comparator of lines 33-41: it reports a tie only for equal keys,
      and puts a priority key before any other key. */
  function Compare(a: string, b: string): (r: int)
    ensures r == 0 <==> a == b
    ensures a in PriorityKeys && b !in PriorityKeys ==> r < 0
    ensures a !in PriorityKeys && b in PriorityKeys ==> r > 0
  {
    var indexA, indexB := IndexOf(PriorityKeys, a), IndexOf(PriorityKeys, b);
    if indexA != -1 && indexB != -1 then indexA - indexB
    else if indexA != -1 then -1
    else if indexB != -1 then 1
    else LocaleCompare(a, b)
  }

  /** `a` sorts before `b`. */
  predicate Precedes(a: string, b: string)
  {
    Compare(a, b) < 0
  }

  /** The comparator is a strict total order, so sorting by it has exactly
      one outcome whatever algorithm the engine uses. */
  lemma PrecedesIsStrictTotalOrder(a: string, b: string, c: string)
    ensures !Precedes(a, a)
    ensures a != b ==> Precedes(a, b) != Precedes(b, a)
    ensures Precedes(a, b) && Precedes(b, c) ==> Precedes(a, c)
  {
    LexIrreflexive(a);
    if a != b {
      var ia, ib := IndexOf(PriorityKeys, a), IndexOf(PriorityKeys, b);
      if ia == -1 && ib == -1 { LexTotal(a, b); }
    }
    if Precedes(a, b) && Precedes(b, c) {
      if IndexOf(PriorityKeys, a) == -1 && IndexOf(PriorityKeys, b) == -1 && IndexOf(PriorityKeys, c) == -1 {
        LexTransitive(a, b, c);
      }
    }
  }

  /** Each element precedes every later one, so none is repeated. */
  predicate StrictlySorted(xs: seq<string>)
  {
    forall i, j :: 0 <= i < j < |xs| ==> Precedes(xs[i], xs[j])
  }

  /** The least key of a non-empty set under the comparator. */
  method Least(s: set<string>) returns (m: string)
    requires s != {}
    ensures m in s && forall k :: k in s && k != m ==> Precedes(m, k)
  {
    m :| m in s;
    var seen := {m};
    var rest := s - {m};
    while rest != {}
      invariant m in seen && seen + rest == s && seen !! rest
      invariant forall k :: k in seen && k != m ==> Precedes(m, k)
      decreases |rest|
    {
      var k :| k in rest;
      PrecedesIsStrictTotalOrder(k, m, k);
      if Precedes(k, m) {
        forall j | j in seen && j != k
          ensures Precedes(k, j)
        {
          PrecedesIsStrictTotalOrder(k, m, j);
        }
        m := k;
      }
      seen := seen + {k};
      rest := rest - {k};
    }
  }

  /** `[...allKeys].sort(comparator)`: here by repeatedly taking the least
      remaining key. */
  method SortHeaders(keys: set<string>) returns (headers: seq<string>)
    ensures StrictlySorted(headers)
    ensures forall k :: k in headers <==> k in keys
  {
    headers := [];
    var rest := keys;
    while rest != {}
      invariant rest <= keys
      invariant forall k :: k in keys <==> k in headers || k in rest
      invariant forall k :: k in headers ==> k !in rest
      invariant StrictlySorted(headers)
      invariant forall i, k :: 0 <= i < |headers| && k in rest ==> Precedes(headers[i], k)
      decreases |rest|
    {
      var m := Least(rest);
      headers := headers + [m];
      rest := rest - {m};
    }
  }

  /** The `headers` memo of lines 23-42. */
  method Headers(data: seq<Row>) returns (headers: seq<string>)
    ensures StrictlySorted(headers)
    ensures forall k :: k in headers <==> k in KeysOf(data)
  {
    var allKeys := CollectKeys(data);
    headers := SortHeaders(allKeys);
  }

  /** The first element of a strictly sorted sequence precedes all others. */
  lemma FirstIsLeast(xs: seq<string>)
    requires StrictlySorted(xs) && xs != []
    ensures forall k :: k in xs && k != xs[0] ==> Precedes(xs[0], k)
  {
    forall k | k in xs && k != xs[0]
      ensures Precedes(xs[0], k)
    {
      var i :| 0 <= i < |xs| && xs[i] == k;
    }
  }

  /** With equal heads, every later element of `xs` is a later element of `ys`. */
  lemma TailsIncluded(xs: seq<string>, ys: seq<string>)
    requires StrictlySorted(xs) && xs != [] && ys != [] && xs[0] == ys[0]
    requires forall k :: k in xs ==> k in ys
    ensures forall k :: k in xs[1..] ==> k in ys[1..]
  {
    forall k | k in xs[1..]
      ensures k in ys[1..]
    {
      var i :| 1 <= i < |xs| && xs[i] == k;
      assert Precedes(xs[0], k);
      PrecedesIsStrictTotalOrder(k, k, k);
      assert xs[i] in xs;
      var j :| 0 <= j < |ys| && ys[j] == k;
      assert j != 0;
      assert ys[1..][j - 1] == k;
    }
  }

  /** Two strictly sorted sequences with the same elements are equal: the
      headers do not depend on how the keys were sorted or collected. */
  lemma {:induction false} SortedUnique(xs: seq<string>, ys: seq<string>)
    requires StrictlySorted(xs) && StrictlySorted(ys)
    requires forall k :: k in xs <==> k in ys
    ensures xs == ys
    decreases |xs|
  {
    assert xs == [] <==> ys == [] by {
      if xs != [] { assert xs[0] in ys; }
      if ys != [] { assert ys[0] in xs; }
    }
    if xs != [] {
      var x, y := xs[0], ys[0];
      FirstIsLeast(xs);
      FirstIsLeast(ys);
      PrecedesIsStrictTotalOrder(x, y, x);
      assert x == y;
      TailsIncluded(xs, ys);
      TailsIncluded(ys, xs);
      SortedUnique(xs[1..], ys[1..]);
    }
  }

  predicate IsPriority(k: string) { k in PriorityKeys }

  /** In sorted headers the priority keys come first, in the order of the
      priority list, and the other keys follow in string order. */
  lemma PriorityFirst(headers: seq<string>, i: nat, j: nat)
    requires StrictlySorted(headers) && i < j < |headers|
    ensures IsPriority(headers[j]) ==> IsPriority(headers[i])
    ensures IsPriority(headers[i]) && IsPriority(headers[j]) ==>
      IndexOf(PriorityKeys, headers[i]) < IndexOf(PriorityKeys, headers[j])
    ensures !IsPriority(headers[i]) && !IsPriority(headers[j]) ==> LexLess(headers[i], headers[j])
  {
    assert Precedes(headers[i], headers[j]);
  }

  // ---------------------------------------------------------------------
  // Cells and body

  /** `formatValue`; None is JavaScript's `undefined`, a key the row lacks. */
  function FormatValue(value: Option<Value>): (text: string)
    ensures text == "..." <==> (value.Some? && (value.value.Obj? || value.value.Arr?)) || value == Some(Str("..."))
    ensures text == "是" <==> value == Some(Bool(true)) || value == Some(Str("是"))
    ensures text == "否" <==> value == Some(Bool(false)) || value == Some(Str("否"))
  {
    match value
    case None => "-"
    case Some(Null) => "-"
    case Some(Obj(_)) => "..."
    case Some(Arr(_)) => "..."
    case Some(Bool(b)) => if b then "是" else "否"
    case Some(Num(n)) => IntToString(n)
    case Some(Str(s)) => s
  }

  /** What a cell shows tells the value apart as far as its kind allows: a
      number (an integer in this model) reads back through `parseInt`, a
      string is shown as itself, and "-" means a missing or null value unless
      the value is that very string. */
  lemma FormatValueReadsBack(value: Option<Value>)
    ensures value.Some? && value.value.Num? ==> ParseInt(FormatValue(value)) == Some(value.value.n)
    ensures value.Some? && value.value.Str? ==> FormatValue(value) == value.value.s
    ensures FormatValue(value) == "-" <==> value == None || value == Some(Null) || value == Some(Str("-"))
  {
    match value {
      case None =>
      case Some(Null) =>
      case Some(Bool(b)) =>
      case Some(Str(t)) =>
      case Some(Arr(_)) =>
      case Some(Obj(_)) =>
      case Some(Num(n)) =>
        NumberCellReadsBack(n);
    }
  }

  /** A number's cell is its decimal text, which `parseInt` reads back and
      which is never a lone minus sign. */
  lemma NumberCellReadsBack(n: int)
    ensures ParseInt(FormatValue(Some(Num(n)))) == Some(n)
    ensures FormatValue(Some(Num(n))) != "-"
  {
    assert FormatValue(Some(Num(n))) == IntToString(n);
    ParseIntRoundTrip(n);
    var s := IntToString(n);
    if n < 0 {
      assert |s| == 1 + |NatToString(-n)| >= 2;
    } else {
      assert IsDigit(s[0]);
    }
  }

  /** The cell for `header` in `row`. */
  function Cell(row: Row, header: string): (c: string)
    ensures header !in row ==> c == "-"
    ensures header in row ==> c == FormatValue(Some(row[header]))
  {
    FormatValue(if header in row then Some(row[header]) else None)
  }

  /** A row of the table body: the placeholder spanning `colSpan` columns,
      or one cell per header plus the details button for `row`. */
  datatype BodyRow = Placeholder(colSpan: nat) | DataRow(cells: seq<string>, row: Row)
  {
    function Width(): nat
    {
      match this
      case Placeholder(span) => span
      case DataRow(cells, _) => |cells| + 1
    }
  }

  /** The table body of lines 68-93. */
  function Body(headers: seq<string>, data: seq<Row>): (body: seq<BodyRow>)
    ensures data == [] ==> body == [Placeholder(|headers| + 1)]
    ensures data != [] ==> |body| == |data|
    ensures data != [] ==> forall i :: 0 <= i < |data| ==>
      (&& body[i].DataRow? && body[i].row == data[i]
       && |body[i].cells| == |headers|
       && forall h :: 0 <= h < |headers| ==> body[i].cells[h] == Cell(data[i], headers[h]))
  {
    if data == [] then [Placeholder(|headers| + 1)]
    else seq(|data|, i requires 0 <= i < |data| => DataRow(seq(|headers|, h requires 0 <= h < |headers| => Cell(data[i], headers[h])), data[i]))
  }

  /** Every body row spans the header columns plus the action column. */
  lemma BodyWidth(headers: seq<string>, data: seq<Row>)
    ensures forall r :: r in Body(headers, data) ==> r.Width() == |headers| + 1
  {
  }
}
