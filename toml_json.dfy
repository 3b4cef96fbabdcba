/**
 * The JSON projection of toml_json.cpp: a table, an array or a scalar is
 * written out as type-tagged text. The projection is given twice: as
 * functions that say what text each node yields (ValueJson, TableJson,
 * ArrayJson), and as the methods that append it to an output accumulator the
 * way the C++ streams it (PrintValue, PrintTable, PrintArray), each proved to
 * produce exactly the text its function gives.
 *
 * The process exits become error outcomes: exit(1) after "unknown type" is
 * Err(UnknownType), abort() is Err(Abort). What was streamed before the exit
 * is not part of an error outcome.
 */
module TomlJson {

  import opened Engine
  import opened JsonText
  import opened Tomlcpp

  datatype Fatal = UnknownType | Abort

  datatype Result<+T> = Ok(value: T) | Err(fatal: Fatal)

  /** The accumulator after a node's text is appended to `out`, or the fatal exit. */
  function Emit(out: string, r: Result<string>): Result<string> {
    match r
    case Ok(s) => Ok(out + s)
    case Err(f) => Err(f)
  }

  // ---- scalars ----

  /** `{"type":"<tag>","value":"<text>"}`: every scalar's text is quoted. */
  function ScalarJson(tag: string, text: string): string {
    ScalarOpen(tag) + text + "\"}"
  }

  /** `{"type":"<tag>","value":"`, what print(Value) streams before the text. */
  function ScalarOpen(tag: string): string {
    "{\"type\":\"" + tag + "\",\"value\":\""
  }

  /** The tags print(Value) writes. */
  predicate IsScalarTag(tag: string) {
    tag in ["string", "integer", "bool", "float", "datetime", "date", "time"]
  }

  /** How print(Value) classifies a timestamp by its -1 sentinels. */
  datatype TimestampKind = DateTime | Date | Time | Unclassified

  function Classify(ts: Timestamp): (k: TimestampKind)
    ensures k == DateTime <==> ts.year != -1 && ts.hour != -1
    ensures k == Date <==> ts.year != -1 && ts.hour == -1
    ensures k == Time <==> ts.year == -1 && ts.hour != -1
    ensures k == Unclassified <==> ts.year == -1 && ts.hour == -1
  {
    if ts.year != -1 && ts.hour != -1 then DateTime
    else if ts.year != -1 then Date
    else if ts.hour != -1 then Time
    else Unclassified
  }

  /** The field values Value::toTimestamp can produce: within what z4 and z2 accept. */
  predicate Printable(ts: Timestamp) {
    && -1 <= ts.year <= 9999
    && -1 <= ts.month <= 99 && -1 <= ts.day <= 99
    && -1 <= ts.hour <= 99 && -1 <= ts.minute <= 99 && -1 <= ts.second <= 99
  }

  /** `.` and the milliseconds, unpadded, when they are present. */
  function Millis(ts: Timestamp): string {
    if ts.millisec != -1 then "." + IntText(ts.millisec) else ""
  }

  /** YYYY-MM-DD */
  function DateText(ts: Timestamp): string
    requires Printable(ts)
  {
    Z4(ts.year) + "-" + Z2(ts.month) + "-" + Z2(ts.day)
  }

  /** HH:mm:ss and the optional milliseconds. */
  function ClockText(ts: Timestamp): string
    requires Printable(ts)
  {
    Z2(ts.hour) + ":" + Z2(ts.minute) + ":" + Z2(ts.second) + Millis(ts)
  }

  /** YYYY-MM-DDTHH:mm:ss, the optional milliseconds, and the timezone verbatim. */
  function DatetimeText(ts: Timestamp): string
    requires Printable(ts)
  {
    DateText(ts) + "T" + ClockText(ts) + ts.z
  }

  /**
   * print(Value): probes the coercions in the order string, integer, bool,
   * float, timestamp; the first that succeeds decides the tag and the text.
   * A bool is streamed as 1 or 0. A scalar nothing accepts, or a timestamp
   * with neither a date nor a time, is the "unknown type" exit.
   */
  function ValueJson(v: Value): Result<string> {
    var s := v.ToString();
    if s.0 then Ok(ScalarJson("string", Escape(s.1)))
    else
    var i := v.ToInt();
    if i.Some? then Ok(ScalarJson("integer", IntText(i.value)))
    else
    var b := v.ToBool();
    if b.Some? then Ok(ScalarJson("bool", if b.value then "1" else "0"))
    else
    var d := v.ToDouble();
    if d.Some? then Ok(ScalarJson("float", d.value.streamed))
    else
    var ts := v.ToTimestamp();
    if !ts.0 then Err(UnknownType)
    else TimestampJson(ts.1)
  }

  /** The timestamp branch of print(Value): tag and text by the sentinel classification. */
  function TimestampJson(ts: Timestamp): Result<string>
    requires Printable(ts)
  {
    match Classify(ts)
    case DateTime => Ok(ScalarJson("datetime", DatetimeText(ts)))
    case Date => Ok(ScalarJson("date", DateText(ts)))
    case Time => Ok(ScalarJson("time", ClockText(ts)))
    case Unclassified => Err(UnknownType)
  }

  // ---- comma-separated bodies ----

  /**
   * The body of a table or array: the parts in order, a comma before every
   * part but the first, or the first failure among them.
   */
  function Collect(rs: seq<Result<string>>): Result<string> {
    if rs == [] then Ok("")
    else
      match Collect(rs[..|rs| - 1])
      case Err(f) => Err(f)
      case Ok(s) =>
        match rs[|rs| - 1]
        case Err(f) => Err(f)
        case Ok(x) => Ok(s + (if |rs| == 1 then "" else ",") + x)
  }

  // ---- tables and arrays ----

  /** The element kinds an array loop asks for. */
  datatype Shape = ValueShape | ArrayShape | TableShape

  /** Whether the getter for `shape` yields an element at `i`. */
  predicate Has(a: Array, shape: Shape, i: int) {
    match shape
    case ValueShape => a.GetValue(i).Some?
    case ArrayShape => a.GetArray(i).Some?
    case TableShape => a.GetTable(i).Some?
  }

  /** The first index at or after `from` whose getter fails. */
  function RunFrom(a: Array, shape: Shape, from: nat): (n: nat)
    requires from <= |a.arr.items|
    ensures from <= n <= |a.arr.items|
    ensures forall j :: from <= j < n ==> Has(a, shape, j)
    ensures !Has(a, shape, n)
    decreases |a.arr.items| - from
  {
    if Has(a, shape, from) then RunFrom(a, shape, from + 1) else from
  }

  /** How many elements an array loop prints: it stops at the first index whose getter fails. */
  function Run(a: Array, shape: Shape): (n: nat)
    ensures n <= |a.arr.items|
    ensures forall j :: 0 <= j < n ==> Has(a, shape, j)
    ensures !Has(a, shape, n)
  {
    RunFrom(a, shape, 0)
  }

  /**
   * print(Table): `{`, then for each key of keys() the escaped key in quotes,
   * `:` and the child, comma separated, then `}`.
   */
  function TableJson(t: Table): Result<string>
    decreases t.tab, 4
  {
    match Collect(Members(t, t.KeyList()))
    case Ok(s) => Ok("{" + s + "}")
    case Err(f) => Err(f)
  }

  function Members(t: Table, ks: seq<string>): (rs: seq<Result<string>>)
    ensures |rs| == |ks|
    decreases t.tab, 3
  {
    seq(|ks|, i requires 0 <= i < |ks| => MemberJson(t, ks[i]))
  }

  /** `"<escaped key>":<child>` */
  function MemberJson(t: Table, k: string): Result<string>
    decreases t.tab, 2
  {
    match ChildJson(t, k)
    case Ok(c) => Ok("\"" + Escape(k) + "\":" + c)
    case Err(f) => Err(f)
  }

  /** The child under a key, probed as a value, then an array, then a table; abort() if none. */
  function ChildJson(t: Table, k: string): Result<string>
    decreases t.tab, 1
  {
    match t.GetValue(k)
    case Some(v) => ValueJson(v)
    case None =>
      match t.GetArray(k)
      case Some(a) => ArrayJson(a)
      case None =>
        match t.GetTable(k)
        case Some(c) => TableJson(c)
        case None => Err(Abort)
  }

  /**
   * print(Array): an array of tables is a bare `[...]` of table projections;
   * any other array is `{"type":"array","value":[...]}` holding its values
   * (kind v) or its arrays (kind a), and nothing for any other kind.
   */
  function ArrayJson(a: Array): Result<string>
    decreases a.arr, 4
  {
    if a.Kind() == 't' then
      match Collect(Elements(a, TableShape))
      case Ok(s) => Ok("[" + s + "]")
      case Err(f) => Err(f)
    else
      var body :=
        if a.Kind() == 'v' then Collect(Elements(a, ValueShape))
        else if a.Kind() == 'a' then Collect(Elements(a, ArrayShape))
        else Ok("");
      match body
      case Ok(s) => Ok("{\"type\":\"array\",\"value\":[" + s + "]}")
      case Err(f) => Err(f)
  }

  function Elements(a: Array, shape: Shape): (rs: seq<Result<string>>)
    ensures |rs| == Run(a, shape)
    decreases a.arr, 3
  {
    seq(Run(a, shape), i requires 0 <= i < Run(a, shape) => ElementJson(a, shape, i))
  }

  function ElementJson(a: Array, shape: Shape, i: int): Result<string>
    requires Has(a, shape, i)
    decreases a.arr, 2
  {
    match shape
    case ValueShape => ValueJson(a.GetValue(i).value)
    case ArrayShape => ArrayJson(a.GetArray(i).value)
    case TableShape => TableJson(a.GetTable(i).value)
  }

  // ---- the streaming code ----

  /** print_escape_string: appends the string with the seven special characters escaped. */
  method PrintEscapeString(out: string, str: string) returns (acc: string)
    ensures acc == out + Escape(str)
  {
    acc := out;
    var i := 0;
    while i < |str|
      invariant 0 <= i <= |str|
      invariant acc == out + Escape(str[..i])
    {
      var ch := str[i];
      acc := PrintEscapedChar(acc, ch);
      EscapeAppend(str[..i], [ch]);
      assert str[..i + 1] == str[..i] + [ch];
      assert Escape([ch]) == EscapeChar(ch) + Escape([]);
      Reassoc(out, Escape(str[..i]), EscapeChar(ch), "");
      i := i + 1;
    }
    assert str[..i] == str;
  }

  /** The switch of print_escape_string for one character. */
  method PrintEscapedChar(out: string, ch: char) returns (acc: string)
    ensures acc == out + EscapeChar(ch)
  {
    if ch == Backspace {
      acc := out + "\\b";
    } else if ch == '\t' {
      acc := out + "\\t";
    } else if ch == '\n' {
      acc := out + "\\n";
    } else if ch == FormFeed {
      acc := out + "\\f";
    } else if ch == '\r' {
      acc := out + "\\r";
    } else if ch == '"' {
      acc := out + "\\\"";
    } else if ch == '\\' {
      acc := out + "\\\\";
    } else {
      acc := out + [ch];
    }
  }

  /** print(Value) */
  method PrintValue(out: string, v: Value) returns (r: Result<string>)
    ensures r == Emit(out, ValueJson(v))
  {
    var s := v.ToString();
    if s.0 {
      var acc := out + ScalarOpen("string");
      acc := PrintEscapeString(acc, s.1);
      Reassoc(out, ScalarOpen("string"), Escape(s.1), "\"}");
      return Ok(acc + "\"}");
    }
    var i := v.ToInt();
    if i.Some? {
      return Ok(out + ScalarJson("integer", IntText(i.value)));
    }
    var b := v.ToBool();
    if b.Some? {
      return Ok(out + ScalarJson("bool", if b.value then "1" else "0"));
    }
    var d := v.ToDouble();
    if d.Some? {
      return Ok(out + ScalarJson("float", d.value.streamed));
    }
    var ts := v.ToTimestamp();
    if ts.0 {
      return Emit(out, TimestampJson(ts.1));
    }
    return Err(UnknownType);
  }

  /** (x + a + b) + c == x + (a + b + c) */
  lemma Reassoc(x: string, a: string, b: string, c: string)
    ensures x + a + b + c == x + (a + b + c)
  {
  }

  /** (x + a + b + c) + d == x + (a + b + c + d) */
  lemma Reassoc4(x: string, a: string, b: string, c: string, d: string)
    ensures x + a + b + c + d == x + (a + b + c + d)
  {
  }

  /** print(Table) */
  method PrintTable(out: string, t: Table) returns (r: Result<string>)
    ensures r == Emit(out, TableJson(t))
    decreases t.tab, 4
  {
    var first := true;
    var acc := out + "{";
    var keys := t.Keys();
    ghost var parts := Members(t, keys);
    assert parts[..0] == [];
    assert Collect(parts[..0]) == Ok("");
    assert out + "{" + "" == out + "{";
    var j := 0;
    while j < |keys|
      invariant 0 <= j <= |keys|
      invariant first <==> j == 0
      invariant Emit(out + "{", Collect(parts[..j])) == Ok(acc)
    {
      var child := PrintMember(acc, t, keys[j], first);
      first := false;
      CollectStep(parts, j, out + "{", acc);
      if child.Err? {
        CollectPrefixErr(parts, j + 1);
        assert parts == Members(t, t.KeyList());
        return child;
      }
      acc := child.value;
      j := j + 1;
    }
    assert parts[..j] == parts;
    assert parts == Members(t, t.KeyList());
    Reassoc(out, "{", Collect(parts).value, "}");
    r := Ok(acc + "}");
  }

  /**
   * One pass of print(Table)'s key loop: the separator, the escaped key in
   * quotes and a colon, then the child found by the first getter that succeeds.
   */
  method PrintMember(out: string, t: Table, key: string, first: bool) returns (r: Result<string>)
    ensures r == Emit(out + (if first then "" else ","), MemberJson(t, key))
    decreases t.tab, 3
  {
    var sep := if first then "" else ",";
    var acc := out + sep + "\"";
    acc := PrintEscapeString(acc, key);
    acc := acc + "\":";
    var v := t.GetValue(key);
    if v.Some? {
      r := PrintValue(acc, v.value);
    } else {
      var a := t.GetArray(key);
      if a.Some? {
        r := PrintArray(acc, a.value);
      } else {
        var c := t.GetTable(key);
        if c.Some? {
          r := PrintTable(acc, c.value);
        } else {
          r := Err(Abort);
        }
      }
    }
    assert r == Emit(acc, ChildJson(t, key));
    if r.Ok? {
      Reassoc4(out + sep, "\"", Escape(key), "\":", ChildJson(t, key).value);
    }
  }

  /** print(Array) */
  method PrintArray(out: string, a: Array) returns (r: Result<string>)
    ensures r == Emit(out, ArrayJson(a))
    decreases a.arr, 4
  {
    if a.Kind() == 't' {
      r := PrintElements(out + "[", a, TableShape);
      if r.Ok? {
        Reassoc(out, "[", Collect(Elements(a, TableShape)).value, "]");
        r := Ok(r.value + "]");
      }
      return;
    }
    var open := "{\"type\":\"array\",\"value\":[";
    var acc := out + open;
    r := Ok(acc);
    ghost var body: Result<string> := Ok("");
    if a.Kind() == 'v' {
      r := PrintElements(acc, a, ValueShape);
      body := Collect(Elements(a, ValueShape));
    } else if a.Kind() == 'a' {
      r := PrintElements(acc, a, ArrayShape);
      body := Collect(Elements(a, ArrayShape));
    } else {
      assert acc + "" == acc;
    }
    assert r == Emit(acc, body);
    if r.Ok? {
      Reassoc(out, open, body.value, "]}");
      r := Ok(r.value + "]}");
    }
  }

  /**
   * The element loops of print(Array): index 0, 1, ... until the getter for
   * the shape fails, a comma before every element but the first.
   */
  method PrintElements(out: string, a: Array, shape: Shape) returns (r: Result<string>)
    ensures r == Emit(out, Collect(Elements(a, shape)))
    decreases a.arr, 3
  {
    ghost var parts := Elements(a, shape);
    var acc := out;
    var i := 0;
    assert parts[..0] == [];
    assert Collect(parts[..0]) == Ok("");
    assert out + "" == out;
    while true
      invariant 0 <= i <= Run(a, shape)
      invariant Emit(out, Collect(parts[..i])) == Ok(acc)
      decreases |a.arr.items| - i
    {
      var present, x := PrintElement(acc, a, shape, i);
      if !present {
        break;
      }
      CollectStep(parts, i, out, acc);
      if x.Err? {
        CollectPrefixErr(parts, i + 1);
        assert parts[..|parts|] == parts;
        return x;
      }
      acc := x.value;
      i := i + 1;
    }
    assert parts[..i] == parts;
    r := Ok(acc);
  }

  /** One pass of an element loop: the getter, and when it succeeds the comma and the element. */
  method PrintElement(out: string, a: Array, shape: Shape, i: int) returns (present: bool, x: Result<string>)
    requires 0 <= i
    ensures present <==> Has(a, shape, i)
    ensures present ==> x == Emit(out + (if i == 0 then "" else ","), ElementJson(a, shape, i))
    decreases a.arr, 2
  {
    var acc := out;
    assert out + "" == out;
    x := Ok(out);
    if shape == TableShape {
      var tab := a.GetTable(i);
      present := tab.Some?;
      if present {
        if i != 0 {
          acc := acc + ",";
        }
        x := PrintTable(acc, tab.value);
      }
    } else if shape == ValueShape {
      var v := a.GetValue(i);
      present := v.Some?;
      if present {
        if i != 0 {
          acc := acc + ",";
        }
        x := PrintValue(acc, v.value);
      }
    } else {
      var arr := a.GetArray(i);
      present := arr.Some?;
      if present {
        if i != 0 {
          acc := acc + ",";
        }
        x := PrintArray(acc, arr.value);
      }
    }
  }

  // ---- facts about Collect the streaming loops rely on ----

  /** One more part: what the loop appends is the separator and the part. */
  lemma CollectStep(rs: seq<Result<string>>, j: nat, out: string, acc: string)
    requires j < |rs|
    requires Emit(out, Collect(rs[..j])) == Ok(acc)
    ensures Emit(out, Collect(rs[..j + 1]))
         == Emit(acc + (if j == 0 then "" else ","), rs[j])
  {
    var pre := rs[..j + 1];
    assert pre[..|pre| - 1] == rs[..j];
    assert pre[|pre| - 1] == rs[j];
    var s := Collect(rs[..j]).value;
    assert acc == out + s;
    var sep := if j == 0 then "" else ",";
    match rs[j]
    case Err(f) =>
    case Ok(x) =>
      assert Collect(pre) == Ok(s + sep + x);
      assert out + (s + sep + x) == acc + sep + x;
  }

  /** Once a prefix fails, the whole list fails with the same exit. */
  lemma {:induction false} CollectPrefixErr(rs: seq<Result<string>>, j: nat)
    requires j <= |rs|
    requires Collect(rs[..j]).Err?
    ensures Collect(rs) == Collect(rs[..j])
    decreases |rs| - j
  {
    if j < |rs| {
      var pre := rs[..j + 1];
      assert pre[..|pre| - 1] == rs[..j];
      CollectPrefixErr(rs, j + 1);
    } else {
      assert rs[..j] == rs;
    }
  }
}
