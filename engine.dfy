/**
 * The grammar engine (toml.h) that the accessor layer wraps, kept abstract.
 *
 * The engine is a foreign C library: it tokenises the text, builds a tree of
 * table and array handles over raw scalar tokens, and converts a raw token
 * into a typed value on request. Only the interface the accessor layer uses
 * is modelled: the tree as a value, the lookups by key and by index, the
 * array kind and type codes, and the five coercion primitives as given
 * partial functions (None stands for "the primitive returned nonzero").
 */
module Engine {

  datatype Option<+T> = None | Some(value: T)

  /** C `int` and `int64_t`. */
  type Int32 = i: int | -0x8000_0000 <= i < 0x8000_0000
  type Int64 = i: int | -0x8000_0000_0000_0000 <= i < 0x8000_0000_0000_0000

  /** A NUL-terminated C string, seen as the characters before its terminator. */
  type CString = s: string | '\0' !in s

  /** The characters `s.c_str()` shows a C function: everything before the first NUL. */
  function CStr(s: string): (r: CString)
    ensures |r| <= |s| && r == s[..|r|]
    ensures |r| < |s| ==> s[|r|] == '\0'
  {
    if s == [] || s[0] == '\0' then [] else [s[0]] + CStr(s[1..])
  }

  /**
   * A C `double`. Its decimal rendering by an output stream is floating-point
   * formatting, which is not modelled: the value carries the characters the
   * stream would print for it.
   */
  datatype Float64 = Float64(streamed: string)

  /** toml_timestamp_t: every field is a pointer that is null when the field is absent. */
  datatype TimestampFields = TimestampFields(
    year: Option<Int32>, month: Option<Int32>, day: Option<Int32>,
    hour: Option<Int32>, minute: Option<Int32>, second: Option<Int32>,
    millisec: Option<Int32>, z: Option<CString>)

  predicate InRange(f: Option<Int32>, hi: int) {
    f.None? || 0 <= f.value <= hi
  }

  /**
   * What the engine's timestamp scanner can produce: a four-digit year,
   * two-digit month, day, hour, minute and second, and a non-negative
   * millisecond count.
   */
  predicate Scanned(ts: TimestampFields) {
    && InRange(ts.year, 9999)
    && InRange(ts.month, 99) && InRange(ts.day, 99)
    && InRange(ts.hour, 99) && InRange(ts.minute, 99) && InRange(ts.second, 99)
    && InRange(ts.millisec, 0x7FFF_FFFF)
  }

  type EngineTimestamp = ts: TimestampFields | Scanned(ts)
    witness TimestampFields(None, None, None, None, None, None, None, None)

  /**
   * toml_raw_t: an opaque token of the source text. It is represented by what
   * each coercion primitive yields for it; the lexical rules behind those
   * results belong to the engine.
   */
  datatype Raw = Raw(
    asString: Option<CString>,
    asBool: Option<Int32>,
    asInt: Option<Int64>,
    asDouble: Option<Float64>,
    asTimestamp: Option<EngineTimestamp>)

  /** toml_rtos: the unescaped string, or failure. */
  function Rtos(r: Raw): Option<CString> { r.asString }
  /** toml_rtob: 0 or 1 as a C int, or failure. */
  function Rtob(r: Raw): Option<Int32> { r.asBool }
  /** toml_rtoi */
  function Rtoi(r: Raw): Option<Int64> { r.asInt }
  /** toml_rtod */
  function Rtod(r: Raw): Option<Float64> { r.asDouble }
  /** toml_rtots */
  function Rtots(r: Raw): Option<EngineTimestamp> { r.asTimestamp }

  /** A child of a table or an element of an array. */
  datatype Item = Val(raw: Raw) | Arr(arr: EngArray) | Tab(tab: EngTable)

  /** An array's kind code: t tables, a arrays, v values, m mixed. */
  type KindCode = c: char | c in "tavm" witness 'v'

  /**
   * A value array's type code: i integer, d double, b bool, s string,
   * t time, D date, T timestamp, m mixed, NUL unknown.
   */
  type TypeCode = c: char | c in "idbstDTm\0" witness '\0'

  /** toml_array_t: its kind code, its type code for value arrays, and its elements. */
  datatype EngArray = EngArray(kind: KindCode, typ: TypeCode, items: seq<Item>)

  /** toml_table_t: its entries in the order toml_key_in enumerates them. */
  datatype EngTable = EngTable(entries: seq<Entry>)

  datatype Entry = Entry(key: CString, item: Item)

  /** The first entry at or after `from` whose key is `key`. */
  function KeyIndex(es: seq<Entry>, key: string, from: nat): (r: Option<nat>)
    requires from <= |es|
    ensures r.Some? ==> from <= r.value < |es| && es[r.value].key == key
    ensures r.Some? ==> forall j :: from <= j < r.value ==> es[j].key != key
    ensures r.None? ==> forall j :: from <= j < |es| ==> es[j].key != key
    decreases |es| - from
  {
    if from == |es| then None
    else if es[from].key == key then Some(from)
    else KeyIndex(es, key, from + 1)
  }

  /** The child stored under `key`, if any. */
  function ItemIn(t: EngTable, key: string): (r: Option<Item>)
    ensures r.Some? ==> r.value < t
  {
    match KeyIndex(t.entries, key, 0)
    case Some(i) => Some(t.entries[i].item)
    case None => None
  }

  /** toml_key_in: the key at position `i`, or null past the last one. */
  function KeyIn(t: EngTable, i: int): Option<CString> {
    if 0 <= i < |t.entries| then Some(t.entries[i].key) else None
  }

  /** toml_raw_in */
  function RawIn(t: EngTable, key: string): Option<Raw> {
    match ItemIn(t, key)
    case Some(Val(r)) => Some(r)
    case _ => None
  }

  /** toml_array_in */
  function ArrayIn(t: EngTable, key: string): (r: Option<EngArray>)
    ensures r.Some? ==> r.value < t
  {
    match ItemIn(t, key)
    case Some(Arr(a)) => Some(a)
    case _ => None
  }

  /** toml_table_in */
  function TableIn(t: EngTable, key: string): (r: Option<EngTable>)
    ensures r.Some? ==> r.value < t
  {
    match ItemIn(t, key)
    case Some(Tab(c)) => Some(c)
    case _ => None
  }

  /** toml_array_kind */
  function ArrayKind(a: EngArray): KindCode { a.kind }

  /** toml_array_type */
  function ArrayType(a: EngArray): TypeCode { a.typ }

  /** toml_raw_at: null when the index is out of range or the element is no scalar. */
  function RawAt(a: EngArray, idx: int): Option<Raw> {
    if 0 <= idx < |a.items| && a.items[idx].Val? then Some(a.items[idx].raw) else None
  }

  /** toml_array_at */
  function ArrayAt(a: EngArray, idx: int): (r: Option<EngArray>)
    ensures r.Some? ==> r.value < a
  {
    if 0 <= idx < |a.items| && a.items[idx].Arr? then Some(a.items[idx].arr) else None
  }

  /** toml_table_at */
  function TableAt(a: EngArray, idx: int): (r: Option<EngTable>)
    ensures r.Some? ==> r.value < a
  {
    if 0 <= idx < |a.items| && a.items[idx].Tab? then Some(a.items[idx].tab) else None
  }

  /**
   * What toml_parse yields for a text: the root table, or null with the
   * message it wrote into the caller's error buffer (possibly empty).
   */
  datatype ParseOutcome = Parsed(root: EngTable) | Failed(errbuf: ErrorText)

  /** What fits, with its terminator, in the 200-byte error buffer toml::parse passes. */
  type ErrorText = s: CString | |s| < 200
}
