/**
 * The typed accessor layer (tomlcpp.cpp): the Backing record that owns the
 * duplicated text and the engine's root, the Value/Table/Array wrappers with
 * their coercions and lookups, key enumeration, and toml::parse.
 *
 * Every wrapper is an engine handle plus a shared reference to the Backing of
 * the parse it came from. The wrappers' methods are `const` and re-query the
 * engine on each call, so they are modelled as functions of the handle.
 */
module Tomlcpp {

  import opened Engine

  /** toml::Timestamp: -1 marks an absent field and "" an absent timezone. */
  datatype Timestamp = Timestamp(
    year: int, month: int, day: int, hour: int, minute: int, second: int,
    millisec: int, z: string)

  /** The member initialisers of toml::Timestamp. */
  const DefaultTimestamp := Timestamp(-1, -1, -1, -1, -1, -1, -1, "")

  /** A timestamp pointer field of the engine, or -1 when it is null. */
  function OrMinusOne(f: Option<Int32>): int {
    if f.Some? then f.value else -1
  }

  /** The three states of the `root` pointer of a Backing. */
  datatype RootSlot = Indeterminate | Null | Root(tree: EngTable)

  /**
   * toml::Backing: the duplicated source text and the engine's root table,
   * released together when the last wrapper of the parse goes away.
   */
  class Backing {
    var ptr: CString
    var root: RootSlot

    /** The constructor as written: it sets `ptr` and leaves `root` uninitialised. */
    constructor AsWritten(p: CString)
      ensures ptr == p && root == Indeterminate
    {
      ptr := p;
      root := Indeterminate;
    }

    /** The constructor with `root` initialised to null, which the destructor relies on. */
    constructor (p: CString)
      ensures ptr == p && root == Null
    {
      ptr := p;
      root := Null;
    }

    /**
     * ~Backing: frees the text, and frees the engine tree only when `root` is
     * non-null. Testing an indeterminate pointer is undefined, so the
     * destructor is only defined once `root` has been given a value.
     */
    method Destroy() returns (freedText: CString, freedTree: Option<EngTable>)
      requires root != Indeterminate
      ensures freedText == ptr
      ensures freedTree.Some? <==> root.Root?
      ensures root.Root? ==> freedTree == Some(root.tree)
    {
      freedText := ptr;
      freedTree := if root.Root? then Some(root.tree) else None;
    }
  }

  /** toml::Value: a raw scalar token of the engine. */
  datatype Value = Value(raw: Raw, backing: Backing) {

    /** Value::toString: the engine's unescaped string, or (false, "") when toml_rtos fails. */
    function ToString(): (r: (bool, string))
      ensures r.0 <==> Rtos(raw).Some?
      ensures r.0 ==> r.1 == Rtos(raw).value
      ensures !r.0 ==> r.1 == ""
    {
      match Rtos(raw)
      case Some(s) => (true, s)
      case None => (false, "")
    }

    /**
     * Value::toBool: ok exactly when toml_rtob returns 0; any nonzero engine
     * value reads as true. The value of a failed call is an uninitialised
     * local, so a failure carries none.
     */
    function ToBool(): (r: Option<bool>)
      ensures r.Some? <==> Rtob(raw).Some?
      ensures r.Some? ==> (r.value <==> Rtob(raw).value != 0)
    {
      match Rtob(raw)
      case Some(b) => Some(b != 0)
      case None => None
    }

    /** Value::toInt: ok exactly when toml_rtoi returns 0. */
    function ToInt(): (r: Option<Int64>)
      ensures r.Some? <==> Rtoi(raw).Some?
      ensures r.Some? ==> r.value == Rtoi(raw).value
    {
      Rtoi(raw)
    }

    /** Value::toDouble: ok exactly when toml_rtod returns 0. */
    function ToDouble(): (r: Option<Float64>)
      ensures r.Some? <==> Rtod(raw).Some?
      ensures r.Some? ==> r.value == Rtod(raw).value
    {
      Rtod(raw)
    }

    /**
     * Value::toTimestamp: each field the engine sets is copied, each it leaves
     * null becomes -1, the timezone becomes "" when absent. `minute` is never
     * copied and keeps its initial -1. On failure every field keeps its
     * initial value.
     */
    function ToTimestamp(): (r: (bool, Timestamp))
      ensures r.0 <==> Rtots(raw).Some?
      ensures !r.0 ==> r.1 == DefaultTimestamp
      ensures r.0 ==>
        var ts := Rtots(raw).value;
        && r.1.year == OrMinusOne(ts.year)
        && r.1.month == OrMinusOne(ts.month)
        && r.1.day == OrMinusOne(ts.day)
        && r.1.hour == OrMinusOne(ts.hour)
        && r.1.second == OrMinusOne(ts.second)
        && r.1.millisec == OrMinusOne(ts.millisec)
        && r.1.z == (if ts.z.Some? then ts.z.value else "")
      ensures r.1.minute == -1
      ensures -1 <= r.1.year <= 9999
      ensures -1 <= r.1.month <= 99 && -1 <= r.1.day <= 99
      ensures -1 <= r.1.hour <= 99 && -1 <= r.1.second <= 99
      ensures -1 <= r.1.millisec < 0x8000_0000
    {
      match Rtots(raw)
      case None => (false, DefaultTimestamp)
      case Some(ts) =>
        (true, DefaultTimestamp.(
           year := OrMinusOne(ts.year),
           month := OrMinusOne(ts.month),
           day := OrMinusOne(ts.day),
           hour := OrMinusOne(ts.hour),
           second := OrMinusOne(ts.second),
           millisec := OrMinusOne(ts.millisec),
           z := if ts.z.Some? then ts.z.value else ""))
    }
  }

  /** toml::Table: an engine table handle. */
  datatype Table = Table(tab: EngTable, backing: Backing) {

    /** Table::getValue: none exactly when toml_raw_in finds no scalar under the key. */
    function GetValue(key: string): (r: Option<Value>)
      ensures r.None? <==> RawIn(tab, CStr(key)).None?
      ensures r.Some? ==> r.value.raw == RawIn(tab, CStr(key)).value && r.value.backing == backing
    {
      match RawIn(tab, CStr(key))
      case Some(raw) => Some(Value(raw, backing))
      case None => None
    }

    /** Table::getArray: none exactly when toml_array_in finds no array under the key. */
    function GetArray(key: string): (r: Option<Array>)
      ensures r.None? <==> ArrayIn(tab, CStr(key)).None?
      ensures r.Some? ==> r.value.arr == ArrayIn(tab, CStr(key)).value && r.value.backing == backing
      ensures r.Some? ==> r.value.arr < tab
    {
      match ArrayIn(tab, CStr(key))
      case Some(a) => Some(Array(a, backing))
      case None => None
    }

    /** Table::getTable: none exactly when toml_table_in finds no table under the key. */
    function GetTable(key: string): (r: Option<Table>)
      ensures r.None? <==> TableIn(tab, CStr(key)).None?
      ensures r.Some? ==> r.value.tab == TableIn(tab, CStr(key)).value && r.value.backing == backing
      ensures r.Some? ==> r.value.tab < tab
    {
      match TableIn(tab, CStr(key))
      case Some(t) => Some(Table(t, backing))
      case None => None
    }

    /** The keys the engine holds for this table, in its order. */
    function KeyList(): seq<CString> {
      seq(|tab.entries|, i requires 0 <= i < |tab.entries| => tab.entries[i].key)
    }

    /**
     * Table::keys: asks toml_key_in for index 0, 1, ... and stops at the
     * first index that has no key.
     */
    method Keys() returns (vec: seq<string>)
      ensures forall i :: 0 <= i < |vec| ==> KeyIn(tab, i) == Some(vec[i])
      ensures KeyIn(tab, |vec|).None?
      ensures vec == KeyList()
    {
      vec := [];
      var i := 0;
      while true
        invariant 0 <= i <= |tab.entries|
        invariant |vec| == i
        invariant forall j :: 0 <= j < i ==> vec[j] == tab.entries[j].key
        decreases |tab.entries| - i
      {
        var k := KeyIn(tab, i);
        if k.None? {
          break;
        }
        vec := vec + [k.value];
        i := i + 1;
      }
    }
  }

  /** toml::Array: an engine array handle. */
  datatype Array = Array(arr: EngArray, backing: Backing) {

    /** Array::kind: the engine's kind code, t, a, v or m. */
    function Kind(): (c: KindCode)
      ensures c == ArrayKind(arr)
    {
      ArrayKind(arr)
    }

    /** Array::type: the engine's scalar type code of a value array. */
    function Type(): (c: TypeCode)
      ensures c == ArrayType(arr)
    {
      ArrayType(arr)
    }

    /** Array::getValue: none exactly when toml_raw_at has no scalar at the index. */
    function GetValue(idx: int): (r: Option<Value>)
      ensures r.None? <==> RawAt(arr, idx).None?
      ensures r.Some? ==> r.value.raw == RawAt(arr, idx).value && r.value.backing == backing
    {
      match RawAt(arr, idx)
      case Some(raw) => Some(Value(raw, backing))
      case None => None
    }

    /** Array::getArray: none exactly when toml_array_at has no array at the index. */
    function GetArray(idx: int): (r: Option<Array>)
      ensures r.None? <==> ArrayAt(arr, idx).None?
      ensures r.Some? ==> r.value.arr == ArrayAt(arr, idx).value && r.value.backing == backing
      ensures r.Some? ==> r.value.arr < arr
    {
      match ArrayAt(arr, idx)
      case Some(a) => Some(Array(a, backing))
      case None => None
    }

    /** Array::getTable: none exactly when toml_table_at has no table at the index. */
    function GetTable(idx: int): (r: Option<Table>)
      ensures r.None? <==> TableAt(arr, idx).None?
      ensures r.Some? ==> r.value.tab == TableAt(arr, idx).value && r.value.backing == backing
      ensures r.Some? ==> r.value.tab < arr
    {
      match TableAt(arr, idx)
      case Some(t) => Some(Table(t, backing))
      case None => None
    }
  }

  /** toml::ParserResult: the root table, or the reason there is none. */
  datatype ParserResult = ParserResult(table: Option<Table>, errmsg: string)

  /** The message toml::parse reports when the engine fails. */
  function EngineError(errbuf: CString): (m: string)
    ensures m != ""
    ensures errbuf != "" ==> m == errbuf
    ensures errbuf == "" ==> m == "unknown error"
  {
    if errbuf != "" then errbuf else "unknown error"
  }

  /**
   * toml::parse. The text is duplicated up to its first NUL (strdup of
   * c_str()); `strdupFails` says whether that allocation fails, and
   * `tomlParse` is the engine's toml_parse applied to the duplicate. The
   * Backing it creates is returned as well, null when none was created.
   */
  method Parse(conf: string, strdupFails: bool, tomlParse: CString -> ParseOutcome)
    returns (ret: ParserResult, backing: Backing?)
    ensures ret.table.Some? <==> ret.errmsg == ""
    ensures strdupFails ==> ret == ParserResult(None, "out of memory") && backing == null
    ensures !strdupFails ==> backing != null && fresh(backing) && backing.ptr == CStr(conf)
    ensures !strdupFails && tomlParse(CStr(conf)).Parsed? ==>
      && backing != null
      && ret == ParserResult(Some(Table(tomlParse(CStr(conf)).root, backing)), "")
      && backing.root == Root(tomlParse(CStr(conf)).root)
    ensures !strdupFails && tomlParse(CStr(conf)).Failed? ==>
      && backing != null
      && ret == ParserResult(None, EngineError(tomlParse(CStr(conf)).errbuf))
      && backing.root == Null
  {
    ret := ParserResult(None, "");
    backing := null;
    if strdupFails {
      ret := ret.(errmsg := "out of memory");
      return;
    }
    var s := CStr(conf);
    backing := new Backing(s);
    var t := tomlParse(s);
    if t.Parsed? {
      ret := ret.(table := Some(Table(t.root, backing)));
      backing.root := Root(t.root);
    } else {
      ret := ret.(errmsg := EngineError(t.errbuf));
    }
  }

  /**
   * toml::parse and the end of its scope. When no table was made, nothing
   * else refers to the Backing, so its destructor runs as the call returns:
   * it frees the duplicated text and, `root` being null, no tree. A table,
   * when made, keeps the Backing alive.
   */
  method ParseAndRelease(conf: string, strdupFails: bool, tomlParse: CString -> ParseOutcome)
    returns (ret: ParserResult, freedText: Option<CString>, freedTree: Option<EngTable>)
    ensures ret.table.Some? <==> ret.errmsg == ""
    ensures ret.table.Some? || strdupFails ==> freedText.None? && freedTree.None?
    ensures !strdupFails && tomlParse(CStr(conf)).Failed? ==>
      && ret.errmsg == EngineError(tomlParse(CStr(conf)).errbuf)
      && freedText == Some(CStr(conf)) && freedTree.None?
  {
    var backing;
    ret, backing := Parse(conf, strdupFails, tomlParse);
    freedText, freedTree := None, None;
    if ret.table.None? && backing != null {
      var text, tree := backing.Destroy();
      freedText, freedTree := Some(text), tree;
    }
  }

  /**
   * toml::parse with the Backing constructor as written: when the engine
   * fails, the Backing dies at the end of the call with `root` never
   * assigned, so its destructor tests an indeterminate pointer.
   */
  method ParseAsWritten(conf: string, strdupFails: bool, tomlParse: CString -> ParseOutcome)
    returns (ret: ParserResult, backing: Backing?)
    ensures ret.table.Some? <==> ret.errmsg == ""
    ensures !strdupFails && tomlParse(CStr(conf)).Failed? ==>
      && backing != null && fresh(backing)
      && ret.table.None?
      && backing.root == Indeterminate
    ensures !strdupFails && tomlParse(CStr(conf)).Parsed? ==>
      && backing != null && fresh(backing)
      && backing.root == Root(tomlParse(CStr(conf)).root)
  {
    ret := ParserResult(None, "");
    backing := null;
    if strdupFails {
      ret := ret.(errmsg := "out of memory");
      return;
    }
    var s := CStr(conf);
    backing := new Backing.AsWritten(s);
    var t := tomlParse(s);
    if t.Parsed? {
      ret := ret.(table := Some(Table(t.root, backing)));
      backing.root := Root(t.root);
    } else {
      ret := ret.(errmsg := EngineError(t.errbuf));
    }
  }
}
