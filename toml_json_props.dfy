/**
 * What the JSON projection of toml_json.cpp guarantees: how a comma-separated
 * body relates to its parts, that every key keys() lists resolves to exactly
 * one child (so the abort() in print(Table) is never reached), how the text of
 * each scalar reads back, and the fixed layout of timestamp text, including
 * the minute that toTimestamp never fills in.
 */
module TomlJsonProps {

  import opened Engine
  import opened JsonText
  import opened Tomlcpp
  import opened TomlJson

  // ---- comma-separated bodies ----

  predicate AllOk(rs: seq<Result<string>>) {
    forall i :: 0 <= i < |rs| ==> rs[i].Ok?
  }

  /** The texts of parts that all succeeded. */
  function Texts(rs: seq<Result<string>>): (xs: seq<string>)
    requires AllOk(rs)
    ensures |xs| == |rs|
  {
    seq(|rs|, i requires 0 <= i < |rs| && AllOk(rs) => rs[i].value)
  }

  /** Texts with a comma between neighbours, read from the front: the reference for Collect. */
  function Join(xs: seq<string>): string {
    if xs == [] then ""
    else if |xs| == 1 then xs[0]
    else xs[0] + "," + Join(xs[1..])
  }

  lemma {:induction false} JoinSnoc(xs: seq<string>, x: string)
    ensures Join(xs + [x]) == if xs == [] then x else Join(xs) + "," + x
    decreases |xs|
  {
    if |xs| == 1 {
      assert (xs + [x])[1..] == [x];
    } else if |xs| > 1 {
      assert (xs + [x])[1..] == xs[1..] + [x];
      JoinSnoc(xs[1..], x);
      assert xs[0] + "," + (Join(xs[1..]) + "," + x) == xs[0] + "," + Join(xs[1..]) + "," + x;
    }
  }

  /** A body whose parts all succeed is their texts joined by commas. */
  lemma {:induction false} CollectJoin(rs: seq<Result<string>>)
    requires AllOk(rs)
    ensures Collect(rs) == Ok(Join(Texts(rs)))
    decreases |rs|
  {
    if rs != [] {
      var init := rs[..|rs| - 1];
      var x := rs[|rs| - 1].value;
      assert AllOk(init) by {
        forall i | 0 <= i < |init| ensures init[i].Ok? {
          assert init[i] == rs[i];
        }
      }
      CollectJoin(init);
      assert Texts(rs) == Texts(init) + [x];
      JoinSnoc(Texts(init), x);
      if |rs| == 1 {
        assert Texts(init) == [];
        assert Collect(rs) == Ok("" + "" + x);
        assert "" + "" + x == x;
      }
    }
  }

  /** A body succeeds only when every part does. */
  lemma {:induction false} CollectOkAll(rs: seq<Result<string>>)
    requires Collect(rs).Ok?
    ensures AllOk(rs)
    decreases |rs|
  {
    if rs != [] {
      CollectOkAll(rs[..|rs| - 1]);
      assert forall i :: 0 <= i < |rs| - 1 ==> rs[i] == rs[..|rs| - 1][i];
    }
  }

  /** A body with a failing part fails as its first failing part does. */
  lemma CollectFirstErr(rs: seq<Result<string>>, k: nat)
    requires k < |rs| && rs[k].Err?
    requires forall j :: 0 <= j < k ==> rs[j].Ok?
    ensures Collect(rs) == rs[k]
  {
    var pre := rs[..k + 1];
    assert pre[..|pre| - 1] == rs[..k];
    CollectJoin(rs[..k]);
    CollectPrefixErr(rs, k + 1);
  }

  // ---- every listed key has exactly one child ----

  /** c_str() of a string without NUL is the string itself. */
  lemma {:induction false} CStrOfCString(k: CString)
    ensures CStr(k) == k
  {
    if k != [] {
      assert k[0] in k;
      CStrOfCString(k[1..]);
      assert [k[0]] + k[1..] == k;
    }
  }

  /**
   * A key with an embedded NUL is looked up by its characters before the NUL:
   * the getters pass key.c_str() to the engine.
   */
  lemma KeyCutAtNul(t: Table, key: string, i: nat)
    requires i < |key| && key[i] == '\0' && '\0' !in key[..i]
    ensures t.GetValue(key) == t.GetValue(key[..i])
    ensures t.GetArray(key) == t.GetArray(key[..i])
    ensures t.GetTable(key) == t.GetTable(key[..i])
  {
    CStrCut(key, i);
    CStrOfCString(key[..i]);
  }

  /** c_str() stops at the first NUL. */
  lemma {:induction false} CStrCut(key: string, i: nat)
    requires i < |key| && key[i] == '\0' && '\0' !in key[..i]
    ensures CStr(key) == key[..i]
  {
    if i > 0 {
      assert key[0] == key[..i][0];
      assert key[1..][i - 1] == key[i];
      assert key[1..][..i - 1] == key[..i][1..];
      CStrCut(key[1..], i - 1);
      assert [key[0]] + key[1..][..i - 1] == key[..i];
    }
  }

  /**
   * Every key keys() lists names exactly one child: the getter for the kind
   * of the first entry under that key succeeds, and the other two fail.
   */
  lemma ListedKeyResolves(t: Table, i: int)
    requires 0 <= i < |t.tab.entries|
    ensures var k := t.KeyList()[i];
      && ItemIn(t.tab, k).Some?
      && (t.GetValue(k).Some? <==> ItemIn(t.tab, k).value.Val?)
      && (t.GetArray(k).Some? <==> ItemIn(t.tab, k).value.Arr?)
      && (t.GetTable(k).Some? <==> ItemIn(t.tab, k).value.Tab?)
  {
    var k := t.KeyList()[i];
    CStrOfCString(k);
    assert t.tab.entries[i].key == k;
  }

  /** A part list none of whose parts aborts yields a body that does not abort. */
  lemma {:induction false} CollectNoAbort(rs: seq<Result<string>>)
    requires forall i :: 0 <= i < |rs| ==> rs[i] != Err(Abort)
    ensures Collect(rs) != Err(Abort)
    decreases |rs|
  {
    if rs != [] {
      CollectNoAbort(rs[..|rs| - 1]);
    }
  }

  /**
   * The abort() at the end of print(Table)'s key loop is unreachable: the
   * only way printing a table can stop is the "unknown type" exit.
   */
  lemma {:induction false} TableNeverAborts(t: Table)
    ensures TableJson(t) != Err(Abort)
    decreases t.tab, 1
  {
    var ks := t.KeyList();
    var rs := Members(t, ks);
    forall i | 0 <= i < |rs|
      ensures rs[i] != Err(Abort)
    {
      ListedKeyResolves(t, i);
      var k := ks[i];
      assert rs[i] == MemberJson(t, k);
      if t.GetValue(k).Some? {
        ValueFailsUnknown(t.GetValue(k).value);
      } else {
        match t.GetArray(k)
        case Some(a) => ArrayNeverAborts(a);
        case None => TableNeverAborts(t.GetTable(k).value);
      }
    }
    CollectNoAbort(rs);
  }

  /** A scalar's projection can fail only with the "unknown type" exit. */
  lemma ValueFailsUnknown(v: Value)
    ensures ValueJson(v).Err? ==> ValueJson(v) == Err(UnknownType)
  {
  }

  /** Nor can printing an array abort. */
  lemma {:induction false} ArrayNeverAborts(a: Array)
    ensures ArrayJson(a) != Err(Abort)
    decreases a.arr, 1
  {
    forall shape: Shape, i | 0 <= i < Run(a, shape)
      ensures Elements(a, shape)[i] != Err(Abort)
    {
      assert Has(a, shape, i);
      match shape
      case ValueShape => ValueFailsUnknown(a.GetValue(i).value);
      case ArrayShape => ArrayNeverAborts(a.GetArray(i).value);
      case TableShape => TableNeverAborts(a.GetTable(i).value);
    }
    CollectNoAbort(Elements(a, ValueShape));
    CollectNoAbort(Elements(a, ArrayShape));
    CollectNoAbort(Elements(a, TableShape));
  }

  /**
   * A table prints as `{`, its members joined by commas, `}` exactly when
   * every member prints; otherwise it fails as its first failing member.
   */
  lemma TableText(t: Table)
    ensures var rs := Members(t, t.KeyList());
      && (TableJson(t).Ok? <==> AllOk(rs))
      && (AllOk(rs) ==> TableJson(t) == Ok("{" + Join(Texts(rs)) + "}"))
  {
    var rs := Members(t, t.KeyList());
    if AllOk(rs) {
      CollectJoin(rs);
    } else if Collect(rs).Ok? {
      CollectOkAll(rs);
    }
  }

  /** Each member is the escaped key in quotes, a colon and the child's text. */
  lemma MemberText(t: Table, i: int)
    requires 0 <= i < |t.tab.entries|
    requires ChildJson(t, t.KeyList()[i]).Ok?
    ensures var k := t.KeyList()[i];
      Members(t, t.KeyList())[i] == Ok("\"" + Escape(k) + "\":" + ChildJson(t, k).value)
  {
  }

  // ---- arrays ----

  lemma {:induction false} RunFromAll(a: Array, shape: Shape, from: nat)
    requires from <= |a.arr.items|
    requires forall j :: from <= j < |a.arr.items| ==> Has(a, shape, j)
    ensures RunFrom(a, shape, from) == |a.arr.items|
    decreases |a.arr.items| - from
  {
    if from < |a.arr.items| {
      RunFromAll(a, shape, from + 1);
    }
  }

  /**
   * The element loops print every element when each has the shape the loop
   * asks for, and stop silently at the first one that has not.
   */
  lemma ElementsPrinted(a: Array, shape: Shape, k: nat)
    requires k <= |a.arr.items|
    requires forall j :: 0 <= j < k ==> Has(a, shape, j)
    requires k < |a.arr.items| ==> !Has(a, shape, k)
    ensures |Elements(a, shape)| == k
  {
    if k == |a.arr.items| {
      RunFromAll(a, shape, 0);
    }
  }

  /** An array of tables prints as a bare bracketed list of its tables. */
  lemma TableArrayText(a: Array)
    requires a.Kind() == 't'
    ensures var rs := Elements(a, TableShape);
      && (ArrayJson(a).Ok? <==> AllOk(rs))
      && (AllOk(rs) ==> ArrayJson(a) == Ok("[" + Join(Texts(rs)) + "]"))
  {
    var rs := Elements(a, TableShape);
    if AllOk(rs) {
      CollectJoin(rs);
    } else if Collect(rs).Ok? {
      CollectOkAll(rs);
    }
  }

  /** An array of values or of arrays prints wrapped in an array-typed object. */
  lemma WrappedArrayText(a: Array, shape: Shape)
    requires (a.Kind() == 'v' && shape == ValueShape) || (a.Kind() == 'a' && shape == ArrayShape)
    ensures var rs := Elements(a, shape);
      && (ArrayJson(a).Ok? <==> AllOk(rs))
      && (AllOk(rs) ==> ArrayJson(a) == Ok("{\"type\":\"array\",\"value\":[" + Join(Texts(rs)) + "]}"))
  {
    var rs := Elements(a, shape);
    if AllOk(rs) {
      CollectJoin(rs);
    } else if Collect(rs).Ok? {
      CollectOkAll(rs);
    }
  }

  /** A mixed array (kind m), the one kind the printer has no loop for, prints as an empty wrapped array. */
  lemma MixedKindEmpty(a: Array)
    requires a.Kind() == 'm'
    ensures ArrayJson(a) == Ok("{\"type\":\"array\",\"value\":[]}")
  {
    assert "{\"type\":\"array\",\"value\":[" + "" + "]}" == "{\"type\":\"array\",\"value\":[]}";
  }

  // ---- scalar text reads back ----

  const TypeOpen := "{\"type\":\""
  const ValueOpen := "\",\"value\":\""
  const Close := "\"}"

  /** The first double quote at or after `from`. */
  function QuoteFrom(s: string, from: nat): (r: Option<nat>)
    requires from <= |s|
    ensures r.Some? ==> from <= r.value < |s| && s[r.value] == '"'
    ensures r.Some? ==> forall j :: from <= j < r.value ==> s[j] != '"'
    ensures r.None? ==> forall j :: from <= j < |s| ==> s[j] != '"'
    decreases |s| - from
  {
    if from == |s| then None
    else if s[from] == '"' then Some(from)
    else QuoteFrom(s, from + 1)
  }

  /**
   * Reads a scalar's JSON text back into its tag and its value text (still
   * escaped): the tag runs to the first quote after `{"type":"`.
   */
  function SplitScalar(j: string): Option<(string, string)> {
    if |j| < |TypeOpen| || j[..|TypeOpen|] != TypeOpen then None
    else
      match QuoteFrom(j, |TypeOpen|)
      case None => None
      case Some(q) =>
        var rest := j[q..];
        if |rest| < |ValueOpen| + |Close| || rest[..|ValueOpen|] != ValueOpen
           || rest[|rest| - |Close|..] != Close
        then None
        else Some((j[|TypeOpen|..q], rest[|ValueOpen|..|rest| - |Close|]))
  }

  lemma ScalarParts(tag: string, text: string)
    ensures ScalarJson(tag, text) == TypeOpen + (tag + (ValueOpen + text + Close))
  {
    assert ScalarJson(tag, text) == TypeOpen + tag + ValueOpen + text + Close;
  }

  /** The three pieces of a + (b + c), found back by position. */
  lemma Pieces(a: string, b: string, c: string)
    ensures var s := a + (b + c);
      && s[..|a|] == a && s[|a|..|a| + |b|] == b && s[|a| + |b|..] == c
      && forall k :: |a| <= k < |a| + |b| ==> s[k] == b[k - |a|]
  {
  }

  /** QuoteFrom finds a quote with none before it. */
  lemma FirstQuote(j: string, n: nat, q: nat)
    requires n <= q < |j| && j[q] == '"'
    requires forall k :: n <= k < q ==> j[k] != '"'
    ensures QuoteFrom(j, n) == Some(q)
  {
  }

  /** The text of a scalar splits back into the tag and the text it was made of. */
  lemma ScalarSplits(tag: string, text: string)
    requires '"' !in tag
    ensures SplitScalar(ScalarJson(tag, text)) == Some((tag, text))
  {
    var rest := ValueOpen + text + Close;
    var j := TypeOpen + (tag + rest);
    ScalarParts(tag, text);
    Pieces(TypeOpen, tag, rest);
    var n := |TypeOpen|;
    var q := n + |tag|;
    assert forall k :: n <= k < q ==> j[k] != '"' by {
      forall k | n <= k < q ensures j[k] != '"' {
        assert j[k] == tag[k - n];
      }
    }
    assert j[q] == rest[0];
    FirstQuote(j, n, q);
    Pieces(ValueOpen, text, Close);
    assert rest == ValueOpen + (text + Close);
  }

  /** And only such texts split: a text that splits is the scalar text of its parts. */
  lemma SplitScalarJoins(j: string, tag: string, text: string)
    requires SplitScalar(j) == Some((tag, text))
    ensures '"' !in tag
    ensures j == ScalarJson(tag, text)
  {
    var n := |TypeOpen|;
    var q := QuoteFrom(j, n).value;
    var rest := j[q..];
    assert tag == j[n..q];
    assert forall c :: c in tag ==> c != '"';
    assert rest == rest[..|ValueOpen|] + text + rest[|rest| - |Close|..];
    assert j == j[..n] + j[n..q] + rest;
    ScalarParts(tag, text);
  }

  /** A scalar the engine reads as a string is tagged string, and its text unescapes to that string. */
  lemma StringReadsBack(v: Value)
    requires Rtos(v.raw).Some?
    ensures ValueJson(v).Ok?
    ensures var p := SplitScalar(ValueJson(v).value);
      p.Some? && p.value.0 == "string" && Unescape(p.value.1) == Rtos(v.raw)
  {
    ScalarSplits("string", Escape(Rtos(v.raw).value));
    UnescapeEscape(Rtos(v.raw).value);
  }

  /** Failing that, one read as an integer is tagged integer, and its text parses to the integer. */
  lemma IntegerReadsBack(v: Value)
    requires Rtos(v.raw).None? && Rtoi(v.raw).Some?
    ensures ValueJson(v).Ok?
    ensures var p := SplitScalar(ValueJson(v).value);
      p.Some? && p.value.0 == "integer" && ParseInt(p.value.1) == Some(Rtoi(v.raw).value)
  {
    ScalarSplits("integer", IntText(Rtoi(v.raw).value));
    IntTextRoundTrip(Rtoi(v.raw).value);
  }

  /** Failing both, one read as a bool is tagged bool, its text 1 for any nonzero engine value and 0 otherwise. */
  lemma BoolReadsBack(v: Value)
    requires Rtos(v.raw).None? && Rtoi(v.raw).None? && Rtob(v.raw).Some?
    ensures ValueJson(v).Ok?
    ensures var p := SplitScalar(ValueJson(v).value);
      p.Some? && p.value.0 == "bool" && p.value.1 == (if Rtob(v.raw).value != 0 then "1" else "0")
  {
    ScalarSplits("bool", if Rtob(v.raw).value != 0 then "1" else "0");
  }

  /** Failing those, one read as a double is tagged float, with the stream's rendering as its text. */
  lemma FloatReadsBack(v: Value)
    requires Rtos(v.raw).None? && Rtoi(v.raw).None? && Rtob(v.raw).None? && Rtod(v.raw).Some?
    ensures ValueJson(v).Ok?
    ensures var p := SplitScalar(ValueJson(v).value);
      p.Some? && p.value.0 == "float" && p.value.1 == Rtod(v.raw).value.streamed
  {
    ScalarSplits("float", Rtod(v.raw).value.streamed);
  }

  /**
   * Only a timestamp remains: it prints when the engine gives a year or an
   * hour; anything else is the "unknown type" exit.
   */
  lemma TimestampPrints(v: Value)
    requires Rtos(v.raw).None? && Rtoi(v.raw).None? && Rtob(v.raw).None? && Rtod(v.raw).None?
    ensures ValueJson(v).Ok? <==>
      Rtots(v.raw).Some? && (Rtots(v.raw).value.year.Some? || Rtots(v.raw).value.hour.Some?)
    ensures ValueJson(v).Err? ==> ValueJson(v) == Err(UnknownType)
  {
    var ts := v.ToTimestamp();
    assert ValueJson(v) == if !ts.0 then Err(UnknownType) else TimestampJson(ts.1);
  }

  /**
   * A printed timestamp is a datetime when the engine gives both a year and
   * an hour, a date with only the year, a time with only the hour, and its
   * text is the matching layout of toTimestamp's fields.
   */
  lemma TimestampTag(v: Value)
    requires Rtos(v.raw).None? && Rtoi(v.raw).None? && Rtob(v.raw).None? && Rtod(v.raw).None?
    requires Rtots(v.raw).Some? && (Rtots(v.raw).value.year.Some? || Rtots(v.raw).value.hour.Some?)
    ensures ValueJson(v).Ok?
    ensures var ts := Rtots(v.raw).value;
      var p := SplitScalar(ValueJson(v).value);
      && p.Some?
      && (p.value.0 == "datetime" <==> ts.year.Some? && ts.hour.Some?)
      && (p.value.0 == "date" <==> ts.year.Some? && ts.hour.None?)
      && (p.value.0 == "time" <==> ts.year.None? && ts.hour.Some?)
      && (p.value.0 == "datetime" ==> p.value.1 == DatetimeText(v.ToTimestamp().1))
      && (p.value.0 == "date" ==> p.value.1 == DateText(v.ToTimestamp().1))
      && (p.value.0 == "time" ==> p.value.1 == ClockText(v.ToTimestamp().1))
  {
    var ts := v.ToTimestamp().1;
    var e := Rtots(v.raw).value;
    assert ValueJson(v) == TimestampJson(ts);
    assert ts.year != -1 <==> e.year.Some?;
    assert ts.hour != -1 <==> e.hour.Some?;
    TimestampJsonSplits(ts);
  }

  /** The timestamp branch's text splits into the tag Classify picks and the matching layout. */
  lemma TimestampJsonSplits(ts: Timestamp)
    requires Printable(ts) && (ts.year != -1 || ts.hour != -1)
    ensures TimestampJson(ts).Ok?
    ensures var p := SplitScalar(TimestampJson(ts).value);
      && p.Some?
      && (p.value.0 == "datetime" <==> ts.year != -1 && ts.hour != -1)
      && (p.value.0 == "date" <==> ts.year != -1 && ts.hour == -1)
      && (p.value.0 == "time" <==> ts.year == -1 && ts.hour != -1)
      && (p.value.0 == "datetime" ==> p.value.1 == DatetimeText(ts))
      && (p.value.0 == "date" ==> p.value.1 == DateText(ts))
      && (p.value.0 == "time" ==> p.value.1 == ClockText(ts))
  {
    match Classify(ts)
    case DateTime => ScalarSplits("datetime", DatetimeText(ts));
    case Date => ScalarSplits("date", DateText(ts));
    case Time => ScalarSplits("time", ClockText(ts));
  }

  // ---- timestamp text layout ----

  /** z2 of a two-digit field or of the -1 sentinel: always two characters. */
  lemma Z2Field(i: int)
    requires -1 <= i <= 99
    ensures |Z2(i)| == 2
    ensures 0 <= i ==> AllDigits(Z2(i)) && DigitsValue(Z2(i)) == i
    ensures i == -1 ==> Z2(i) == "-1"
  {
    if i == -1 {
      var r := Z2(i);
      assert DigitsValue(r[1..]) == DigitValue(r[1]);
    }
  }

  /** z4 of a year or of the -1 sentinel: always four characters. */
  lemma Z4Field(i: int)
    requires -1 <= i <= 9999
    ensures |Z4(i)| == 4
    ensures 0 <= i ==> AllDigits(Z4(i)) && DigitsValue(Z4(i)) == i
  {
  }

  /** Where the pieces of `y-m-d` sit when the year has four characters and the others two. */
  lemma DatePieces(y: string, m: string, d: string)
    requires |y| == 4 && |m| == 2 && |d| == 2
    ensures var s := y + "-" + m + "-" + d;
      |s| == 10 && s[..4] == y && s[4] == '-' && s[5..7] == m && s[7] == '-' && s[8..10] == d
  {
  }

  /** Where the pieces of `h:m:s` and a tail sit when the three fields have two characters. */
  lemma ClockPieces(h: string, m: string, sec: string, tail: string)
    requires |h| == 2 && |m| == 2 && |sec| == 2
    ensures var s := h + ":" + m + ":" + sec + tail;
      && |s| == 8 + |tail| && s[..2] == h && s[2] == ':' && s[3..5] == m && s[5] == ':'
      && s[6..8] == sec && s[8..] == tail
  {
  }

  /** YYYY-MM-DD: ten characters, dashes at 4 and 7, each present field in its digits. */
  lemma DateLayout(ts: Timestamp)
    requires Printable(ts)
    ensures var d := DateText(ts);
      && |d| == 10 && d[4] == '-' && d[7] == '-'
      && (0 <= ts.year ==> AllDigits(d[..4]) && DigitsValue(d[..4]) == ts.year)
      && (0 <= ts.month ==> AllDigits(d[5..7]) && DigitsValue(d[5..7]) == ts.month)
      && (0 <= ts.day ==> AllDigits(d[8..10]) && DigitsValue(d[8..10]) == ts.day)
  {
    Z4Field(ts.year);
    Z2Field(ts.month);
    Z2Field(ts.day);
    var y, mm, dd := Z4(ts.year), Z2(ts.month), Z2(ts.day);
    DatePieces(y, mm, dd);
    assert DateText(ts) == y + "-" + mm + "-" + dd;
  }

  /**
   * HH:mm:ss then the milliseconds: colons at 2 and 5, hour and second in
   * their digits, and the minute, which toTimestamp leaves at -1, as "-1".
   */
  lemma ClockLayout(ts: Timestamp)
    requires Printable(ts)
    ensures var c := ClockText(ts);
      && |c| == 8 + |Millis(ts)| && c[2] == ':' && c[5] == ':' && c[8..] == Millis(ts)
      && (0 <= ts.hour ==> AllDigits(c[..2]) && DigitsValue(c[..2]) == ts.hour)
      && (0 <= ts.minute ==> AllDigits(c[3..5]) && DigitsValue(c[3..5]) == ts.minute)
      && (ts.minute == -1 ==> c[3..5] == "-1")
      && (0 <= ts.second ==> AllDigits(c[6..8]) && DigitsValue(c[6..8]) == ts.second)
  {
    Z2Field(ts.hour);
    Z2Field(ts.minute);
    Z2Field(ts.second);
    var h, m, sec := Z2(ts.hour), Z2(ts.minute), Z2(ts.second);
    ClockPieces(h, m, sec, Millis(ts));
    assert ClockText(ts) == h + ":" + m + ":" + sec + Millis(ts);
  }

  /**
   * The milliseconds are shown exactly when the engine gave them: a dot and
   * the number's decimal text, which reads back to it.
   */
  lemma MillisShown(ts: Timestamp)
    ensures Millis(ts) == "" <==> ts.millisec == -1
    ensures ts.millisec != -1 ==>
      Millis(ts)[0] == '.' && ParseInt(Millis(ts)[1..]) == Some(ts.millisec)
  {
    if ts.millisec != -1 {
      IntTextRoundTrip(ts.millisec);
      assert Millis(ts)[1..] == IntText(ts.millisec);
    }
  }

  /** Where the date, the T and the clock sit in a datetime's text. */
  lemma DatetimePieces(date: string, clock: string, z: string)
    requires |date| == 10 && |clock| >= 8
    ensures var s := date + "T" + clock + z;
      && |s| >= 19 && s[..10] == date && s[10] == 'T' && s[11..19] == clock[..8]
      && s[14..16] == clock[3..5] && s[19..] == clock[8..] + z
  {
    var s := date + "T" + clock + z;
    assert s == date + ("T" + (clock + z));
    assert s[11..19] == (clock + z)[..8];
    assert s[14..16] == (clock + z)[3..5];
    assert s[19..] == (clock + z)[8..] == clock[8..] + z;
  }

  /**
   * In a datetime's text the clock follows the date and a T, the minutes at
   * 14 and 15; after the seconds come the milliseconds and the zone verbatim.
   */
  lemma DatetimeLayout(ts: Timestamp)
    requires Printable(ts)
    ensures var d := DatetimeText(ts);
      && |d| >= 19 && d[..10] == DateText(ts) && d[10] == 'T' && d[11..19] == ClockText(ts)[..8]
      && d[14..16] == ClockText(ts)[3..5] && d[19..] == Millis(ts) + ts.z
  {
    DateLayout(ts);
    ClockLayout(ts);
    DatetimePieces(DateText(ts), ClockText(ts), ts.z);
  }

  /**
   * Every datetime and time print(Value) writes shows "-1" where the minutes
   * belong: toTimestamp never copies the engine's minute.
   */
  lemma MinuteShownAsMinusOne(v: Value)
    ensures ValueJson(v).Ok? ==>
      var p := SplitScalar(ValueJson(v).value);
      && p.Some?
      && (p.value.0 == "datetime" ==> |p.value.1| >= 19 && p.value.1[10] == 'T' && p.value.1[14..16] == "-1")
      && (p.value.0 == "time" ==> |p.value.1| >= 8 && p.value.1[3..5] == "-1")
  {
    if Rtos(v.raw).Some? {
      StringReadsBack(v);
    } else if Rtoi(v.raw).Some? {
      IntegerReadsBack(v);
    } else if Rtob(v.raw).Some? {
      BoolReadsBack(v);
    } else if Rtod(v.raw).Some? {
      FloatReadsBack(v);
    } else {
      TimestampMinute(v);
    }
  }

  lemma TimestampMinute(v: Value)
    requires Rtos(v.raw).None? && Rtoi(v.raw).None? && Rtob(v.raw).None? && Rtod(v.raw).None?
    ensures ValueJson(v).Ok? ==>
      var p := SplitScalar(ValueJson(v).value);
      && p.Some?
      && (p.value.0 == "datetime" ==> |p.value.1| >= 19 && p.value.1[10] == 'T' && p.value.1[14..16] == "-1")
      && (p.value.0 == "time" ==> |p.value.1| >= 8 && p.value.1[3..5] == "-1")
  {
    TimestampPrints(v);
    if ValueJson(v).Ok? {
      TimestampTag(v);
      var ts := v.ToTimestamp().1;
      ClockLayout(ts);
      DatetimeLayout(ts);
    }
  }
}
