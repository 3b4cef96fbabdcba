# tomlcpp: the accessor layer and the TOML-to-JSON printer

This project models two parts of tomlcpp, a C++ wrapper around the C TOML parser toml.h:

- **The accessor layer** (`tomlcpp.cpp`):
  - `toml::parse` and the `Backing` record that owns the duplicated text and the engine's tree;
  - the `Value` coercions: `toString`, `toBool`, `toInt`, `toDouble`, `toTimestamp`;
  - the `Table` lookups by key, and `keys()`;
  - the `Array` kind and type codes, and the lookups by index.
- **The printer** (`toml_json.cpp`):
  - it writes a parsed document as type-tagged JSON;
  - every scalar becomes `{"type":"<tag>","value":"<text>"}`;
  - a table becomes an object keyed by its escaped keys;
  - an array of tables becomes a bare list;
  - any other array becomes `{"type":"array","value":[...]}`.

The engine itself (toml.h) is not part of this model. Module `Engine` (`engine.dfy`) represents it by its interface:

- a tree of tables, arrays and raw tokens;
- key and index lookups;
- the results of its five coercion primitives, as given partial functions.

`toml_parse` is passed to `Parse` as a function parameter, and so is the failure of `strdup`.

## Modules

- `engine.dfy`, module `Engine`: the engine's interface, as described above.
- `json_text.dfy`, module `JsonText`:
  - string escaping, with its inverse `Unescape`;
  - the decimal text of integers, with its inverse `ParseInt`;
  - `%04d` and `%02d` (`Z4`, `Z2`).
- `tomlcpp.dfy`, module `Tomlcpp`:
  - `Backing` is a class, because `parse` assigns its `root` after constructing it;
  - `Value`, `Table` and `Array` are datatypes whose members are the `const` methods;
  - `Table.Keys` is the key loop;
  - `Parse` is `toml::parse`.
- `toml_json.dfy`, module `TomlJson`:
  - the JSON text of each node is given as functions: `ValueJson`, `TableJson`, `ArrayJson`;
  - the streaming code is given as methods that append to an output accumulator: `PrintEscapeString`, `PrintValue`, `PrintTable`, `PrintArray`, `PrintElements`;
  - each method is proved to append exactly its function's text;
  - `exit(1)` after "unknown type" is `Err(UnknownType)`, and `abort()` is `Err(Abort)`.
- `toml_json_props.dfy`, module `TomlJsonProps`: properties of the projection.
  - Bodies are the parts joined by commas, or the first failure.
  - `abort()` is unreachable.
  - Each scalar's text reads back to the engine's value.
  - The layout of timestamp text, including the minute (see below).

The code is followed where the library's own description differs from it:

- `toTimestamp` never copies the engine's minute (`tomlcpp.cpp:63-69` assigns every field but `minute`). The minute stays at its initial -1, and `z2(-1)` is `-1`. So every datetime prints as `YYYY-MM-DDTHH:-1:ss...` and every time as `HH:-1:ss...`. `TomlJsonProps.MinuteShownAsMinusOne` states this.
- `tomlcpp.hpp` declares a different version of the interface: `toml::Result`, with no `Value` class. The model follows `tomlcpp.cpp`, which uses `ParserResult`, `Value`, and pairs or optionals as return values.

## Model

| member | source | states |
|---|---|---|
| `JsonText.EscapeChar` | toml_json.cpp:49-58 | each of backspace, tab, newline, form feed, carriage return, quote and backslash becomes a backslash and its letter; every other character is itself |
| `JsonText.EscapeAppend` | toml_json.cpp:48-59 | escaping works character by character: escaping a concatenation concatenates the escapes |
| `JsonText.EscapePlain` | toml_json.cpp:57 | a string with none of the seven special characters is printed unchanged |
| `JsonText.UnescapeEscape` | toml_json.cpp:46-60 | reading back the escaped text recovers the original string |
| `JsonText.EscapeUnescape` | toml_json.cpp:46-60 | every text that reads back to a string is exactly that string's escaped form, so the escaping is a bijection onto well-formed escaped texts |
| `JsonText.IntTextRoundTrip` | toml_json.cpp:94 | the stream text of an integer parses back to the integer |
| `JsonText.ZeroPad` | toml_json.cpp:66 | `%0<w>d`: a non-negative number as its digits padded with zeros to the width and never cut; a negative one as a minus sign and the padded digits of its magnitude |
| `JsonText.Z4` | toml_json.cpp:63-68 | a year in 0..9999 becomes exactly four digits denoting it; -1 to -999 become four characters led by a minus sign |
| `JsonText.Z2` | toml_json.cpp:70-75 | a field in 0..99 becomes exactly two digits denoting it; -1 to -9 become two characters led by a minus sign |
| `Tomlcpp.Backing.AsWritten` | tomlcpp.cpp:14-17 | the constructor as written sets the text pointer and leaves `root` indeterminate |
| `Tomlcpp.Backing.constructor` | tomlcpp.cpp:14-17 | the corrected constructor sets the text pointer and a null `root` |
| `Tomlcpp.Backing.Destroy` | tomlcpp.cpp:18-21 | the destructor frees the text always, and the tree exactly when `root` is set |
| `Tomlcpp.Value.ToString` | tomlcpp.cpp:24-33 | succeeds exactly when the engine's string conversion does, with its string; on failure the pair is (false, "") |
| `Tomlcpp.Value.ToBool` | tomlcpp.cpp:35-40 | succeeds exactly when the engine's bool conversion does; any nonzero engine value is true |
| `Tomlcpp.Value.ToInt` | tomlcpp.cpp:42-47 | succeeds exactly when the engine's integer conversion does, with its 64-bit value |
| `Tomlcpp.Value.ToDouble` | tomlcpp.cpp:49-54 | succeeds exactly when the engine's double conversion does, with its value |
| `Tomlcpp.Value.ToTimestamp` | tomlcpp.cpp:57-72 | succeeds exactly when the engine's timestamp conversion does. Every field the engine gives is copied, each absent one is -1 and an absent zone is "". `minute` is -1 always. Every field is in the range z4 and z2 print |
| `Tomlcpp.Table.GetValue` | tomlcpp.cpp:75-83 | none exactly when the engine has no scalar under the key's C string; otherwise that token, sharing the table's Backing |
| `Tomlcpp.Table.GetArray` | tomlcpp.cpp:86-94 | none exactly when the engine has no array under the key's C string; otherwise that array, sharing the Backing and strictly inside the table |
| `Tomlcpp.Table.GetTable` | tomlcpp.cpp:96-104 | none exactly when the engine has no table under the key's C string; otherwise that table, sharing the Backing and strictly inside the table |
| `Tomlcpp.Table.Keys` | tomlcpp.cpp:106-115 | the keys the engine reports at 0, 1, 2, ... in order, stopping at the first index without one; that is every key of the table |
| `Tomlcpp.Array.Kind` | tomlcpp.cpp:118-121 | the engine's kind code of the array, one of the documented codes t (tables), a (arrays), v (values), m (mixed), as carried by the type `Engine.KindCode` |
| `Tomlcpp.Array.Type` | tomlcpp.cpp:123-126 | the engine's value-type code of the array, one of the documented codes i, d, b, s, t, D, T, m or NUL (unknown), as carried by the type `Engine.TypeCode` |
| `Tomlcpp.Array.GetValue` | tomlcpp.cpp:128-136 | none exactly when the engine has no scalar at the index; otherwise that token, sharing the array's Backing |
| `Tomlcpp.Array.GetArray` | tomlcpp.cpp:138-146 | none exactly when the engine has no array at the index; otherwise that array, sharing the Backing and strictly inside the array |
| `Tomlcpp.Array.GetTable` | tomlcpp.cpp:148-156 | none exactly when the engine has no table at the index; otherwise that table, sharing the Backing and strictly inside the array |
| `Tomlcpp.EngineError` | tomlcpp.cpp:175 | the failure message is never empty: the engine's message when it wrote one, "unknown error" otherwise |
| `Tomlcpp.Parse` | tomlcpp.cpp:159-178 | a table exactly when the message is empty. The Backing is built with the null-initialising constructor (the constructor as written leaves `root` indeterminate; see Findings). A failed `strdup` gives "out of memory" and no Backing. Otherwise a fresh Backing holds the text up to its first NUL. On success the table is the engine's root with the root recorded in the Backing. On failure there is the engine's message (`EngineError`), and `root` is null |
| `Tomlcpp.ParseAndRelease` | tomlcpp.cpp:159-178 | when the parse fails after `strdup`, the Backing dies as the call returns: the text is freed and no tree is; a table keeps the Backing alive |
| `Tomlcpp.ParseAsWritten` | tomlcpp.cpp:159-178 | with the constructor as written, a failed parse leaves the dying Backing's `root` indeterminate |
| `TomlJson.Classify` | toml_json.cpp:119-151 | year and hour present is a datetime, only the year a date, only the hour a time, neither unprintable; each in both directions |
| `TomlJson.Run` | toml_json.cpp:201-203 | an element loop's length is the first index whose getter fails |
| `TomlJson.PrintEscapeString` | toml_json.cpp:46-60 | appends exactly `Escape(str)`, the specification function that `UnescapeEscape` and `EscapeUnescape` invert |
| `TomlJson.PrintEscapedChar` | toml_json.cpp:49-58 | the switch appends exactly `EscapeChar(ch)` |
| `TomlJson.PrintValue` | toml_json.cpp:78-157 | appends exactly `ValueJson(v)` (the tag and text chosen by the probes in source order, `TimestampJson` for timestamps), or ends in its "unknown type" exit |
| `TomlJson.PrintTable` | toml_json.cpp:161-194 | appends exactly `TableJson(t)`: `{`, the `Collect` of the `MemberJson` of every listed key, and `}`, or ends in the first exit a member reaches |
| `TomlJson.PrintMember` | toml_json.cpp:166-191 | one key's pass appends the separator and `MemberJson(t, key)`: the quoted escaped key, a colon and `ChildJson(t, key)`, the child's text, or ends in the child's exit or, with no child, abort() |
| `TomlJson.PrintArray` | toml_json.cpp:197-236 | appends exactly `ArrayJson(a)`: the `Collect` of the array's `Elements`, bare for kind t and wrapped otherwise, or ends in the first exit an element reaches |
| `TomlJson.PrintElements` | toml_json.cpp:199-230 | the element loop appends `Collect(Elements(a, shape))`: the comma-separated `ElementJson` texts of the elements before the first index whose getter fails |
| `TomlJson.PrintElement` | toml_json.cpp:215-220 | one element pass finds an element exactly when the shape's getter succeeds, and then appends the comma (none at index 0) and `ElementJson(a, shape, i)` |
| `TomlJsonProps.CollectJoin` | toml_json.cpp:163-169 | when every part prints, the body is their texts with a comma between neighbours |
| `TomlJsonProps.CollectOkAll` | toml_json.cpp:163-192 | a body prints only if every part does |
| `TomlJsonProps.CollectFirstErr` | toml_json.cpp:163-192 | a body with a failing part ends in the exit of its first failing part |
| `TomlJsonProps.CStrOfCString` | tomlcpp.cpp:110-112 | a key the engine reports passes through c_str() unchanged |
| `TomlJsonProps.CStrCut` | tomlcpp.cpp:77 | c_str() shows the characters before the first NUL |
| `TomlJsonProps.KeyCutAtNul` | tomlcpp.cpp:75-104 | a key with an embedded NUL is looked up as its characters before the NUL, by all three getters |
| `TomlJsonProps.ListedKeyResolves` | toml_json.cpp:165-191 | every key keys() lists names exactly one child: the getter for that child's kind succeeds and the other two fail |
| `TomlJsonProps.TableNeverAborts` | toml_json.cpp:185-191 | the abort() after the three getters is unreachable for any table |
| `TomlJsonProps.ArrayNeverAborts` | toml_json.cpp:197-236 | no array's printing reaches abort() either |
| `TomlJsonProps.ValueFailsUnknown` | toml_json.cpp:155-156 | a scalar can fail only with the "unknown type" exit |
| `TomlJsonProps.TableText` | toml_json.cpp:161-194 | a table prints exactly when all members do, as `{`, the members joined by commas, and `}` |
| `TomlJsonProps.MemberText` | toml_json.cpp:169-171 | each member is the escaped key in quotes, a colon and the child's text |
| `TomlJsonProps.ElementsPrinted` | toml_json.cpp:201-229 | an array whose elements all have the loop's shape prints all of them; one with a gap at k prints exactly the first k |
| `TomlJsonProps.TableArrayText` | toml_json.cpp:199-208 | an array of tables prints exactly when all tables do, as `[`, the tables joined by commas, and `]` |
| `TomlJsonProps.WrappedArrayText` | toml_json.cpp:211-235 | a value or array array prints exactly when all elements do, as the elements joined by commas inside `{"type":"array","value":[` and `]}` |
| `TomlJsonProps.MixedKindEmpty` | toml_json.cpp:232-235 | a mixed array (kind m) prints as the empty wrapped array `{"type":"array","value":[]}` |
| `TomlJsonProps.ScalarSplits` | toml_json.cpp:83-85 | a scalar's JSON text splits back into its tag and its value text |
| `TomlJsonProps.SplitScalarJoins` | toml_json.cpp:83-85 | only scalar JSON texts split: a text that splits is the scalar text of its parts, with a quote-free tag |
| `TomlJsonProps.StringReadsBack` | toml_json.cpp:80-88 | a token the engine reads as a string prints tagged string, and the printed text unescapes to that string |
| `TomlJsonProps.IntegerReadsBack` | toml_json.cpp:90-98 | otherwise a token read as an integer prints tagged integer, and the printed text parses to that integer |
| `TomlJsonProps.BoolReadsBack` | toml_json.cpp:100-106 | otherwise a token read as a bool prints tagged bool, with text 1 for any nonzero engine value and 0 otherwise |
| `TomlJsonProps.FloatReadsBack` | toml_json.cpp:108-114 | otherwise a token read as a double prints tagged float, with the stream's rendering as its text |
| `TomlJsonProps.TimestampPrints` | toml_json.cpp:116-156 | otherwise it prints only as a timestamp with a year or an hour; anything else is the "unknown type" exit |
| `TomlJsonProps.TimestampTag` | toml_json.cpp:116-152 | a printed timestamp is a datetime when the engine gives both a year and an hour, a date with only the year, a time with only the hour; its text is the matching layout of toTimestamp's fields |
| `TomlJsonProps.TimestampJsonSplits` | toml_json.cpp:119-151 | the timestamp branch's text splits into the tag the -1 sentinels select and the date, clock or datetime layout |
| `TomlJsonProps.Z4Field` | toml_json.cpp:63-68 | a year or the -1 sentinel prints in four characters; a year's digits denote it |
| `TomlJsonProps.Z2Field` | toml_json.cpp:70-75 | a two-digit field or the -1 sentinel prints in two characters, the sentinel as `-1` |
| `TomlJsonProps.DateLayout` | toml_json.cpp:121-123 | date text is ten characters with dashes at 4 and 7; each present field reads back from its digits |
| `TomlJsonProps.ClockLayout` | toml_json.cpp:124-128 | clock text has colons at 2 and 5 and the milliseconds after position 8. Hour and second read back from their digits. The unset minute shows as `-1` |
| `TomlJsonProps.DatetimeLayout` | toml_json.cpp:119-131 | datetime text is the date, a `T`, the clock's first eight characters, then the milliseconds (`Millis`) and the zone verbatim from position 19; the minutes sit at 14 and 15 |
| `TomlJsonProps.MillisShown` | toml_json.cpp:125-128 | the milliseconds are shown exactly when the engine gave them (not -1): a dot and decimal digits that read back to the value |
| `TomlJsonProps.MinuteShownAsMinusOne` | toml_json.cpp:119-151 | every datetime printed has `-1` at positions 14 and 15, and every time has it at 3 and 4 |

## Left out

- The engine (toml.h) is not part of this model: lexing, grammar, string unescaping, and number and date scanning. Its results are given: per raw token, what each conversion yields, and a tree whose lookups return the first entry under a key.
- Array lookups succeed by the element's own shape. How the engine's kind code relates to the element shapes is the engine's business and is not constrained.
- `Tomlcpp.Array.Kind` and `Tomlcpp.Array.Type` take the code sets documented in tomlcpp.hpp:86-93 as the engine's contract. toml.c is not part of this model, so the model does not show the engine keeps to them.
- Strings are sequences of Dafny characters, not the bytes `print_escape_string` walks. The seven escaped characters are all ASCII and every other byte passes through unchanged, so escaping per character gives the same text for UTF-8 input.
- `Engine.Scanned` assumes the engine's timestamp fields lie in these ranges, since its scanner is not part of this model: a year of at most four digits, two-digit month, day, hour, minute and second, and a non-negative millisecond that fits an `int`. `Tomlcpp.Value.ToTimestamp`'s range ensures and the buffer bounds of `Z4`/`Z2` rest on this assumption.
- `Table::getString`, `getBool`, `getInt`, `getDouble` and `getTimestamp`, `Array::size`, the vector extractors and `parseFile` are declared in tomlcpp.hpp but not defined in tomlcpp.cpp. They are not part of this model.
- `main`, `cat`, reading standard input or a file, and toml_sample.cpp are input and output around the core and are left out.
- Floating-point formatting: a double carries the characters the stream prints for it.
- Output written before `exit(1)` or `abort()` is not part of an error outcome.
- Reference counting of `shared_ptr` and `unique_ptr` is left out. The Backing's end of life is modelled only for `parse`'s own failure path (`Tomlcpp.ParseAndRelease`).
- If the engine fails without writing the error buffer, the buffer's contents are indeterminate. The model takes the engine to write a message, possibly empty, that fits the 200-byte buffer.
- The `int` loop counters of keys() and of the array loops are unbounded here. Tables and arrays past 2^31 entries are not modelled.
- `JsonText.Z4`: requires the value to fit the 10-byte buffer. `JsonText.Z2` requires the same. A wider `int` would overflow `buf` in the source, which is undefined behaviour. The engine's timestamps never reach that width.

## Findings

| source | as written | input that shows it | evidently intended | confidence | as-written member | corrected member |
|---|---|---|---|---|---|---|
| tomlcpp.cpp:17 | `Backing(char* p) : ptr(p) {}` leaves `root` uninitialised. `parse` assigns it only on success, so on failure the destructor at line 20 tests an indeterminate pointer and may call `toml_free` on garbage | `toml::parse("a = ")`: the engine rejects the missing value, and the Backing dies at the end of `parse` | `root` starts null, so a failed parse frees only the text | not executed | `Tomlcpp.ParseAsWritten` | `Tomlcpp.ParseAndRelease` |
