/**
 The data the tools read, as `json.load` hands it to Python: objects are
 ordered key/value sequences (a Python dict iterates in insertion order), and
 the two ways such data turns into text — `str(x)` and the `repr` that
 `str` of a dict or list uses for its elements. Also the two exceptions the
 lead lookup can raise.
 */
module PyValues {
  /** A JSON value. Every non-string JSON value (number, boolean, null, array,
      object) has `str(v) == repr(v)`, so it is carried by that one text. */
  datatype Value = String(s: string) | Other(text: string)

  /** A JSON object: its entries in load order. */
  type Object = seq<(string, Value)>

  /** The exceptions a lookup of `lead["name"].lower()` can raise. */
  datatype Fault = KeyError(key: string) | AttributeError(attr: string)

  /** A tool reply, or the exception that escaped the tool. */
  datatype Result<T> = Ok(value: T) | Err(fault: Fault)

  datatype Option<T> = None | Some(value: T)

  /** The subscript `o[key]`: the value of the first entry with that key, or
      `None` where Python raises `KeyError`. */
  function Get(o: Object, key: string): (r: Option<Value>)
    ensures r.None? <==> forall i :: 0 <= i < |o| ==> o[i].0 != key
    ensures r.Some? ==>
      exists i :: 0 <= i < |o| && o[i] == (key, r.value) && forall j :: 0 <= j < i ==> o[j].0 != key
  {
    if o == [] then None
    else if o[0].0 == key then
      assert o[0] == (key, o[0].1);
      Some(o[0].1)
    else
      var r := Get(o[1..], key);
      if r.Some? then
        var i :| 0 <= i < |o[1..]| && o[1..][i] == (key, r.value)
                 && forall j :: 0 <= j < i ==> o[1..][j].0 != key;
        assert o[i + 1] == (key, r.value);
        assert forall j :: 0 <= j < i + 1 ==> o[j].0 != key by {
          forall j | 0 <= j < i + 1
            ensures o[j].0 != key
          {
            if j > 0 {
              assert o[j] == o[1..][j - 1];
            }
          }
        }
        r
      else r
  }

  /** `str(v)`, as an f-string placeholder formats it. */
  function ToStr(v: Value): string {
    match v
    case String(s) => s
    case Other(t) => t
  }

  /** `repr` of a string, approximated: always single quotes, nothing escaped.
      Python uses double quotes when the string holds a single quote and no
      double quote; otherwise it uses single quotes and escapes any single
      quote inside. It also escapes backslashes and every non-printable
      character (`\n`, `\t`, `\r`, or a `\x`/`\u`/`\U` code). */
  function Quote(s: string): string {
    "'" + s + "'"
  }

  /** `repr(v)`, as it appears inside `str` of a dict or list. */
  function Repr(v: Value): string {
    match v
    case String(s) => Quote(s)
    case Other(t) => t
  }

  /** The text between the braces of `str(o)`: `'k': v` items joined by `, `. */
  function ObjectItems(o: Object): string {
    if o == [] then ""
    else
      var item := Quote(o[0].0) + ": " + Repr(o[0].1);
      if |o| == 1 then item else item + ", " + ObjectItems(o[1..])
  }

  /** `str(o)` for a dict. */
  function RenderObject(o: Object): (r: string)
    ensures |r| >= 2 && r[0] == '{' && r[|r| - 1] == '}'
    ensures o == [] ==> r == "{}"
  {
    "{" + ObjectItems(o) + "}"
  }

  /** The text between the brackets of `str(xs)`. */
  function ListItems(xs: seq<Object>): string {
    if xs == [] then ""
    else if |xs| == 1 then RenderObject(xs[0])
    else RenderObject(xs[0]) + ", " + ListItems(xs[1..])
  }

  /** `str(xs)` for a list of dicts. */
  function RenderList(xs: seq<Object>): (r: string)
    ensures |r| >= 2 && r[0] == '[' && r[|r| - 1] == ']'
    ensures xs == [] ==> r == "[]"
  {
    "[" + ListItems(xs) + "]"
  }
}
