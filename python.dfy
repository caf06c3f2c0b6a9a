/** The Python values both scripts handle (what `json.loads` produces, plus
    the datetime values of table rows), the exceptions they raise, and the
    meaning of the three Python operations the scripts apply to them:
    `d[key]`, `key in d` and `for x in d`. */
module Python {
  import opened Wrappers


  /** A dict is kept as its (key, value) pairs in iteration order. */
  datatype Value =
    | VNone
    | VBool(b: bool)
    | VInt(i: int)
    | VLong(l: int)
    | VFloat(literal: string)
    | VStr(s: string)
    | VUnicode(u: string)
    | VDateTime(text: string)
    | VList(items: seq<Value>)
    | VDict(entries: seq<(string, Value)>)

  /** What `type(v)` answers. */
  datatype PyType =
    NoneType | BoolType | IntType | LongType | FloatType | StrType | UnicodeType
    | DateTimeType | ListType | DictType

  function TypeOf(v: Value): PyType {
    match v
    case VNone => NoneType
    case VBool(_) => BoolType
    case VInt(_) => IntType
    case VLong(_) => LongType
    case VFloat(_) => FloatType
    case VStr(_) => StrType
    case VUnicode(_) => UnicodeType
    case VDateTime(_) => DateTimeType
    case VList(_) => ListType
    case VDict(_) => DictType
  }

  /** The exceptions the two scripts raise or let escape. */
  datatype PyError =
    | WebHDFSError(reason: string)
    | JUError(reason: string)
    | KeyError(key: string)
    | TypeError(message: string)
    | ValueError(message: string)
    | IndexError(message: string)
    | IOError(path: string)
    | AttributeError(name: string)

  /** The text of a str or unicode value. */
  function StringOf(v: Value): Option<string> {
    match v
    case VStr(s) => Some(s)
    case VUnicode(u) => Some(u)
    case _ => None
  }

  /** A float literal is zero exactly when its mantissa holds no digit
      other than `0`. */
  predicate NonZeroMantissa(literal: string) {
    exists i :: 0 <= i < |literal| && '1' <= literal[i] <= '9'
                && forall j :: 0 <= j < i ==> literal[j] != 'e' && literal[j] != 'E'
  }

  /** What `if v:` decides: None, False, zero and empty containers are false. */
  predicate Truthy(v: Value) {
    match v
    case VNone => false
    case VBool(b) => b
    case VInt(i) => i != 0
    case VLong(l) => l != 0
    case VFloat(literal) => NonZeroMantissa(literal)
    case VStr(s) => |s| > 0
    case VUnicode(u) => |u| > 0
    case VDateTime(_) => true
    case VList(items) => |items| > 0
    case VDict(entries) => |entries| > 0
  }

  function Keys(entries: seq<(string, Value)>): (ks: seq<string>)
    ensures |ks| == |entries|
    ensures forall i :: 0 <= i < |entries| ==> ks[i] == entries[i].0
  {
    if |entries| == 0 then [] else [entries[0].0] + Keys(entries[1..])
  }

  /** The value stored under `key`, if any. */
  function Find(entries: seq<(string, Value)>, key: string): (r: Option<Value>)
    ensures r.None? <==> key !in Keys(entries)
  {
    if |entries| == 0 then None
    else if entries[0].0 == key then Some(entries[0].1)
    else Find(entries[1..], key)
  }

  /** `d[key] = val`: replaces the value of an existing key, or adds the key at the end. */
  function Put(entries: seq<(string, Value)>, key: string, val: Value): (r: seq<(string, Value)>)
    ensures key in Keys(entries) ==> Keys(r) == Keys(entries)
    ensures key !in Keys(entries) ==> Keys(r) == Keys(entries) + [key]
  {
    if |entries| == 0 then [(key, val)]
    else if entries[0].0 == key then [(key, val)] + entries[1..]
    else [entries[0]] + Put(entries[1..], key, val)
  }

  /** Looking up a key in a dictionary that starts with a given entry. */
  lemma FindCons(key: string, val: Value, rest: seq<(string, Value)>, k: string)
    ensures Find([(key, val)] + rest, k) == if k == key then Some(val) else Find(rest, k)
  {
    assert ([(key, val)] + rest)[1..] == rest;
  }

  /** After `d[key] = val`, `d[key]` is `val` and every other key is untouched. */
  lemma {:induction false} PutFind(entries: seq<(string, Value)>, key: string, val: Value, k: string)
    ensures Find(Put(entries, key, val), k) == if k == key then Some(val) else Find(entries, k)
  {
    if |entries| > 0 && entries[0].0 != key {
      var r := Put(entries, key, val);
      assert r[0] == entries[0] && r[1..] == Put(entries[1..], key, val);
      PutFind(entries[1..], key, val, k);
    }
  }

  /** `container[key]` for a string key: a dict lookup; any other value
      refuses a string index. */
  function Subscript(container: Value, key: string): (r: Result<Value, PyError>)
    ensures r.Ok? <==> container.VDict? && key in Keys(container.entries)
    ensures r.Ok? ==> Find(container.entries, key) == Some(r.value)
  {
    match container
    case VDict(entries) =>
      (match Find(entries, key)
       case Some(v) => Ok(v)
       case None => Err(KeyError(key)))
    case _ => Err(TypeError("indices must be integers"))
  }

  predicate OccursAt(needle: string, hay: string, i: int) {
    0 <= i <= |hay| - |needle| && hay[i..i + |needle|] == needle
  }

  predicate IsSubstring(needle: string, hay: string) {
    exists i | 0 <= i <= |hay| :: OccursAt(needle, hay, i)
  }

  /** `key in container`: key membership for a dict, element equality for a
      list, substring for a string; any other value raises TypeError. */
  function Contains(container: Value, key: string): (r: Result<bool, PyError>)
    ensures container.VDict? ==> r == Ok(key in Keys(container.entries))
  {
    match container
    case VDict(entries) => Ok(key in Keys(entries))
    case VList(items) => Ok(exists i :: 0 <= i < |items| && StringOf(items[i]) == Some(key))
    case VStr(s) => Ok(IsSubstring(key, s))
    case VUnicode(u) => Ok(IsSubstring(key, u))
    case _ => Err(TypeError("argument is not iterable"))
  }

  /** The values `for x in v` visits: a list's items, a dict's keys, a string's
      one-character strings. */
  function Iterate(v: Value): (r: Result<seq<Value>, PyError>)
    ensures v.VList? ==> r == Ok(v.items)
  {
    match v
    case VList(items) => Ok(items)
    case VDict(entries) => Ok(seq(|entries|, i requires 0 <= i < |entries| => VUnicode(entries[i].0)))
    case VStr(s) => Ok(seq(|s|, i requires 0 <= i < |s| => VStr([s[i]])))
    case VUnicode(u) => Ok(seq(|u|, i requires 0 <= i < |u| => VUnicode([u[i]])))
    case _ => Err(TypeError("object is not iterable"))
  }
}
