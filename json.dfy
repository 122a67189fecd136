/** JSON values as the Python backend holds them (dicts, lists, str, int,
    bool, None), with Python's truthiness and `str()` of scalars. */
module Json {
  import opened Wrappers
  import opened Strings

  datatype Json =
    | JNull
    | JBool(b: bool)
    | JInt(i: int)
    | JStr(s: string)
    | JList(items: seq<Json>)
    | JObj(fields: map<string, Json>)

  /** A Python dict with string keys, as stored in the in-memory lists and in
      the document containers. */
  type Document = map<string, Json>

  /** Python's `bool(value)`: None, False, 0, "", [] and {} are false. */
  predicate Truthy(j: Json)
  {
    match j
    case JNull => false
    case JBool(b) => b
    case JInt(i) => i != 0
    case JStr(s) => s != ""
    case JList(items) => |items| > 0
    case JObj(fields) => |fields| > 0
  }

  /** Python's truthiness of an optional text argument (a query-string value
      or a keyword argument that defaults to None). */
  predicate Given(arg: Option<string>)
  {
    arg.Some? && arg.value != ""
  }

  /** `d.get(key, default)`. */
  function Get(d: Document, key: string, default: Json): (r: Json)
    ensures key in d ==> r == d[key]
    ensures key !in d ==> r == default
  {
    if key in d then d[key] else default
  }

  /** `str(value)`, as an f-string writes a value: scalars as themselves,
      lists and dicts by Python's `repr`. */
  function Show(j: Json): (r: string)
    ensures j.JStr? ==> r == j.s
    ensures j.JList? || j.JObj? ==> r == Repr(j)
  {
    match j
    case JStr(s) => s
    case _ => Repr(j)
  }

  /** Python's `repr`: texts quoted, lists as `[a, b]`, dicts as
      `{k: v}` with the keys in the order iterating the dict yields them. */
  function Repr(j: Json): string
  {
    match j
    case JNull => "None"
    case JBool(b) => if b then "True" else "False"
    case JInt(i) => IntToString(i)
    case JStr(s) => ReprText(s)
    case JList(items) => "[" + Join(", ", seq(|items|, i requires 0 <= i < |items| => Repr(items[i]))) + "]"
    case JObj(fields) =>
      var keys := DictKeys(fields);
      "{" + Join(", ", seq(|keys|, i requires 0 <= i < |keys| => ReprText(keys[i]) + ": " + Repr(fields[keys[i]]))) + "}"
  }

  /** The quote `repr` puts around a text: `'`, unless the text holds a
      `'` and no `"`. */
  function QuoteFor(s: string): char
  {
    if '\'' in s && '"' !in s then '"' else '\''
  }

  /** `repr` of a text: the text between its quotes, with backslashes, the
      quote and control characters escaped. */
  function ReprText(s: string): (r: string)
    ensures |r| >= 2 && r[0] == r[|r| - 1] == QuoteFor(s)
  {
    var q := QuoteFor(s);
    [q] + Escaped(s, q) + [q]
  }

  const HexDigits := "0123456789abcdef"

  /** The escape `repr` writes for one character inside quotes `q`. */
  function EscapedChar(c: char, q: char): string
  {
    if c == '\\' then "\\\\"
    else if c == q then ['\\', q]
    else if c == '\n' then "\\n"
    else if c == '\r' then "\\r"
    else if c == '\t' then "\\t"
    else if c < ' ' || ('\U{7F}' <= c < '\U{A0}') then
      "\\x" + [HexDigits[c as int / 16], HexDigits[c as int % 16]]
    else [c]
  }

  function Escaped(s: string, q: char): string
    decreases |s|
  {
    if |s| == 0 then "" else EscapedChar(s[0], q) + Escaped(s[1..], q)
  }

  /** A printable character that is neither a backslash nor a quote. */
  predicate Plain(c: char)
  {
    ' ' <= c < '\U{7F}' && c != '\\' && c != '\'' && c != '"'
  }

  /** A text of plain characters is its own escape. */
  lemma {:induction false} EscapedPlain(s: string, q: char)
    requires forall i :: 0 <= i < |s| ==> Plain(s[i])
    requires q == '\'' || q == '"'
    ensures Escaped(s, q) == s
    decreases |s|
  {
    if |s| > 0 {
      EscapedPlain(s[1..], q);
      assert s == [s[0]] + s[1..];
    }
  }

  /** `repr` of a text of plain characters is the text in single quotes. */
  lemma ReprPlainText(s: string)
    requires forall i :: 0 <= i < |s| ==> Plain(s[i])
    ensures ReprText(s) == "'" + s + "'"
  {
    EscapedPlain(s, '\'');
  }

  /** A list of plain texts is written as Python prints it, e.g.
      `['a', 'b']`. */
  lemma ShowPlainTexts(xs: seq<string>)
    requires forall k, i :: 0 <= k < |xs| && 0 <= i < |xs[k]| ==> Plain(xs[k][i])
    ensures Show(JList(StrList(xs))) ==
      "[" + Join(", ", seq(|xs|, k requires 0 <= k < |xs| => "'" + xs[k] + "'")) + "]"
  {
    var items := StrList(xs);
    forall k | 0 <= k < |xs|
      ensures Repr(items[k]) == "'" + xs[k] + "'"
    {
      ReprPlainText(xs[k]);
    }
    assert seq(|items|, i requires 0 <= i < |items| => Repr(items[i])) ==
           seq(|xs|, k requires 0 <= k < |xs| => "'" + xs[k] + "'");
  }

  function StrList(xs: seq<string>): (r: seq<Json>)
    ensures |r| == |xs| && forall i :: 0 <= i < |xs| ==> r[i] == JStr(xs[i])
  {
    seq(|xs|, i requires 0 <= i < |xs| => JStr(xs[i]))
  }

  function Objs(ds: seq<Document>): (r: seq<Json>)
    ensures |r| == |ds| && forall i :: 0 <= i < |ds| ==> r[i] == JObj(ds[i])
  {
    seq(|ds|, i requires 0 <= i < |ds| => JObj(ds[i]))
  }

  /** Each character of a text as a one-character string. */
  function Chars(s: string): (r: seq<Json>)
    ensures |r| == |s| && forall i :: 0 <= i < |s| ==> r[i] == JStr([s[i]])
  {
    seq(|s|, i requires 0 <= i < |s| => JStr([s[i]]))
  }

  // ---------------------------------------------------------------------
  // Iterating a dict: its keys, one after another. A Python dict yields
  // them in insertion order, which a map does not keep; the model yields
  // them in ascending order instead.

  lemma LessIsStrictOrder()
    ensures forall a, b :: Less(a, b) ==> !Less(b, a)
  {
    forall a, b | Less(a, b)
      ensures !Less(b, a)
    {
      LessAsymmetric(a, b);
    }
  }

  predicate IsLeast(k: string, keys: set<string>)
  {
    k in keys && forall y :: y in keys && y != k ==> Less(k, y)
  }

  /** A key below the least key of the other keys is the least of all. */
  lemma LeastOfAdded(x: string, m: string, rest: set<string>)
    requires IsLeast(m, rest) && Less(x, m)
    ensures IsLeast(x, rest + {x})
  {
    forall y | y in rest + {x} && y != x
      ensures Less(x, y)
    {
      if y != m {
        LessTransitive(x, m, y);
      }
    }
  }

  /** Every non-empty set of keys has a least key. */
  lemma {:induction false} LeastKeyExists(keys: set<string>)
    requires keys != {}
    ensures exists k :: IsLeast(k, keys)
    decreases |keys|
  {
    var x :| x in keys;
    var rest := keys - {x};
    assert keys == rest + {x};
    if rest == {} {
      assert keys == {x};
      assert IsLeast(x, keys);
    } else {
      LeastKeyExists(rest);
      var m :| IsLeast(m, rest);
      LessTotal(x, m);
      if Less(x, m) {
        LeastOfAdded(x, m, rest);
        assert IsLeast(x, keys);
      } else {
        assert IsLeast(m, keys);
      }
    }
  }

  function LeastKey(keys: set<string>): (k: string)
    requires keys != {}
    ensures k in keys && forall y :: y in keys && y != k ==> Less(k, y)
  {
    LeastKeyExists(keys);
    LessIsStrictOrder();
    var k :| IsLeast(k, keys);
    k
  }

  /** The keys of a set in ascending order. */
  function SortedKeys(keys: set<string>): (r: seq<string>)
    ensures |r| == |keys|
    ensures forall k :: k in r <==> k in keys
    ensures forall i, j :: 0 <= i < j < |r| ==> Less(r[i], r[j])
    decreases |keys|
  {
    if keys == {} then []
    else
      var k := LeastKey(keys);
      var rest := SortedKeys(keys - {k});
      assert forall j :: 0 <= j < |rest| ==> rest[j] in keys - {k};
      [k] + rest
  }

  /** `list(d)`: the keys of a dict, each once. */
  function DictKeys(d: Document): (r: seq<string>)
    ensures |r| == |d|
    ensures forall k :: k in r <==> k in d
    ensures forall i, j :: 0 <= i < j < |r| ==> r[i] != r[j]
  {
    var r := SortedKeys(d.Keys);
    forall i, j | 0 <= i < j < |r|
      ensures r[i] != r[j]
    {
      if r[i] == r[j] {
        LessIrreflexive(r[i]);
      }
    }
    r
  }

  /** What iterating a value yields: a list's items, a string's
      characters or a dict's keys; other scalars are not iterable. */
  function Items(j: Json): (r: Result<seq<Json>>)
    ensures j.JList? ==> r == Ok(j.items)
    ensures j.JStr? ==> r == Ok(Chars(j.s))
    ensures j.JObj? ==> r == Ok(StrList(DictKeys(j.fields)))
    ensures j.JNull? || j.JBool? || j.JInt? ==> r == Err("TypeError")
  {
    match j
    case JList(items) => Ok(items)
    case JStr(s) => Ok(Chars(s))
    case JObj(fields) => Ok(StrList(DictKeys(fields)))
    case _ => Err("TypeError")
  }

  predicate AllText(items: seq<Json>)
  {
    forall i :: 0 <= i < |items| ==> items[i].JStr?
  }

  function Texts(items: seq<Json>): (r: seq<string>)
    requires AllText(items)
    ensures |r| == |items| && forall i :: 0 <= i < |items| ==> r[i] == items[i].s
  {
    seq(|items|, i requires 0 <= i < |items| => items[i].s)
  }

  /** A value whose iteration yields only strings: a list of strings, a
      string (its characters) or a dict (its keys). */
  predicate IteratesText(j: Json)
  {
    Items(j).Ok? && AllText(Items(j).value)
  }

  /** `" ".join(value)`: the value is iterated and every item must be a
      string. */
  function SpaceJoined(j: Json): (r: Result<string>)
    ensures j.JList? && AllText(j.items) ==> r == Ok(Join(" ", Texts(j.items)))
    ensures j.JList? && !AllText(j.items) ==> r.Err?
    ensures j.JObj? ==> r == Ok(Join(" ", DictKeys(j.fields)))
    ensures r.Ok? <==> IteratesText(j)
    ensures IteratesText(j) ==> r == Ok(Join(" ", Texts(Items(j).value)))
    ensures j.JNull? || j.JBool? || j.JInt? ==> r == Err("TypeError")
  {
    match Items(j)
    case Err(e) => Err(e)
    case Ok(items) =>
      if AllText(items) then
        assert j.JObj? ==> Texts(items) == DictKeys(j.fields);
        Ok(Join(" ", Texts(items)))
      else Err("TypeError")
  }

  /** `target.extend(arg)`: only a list has `extend`. */
  function Extend(target: Json, arg: Json): (r: Result<Json>)
    ensures target.JList? && arg.JList? ==> r == Ok(JList(target.items + arg.items))
    ensures target.JList? && arg.JStr? ==> r == Ok(JList(target.items + Chars(arg.s)))
    ensures target.JList? && arg.JObj? ==> r == Ok(JList(target.items + StrList(DictKeys(arg.fields))))
    ensures target.JList? && (arg.JNull? || arg.JBool? || arg.JInt?) ==> r == Err("TypeError")
    ensures !target.JList? ==> r == Err("AttributeError")
  {
    if !target.JList? then Err("AttributeError")
    else
      match Items(arg)
      case Ok(more) => Ok(JList(target.items + more))
      case Err(e) => Err(e)
  }

  /** `target += text`: a string grows by the text, a list by its
      characters; anything else cannot be added to. */
  function AddText(target: Json, text: string): (r: Result<Json>)
    ensures target.JStr? ==> r == Ok(JStr(target.s + text))
    ensures target.JList? ==> r == Ok(JList(target.items + Chars(text)))
    ensures !target.JStr? && !target.JList? ==> r == Err("TypeError")
  {
    match target
    case JStr(s) => Ok(JStr(s + text))
    case JList(items) => Ok(JList(items + Chars(text)))
    case _ => Err("TypeError")
  }

  /** `len(value)` for the sized values. */
  function PyLen(j: Json): (r: Result<nat>)
    ensures j.JList? ==> r == Ok(|j.items|)
    ensures j.JStr? ==> r == Ok(|j.s|)
    ensures j.JObj? ==> r == Ok(|j.fields|)
    ensures !j.JList? && !j.JStr? && !j.JObj? ==> r == Err("TypeError")
  {
    match j
    case JList(items) => Ok(|items|)
    case JStr(s) => Ok(|s|)
    case JObj(fields) => Ok(|fields|)
    case _ => Err("TypeError")
  }

  /** Python's `==` on decoded values: `True` equals `1` and `False`
      equals `0`, lists are equal item by item and dicts key by key. */
  predicate PyEq(a: Json, b: Json)
  {
    match a
    case JNull => b.JNull?
    case JBool(x) => (b.JBool? && b.b == x) || (b.JInt? && b.i == Bit(x))
    case JInt(n) => (b.JInt? && b.i == n) || (b.JBool? && n == Bit(b.b))
    case JStr(s) => b.JStr? && b.s == s
    case JList(xs) =>
      b.JList? && |xs| == |b.items| && forall i :: 0 <= i < |xs| ==> PyEq(xs[i], b.items[i])
    case JObj(f) =>
      b.JObj? && f.Keys == b.fields.Keys && forall k :: k in f ==> PyEq(f[k], b.fields[k])
  }

  /** The number a boolean stands for in arithmetic and comparisons. */
  function Bit(b: bool): int
  {
    if b then 1 else 0
  }

  /** Every value equals itself under `==`. */
  lemma {:induction false} PyEqReflexive(a: Json)
    ensures PyEq(a, a)
  {
    match a
    case JList(xs) =>
      forall i | 0 <= i < |xs| ensures PyEq(xs[i], xs[i]) {
        PyEqReflexive(xs[i]);
      }
    case JObj(f) =>
      forall k | k in f ensures PyEq(f[k], f[k]) {
        PyEqReflexive(f[k]);
      }
    case _ =>
  }

  /** `==` is symmetric, so `a == b` and `b == a` agree. */
  lemma {:induction false} PyEqSymmetric(a: Json, b: Json)
    requires PyEq(a, b)
    ensures PyEq(b, a)
  {
    match a
    case JList(xs) =>
      forall i | 0 <= i < |xs| ensures PyEq(b.items[i], xs[i]) {
        PyEqSymmetric(xs[i], b.items[i]);
      }
    case JObj(f) =>
      forall k | k in b.fields ensures PyEq(b.fields[k], f[k]) {
        PyEqSymmetric(f[k], b.fields[k]);
      }
    case _ =>
  }

  /** A text equals only the same text. */
  lemma PyEqText(s: string, b: Json)
    ensures PyEq(b, JStr(s)) <==> b == JStr(s)
  {
  }

  /** True equals 1 and False equals 0, also inside lists, but neither
      equals the other or a text. */
  lemma PyEqBoolInt()
    ensures PyEq(JBool(true), JInt(1)) && PyEq(JInt(0), JBool(false))
    ensures PyEq(JList([JBool(true)]), JList([JInt(1)]))
    ensures !PyEq(JBool(true), JInt(2)) && !PyEq(JBool(false), JBool(true)) && !PyEq(JInt(0), JStr("0"))
  {
  }

  /** `x in items` for a list: some item equals `x` under `==`. */
  predicate PyContains(items: seq<Json>, x: Json)
  {
    exists i :: 0 <= i < |items| && PyEq(items[i], x)
  }

  /** Every value is in a list that holds it. */
  lemma PyContainsMember(items: seq<Json>, x: Json)
    requires x in items
    ensures PyContains(items, x)
  {
    var i :| 0 <= i < |items| && items[i] == x;
    PyEqReflexive(x);
  }

  /** For a text, list membership under `==` is plain membership. */
  lemma PyContainsText(items: seq<Json>, s: string)
    ensures PyContains(items, JStr(s)) <==> JStr(s) in items
  {
    if JStr(s) in items {
      PyContainsMember(items, JStr(s));
    }
    if PyContains(items, JStr(s)) {
      var i :| 0 <= i < |items| && PyEq(items[i], JStr(s));
      PyEqText(s, items[i]);
    }
  }

  /** `x in container`: list membership under `==`, substring of a string
      (only for a string `x`), key of a dict (a list or dict `x` is
      unhashable, and the keys are texts). */
  function PyIn(x: Json, container: Json): (r: Result<bool>)
    ensures container.JList? ==> r == Ok(PyContains(container.items, x))
    ensures container.JStr? && x.JStr? ==> r == Ok(Contains(container.s, x.s))
    ensures container.JObj? && x.JStr? ==> r == Ok(x.s in container.fields)
    ensures container.JNull? || container.JBool? || container.JInt? ==> r == Err("TypeError")
  {
    match container
    case JList(items) => Ok(PyContains(items, x))
    case JStr(s) => if x.JStr? then Ok(Contains(s, x.s)) else Err("TypeError")
    case JObj(fields) =>
      if x.JList? || x.JObj? then Err("TypeError") else Ok(x.JStr? && x.s in fields)
    case _ => Err("TypeError")
  }

  /** `value[key]` with a string key: only a dict holding the key has it. */
  function Subscript(j: Json, key: string): (r: Result<Json>)
    ensures j.JObj? && key in j.fields ==> r == Ok(j.fields[key])
    ensures j.JObj? && key !in j.fields ==> r == Err("KeyError")
    ensures !j.JObj? ==> r == Err("TypeError")
  {
    if !j.JObj? then Err("TypeError")
    else if key in j.fields then Ok(j.fields[key])
    else Err("KeyError")
  }

  /** `value.lower()`: only strings have it. */
  function PyLower(j: Json): (r: Result<string>)
    ensures j.JStr? ==> r == Ok(Lower(j.s))
    ensures !j.JStr? ==> r == Err("AttributeError")
  {
    if j.JStr? then Ok(Lower(j.s)) else Err("AttributeError")
  }

  /** The slice `s[:n]`: a negative `n` counts from the end. */
  function Head<T>(s: seq<T>, n: int): (r: seq<T>)
    ensures n >= 0 ==> |r| == if n < |s| then n else |s|
    ensures n < 0 ==> |r| == if -n < |s| then |s| + n else 0
    ensures r == s[..|r|]
  {
    if n >= 0 then (if n < |s| then s[..n] else s)
    else if -n < |s| then s[..|s| + n] else []
  }
}
