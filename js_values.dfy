module Wrappers {

  datatype Option<+T> = None | Some(value: T)
}

/** JavaScript values as the stream script sees them once JSON.parse has
    decoded a line, and the few JavaScript operations the script applies to
    them: truthiness, `||`, property reads, string conversion, `trim`,
    `split` and `join`. */
module JsValues {

  /** A decoded JSON value, plus `Undefined` for a property that is absent.
      A number carries its value (exact: floating-point rounding is not
      modelled) and the text JavaScript's String() gives for it. An object
      lists its properties in Object.keys order, each key once. */
  datatype JsValue =
    | Undefined
    | Null
    | Bool(b: bool)
    | Num(value: real, text: string)
    | Str(s: string)
    | Arr(items: seq<JsValue>)
    | Obj(props: seq<(string, JsValue)>)

  predicate IsNullish(v: JsValue) {
    v.Undefined? || v.Null?
  }

  /** JavaScript truthiness: false, 0, "", null and undefined are falsy. */
  predicate Truthy(v: JsValue): (r: bool)
    ensures r ==> !IsNullish(v)
    ensures v.Arr? || v.Obj? ==> r
  {
    match v
    case Undefined => false
    case Null => false
    case Bool(b) => b
    case Num(x, _) => x != 0.0
    case Str(s) => s != ""
    case Arr(_) => true
    case Obj(_) => true
  }

  /** The expression `a || b`. */
  function Or(a: JsValue, b: JsValue): (r: JsValue)
    ensures r == a || r == b
    ensures Truthy(r) <==> Truthy(a) || Truthy(b)
  {
    if Truthy(a) then a else b
  }

  /** The number JavaScript reports for a count (a length). */
  function Count(n: nat): JsValue {
    Num(n as real, NatText(n))
  }

  const Zero := Num(0.0, "0")

  function Lookup(props: seq<(string, JsValue)>, key: string): JsValue {
    if |props| == 0 then Undefined
    else if props[0].0 == key then props[0].1
    else Lookup(props[1..], key)
  }

  /** The property read `v?.key`: undefined on null and undefined. Of the
      own properties of strings and arrays, the script only ever reads
      `length`. */
  function Get(v: JsValue, key: string): JsValue {
    match v
    case Obj(props) => Lookup(props, key)
    case Str(s) => if key == "length" then Count(|s|) else Undefined
    case Arr(items) => if key == "length" then Count(|items|) else Undefined
    case _ => Undefined
  }

  /** Reading a property of null, undefined, a boolean or a number gives
      undefined, and so does reading anything but `length` of a string or an
      array; the length is the element count. */
  lemma GetOutsideObjects(v: JsValue, key: string)
    requires !v.Obj?
    ensures !(v.Str? || v.Arr?) || key != "length" ==> Get(v, key) == Undefined
    ensures v.Str? && key == "length" ==> Get(v, key) == Count(|v.s|) && Truthy(Get(v, key)) == (|v.s| > 0)
    ensures v.Arr? && key == "length" ==> Get(v, key) == Count(|v.items|) && Truthy(Get(v, key)) == (|v.items| > 0)
  {
  }

  /** On an object, `v?.key` is the value of the first property named `key`,
      and undefined when no property has that name. */
  lemma {:induction false} GetFirstProperty(props: seq<(string, JsValue)>, key: string)
    ensures forall i :: 0 <= i < |props| && props[i].0 == key && (forall j :: 0 <= j < i ==> props[j].0 != key) ==>
              Get(Obj(props), key) == props[i].1
    ensures (forall i :: 0 <= i < |props| ==> props[i].0 != key) ==> Get(Obj(props), key) == Undefined
    decreases |props|
  {
    if |props| > 0 && props[0].0 != key {
      GetFirstProperty(props[1..], key);
      forall i | 0 < i < |props| && props[i].0 == key && (forall j :: 0 <= j < i ==> props[j].0 != key)
        ensures Get(Obj(props), key) == props[i].1
      {
        assert props[1..][i - 1] == props[i];
        forall j | 0 <= j < i - 1 ensures props[1..][j].0 != key {
          assert props[1..][j] == props[j + 1];
        }
      }
      if forall i :: 0 <= i < |props| ==> props[i].0 != key {
        forall i | 0 <= i < |props[1..]| ensures props[1..][i].0 != key {
          assert props[1..][i] == props[i + 1];
        }
      }
    }
  }

  /** The string a value becomes in a template literal or after `+=` on a
      string. An array joins its elements with commas, null and undefined
      elements giving the empty string. */
  function AsString(v: JsValue): (r: string)
    ensures v.Str? ==> r == v.s
    ensures v.Arr? && |v.items| == 0 ==> r == ""
    ensures v.Arr? && |v.items| == 1 && !IsNullish(v.items[0]) ==> r == AsString(v.items[0])
  {
    match v
    case Undefined => "undefined"
    case Null => "null"
    case Bool(b) => if b then "true" else "false"
    case Num(_, t) => t
    case Str(s) => s
    case Arr(items) =>
      Join(seq(|items|, i requires 0 <= i < |items| =>
             if IsNullish(items[i]) then "" else AsString(items[i])), ',')
    case Obj(_) => "[object Object]"
  }

  /** ECMAScript WhiteSpace and LineTerminator: what String.prototype.trim removes. */
  predicate IsJsSpace(c: char) {
    c == '\t' || c == '\n' || c == '\U{000B}' || c == '\U{000C}' || c == '\r' || c == ' '
    || c == '\U{00A0}' || c == '\U{1680}' || ('\U{2000}' <= c <= '\U{200A}')
    || c == '\U{2028}' || c == '\U{2029}' || c == '\U{202F}' || c == '\U{205F}'
    || c == '\U{3000}' || c == '\U{FEFF}'
  }

  /** `!s.trim()`: the string is empty once trimmed. */
  predicate IsBlank(s: string): (r: bool)
    ensures s == "" ==> r
    ensures |s| > 0 && !IsJsSpace(s[0]) ==> !r
  {
    forall i :: 0 <= i < |s| ==> IsJsSpace(s[i])
  }

  function Digit(d: nat): char
    requires d < 10
  {
    "0123456789"[d]
  }

  /** Decimal digits of a natural number, as String() writes it. */
  function NatText(n: nat): (r: string)
    ensures |r| >= 1
    ensures forall i :: 0 <= i < |r| ==> '0' <= r[i] <= '9'
  {
    if n < 10 then [Digit(n)] else NatText(n / 10) + [Digit(n % 10)]
  }

  function IntText(n: int): string {
    if n < 0 then "-" + NatText(-n) else NatText(n)
  }

  /** `s.split(c)` for a one-character separator: the pieces between
      separators, always at least one. */
  function Split(s: string, c: char): (r: seq<string>)
    ensures |r| >= 1
    ensures forall i :: 0 <= i < |r| ==> c !in r[i]
  {
    if |s| == 0 then [""]
    else
      var rest := Split(s[1..], c);
      if s[0] == c then [""] + rest
      else [[s[0]] + rest[0]] + rest[1..]
  }

  /** `parts.join(c)`. */
  function Join(parts: seq<string>, c: char): string {
    if |parts| == 0 then ""
    else if |parts| == 1 then parts[0]
    else parts[0] + [c] + Join(parts[1..], c)
  }

  /** Joining the pieces of a split gives back the string. */
  lemma {:induction false} JoinSplit(s: string, c: char)
    ensures Join(Split(s, c), c) == s
  {
    if |s| > 0 {
      var rest := Split(s[1..], c);
      JoinSplit(s[1..], c);
      if s[0] == c {
        assert Split(s, c) == [""] + rest;
        assert Join([""] + rest, c) == "" + [c] + Join(rest, c);
        assert s == [s[0]] + s[1..];
      } else {
        var parts := Split(s, c);
        assert parts == [[s[0]] + rest[0]] + rest[1..];
        if |rest| == 1 {
          assert Join(rest, c) == rest[0];
        } else {
          assert Join(rest, c) == rest[0] + [c] + Join(rest[1..], c);
          assert parts[1..] == rest[1..];
        }
        assert s == [s[0]] + s[1..];
      }
    }
  }

  /** Splitting `a + tail`, where `a` holds no separator, glues `a` to the
      first piece of the tail. */
  lemma {:induction false} SplitPrefix(a: string, tail: string, c: char)
    requires c !in a
    ensures Split(a + tail, c) == [a + Split(tail, c)[0]] + Split(tail, c)[1..]
  {
    if |a| > 0 {
      SplitPrefix(a[1..], tail, c);
      assert (a + tail)[1..] == a[1..] + tail;
      assert (a + tail)[0] == a[0] && a[0] != c;
      assert [a[0]] + (a[1..] + Split(tail, c)[0]) == a + Split(tail, c)[0];
    } else {
      var r := Split(tail, c);
      assert a + tail == tail && a + r[0] == r[0];
      assert r == [r[0]] + r[1..];
    }
  }

  /** Splitting the join of separator-free pieces gives back the pieces. */
  lemma {:induction false} SplitJoin(parts: seq<string>, c: char)
    requires |parts| >= 1
    requires forall i :: 0 <= i < |parts| ==> c !in parts[i]
    ensures Split(Join(parts, c), c) == parts
  {
    if |parts| == 1 {
      SplitPrefix(parts[0], "", c);
      assert parts[0] + "" == parts[0];
    } else {
      var tail := Join(parts[1..], c);
      SplitJoin(parts[1..], c);
      assert Join(parts, c) == parts[0] + ([c] + tail);
      SplitPrefix(parts[0], [c] + tail, c);
      var ct := [c] + tail;
      assert ct[0] == c && ct[1..] == tail;
      assert Split(ct, c) == [""] + Split(tail, c);
      assert Split(ct, c)[0] == "" && Split(ct, c)[1..] == parts[1..];
      assert parts[0] + "" == parts[0];
      assert parts == [parts[0]] + parts[1..];
    }
  }

  /** A string without the separator splits into itself. */
  lemma SplitNone(s: string, c: char)
    requires c !in s
    ensures Split(s, c) == [s]
  {
    SplitJoin([s], c);
  }
}
