/** JavaScript values as the client code sees them, and the few coercions
    the client relies on: truthiness (`a || b`, `if (x)`), `String(x)` (what
    `localStorage.setItem`, `setRequestHeader` and `+` on strings store), and
    property lookup on an object literal, which also finds the members every
    object inherits from `Object.prototype`. */
module JsValues {

  datatype Option<+T> = None | Some(value: T)

  /** The values JSON.parse can produce, plus `undefined` (what reading a
      missing property yields). Numbers are integers in this model. */
  datatype Value =
    | Undefined
    | Null
    | Bool(b: bool)
    | Num(n: int)
    | Str(s: string)
    | Arr(items: seq<Value>)
    | Obj(props: seq<(string, Value)>)

  /** JavaScript truthiness: `undefined`, `null`, `false`, `0` and `""` are
      falsy, every array and object is truthy. */
  predicate Truthy(v: Value) {
    match v
    case Undefined => false
    case Null => false
    case Bool(b) => b
    case Num(n) => n != 0
    case Str(s) => s != ""
    case Arr(_) => true
    case Obj(_) => true
  }

  /** `a || b` on values. */
  function Or(a: Value, b: Value): (r: Value)
    ensures Truthy(a) ==> r == a
    ensures !Truthy(a) ==> r == b
  {
    if Truthy(a) then a else b
  }

  /** The value bound to `key` in a list of properties; the last binding
      wins, as it does for duplicate keys in JSON.parse. */
  function Lookup(props: seq<(string, Value)>, key: string): (r: Value)
    ensures r != Undefined ==> exists i :: 0 <= i < |props| && props[i] == (key, r)
    ensures (forall i :: 0 <= i < |props| ==> props[i].0 != key) ==> r == Undefined
  {
    if |props| == 0 then Undefined
    else if props[|props| - 1].0 == key then props[|props| - 1].1
    else Lookup(props[..|props| - 1], key)
  }

  /** Property read `v.key`. Reading a property of `undefined` or `null`
      throws a TypeError (None). The client only ever reads `message`,
      `data` and `email`, which are not members that strings, numbers,
      booleans or arrays carry, so those read as `undefined`. */
  function Get(v: Value, key: string): (r: Option<Value>)
    ensures r.None? <==> v == Undefined || v == Null
  {
    match v
    case Undefined => None
    case Null => None
    case Obj(props) => Some(Lookup(props, key))
    case _ => Some(Undefined)
  }

  /** Decimal text of a natural number, most significant digit first. */
  function NatToString(n: nat): (r: string)
    ensures |r| >= 1
    ensures forall i :: 0 <= i < |r| ==> '0' <= r[i] <= '9'
    decreases n
  {
    var d := ['0' + (n % 10) as char];
    if n < 10 then d else NatToString(n / 10) + d
  }

  /** `String(v)`: the text a value turns into when it is stored in
      localStorage, set as a header value or concatenated to a string. */
  function ToJsString(v: Value): string
    decreases v, 1
  {
    match v
    case Undefined => "undefined"
    case Null => "null"
    case Bool(b) => if b then "true" else "false"
    case Num(n) => if n < 0 then "-" + NatToString(-n) else NatToString(n)
    case Str(s) => s
    case Arr(items) => JoinItems(v, items)
    case Obj(_) => "[object Object]"
  }

  /** Array.prototype.join(","), where `undefined` and `null` elements
      contribute the empty string. */
  function JoinItems(whole: Value, items: seq<Value>): string
    requires forall i :: 0 <= i < |items| ==> items[i] < whole
    decreases whole, 0, |items|
  {
    if |items| == 0 then ""
    else
      var first := if items[0] == Undefined || items[0] == Null then "" else ToJsString(items[0]);
      if |items| == 1 then first else first + "," + JoinItems(whole, items[1..])
  }

  /** The members every object literal inherits from `Object.prototype`;
      `literal[key]` finds them when `key` is not an own property. */
  const ObjectPrototypeMembers: set<string> := {
    "constructor", "hasOwnProperty", "isPrototypeOf", "propertyIsEnumerable",
    "toLocaleString", "toString", "valueOf", "__proto__",
    "__defineGetter__", "__defineSetter__", "__lookupGetter__", "__lookupSetter__"
  }

  /** Every inherited member name is longer than three characters. */
  lemma ShortKeyNotInherited(key: string)
    requires |key| <= 3
    ensures key !in ObjectPrototypeMembers
  {
  }

  /** What `literal[key]` yields on an object literal whose own properties
      map strings to strings. */
  datatype LiteralRead = Missing | Own(text: string) | Inherited(member: string)

  function ReadLiteral(literal: map<string, string>, key: string): (r: LiteralRead)
    ensures r.Own? <==> key in literal
    ensures r.Inherited? <==> key !in literal && key in ObjectPrototypeMembers
    ensures r.Own? ==> r.text == literal[key]
    ensures r.Inherited? ==> r.member == key
  {
    if key in literal then Own(literal[key])
    else if key in ObjectPrototypeMembers then Inherited(key)
    else Missing
  }

  /** Truthiness of such a read: inherited members are functions or
      objects, hence truthy. */
  predicate ReadTruthy(r: LiteralRead) {
    match r
    case Missing => false
    case Own(t) => t != ""
    case Inherited(_) => true
  }

  /** The last position of `c` in `s`, if any (`s.lastIndexOf(c)`, with
      -1 as None; Python's `rsplit(c, 1)` splits there). */
  function LastIndexOf(s: string, c: char): (r: Option<nat>)
    ensures r.None? <==> c !in s
    ensures r.Some? ==> r.value < |s| && s[r.value] == c && c !in s[r.value + 1..]
  {
    if s == [] then None
    else if s[|s| - 1] == c then Some(|s| - 1)
    else
      var r := LastIndexOf(s[..|s| - 1], c);
      assert s[..|s| - 1] + [s[|s| - 1]] == s;
      r
  }

  /** A character followed only by other characters is the last one. */
  lemma {:induction false} LastIndexOfSeparator(s: string, c: char, t: string)
    requires c !in t
    ensures LastIndexOf(s + [c] + t, c) == Some(|s|)
    decreases |t|
  {
    var u := s + [c] + t;
    if t == [] {
      assert u == s + [c];
    } else {
      var init := t[..|t| - 1];
      assert u[..|u| - 1] == s + [c] + init;
      assert u[|u| - 1] == t[|t| - 1];
      assert c !in init by {
        assert forall k :: 0 <= k < |init| ==> init[k] == t[k];
      }
      LastIndexOfSeparator(s, c, init);
    }
  }

  /** `s.indexOf(c)` for a character that occurs: the first position
      holding it. */
  function FirstIndexOf(s: string, c: char): (i: nat)
    requires c in s
    ensures i < |s| && s[i] == c && c !in s[..i]
  {
    if s[0] == c then 0 else 1 + FirstIndexOf(s[1..], c)
  }

  lemma {:induction false} FirstIndexOfIsFirst(s: string, c: char, k: nat)
    requires k < |s| && s[k] == c
    ensures FirstIndexOf(s, c) <= k
  {
    if s[0] != c {
      FirstIndexOfIsFirst(s[1..], c, k - 1);
    }
  }

  lemma {:induction false} NatToStringInjective(m: nat, n: nat)
    requires NatToString(m) == NatToString(n)
    ensures m == n
    decreases m
  {
    var a, b := NatToString(m), NatToString(n);
    assert a[|a| - 1] == '0' + (m % 10) as char;
    assert b[|b| - 1] == '0' + (n % 10) as char;
    if m >= 10 && n >= 10 {
      assert NatToString(m / 10) == a[..|a| - 1] == b[..|b| - 1] == NatToString(n / 10);
      NatToStringInjective(m / 10, n / 10);
    }
  }

  /** A string survives the round trip through localStorage unchanged, and
      `String` tells different integers apart. */
  lemma StringCoercionFacts(s: string, m: int, n: int)
    ensures ToJsString(Str(s)) == s
    ensures ToJsString(Num(m)) == ToJsString(Num(n)) ==> m == n
  {
    var a, b := ToJsString(Num(m)), ToJsString(Num(n));
    var am := if m < 0 then -m else m;
    var bn := if n < 0 then -n else n;
    assert a == (if m < 0 then "-" else "") + NatToString(am);
    assert b == (if n < 0 then "-" else "") + NatToString(bn);
    assert (a[0] == '-') == (m < 0) by {
      assert '0' <= NatToString(am)[0] <= '9';
    }
    assert (b[0] == '-') == (n < 0) by {
      assert '0' <= NatToString(bn)[0] <= '9';
    }
    if a == b {
      assert (m < 0) == (n < 0);
      assert NatToString(am) == NatToString(bn) by {
        if m < 0 {
          assert NatToString(am) == a[1..] && NatToString(bn) == b[1..];
        }
      }
      NatToStringInjective(am, bn);
    }
  }
}
