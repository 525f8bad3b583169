/**
 * The slice of JavaScript semantics the server relies on: the dynamic values its
 * handlers pass around, the unary `+` conversion to Number, truthiness, `typeof`,
 * and the String methods (`substring`, `indexOf`, `split`, `toLowerCase`) and
 * the UTF-8 encoding that `new Buffer(str, 'utf-8')` performs.
 */
module JsValues {
  import opened Wrappers

  type Byte = b: int | 0 <= b < 256

  /**
   * A JavaScript Number restricted to the values the server produces: integers,
   * NaN and the two infinities. Fractions are not represented.
   */
  datatype Number = Int(i: int) | NaN | PosInf | NegInf

  /**
   * A JavaScript value. `JObj` keeps its own enumerable properties in creation
   * order (keys are never array-index-like strings); `JArr` keeps its elements and
   * apart from them the non-index properties that have been assigned to it.
   * `JDate` is a Date object holding a whole number of milliseconds.
   */
  datatype Js =
    | JNum(num: Number)
    | JBool(b: bool)
    | JStr(s: string)
    | JDate(ms: int)
    | JObj(props: seq<(string, Js)>)
    | JArr(items: seq<Js>, extra: seq<(string, Js)>)
    | JNull
    | JUndefined

  /** `typeof v`. */
  function TypeOf(v: Js): string
  {
    match v
    case JNum(_) => "number"
    case JBool(_) => "boolean"
    case JStr(_) => "string"
    case JUndefined => "undefined"
    case _ => "object"
  }

  /** JavaScript truthiness, as used by `||` and `!`. */
  predicate Truthy(v: Js)
  {
    match v
    case JNum(n) => n != NaN && n != Int(0)
    case JBool(b) => b
    case JStr(s) => s != ""
    case JNull => false
    case JUndefined => false
    case _ => true
  }

  /** `a || b`. */
  function Or(a: Js, b: Js): Js
  {
    if Truthy(a) then a else b
  }

  /** The value of property `k` in a property list: the first binding, or undefined. */
  function Lookup(props: seq<(string, Js)>, k: string): (r: Js)
    ensures r != JUndefined ==> exists i :: 0 <= i < |props| && props[i].0 == k && props[i].1 == r
  {
    if props == [] then JUndefined
    else if props[0].0 == k then props[0].1
    else Lookup(props[1..], k)
  }

  /** The property list with `k` bound to `v`: replaced in place if present, appended otherwise. */
  function Assign(props: seq<(string, Js)>, k: string, v: Js): (r: seq<(string, Js)>)
    ensures Lookup(r, k) == v
    ensures forall j :: j != k ==> Lookup(r, j) == Lookup(props, j)
    ensures (exists i :: 0 <= i < |props| && props[i].0 == k) ==> |r| == |props|
  {
    if props == [] then [(k, v)]
    else if props[0].0 == k then [(k, v)] + props[1..]
    else [props[0]] + Assign(props[1..], k, v)
  }

  /** A canonical array index: decimal digits without a leading zero. */
  predicate IsIndexKey(k: string)
  {
    k != "" && AllDigits(k) && (k == "0" || k[0] != '0')
  }

  /**
   * The property read `v[k]`: `None` where JavaScript throws a TypeError (reading
   * a property of null or undefined). Strings and arrays answer their indices and
   * `length`; methods inherited from prototypes are not represented.
   */
  function Get(v: Js, k: string): (r: Option<Js>)
    ensures r.None? <==> v == JNull || v == JUndefined
  {
    match v
    case JNull => None
    case JUndefined => None
    case JObj(ps) => Some(Lookup(ps, k))
    case JArr(items, extra) =>
      if IsIndexKey(k) then Some(if DecimalValue(k) < |items| then items[DecimalValue(k)] else JUndefined)
      else if k == "length" then Some(JNum(Int(|items|)))
      else Some(Lookup(extra, k))
    case JStr(s) =>
      if IsIndexKey(k) then Some(if DecimalValue(k) < |s| then JStr([s[DecimalValue(k)]]) else JUndefined)
      else if k == "length" then Some(JNum(Int(|s|)))
      else Some(JUndefined)
    case _ => Some(JUndefined)
  }

  // ---------------------------------------------------------------------------
  // Unary plus: ToNumber

  predicate IsDigit(c: char) { '0' <= c <= '9' }

  predicate AllDigits(s: string) { forall i :: 0 <= i < |s| ==> IsDigit(s[i]) }

  /** The value of a string of decimal digits. */
  function DecimalValue(s: string): nat
    requires AllDigits(s)
  {
    if s == [] then 0 else 10 * DecimalValue(s[..|s| - 1]) + (s[|s| - 1] as int - '0' as int)
  }

  /** The decimal digits of `n`, without leading zeros ("0" for zero). */
  function DecimalString(n: nat): (r: string)
    ensures r != [] && AllDigits(r)
    decreases n
  {
    var d := ['0' + (n % 10) as char];
    if n < 10 then d else DecimalString(n / 10) + d
  }

  lemma {:induction false} DecimalRoundTrip(n: nat)
    ensures DecimalValue(DecimalString(n)) == n
    decreases n
  {
    var r := DecimalString(n);
    if n >= 10 {
      DecimalRoundTrip(n / 10);
      assert r[..|r| - 1] == DecimalString(n / 10);
    }
  }

  /**
   * The smallest magnitude that a decimal literal rounds to Infinity, halfway between
   * Number.MAX_VALUE (2^1024 - 2^971) and 2^1024.
   */
  const InfinityThreshold: nat := 179769313486231580793728971405303415079934132710037826936173778980444968292764750946649017977587207096330286416692887910946555547851940402630657488671505820681908902000708383676273854845817711531764475730270069855571366959622842914819860834936475292719074168444365510704342711559699508093042880177904174497792

  /** The characters that `trim` and the regular-expression class `\s` remove or match. */
  predicate IsSpace(c: char)
  {
    c == '\t' || c == '\n' || c == '\U{000B}' || c == '\U{000C}' || c == '\r' || c == ' '
    || c == '\U{00A0}' || c == '\U{1680}' || ('\U{2000}' <= c <= '\U{200A}')
    || c == '\U{2028}' || c == '\U{2029}' || c == '\U{202F}' || c == '\U{205F}'
    || c == '\U{3000}' || c == '\U{FEFF}'
  }

  function TrimStart(s: string): (r: string)
    ensures r == [] || !IsSpace(r[0])
    ensures |r| <= |s| && r == s[|s| - |r|..]
  {
    if s != [] && IsSpace(s[0]) then TrimStart(s[1..]) else s
  }

  function TrimEnd(s: string): (r: string)
    ensures r == [] || !IsSpace(r[|r| - 1])
    ensures |r| <= |s| && r == s[..|r|]
  {
    if s != [] && IsSpace(s[|s| - 1]) then TrimEnd(s[..|s| - 1]) else s
  }

  function Trim(s: string): string { TrimEnd(TrimStart(s)) }

  function Magnitude(v: nat, negative: bool): Number
  {
    if v >= InfinityThreshold then (if negative then NegInf else PosInf)
    else if negative then Int(-(v as int)) else Int(v)
  }

  /**
   * `+s` for a string: surrounding white space is ignored, the empty string is 0,
   * an optionally signed run of decimal digits is its value (Infinity beyond the
   * largest finite Number), the signed words "Infinity" are the infinities, and
   * everything else is NaN. Decimal points, exponents and radix prefixes are not
   * represented and also read as NaN.
   */
  function StringToNumber(s: string): (r: Number)
    ensures AllDigits(s) && s != "" && DecimalValue(s) < InfinityThreshold ==> r == Int(DecimalValue(s))
  {
    var t := Trim(s);
    if t == "" then Int(0)
    else if t == "Infinity" || t == "+Infinity" then PosInf
    else if t == "-Infinity" then NegInf
    else SignedDecimal(t)
  }

  /** An optionally signed run of decimal digits, or NaN. */
  function SignedDecimal(t: string): (r: Number)
    requires t != ""
    ensures AllDigits(t) && DecimalValue(t) < InfinityThreshold ==> r == Int(DecimalValue(t))
  {
    if t[0] == '-' || t[0] == '+' then
      if |t| > 1 && AllDigits(t[1..]) then Magnitude(DecimalValue(t[1..]), t[0] == '-') else NaN
    else if AllDigits(t) then Magnitude(DecimalValue(t), false)
    else NaN
  }

  /** A run of digits reads as its decimal value: a finite integer below the threshold, Infinity from it on. */
  lemma DigitsToNumber(d: string)
    requires AllDigits(d) && d != ""
    ensures StringToNumber(d) == Magnitude(DecimalValue(d), false)
  {
    assert IsDigit(d[0]) && IsDigit(d[|d| - 1]);
    assert TrimStart(d) == d;
    assert Trim(d) == d;
    assert d[0] != '-' && d[0] != '+' && d[0] != 'I';
    assert d != "Infinity" && d != "+Infinity" && d != "-Infinity";
    assert SignedDecimal(d) == Magnitude(DecimalValue(d), false);
  }

  /** `+v`. */
  function ToNumber(v: Js): Number
  {
    match v
    case JNum(n) => n
    case JBool(b) => if b then Int(1) else Int(0)
    case JStr(s) => StringToNumber(s)
    case JDate(ms) => Int(ms)
    case JNull => Int(0)
    case JUndefined => NaN
    case JObj(_) => NaN
    case JArr(items, _) =>
      // An array converts through its comma-joined string form.
      if items == [] then Int(0)
      else if |items| > 1 then NaN
      else match items[0]
        case JNull => Int(0)
        case JUndefined => Int(0)
        case JNum(n) => n
        case JStr(s) => StringToNumber(s)
        case JArr(_, _) => ToNumber(items[0])
        case _ => NaN
  }

  /** `String(n)` for the Numbers represented here. */
  function NumberToString(n: Number): string
  {
    match n
    case Int(i) => if i < 0 then "-" + DecimalString(-i) else DecimalString(i)
    case NaN => "NaN"
    case PosInf => "Infinity"
    case NegInf => "-Infinity"
  }

  /**
   * `String(v)`. An array is its elements' strings joined by commas, with null and
   * undefined elements empty. A Date's text begins with its weekday name; only
   * that it begins with letters is represented.
   */
  function ToStr(v: Js): string
    decreases v, 1
  {
    match v
    case JNum(n) => NumberToString(n)
    case JBool(b) => if b then "true" else "false"
    case JStr(s) => s
    case JDate(_) => "Date"
    case JObj(_) => "[object Object]"
    case JArr(items, _) => ToStrItems(v, 0)
    case JNull => "null"
    case JUndefined => "undefined"
  }

  /** The elements of array `arr` from index `i` on, as `join(',')` writes them. */
  function ToStrItems(arr: Js, i: nat): string
    requires arr.JArr? && i <= |arr.items|
    decreases arr, 0, |arr.items| - i
  {
    if i == |arr.items| then ""
    else
      var e := arr.items[i];
      var t := if e == JNull || e == JUndefined then "" else ToStr(e);
      if i + 1 == |arr.items| then t else t + "," + ToStrItems(arr, i + 1)
  }

  // ---------------------------------------------------------------------------
  // String methods

  function Clip(x: int, n: nat): nat { if x < 0 then 0 else if x > n then n else x }

  /** `s.substring(a, b)`: both ends are clipped to the string and swapped when reversed. */
  function Substring(s: string, a: int, b: int): (r: string)
    ensures |r| <= |s|
    ensures 0 <= a <= b <= |s| ==> r == s[a..b]
    ensures 0 <= b <= a <= |s| ==> r == s[b..a]
    ensures a <= 0 && |s| <= b ==> r == s
  {
    var x, y := Clip(a, |s|), Clip(b, |s|);
    if x <= y then s[x..y] else s[y..x]
  }

  /** `s.indexOf(c)` for a one-character search string. */
  function IndexOf(s: string, c: char): (r: int)
    ensures -1 <= r < |s|
    ensures r >= 0 ==> s[r] == c && c !in s[..r]
    ensures r == -1 <==> c !in s
  {
    if s == [] then -1
    else if s[0] == c then 0
    else var k := IndexOf(s[1..], c);
      assert s[1..][..if k < 0 then 0 else k] == s[1..1 + if k < 0 then 0 else k];
      if k < 0 then -1 else 1 + k
  }

  predicate IsPrefix(x: string, s: string) { |x| <= |s| && s[..|x|] == x }

  /** `s.indexOf(x)` for a search string of any length. */
  function IndexOfString(s: string, x: string): (r: int)
    ensures -1 <= r <= |s|
    ensures r >= 0 ==> IsPrefix(x, s[r..]) && forall k :: 0 <= k < r ==> !IsPrefix(x, s[k..])
    ensures r == -1 ==> forall k :: 0 <= k <= |s| ==> !IsPrefix(x, s[k..])
  {
    if IsPrefix(x, s) then 0
    else if s == [] then -1
    else
      var k := IndexOfString(s[1..], x);
      assert forall j :: 1 <= j <= |s| ==> s[j..] == s[1..][j - 1..];
      assert s[0..] == s;
      if k < 0 then -1 else 1 + k
  }

  lemma IndexOfStringZero(s: string, x: string)
    ensures IndexOfString(s, x) == 0 <==> IsPrefix(x, s)
  {
    assert s[0..] == s;
  }

  /** The pieces joined back with the separator. */
  function JoinWith(parts: seq<string>, sep: char): string
  {
    if parts == [] then ""
    else if |parts| == 1 then parts[0]
    else parts[0] + [sep] + JoinWith(parts[1..], sep)
  }

  /**
   * `path.join(dir, name)` for a name without slashes: one `/` between the two
   * parts (no further normalisation of `.`, `..` or repeated slashes).
   */
  function PathJoin(dir: string, name: string): (r: string)
    ensures |r| >= |dir| + |name|
  {
    if dir == "" then name
    else if dir[|dir| - 1] == '/' then dir + name
    else dir + "/" + name
  }

  /** A joined path starts with the directory, ends with the name, and has a `/` between them. */
  lemma PathJoinParts(dir: string, name: string)
    ensures IsSuffixOf(name, PathJoin(dir, name))
    ensures dir != "" ==> var r := PathJoin(dir, name); IsPrefix(dir, r) && |r| > |name| && r[|r| - |name| - 1] == '/'
  {
  }

  predicate IsSuffixOf(x: string, s: string) { |x| <= |s| && s[|s| - |x|..] == x }

  /** `s.split(sep)` for a one-character separator. */
  function Split(s: string, sep: char): (r: seq<string>)
    ensures |r| >= 1
    ensures forall i :: 0 <= i < |r| ==> sep !in r[i]
    ensures JoinWith(r, sep) == s
    decreases |s|
  {
    var i := IndexOf(s, sep);
    if i < 0 then [s]
    else
      var rest := Split(s[i + 1..], sep);
      assert s == s[..i] + [sep] + s[i + 1..];
      [s[..i]] + rest
  }

  /** Splitting undoes joining pieces that do not contain the separator. */
  lemma {:induction false} SplitJoin(parts: seq<string>, sep: char)
    requires |parts| >= 1
    requires forall i :: 0 <= i < |parts| ==> sep !in parts[i]
    ensures Split(JoinWith(parts, sep), sep) == parts
    decreases |parts|
  {
    if |parts| > 1 {
      var s := JoinWith(parts, sep);
      var p0 := parts[0];
      assert s == p0 + [sep] + JoinWith(parts[1..], sep);
      assert s[..|p0|] == p0 && s[|p0|] == sep;
      assert s[|p0| + 1..] == JoinWith(parts[1..], sep);
      SplitJoin(parts[1..], sep);
    }
  }

  /** `s.toLowerCase()` on the ASCII letters; other characters are kept. */
  function LowerAscii(s: string): (r: string)
    ensures |r| == |s|
    ensures forall i :: 0 <= i < |s| ==> r[i] == if 'A' <= s[i] <= 'Z' then (s[i] as int + 32) as char else s[i]
  {
    if s == [] then []
    else [if 'A' <= s[0] <= 'Z' then (s[0] as int + 32) as char else s[0]] + LowerAscii(s[1..])
  }

  // ---------------------------------------------------------------------------
  // UTF-8

  function Utf8Char(c: char): (r: seq<Byte>)
    ensures 1 <= |r| <= 4
    ensures (c as int < 128) == (|r| == 1)
  {
    var n := c as int;
    if n < 0x80 then [n]
    else if n < 0x800 then [0xC0 + n / 64, 0x80 + n % 64]
    else if n < 0x10000 then [0xE0 + n / 4096, 0x80 + (n / 64) % 64, 0x80 + n % 64]
    else [0xF0 + n / 262144, 0x80 + (n / 4096) % 64, 0x80 + (n / 64) % 64, 0x80 + n % 64]
  }

  /** The bytes of `new Buffer(s, 'utf-8')`. */
  function Utf8(s: string): (r: seq<Byte>)
    ensures |r| >= |s|
  {
    if s == [] then [] else Utf8Char(s[0]) + Utf8(s[1..])
  }

  predicate IsAscii(s: string) { forall i :: 0 <= i < |s| ==> s[i] as int < 128 }

  /** An ASCII string encodes to one byte per character, each its code unit. */
  lemma {:induction false} Utf8Ascii(s: string)
    requires IsAscii(s)
    ensures |Utf8(s)| == |s|
    ensures forall i :: 0 <= i < |s| ==> Utf8(s)[i] == s[i] as int
  {
    if s != [] {
      assert IsAscii(s[1..]) by {
        forall i | 0 <= i < |s[1..]| ensures s[1..][i] as int < 128 { assert s[1..][i] == s[i + 1]; }
      }
      Utf8Ascii(s[1..]);
    }
  }

  lemma {:induction false} Utf8Append(a: string, b: string)
    ensures Utf8(a + b) == Utf8(a) + Utf8(b)
  {
    if a == [] {
      assert a + b == b;
    } else {
      var ab := a + b;
      assert ab[0] == a[0] && ab[1..] == a[1..] + b;
      Utf8Append(a[1..], b);
      var c := Utf8Char(a[0]);
      assert Utf8(ab) == c + Utf8(a[1..] + b);
      assert Utf8(a) == c + Utf8(a[1..]);
    }
  }
}
