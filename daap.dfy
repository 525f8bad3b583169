/**
 * The DAAP response encoder of daap.js: fixed-width big-endian integer fields
 * with clamping, dates, versions, strings and nested containers, all framed as
 * a four-byte tag, a four-byte length and the value; the builder that turns a
 * one-key response object into bytes; and the song/container listing the item
 * handlers send.
 */
module Daap {
  import opened Wrappers
  import opened JsValues
  import opened DaapTags

  const MaxByte1: nat := 255
  const MaxByte2: nat := 65535
  const MaxByte4: nat := 4294967295

  function Min(a: int, b: int): int { if a <= b then a else b }

  // ---------------------------------------------------------------------------
  // Fixed-width fields

  function Pow256(k: nat): (r: nat)
    ensures r >= 1
  {
    if k == 0 then 1 else 256 * Pow256(k - 1)
  }

  /** The `k` low-order bytes of `v`, most significant first. */
  function BigEndian(v: nat, k: nat): (r: seq<Byte>)
    ensures |r| == k
  {
    if k == 0 then [] else BigEndian(v / 256, k - 1) + [v % 256]
  }

  /** The number a big-endian byte string denotes; the reading side of every integer field. */
  function FromBigEndian(bs: seq<Byte>): (r: nat)
    ensures r < Pow256(|bs|)
  {
    if bs == [] then 0 else FromBigEndian(bs[..|bs| - 1]) * 256 + bs[|bs| - 1]
  }

  lemma {:induction false} BigEndianRoundTrip(v: nat, k: nat)
    requires v < Pow256(k)
    ensures FromBigEndian(BigEndian(v, k)) == v
  {
    if k > 0 {
      BigEndianRoundTrip(v / 256, k - 1);
      assert BigEndian(v, k)[..k - 1] == BigEndian(v / 256, k - 1);
    }
  }

  /**
   * `Math.min(hi, Math.max(0, n))` as written by Buffer's unsigned writers: NaN
   * passes the writer's range check and is stored as 0.
   */
  function Clamp(n: Number, hi: nat): (r: nat)
    ensures r <= hi
    ensures n.Int? && 0 <= n.i <= hi ==> r == n.i
    ensures (n.Int? && n.i > hi) || n == PosInf ==> r == hi
    ensures (n.Int? && n.i < 0) || n == NegInf || n == NaN ==> r == 0
  {
    match n
    case Int(i) => if i < 0 then 0 else if i > hi then hi else i
    case PosInf => hi
    case NegInf => 0
    case NaN => 0
  }

  /** `number2`: a two-byte field that reads back as the clamped value. */
  function Number2(n: Number): (r: seq<Byte>)
    ensures |r| == 2 && FromBigEndian(r) == Clamp(n, MaxByte2)
  {
    BigEndianRoundTrip(Clamp(n, MaxByte2), 2);
    BigEndian(Clamp(n, MaxByte2), 2)
  }

  /** `number4`, and `size` of a byte count. */
  function Number4(n: Number): (r: seq<Byte>)
    ensures |r| == 4 && FromBigEndian(r) == Clamp(n, MaxByte4)
  {
    BigEndianRoundTrip(Clamp(n, MaxByte4), 4);
    BigEndian(Clamp(n, MaxByte4), 4)
  }

  /** `number8`: the high word is always zero, so values above 2^32 - 1 are clamped. */
  function Number8(n: Number): (r: seq<Byte>)
    ensures |r| == 8 && r[..4] == [0, 0, 0, 0] && FromBigEndian(r[4..]) == Clamp(n, MaxByte4)
  {
    var lo := Number4(n);
    assert ([0, 0, 0, 0] + lo)[4..] == lo;
    [0, 0, 0, 0] + lo
  }

  /** `byte`: `+n`, clamped to one byte. */
  function ByteField(v: Js): (r: seq<Byte>)
    ensures |r| == 1 && r[0] == Clamp(ToNumber(v), MaxByte1)
  {
    [Clamp(ToNumber(v), MaxByte1)]
  }

  /**
   * `date`: milliseconds since the epoch divided by 1000. The four-byte writer
   * rejects a quotient outside [0, 2^32 - 1] and drops the fraction.
   */
  function DateField(ms: int): (r: Option<seq<Byte>>)
    ensures r.Some? <==> 0 <= ms <= MaxByte4 * 1000
    ensures r.Some? ==> |r.value| == 4 && FromBigEndian(r.value) == ms / 1000
  {
    if ms < 0 || ms > MaxByte4 * 1000 then None
    else
      BigEndianRoundTrip(ms / 1000, 4);
      Some(BigEndian(ms / 1000, 4))
  }

  // ---------------------------------------------------------------------------
  // Versions: the first match of /([0-9]+)\.([0-9]+)(?:\.([0-9]+))?/

  datatype VersionParts = VersionParts(major: string, minor: string, patch: Option<string>)

  /** The end of the run of digits that starts at `i`. */
  function DigitRun(s: string, i: nat): (j: nat)
    requires i <= |s|
    ensures i <= j <= |s| && AllDigits(s[i..j]) && (j == |s| || !IsDigit(s[j]))
    decreases |s| - i
  {
    if i < |s| && IsDigit(s[i]) then
      var j := DigitRun(s, i + 1);
      assert s[i..j] == [s[i]] + s[i + 1..j];
      j
    else i
  }

  /**
   * The match starting at `i`, if any. A shorter first group would be followed by
   * a digit rather than the dot, and the optional third group is tried after the
   * longest second group, so only maximal digit runs need to be considered.
   */
  function MatchAt(s: string, i: nat): (r: Option<VersionParts>)
    requires i <= |s|
    ensures r.Some? ==> r.value.major != "" && AllDigits(r.value.major) && r.value.minor != "" && AllDigits(r.value.minor)
    ensures r.Some? && r.value.patch.Some? ==> r.value.patch.value != "" && AllDigits(r.value.patch.value)
  {
    if i < |s| && IsDigit(s[i]) then
      var j := DigitRun(s, i);
      if j + 1 < |s| && s[j] == '.' && IsDigit(s[j + 1]) then
        var k := DigitRun(s, j + 1);
        var patch := if k + 1 < |s| && s[k] == '.' && IsDigit(s[k + 1]) then Some(s[k + 1..DigitRun(s, k + 1)]) else None;
        Some(VersionParts(s[i..j], s[j + 1..k], patch))
      else None
    else None
  }

  /** `verTmpl.exec(s)`: the leftmost match. */
  function VersionExec(s: string, from: nat := 0): (r: Option<VersionParts>)
    requires from <= |s|
    ensures r.Some? <==> exists i :: from <= i <= |s| && MatchAt(s, i).Some?
    ensures r.Some? ==> exists i :: from <= i <= |s| && MatchAt(s, i) == r && forall k :: from <= k < i ==> MatchAt(s, k).None?
    decreases |s| - from
  {
    if MatchAt(s, from).Some? then MatchAt(s, from)
    else if from == |s| then None
    else VersionExec(s, from + 1)
  }

  /** `version`: major clamped to two bytes, minor and patch to one; a missing patch is 0. */
  function VersionField(p: VersionParts): (r: seq<Byte>)
    requires AllDigits(p.major) && AllDigits(p.minor) && (p.patch.Some? ==> AllDigits(p.patch.value))
    ensures |r| == 4
    ensures FromBigEndian(r[..2]) == Min(MaxByte2, DecimalValue(p.major))
    ensures r[2] == Min(MaxByte1, DecimalValue(p.minor))
    ensures r[3] == if p.patch.None? then 0 else Min(MaxByte1, DecimalValue(p.patch.value))
  {
    var major := Min(MaxByte2, DecimalValue(p.major));
    BigEndianRoundTrip(major, 2);
    var hi := BigEndian(major, 2);
    var r := hi + [Min(MaxByte1, DecimalValue(p.minor)), if p.patch.None? then 0 else Min(MaxByte1, DecimalValue(p.patch.value))];
    assert r[..2] == hi;
    r
  }

  /** The canonical text of a version. */
  function VersionText(major: nat, minor: nat, patch: Option<nat>): string
  {
    DecimalString(major) + "." + DecimalString(minor) + (if patch.None? then "" else "." + DecimalString(patch.value))
  }

  /** A version written out in digits and dots is matched whole, component by component. */
  lemma VersionTextMatches(major: nat, minor: nat, patch: Option<nat>)
    ensures VersionExec(VersionText(major, minor, patch))
         == Some(VersionParts(DecimalString(major), DecimalString(minor), if patch.None? then None else Some(DecimalString(patch.value))))
  {
    var p := if patch.None? then None else Some(DecimalString(patch.value));
    var c := if patch.None? then "" else "." + DecimalString(patch.value);
    MatchAtVersion(DecimalString(major), DecimalString(minor), c, p);
  }

  lemma MatchAtVersion(a: string, b: string, c: string, p: Option<string>)
    requires a != "" && AllDigits(a) && b != "" && AllDigits(b)
    requires (p.None? && c == "") || (p.Some? && p.value != "" && AllDigits(p.value) && c == "." + p.value)
    ensures MatchAt(a + "." + b + c, 0) == Some(VersionParts(a, b, p))
  {
    if p.Some? {
      MatchAtPatch(a, b, p.value);
    } else {
      assert a + "." + b + c == a + "." + b;
      MatchAtNoPatch(a, b);
    }
  }

  lemma MatchAtNoPatch(a: string, b: string)
    requires a != "" && AllDigits(a) && b != "" && AllDigits(b)
    ensures MatchAt(a + "." + b, 0) == Some(VersionParts(a, b, None))
  {
    var s := a + "." + b;
    var j := |a|;
    assert s[0..j] == a && s[..j] == a && s[0] == a[0];
    assert s[j] == '.' && s[j + 1..j + 1 + |b|] == b && s[j + 1..] == b && s[j + 1] == b[0];
    RunOver(s, 0, a);
    RunOver(s, j + 1, b);
    MatchAtTwo(s, j);
  }

  /** Two maximal digit runs, at the start and after a dot to the end. */
  lemma MatchAtTwo(s: string, j: nat)
    requires 0 < j && j + 1 < |s|
    requires DigitRun(s, 0) == j && s[j] == '.' && DigitRun(s, j + 1) == |s| && IsDigit(s[0]) && IsDigit(s[j + 1])
    ensures MatchAt(s, 0) == Some(VersionParts(s[..j], s[j + 1..], None))
  {
    assert s[0..j] == s[..j];
    assert s[j + 1..DigitRun(s, j + 1)] == s[j + 1..];
  }

  lemma MatchAtPatch(a: string, b: string, q: string)
    requires a != "" && AllDigits(a) && b != "" && AllDigits(b) && q != "" && AllDigits(q)
    ensures MatchAt(a + "." + b + ("." + q), 0) == Some(VersionParts(a, b, Some(q)))
  {
    var s := a + "." + b + ("." + q);
    var j := |a|;
    var k := |a| + 1 + |b|;
    VersionSlices(a, b, q);
    ThreeRuns(s, a, b, q, j, k);
    MatchAtThree(s, j, k);
  }

  /** Three digit strings separated by dots are the maximal runs at their positions. */
  lemma ThreeRuns(s: string, a: string, b: string, q: string, j: nat, k: nat)
    requires a != "" && AllDigits(a) && b != "" && AllDigits(b) && q != "" && AllDigits(q)
    requires j == |a| && k == j + 1 + |b| && |s| == k + 1 + |q|
    requires s[0..j] == a && s[j] == '.' && s[j + 1..k] == b && s[k] == '.' && s[k + 1..] == q
    ensures DigitRun(s, 0) == j && DigitRun(s, j + 1) == k && DigitRun(s, k + 1) == |s|
    ensures IsDigit(s[0]) && IsDigit(s[j + 1]) && IsDigit(s[k + 1])
  {
    assert s[0] == a[0] && s[j + 1] == b[0] && s[k + 1] == q[0];
    assert s[k + 1..k + 1 + |q|] == q;
    RunOver(s, 0, a);
    RunOver(s, j + 1, b);
    RunOver(s, k + 1, q);
  }

  lemma VersionSlices(a: string, b: string, q: string)
    requires a != "" && b != "" && q != ""
    ensures var s := a + "." + b + ("." + q);
            var j, k := |a|, |a| + 1 + |b|;
            && |s| == k + 1 + |q| && s[0..j] == a && s[..j] == a && s[0] == a[0]
            && s[j] == '.' && s[j + 1..k] == b && s[j + 1..j + 1 + |b|] == b && s[j + 1] == b[0]
            && s[k] == '.' && s[k + 1..k + 1 + |q|] == q && s[k + 1..] == q && s[k + 1] == q[0]
  {
    var s := a + "." + b + ("." + q);
    var j := |a|;
    var k := |a| + 1 + |b|;
    assert s[..j] == a && s[j] == '.' && s[j + 1..k] == b && s[j + 1] == b[0];
    assert s[k] == '.' && s[k + 1..] == q && s[k + 1] == q[0];
  }

  /** Three maximal digit runs at the start, after a dot, and after another dot to the end. */
  lemma MatchAtThree(s: string, j: nat, k: nat)
    requires 0 < j && j + 1 < k && k + 1 < |s|
    requires DigitRun(s, 0) == j && s[j] == '.' && DigitRun(s, j + 1) == k
    requires s[k] == '.' && DigitRun(s, k + 1) == |s| && IsDigit(s[0]) && IsDigit(s[j + 1]) && IsDigit(s[k + 1])
    ensures MatchAt(s, 0) == Some(VersionParts(s[..j], s[j + 1..k], Some(s[k + 1..])))
  {
    assert s[0..j] == s[..j];
    assert s[k + 1..DigitRun(s, k + 1)] == s[k + 1..];
  }

  /** A run of digits placed at `i` and followed by a non-digit or the end is the maximal run there. */
  lemma RunOver(s: string, i: nat, d: string)
    requires i + |d| <= |s| && d != [] && AllDigits(d) && s[i..i + |d|] == d
    requires i + |d| == |s| || !IsDigit(s[i + |d|])
    ensures DigitRun(s, i) == i + |d|
    decreases |d|
  {
    assert s[i] == d[0];
    if |d| > 1 {
      assert s[i + 1..i + 1 + |d[1..]|] == d[1..];
      RunOver(s, i + 1, d[1..]);
    }
  }

  // ---------------------------------------------------------------------------
  // Type checks and the recursive encoder

  /** `chktype`, keyed by wire type. */
  predicate TypeAccepted(wire: int, v: Js)
  {
    if wire == 1 then v.JNum? || v.JBool?
    else if wire == 3 || wire == 5 || wire == 7 then v.JNum?
    else if wire == 9 then v.JStr?
    else if wire == 10 then v.JDate?
    else if wire == 11 then v.JStr? && VersionExec(v.s).Some?
    else if wire == 12 then TypeOf(v) == "object"
    else true
  }

  /** Why `buffer` threw. */
  datatype EncodeError =
    | UnknownKey(key: string)
    | InvalidType(key: string)
    | UnknownType(key: string, wire: int)
    | NoKey
    | DateOutOfRange(key: string)

  /** A complete tag-length-value node carrying tag bytes `head` and value bytes `body`. */
  function Frame(head: seq<Byte>, body: seq<Byte>): seq<Byte>
  {
    head + Number4(Int(|body|)) + body
  }

  lemma FrameShape(key: string, body: seq<Byte>)
    requires TagOf(key).Some?
    ensures |Frame(Utf8(key), body)| == 8 + |body|
    ensures Frame(Utf8(key), body)[..4] == Utf8(key)
    ensures FromBigEndian(Frame(Utf8(key), body)[4..8]) == Min(|body|, MaxByte4)
    ensures Frame(Utf8(key), body)[8..] == body
  {
    assert IsAscii(key);
    Utf8Ascii(key);
    var f := Frame(Utf8(key), body);
    assert f[4..8] == Number4(Int(|body|));
  }

  /**
   * `buffer({key: val})`: the node for one key. Unknown keys, values of the wrong
   * JavaScript type, the wire types without an encoder and dates the writer
   * rejects are errors; a container's value is the concatenation of its
   * children's nodes.
   */
  function Encode(key: string, val: Js): (r: Result<seq<Byte>, EncodeError>)
    ensures TagOf(key).None? ==> r == Err(UnknownKey(key))
    ensures TagOf(key).Some? && !TypeAccepted(Wire(TagOf(key).value), val) ==> r == Err(InvalidType(key))
    ensures TagOf(key).Some? && Wire(TagOf(key).value) !in {1, 3, 5, 7, 9, 10, 11, 12} ==> r.Err?
    ensures r.Ok? ==> TagOf(key).Some? && |r.value| >= 8 && r.value[..4] == Utf8(key)
                      && FromBigEndian(r.value[4..8]) == Min(|r.value| - 8, MaxByte4)
    ensures r.Ok? && Wire(TagOf(key).value) in {1, 3, 5, 7, 10, 11} ==>
              |r.value| == 8 + (match Wire(TagOf(key).value) case 1 => 1 case 3 => 2 case 7 => 8 case _ => 4)
    decreases val, 2
  {
    match TagOf(key)
    case None => Err(UnknownKey(key))
    case Some(t) =>
      var w := Wire(t);
      FrameShape(key, []);
      if !TypeAccepted(w, val) then Err(InvalidType(key))
      else if w == 1 then FrameOk(key, ByteField(val))
      else if w == 3 then FrameOk(key, Number2(val.num))
      else if w == 5 then FrameOk(key, Number4(val.num))
      else if w == 7 then FrameOk(key, Number8(val.num))
      else if w == 9 then FrameOk(key, Utf8(val.s))
      else if w == 10 then
        (match DateField(val.ms)
         case None => Err(DateOutOfRange(key))
         case Some(b) => FrameOk(key, b))
      else if w == 11 then FrameOk(key, VersionField(VersionExec(val.s).value))
      else if w == 12 then
        (match EncodeChildren(val)
         case Err(e) => Err(e)
         case Ok(b) => FrameOk(key, b))
      else Err(UnknownType(key, w))
  }

  function FrameOk(key: string, body: seq<Byte>): (r: Result<seq<Byte>, EncodeError>)
    requires TagOf(key).Some?
    ensures r.Ok? && |r.value| == 8 + |body| && r.value[..4] == Utf8(key)
    ensures FromBigEndian(r.value[4..8]) == Min(|body|, MaxByte4) && r.value[8..] == body
  {
    FrameShape(key, body);
    Ok(Frame(Utf8(key), body))
  }

  /**
   * The value of a container: an array's elements in order; any other object
   * (including null and a Date, which have no enumerable keys) as one single-key
   * node per own key, in key order.
   */
  function EncodeChildren(val: Js): Result<seq<Byte>, EncodeError>
    requires TypeOf(val) == "object"
    decreases val, 1
  {
    match val
    case JArr(_, _) => EncodeItems(val, 0)
    case JObj(_) => EncodePairs(val, 0)
    case _ => Ok([])
  }

  /** The nodes of the elements of container array `arr` from index `i` on, concatenated; the first failure aborts. */
  function EncodeItems(arr: Js, i: nat): Result<seq<Byte>, EncodeError>
    requires arr.JArr? && i <= |arr.items|
    decreases arr, 0, |arr.items| - i
  {
    if i == |arr.items| then Ok([])
    else
      match EncodeNode(arr.items[i])
      case Err(e) => Err(e)
      case Ok(b) =>
        match EncodeItems(arr, i + 1)
        case Err(e) => Err(e)
        case Ok(rest) => Ok(b + rest)
  }

  /** The single-key nodes of the properties of `obj` from index `i` on, concatenated. */
  function EncodePairs(obj: Js, i: nat): Result<seq<Byte>, EncodeError>
    requires obj.JObj? && i <= |obj.props|
    decreases obj, 0, |obj.props| - i
  {
    if i == |obj.props| then Ok([])
    else
      match Encode(obj.props[i].0, obj.props[i].1)
      case Err(e) => Err(e)
      case Ok(b) =>
        match EncodePairs(obj, i + 1)
        case Err(e) => Err(e)
        case Ok(rest) => Ok(b + rest)
  }

  /**
   * `buffer(obj)` for any value: the node of its first own key,
   * `Object.keys(obj)[0]`. An array's first key is "0", which is no tag; a value
   * with no keys at all has no key to build from.
   */
  function EncodeNode(node: Js): (r: Result<seq<Byte>, EncodeError>)
    ensures node.JObj? && node.props != [] ==> r == Encode(node.props[0].0, node.props[0].1)
    ensures node.JObj? && node.props == [] ==> r == Err(NoKey)
    ensures node.JArr? && node.items != [] ==> r == Err(UnknownKey("0"))
    ensures !node.JObj? && !node.JArr? && !node.JStr? ==> r == Err(NoKey)
    decreases node, 3
  {
    match node
    case JObj(ps) => if ps == [] then Err(NoKey) else Encode(ps[0].0, ps[0].1)
    case JArr(items, extra) =>
      if items != [] then Err(UnknownKey("0"))
      else if extra == [] then Err(NoKey)
      else Encode(extra[0].0, extra[0].1)
    case JStr(s) => if s != "" then Err(UnknownKey("0")) else Err(NoKey)
    case _ => Err(NoKey)
  }

  /**
   * `build(obj, cb)`: the response bytes, or nothing when `buffer` threw (the
   * error is logged and the callback never runs).
   */
  function Build(obj: Js): Option<seq<Byte>>
  {
    EncodeNode(obj).ToOption()
  }

  /** A non-array object is encoded exactly as the array of its single-key objects. */
  lemma {:induction false} ObjectAsSingleKeyNodes(ps: seq<(string, Js)>, i: nat)
    requires i <= |ps|
    ensures EncodePairs(JObj(ps), i) == EncodeItems(JArr(SingleKeyNodes(ps), []), i)
    decreases |ps| - i
  {
    if i < |ps| {
      ObjectAsSingleKeyNodes(ps, i + 1);
      assert EncodeNode(SingleKeyNodes(ps)[i]) == Encode(ps[i].0, ps[i].1);
    }
  }

  function SingleKeyNodes(ps: seq<(string, Js)>): (r: seq<Js>)
    ensures |r| == |ps|
    ensures forall i :: 0 <= i < |ps| ==> r[i] == JObj([ps[i]])
  {
    seq(|ps|, i requires 0 <= i < |ps| => JObj([ps[i]]))
  }

  /** Properties assigned to an array beside its elements never reach the wire. */
  lemma ArrayExtrasIgnored(key: string, items: seq<Js>, extra1: seq<(string, Js)>, extra2: seq<(string, Js)>)
    ensures Encode(key, JArr(items, extra1)) == Encode(key, JArr(items, extra2))
  {
    EncodeArrCongruence(key, JArr(items, extra1), JArr(items, extra2));
  }

  lemma EncodeItemsStep(x1: Js, x2: Js, i: nat)
    requires x1.JArr? && x2.JArr? && |x1.items| == |x2.items| && i < |x1.items|
    requires EncodeNode(x1.items[i]) == EncodeNode(x2.items[i])
    requires EncodeItems(x1, i + 1) == EncodeItems(x2, i + 1)
    ensures EncodeItems(x1, i) == EncodeItems(x2, i)
  {
  }

  lemma {:induction false} EncodeItemsCongruence(x1: Js, x2: Js, i: nat)
    requires x1.JArr? && x2.JArr? && |x1.items| == |x2.items| && i <= |x1.items|
    requires forall j :: i <= j < |x1.items| ==> EncodeNode(x1.items[j]) == EncodeNode(x2.items[j])
    ensures EncodeItems(x1, i) == EncodeItems(x2, i)
    decreases |x1.items| - i
  {
    if i < |x1.items| {
      EncodeItemsCongruence(x1, x2, i + 1);
      EncodeItemsStep(x1, x2, i);
    }
  }

  /** Items that encode alike, position by position, make arrays that encode alike. */
  lemma EncodeArrCongruence(k0: string, x1: Js, x2: Js)
    requires x1.JArr? && x2.JArr? && |x1.items| == |x2.items|
    requires forall j :: 0 <= j < |x1.items| ==> EncodeNode(x1.items[j]) == EncodeNode(x2.items[j])
    ensures Encode(k0, x1) == Encode(k0, x2)
  {
    EncodeItemsCongruence(x1, x2, 0);
    EncodeChildrenCongruence(k0, x1, x2);
  }

  /** Two single-key objects whose pairs encode alike encode alike. */
  lemma EncodeSingleCongruence(k0: string, o1: Js, o2: Js)
    requires o1.JObj? && o2.JObj? && |o1.props| == 1 && |o2.props| == 1
    requires Encode(o1.props[0].0, o1.props[0].1) == Encode(o2.props[0].0, o2.props[0].1)
    ensures Encode(k0, o1) == Encode(k0, o2)
  {
    assert EncodePairs(o1, 1) == Ok([]) && EncodePairs(o2, 1) == Ok([]);
    assert EncodePairs(o1, 0) == EncodePairs(o2, 0);
    EncodeChildrenCongruence(k0, o1, o2);
  }

  /** Containers whose children encode alike encode alike under any key. */
  lemma EncodeChildrenCongruence(key: string, x1: Js, x2: Js)
    requires (x1.JObj? || x1.JArr?) && (x2.JObj? || x2.JArr?)
    requires EncodeChildren(x1) == EncodeChildren(x2)
    ensures Encode(key, x1) == Encode(key, x2)
  {
  }

  // ---------------------------------------------------------------------------
  // Start-up: the reverse table

  /** `init`: walks the registry in order and binds each descriptor to its tag. */
  method Init() returns (desc2tag: map<string, Tag>)
    ensures forall t: Tag :: Desc(t) in desc2tag && desc2tag[Desc(t)] == t
    ensures forall d :: d in desc2tag ==> Desc2Tag(d) == Some(desc2tag[d])
    ensures forall d :: d !in desc2tag ==> Desc2Tag(d) == None
  {
    desc2tag := map[];
    var n: nat := 0;
    while n < TagCount
      invariant n <= TagCount
      invariant desc2tag == DescTable(n)
    {
      desc2tag := desc2tag[Desc(n as Tag) := n as Tag];
      n := n + 1;
    }
    forall t: Tag ensures Desc(t) in desc2tag && desc2tag[Desc(t)] == t {
      Desc2TagDesc(Desc(t), t);
    }
  }

  // ---------------------------------------------------------------------------
  // Listings

  /** A song record as the store returns it. */
  type Song = map<string, Js>

  /** `song[f]`. */
  function FieldOf(song: Song, f: string): Js
  {
    if f in song then song[f] else JUndefined
  }

  /** The tag a requested descriptor contributes to a listing, if any. */
  function ListedTag(meta: string): Option<Tag>
  {
    match Desc2Tag(meta)
    case Some(t) => if Field(t).Some? then Some(t) else None
    case None => None
  }

  /**
   * The `mlit` object of one song: the requested descriptors are taken in
   * request order, and each that names a registered tag with a record field binds
   * that tag's code to the song's value of the field.
   */
  function MlitProps(song: Song, metas: seq<string>): seq<(string, Js)>
    decreases |metas|
  {
    if metas == [] then []
    else
      var props := MlitProps(song, metas[..|metas| - 1]);
      match ListedTag(metas[|metas| - 1])
      case None => props
      case Some(t) => Assign(props, Code(t), FieldOf(song, Field(t).value))
  }

  /** Every key of an `mlit` is the code of a requested tag that carries a record field. */
  lemma {:induction false} MlitKeysRequested(song: Song, metas: seq<string>, i: nat)
    requires i < |MlitProps(song, metas)|
    ensures exists j :: 0 <= j < |metas| && ListedTag(metas[j]).Some? && MlitProps(song, metas)[i].0 == Code(ListedTag(metas[j]).value)
    decreases |metas|
  {
    var front := metas[..|metas| - 1];
    var props := MlitProps(song, front);
    var r := MlitProps(song, metas);
    match ListedTag(metas[|metas| - 1])
    case None =>
      assert r == props;
      MlitKeysRequested(song, front, i);
      var j :| 0 <= j < |front| && ListedTag(front[j]).Some? && r[i].0 == Code(ListedTag(front[j]).value);
      assert metas[j] == front[j];
    case Some(t) =>
      AssignedKeyAt(props, Code(t), FieldOf(song, Field(t).value), i);
      if i < |props| && r[i].0 == props[i].0 {
        MlitKeysRequested(song, front, i);
        var j :| 0 <= j < |front| && ListedTag(front[j]).Some? && r[i].0 == Code(ListedTag(front[j]).value);
        assert metas[j] == front[j];
      } else {
        assert ListedTag(metas[|metas| - 1]) == Some(t);
      }
  }

  /** A key of a binding result is either the key at the same place before or the bound key. */
  lemma AssignedKeyAt(props: seq<(string, Js)>, k: string, v: Js, i: nat)
    requires i < |Assign(props, k, v)|
    ensures (i < |props| && Assign(props, k, v)[i].0 == props[i].0) || Assign(props, k, v)[i].0 == k
  {
    var r := Assign(props, k, v);
    AssignKeyOrder(props, k, v);
    assert r[i].0 == Keys(r)[i];
    if i < |props| {
      assert Keys(r)[i] == Keys(props)[i];
    }
  }

  /** Every requested tag that carries a record field is bound to the song's value of that field. */
  lemma {:induction false} MlitValues(song: Song, metas: seq<string>, j: nat)
    requires j < |metas| && ListedTag(metas[j]).Some?
    ensures Lookup(MlitProps(song, metas), Code(ListedTag(metas[j]).value)) == FieldOf(song, Field(ListedTag(metas[j]).value).value)
    decreases |metas|
  {
    var front := metas[..|metas| - 1];
    var props := MlitProps(song, front);
    var u := ListedTag(metas[j]).value;
    match ListedTag(metas[|metas| - 1])
    case None =>
      assert metas[j] == front[j];
      MlitValues(song, front, j);
    case Some(t) =>
      if j < |metas| - 1 {
        assert metas[j] == front[j];
        CodeInjective(u, t);
        if u != t {
          MlitValues(song, front, j);
        }
      }
  }

  /** No key occurs twice in an `mlit`: a tag requested twice keeps its first position. */
  lemma {:induction false} MlitKeysDistinct(song: Song, metas: seq<string>)
    ensures forall i, k :: 0 <= i < k < |MlitProps(song, metas)| ==> MlitProps(song, metas)[i].0 != MlitProps(song, metas)[k].0
    decreases |metas|
  {
    if metas != [] {
      var front := metas[..|metas| - 1];
      MlitKeysDistinct(song, front);
      match ListedTag(metas[|metas| - 1])
      case None =>
      case Some(t) =>
        AssignKeys(MlitProps(song, front), Code(t), FieldOf(song, Field(t).value));
    }
  }

  /** Binding a key keeps the keys distinct and adds exactly that key. */
  lemma AssignKeys(props: seq<(string, Js)>, k: string, v: Js)
    requires forall i, j :: 0 <= i < j < |props| ==> props[i].0 != props[j].0
    ensures forall i, j :: 0 <= i < j < |Assign(props, k, v)| ==> Assign(props, k, v)[i].0 != Assign(props, k, v)[j].0
    ensures forall i :: 0 <= i < |Assign(props, k, v)| ==>
              Assign(props, k, v)[i].0 == k || exists j :: 0 <= j < |props| && props[j].0 == Assign(props, k, v)[i].0
  {
    var r := Assign(props, k, v);
    AssignKeyOrder(props, k, v);
    var kp, kr := Keys(props), Keys(r);
    KeysGrow(kp, kr, k);
    forall i | 0 <= i < |r| && r[i].0 != k ensures exists j :: 0 <= j < |props| && props[j].0 == r[i].0 {
      assert kr[i] in kp;
      var j :| 0 <= j < |kp| && kp[j] == kr[i];
      assert props[j].0 == r[i].0;
    }
  }

  /** A key sequence without repeats that gains `k` only when `k` is new stays without repeats. */
  lemma KeysGrow(kp: seq<string>, kr: seq<string>, k: string)
    requires forall i, j :: 0 <= i < j < |kp| ==> kp[i] != kp[j]
    requires kr == if k in kp then kp else kp + [k]
    ensures forall i, j :: 0 <= i < j < |kr| ==> kr[i] != kr[j]
    ensures forall i :: 0 <= i < |kr| ==> kr[i] == k || kr[i] in kp
  {
  }

  /** The keys of a property list, in order. */
  function Keys(props: seq<(string, Js)>): (r: seq<string>)
    ensures |r| == |props| && forall i :: 0 <= i < |props| ==> r[i] == props[i].0
  {
    seq(|props|, i requires 0 <= i < |props| => props[i].0)
  }

  /** Binding a present key keeps the key order; binding a new one appends it. */
  lemma {:induction false} AssignKeyOrder(props: seq<(string, Js)>, k: string, v: Js)
    ensures Keys(Assign(props, k, v)) == if k in Keys(props) then Keys(props) else Keys(props) + [k]
    decreases |props|
  {
    if props != [] {
      if props[0].0 == k {
        AssignKeyHead(props, k, v);
      } else {
        AssignKeyOrder(props[1..], k, v);
        AssignKeyTail(props, k, v);
      }
    }
  }

  lemma AssignKeyHead(props: seq<(string, Js)>, k: string, v: Js)
    requires props != [] && props[0].0 == k
    ensures k in Keys(props) && Keys(Assign(props, k, v)) == Keys(props)
  {
    assert Keys(props)[0] == k;
    assert Keys([(k, v)] + props[1..]) == Keys(props);
  }

  lemma AssignKeyTail(props: seq<(string, Js)>, k: string, v: Js)
    requires props != [] && props[0].0 != k
    requires Keys(Assign(props[1..], k, v)) == if k in Keys(props[1..]) then Keys(props[1..]) else Keys(props[1..]) + [k]
    ensures Keys(Assign(props, k, v)) == if k in Keys(props) then Keys(props) else Keys(props) + [k]
  {
    var rest := Assign(props[1..], k, v);
    assert props == [props[0]] + props[1..];
    assert Assign(props, k, v) == [props[0]] + rest;
    ConsKeys(props[0], props[1..], rest, k);
  }

  lemma ConsKeys(p0: (string, Js), tail: seq<(string, Js)>, rest: seq<(string, Js)>, k: string)
    requires p0.0 != k
    requires Keys(rest) == if k in Keys(tail) then Keys(tail) else Keys(tail) + [k]
    ensures Keys([p0] + rest) == if k in Keys([p0] + tail) then Keys([p0] + tail) else Keys([p0] + tail) + [k]
  {
    var h, ks := p0.0, Keys(tail);
    assert Keys([p0] + tail) == [h] + ks;
    assert Keys([p0] + rest) == [h] + Keys(rest);
    assert k in [h] + ks <==> k in ks;
    if k !in ks {
      assert [h] + (ks + [k]) == [h] + ks + [k];
    }
  }

  function Status(code: int): Js { JObj([("mstt", JNum(Int(code)))]) }

  /** One `{mlit: ...}` entry per song, in the order the store returned them. */
  function Listing(songs: seq<Song>, metas: seq<string>): (r: seq<Js>)
    ensures |r| == |songs|
    ensures forall i :: 0 <= i < |songs| ==> r[i] == JObj([("mlit", JObj(MlitProps(songs[i], metas)))])
  {
    seq(|songs|, i requires 0 <= i < |songs| => JObj([("mlit", JObj(MlitProps(songs[i], metas)))]))
  }

  /**
   * `item(container, songs, metas)`: the response object of a song listing
   * (`adbs`) or of a playlist listing (`apso`).
   */
  function ItemTree(container: bool, songs: seq<Song>, metas: seq<string>): Js
  {
    var n := JNum(Int(|songs|));
    JObj([(if container then "apso" else "adbs",
           JArr([Status(200), JObj([("muty", JNum(Int(1)))]), JObj([("mtco", n)]), JObj([("mrco", n)]),
                 JObj([("mlcl", JArr(Listing(songs, metas), []))])], []))])
  }

  /** `item`: builds the listing song by song. */
  method Item(container: bool, songs: seq<Song>, metas: seq<string>) returns (obj: Js)
    ensures obj == ItemTree(container, songs, metas)
  {
    var mlcl: seq<Js> := [];
    var i := 0;
    while i < |songs|
      invariant i <= |songs|
      invariant mlcl == Listing(songs[..i], metas)
    {
      var mlit := Mlit(songs[i], metas);
      mlcl := mlcl + [JObj([("mlit", JObj(mlit))])];
      assert songs[..i + 1][..i] == songs[..i];
      i := i + 1;
    }
    assert songs[..i] == songs;
    var n := JNum(Int(|songs|));
    obj := JObj([(if container then "apso" else "adbs",
                  JArr([Status(200), JObj([("muty", JNum(Int(1)))]), JObj([("mtco", n)]), JObj([("mrco", n)]),
                        JObj([("mlcl", JArr(mlcl, []))])], []))]);
  }

  /** One song's `mlit` properties, built descriptor by descriptor. */
  method Mlit(song: Song, metas: seq<string>) returns (mlit: seq<(string, Js)>)
    ensures mlit == MlitProps(song, metas)
  {
    mlit := [];
    var j := 0;
    while j < |metas|
      invariant j <= |metas|
      invariant mlit == MlitProps(song, metas[..j])
    {
      assert metas[..j + 1][..j] == metas[..j];
      var t := ListedTag(metas[j]);
      if t.Some? {
        mlit := Assign(mlit, Code(t.value), FieldOf(song, Field(t.value).value));
      }
      j := j + 1;
    }
    assert metas[..j] == metas;
  }
}
