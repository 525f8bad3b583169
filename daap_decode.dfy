/**
 * The reading side of the DAAP wire format, as a client with the same content
 * codes parses a response, and the abstract tree a response object stands for.
 * The round-trip lemmas show that what the encoder writes parses back to that
 * tree: every node is framed by its tag and the exact length of its value,
 * integers read back clamped, strings as their UTF-8 bytes, dates as whole
 * seconds, versions component by component, and containers as the sequence of
 * their children.
 */
module DaapDecode {
  import opened Wrappers
  import opened JsValues
  import opened DaapTags
  import opened Daap

  /** A decoded value, by wire type. */
  datatype Value =
    | UInt(width: nat, n: nat)
    | Text(bytes: seq<Byte>)
    | Seconds(n: nat)
    | Ver(major: nat, minor: nat, patch: nat)
    | Children(nodes: seq<Node>)

  datatype Node = Node(tag: Tag, value: Value)

  /** The tag characters of a node header. */
  function HeaderCode(bs: seq<Byte>): string
    requires |bs| >= 4
  {
    [bs[0] as char, bs[1] as char, bs[2] as char, bs[3] as char]
  }

  /** One complete node: header, length equal to the rest, and a value of the tag's wire type. */
  function DecodeNode(bs: seq<Byte>): Option<Node>
    decreases |bs|, 1
  {
    if |bs| < 8 then None
    else
      match TagOf(HeaderCode(bs))
      case None => None
      case Some(t) =>
        if FromBigEndian(bs[4..8]) != |bs| - 8 then None else DecodeValue(t, bs[8..])
  }

  /** The value bytes `v` of a node tagged `t`, read by the tag's wire type. */
  function DecodeValue(t: Tag, v: seq<Byte>): Option<Node>
    decreases |v|, 3
  {
    var w := Wire(t);
    if w == 1 && |v| == 1 then Some(Node(t, UInt(1, v[0])))
    else if w == 3 && |v| == 2 then Some(Node(t, UInt(2, FromBigEndian(v))))
    else if w == 5 && |v| == 4 then Some(Node(t, UInt(4, FromBigEndian(v))))
    else if w == 7 && |v| == 8 then Some(Node(t, UInt(8, FromBigEndian(v))))
    else if w == 9 then Some(Node(t, Text(v)))
    else if w == 10 && |v| == 4 then Some(Node(t, Seconds(FromBigEndian(v))))
    else if w == 11 && |v| == 4 then Some(Node(t, Ver(FromBigEndian(v[..2]), v[2], v[3])))
    else if w == 12 then
      match DecodeNodes(v)
      case None => None
      case Some(kids) => Some(Node(t, Children(kids)))
    else None
  }

  /** A sequence of complete nodes filling the bytes exactly. */
  function DecodeNodes(bs: seq<Byte>): Option<seq<Node>>
    decreases |bs|, 2
  {
    if bs == [] then Some([])
    else if |bs| < 8 then None
    else
      var n := 8 + FromBigEndian(bs[4..8]);
      if n > |bs| then None
      else
        match DecodeNode(bs[..n])
        case None => None
        case Some(node) =>
          match DecodeNodes(bs[n..])
          case None => None
          case Some(rest) => Some([node] + rest)
  }

  // ---------------------------------------------------------------------------
  // The tree a response object stands for

  /**
   * The node `{key: val}` stands for, or nothing where `buffer` throws. Integers
   * are clamped to their field, strings are their UTF-8 bytes, dates whole
   * seconds, versions their clamped components.
   */
  function Meaning(key: string, val: Js): Option<Node>
    decreases val, 2
  {
    match TagOf(key)
    case None => None
    case Some(t) =>
      var w := Wire(t);
      if !TypeAccepted(w, val) then None
      else if w == 1 then Some(Node(t, UInt(1, Clamp(ToNumber(val), MaxByte1))))
      else if w == 3 then Some(Node(t, UInt(2, Clamp(val.num, MaxByte2))))
      else if w == 5 then Some(Node(t, UInt(4, Clamp(val.num, MaxByte4))))
      else if w == 7 then Some(Node(t, UInt(8, Clamp(val.num, MaxByte4))))
      else if w == 9 then Some(Node(t, Text(Utf8(val.s))))
      else if w == 10 then
        if 0 <= val.ms <= MaxByte4 * 1000 then Some(Node(t, Seconds(val.ms / 1000))) else None
      else if w == 11 then
        var p := VersionExec(val.s).value;
        Some(Node(t, Ver(Min(MaxByte2, DecimalValue(p.major)), Min(MaxByte1, DecimalValue(p.minor)),
                         if p.patch.None? then 0 else Min(MaxByte1, DecimalValue(p.patch.value)))))
      else if w == 12 then
        match MeaningChildren(val)
        case None => None
        case Some(kids) => Some(Node(t, Children(kids)))
      else None
  }

  function MeaningChildren(val: Js): Option<seq<Node>>
    requires TypeOf(val) == "object"
    decreases val, 1
  {
    match val
    case JArr(_, _) => MeaningItems(val, 0)
    case JObj(_) => MeaningPairs(val, 0)
    case _ => Some([])
  }

  function MeaningItems(arr: Js, i: nat): Option<seq<Node>>
    requires arr.JArr? && i <= |arr.items|
    decreases arr, 0, |arr.items| - i
  {
    if i == |arr.items| then Some([])
    else
      match MeaningNode(arr.items[i])
      case None => None
      case Some(n) =>
        match MeaningItems(arr, i + 1)
        case None => None
        case Some(rest) => Some([n] + rest)
  }

  function MeaningPairs(obj: Js, i: nat): Option<seq<Node>>
    requires obj.JObj? && i <= |obj.props|
    decreases obj, 0, |obj.props| - i
  {
    if i == |obj.props| then Some([])
    else
      match Meaning(obj.props[i].0, obj.props[i].1)
      case None => None
      case Some(n) =>
        match MeaningPairs(obj, i + 1)
        case None => None
        case Some(rest) => Some([n] + rest)
  }

  /** The node a response object stands for: that of its first own key. */
  function MeaningNode(node: Js): Option<Node>
    decreases node, 3
  {
    match node
    case JObj(ps) => if ps == [] then None else Meaning(ps[0].0, ps[0].1)
    case JArr(items, extra) => if items != [] || extra == [] then None else Meaning(extra[0].0, extra[0].1)
    case _ => None
  }

  // ---------------------------------------------------------------------------
  // Round trip

  lemma HeaderOfKey(key: string, b: seq<Byte>)
    requires TagOf(key).Some? && |b| >= 4 && b[..4] == Utf8(key)
    ensures HeaderCode(b) == key
  {
    assert IsAscii(key);
    Utf8Ascii(key);
    assert b[0] == Utf8(key)[0] && b[1] == Utf8(key)[1] && b[2] == Utf8(key)[2] && b[3] == Utf8(key)[3];
  }

  lemma {:induction false} LeadingZeros(x: seq<Byte>)
    ensures FromBigEndian([0, 0, 0, 0] + x) == FromBigEndian(x)
    decreases |x|
  {
    var z: seq<Byte> := [0, 0, 0, 0];
    if x == [] {
      assert z + x == z;
      var z3: seq<Byte> := [0, 0, 0];
      var z2: seq<Byte> := [0, 0];
      var z1: seq<Byte> := [0];
      assert z[..3] == z3 && z3[..2] == z2 && z2[..1] == z1 && z1[..0] == [];
      assert FromBigEndian(z1) == 0;
      assert FromBigEndian(z2) == 0;
      assert FromBigEndian(z3) == 0;
    } else {
      LeadingZeros(x[..|x| - 1]);
      assert (z + x)[..|z + x| - 1] == z + x[..|x| - 1];
    }
  }

  /** A framed node followed by more bytes is read off the front of them. */
  lemma NodesCons(a: seq<Byte>, rest: seq<Byte>)
    requires |a| >= 8 && FromBigEndian(a[4..8]) == |a| - 8 && DecodeNode(a).Some?
    ensures DecodeNodes(a + rest) == match DecodeNodes(rest) case None => None case Some(ns) => Some([DecodeNode(a).value] + ns)
  {
    var bs := a + rest;
    assert bs[4..8] == a[4..8];
    assert bs[..|a|] == a && bs[|a|..] == rest;
  }

  /** A frame the encoder builds around a value of at most 2^32 - 1 bytes is read back by the key's tag. */
  lemma DecodeFrame(key: string, body: seq<Byte>)
    requires TagOf(key).Some? && |body| <= MaxByte4
    ensures DecodeNode(FrameOk(key, body).value) == DecodeValue(TagOf(key).value, body)
  {
    HeaderOfKey(key, FrameOk(key, body).value);
  }

  /** The round trip for one integer wire type `w`, given a value of the accepted type. */
  lemma IntWidthRoundTrip(key: string, val: Js, w: int)
    requires TagOf(key).Some? && w == Wire(TagOf(key).value) && w in {1, 3, 5, 7} && TypeAccepted(w, val)
    ensures Encode(key, val).Ok?
    ensures DecodeNode(Encode(key, val).value) == Meaning(key, val)
  {
    if w == 1 {
      DecodeFrame(key, ByteField(val));
    } else if w == 3 {
      DecodeFrame(key, Number2(val.num));
    } else if w == 5 {
      DecodeFrame(key, Number4(val.num));
    } else {
      var v := Number8(val.num);
      DecodeFrame(key, v);
      LeadingZeros(v[4..]);
      assert v == [0, 0, 0, 0] + v[4..];
    }
  }

  /** The round trip for the integer wire types 1, 3, 5 and 7. */
  lemma IntRoundTrip(key: string, val: Js)
    requires TagOf(key).Some? && Wire(TagOf(key).value) in {1, 3, 5, 7}
    ensures Encode(key, val).Ok? <==> Meaning(key, val).Some?
    ensures Encode(key, val).Ok? ==> DecodeNode(Encode(key, val).value) == Meaning(key, val)
  {
    var w := Wire(TagOf(key).value);
    if TypeAccepted(w, val) {
      IntWidthRoundTrip(key, val, w);
    }
  }

  /** The round trip for one of the wire types 9, 10 and 11, given a value of the accepted type. */
  lemma TextKindRoundTrip(key: string, val: Js, w: int)
    requires TagOf(key).Some? && w == Wire(TagOf(key).value) && w in {9, 10, 11} && TypeAccepted(w, val)
    ensures Encode(key, val).Ok? <==> Meaning(key, val).Some?
    ensures Encode(key, val).Ok? && |Encode(key, val).value| <= MaxByte4 + 8 ==>
              DecodeNode(Encode(key, val).value) == Meaning(key, val)
  {
    if w == 9 {
      if |Utf8(val.s)| <= MaxByte4 {
        DecodeFrame(key, Utf8(val.s));
      }
    } else if w == 10 {
      if DateField(val.ms).Some? {
        DecodeFrame(key, DateField(val.ms).value);
      }
    } else {
      DecodeFrame(key, VersionField(VersionExec(val.s).value));
    }
  }

  /** The round trip for strings, dates and versions (wire types 9, 10 and 11). */
  lemma TextRoundTrip(key: string, val: Js)
    requires TagOf(key).Some? && Wire(TagOf(key).value) in {9, 10, 11}
    ensures Encode(key, val).Ok? <==> Meaning(key, val).Some?
    ensures Encode(key, val).Ok? && |Encode(key, val).value| <= MaxByte4 + 8 ==>
              DecodeNode(Encode(key, val).value) == Meaning(key, val)
  {
    var w := Wire(TagOf(key).value);
    if TypeAccepted(w, val) {
      TextKindRoundTrip(key, val, w);
    }
  }

  /** The round trip for a container (wire type 12): its frame holds its children's nodes. */
  lemma {:induction false} ContainerRoundTrip(key: string, val: Js)
    requires TagOf(key).Some? && Wire(TagOf(key).value) == 12 && TypeAccepted(12, val)
    ensures Encode(key, val).Ok? <==> Meaning(key, val).Some?
    ensures Encode(key, val).Ok? && |Encode(key, val).value| <= MaxByte4 + 8 ==>
              DecodeNode(Encode(key, val).value) == Meaning(key, val)
    decreases val, 2
  {
    RoundTripChildren(val);
    var c := EncodeChildren(val);
    if c.Ok? && |c.value| <= MaxByte4 {
      DecodeFrame(key, c.value);
    }
  }

  /** What the encoder writes for `{key: val}` is exactly what that object stands for. */
  lemma {:induction false} RoundTrip(key: string, val: Js)
    ensures Encode(key, val).Ok? <==> Meaning(key, val).Some?
    ensures Encode(key, val).Ok? && |Encode(key, val).value| <= MaxByte4 + 8 ==>
              DecodeNode(Encode(key, val).value) == Meaning(key, val)
    decreases val, 3
  {
    if TagOf(key).Some? {
      var t := TagOf(key).value;
      if Wire(t) in {1, 3, 5, 7} {
        IntRoundTrip(key, val);
      } else if Wire(t) in {9, 10, 11} {
        TextRoundTrip(key, val);
      } else if Wire(t) == 12 && TypeAccepted(12, val) {
        ContainerRoundTrip(key, val);
      }
    }
  }

  lemma {:induction false} RoundTripChildren(val: Js)
    requires TypeOf(val) == "object"
    ensures EncodeChildren(val).Ok? <==> MeaningChildren(val).Some?
    ensures EncodeChildren(val).Ok? && |EncodeChildren(val).value| <= MaxByte4 ==>
              DecodeNodes(EncodeChildren(val).value) == MeaningChildren(val)
    decreases val, 1
  {
    match val
    case JArr(_, _) => RoundTripItems(val, 0);
    case JObj(_) => RoundTripPairs(val, 0);
    case _ =>
  }

  lemma {:induction false} RoundTripItems(arr: Js, i: nat)
    requires arr.JArr? && i <= |arr.items|
    ensures EncodeItems(arr, i).Ok? <==> MeaningItems(arr, i).Some?
    ensures EncodeItems(arr, i).Ok? && |EncodeItems(arr, i).value| <= MaxByte4 ==>
              DecodeNodes(EncodeItems(arr, i).value) == MeaningItems(arr, i)
    decreases arr, 0, |arr.items| - i
  {
    if i < |arr.items| {
      RoundTripNode(arr.items[i]);
      RoundTripItems(arr, i + 1);
      var r := EncodeItems(arr, i);
      if r.Ok? && |r.value| <= MaxByte4 {
        var a := EncodeNode(arr.items[i]).value;
        var rest := EncodeItems(arr, i + 1).value;
        assert r.value == a + rest;
        NodeFramed(arr.items[i]);
        NodesCons(a, rest);
      }
    }
  }

  lemma {:induction false} RoundTripPairs(obj: Js, i: nat)
    requires obj.JObj? && i <= |obj.props|
    ensures EncodePairs(obj, i).Ok? <==> MeaningPairs(obj, i).Some?
    ensures EncodePairs(obj, i).Ok? && |EncodePairs(obj, i).value| <= MaxByte4 ==>
              DecodeNodes(EncodePairs(obj, i).value) == MeaningPairs(obj, i)
    decreases obj, 0, |obj.props| - i
  {
    if i < |obj.props| {
      RoundTrip(obj.props[i].0, obj.props[i].1);
      RoundTripPairs(obj, i + 1);
      var r := EncodePairs(obj, i);
      if r.Ok? && |r.value| <= MaxByte4 {
        var a := Encode(obj.props[i].0, obj.props[i].1).value;
        var rest := EncodePairs(obj, i + 1).value;
        assert r.value == a + rest;
        NodesCons(a, rest);
      }
    }
  }

  lemma {:induction false} RoundTripNode(node: Js)
    ensures EncodeNode(node).Ok? <==> MeaningNode(node).Some?
    ensures EncodeNode(node).Ok? && |EncodeNode(node).value| <= MaxByte4 + 8 ==>
              DecodeNode(EncodeNode(node).value) == MeaningNode(node)
    decreases node, 3
  {
    match node
    case JObj(ps) => if ps != [] { RoundTrip(ps[0].0, ps[0].1); }
    case JArr(items, extra) => if items == [] && extra != [] { RoundTrip(extra[0].0, extra[0].1); }
    case _ =>
  }

  /** A node the encoder wrote is framed by its own length, and is itself a complete node. */
  lemma NodeFramed(node: Js)
    requires EncodeNode(node).Ok? && |EncodeNode(node).value| <= MaxByte4 + 8
    ensures |EncodeNode(node).value| >= 8
    ensures FromBigEndian(EncodeNode(node).value[4..8]) == |EncodeNode(node).value| - 8
    ensures DecodeNode(EncodeNode(node).value).Some?
  {
    RoundTripNode(node);
  }

  /** Whatever `build` hands to its callback parses back to the tree the response object stands for. */
  lemma BuildRoundTrip(obj: Js)
    ensures Build(obj).Some? <==> MeaningNode(obj).Some?
    ensures Build(obj).Some? && |Build(obj).value| <= MaxByte4 + 8 ==> DecodeNode(Build(obj).value) == MeaningNode(obj)
  {
    RoundTripNode(obj);
  }
}
