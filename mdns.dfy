/**
 * The service advertisement's string handling: the database id the server
 * advertises (adopted from the store, or made from the default id and a fresh
 * time-based suffix and written back), the escaping of the service name for the
 * command-line publishers, and the TXT record text.
 */
module Mdns {
  import opened Wrappers
  import opened JsValues
  import Store

  /** The id the module starts with. */
  const DefaultId: string := "beddab1edeadbea7"

  // ---------------------------------------------------------------------------
  // The fresh suffix

  function HexDigit(d: nat): (c: char)
    requires d < 16
  {
    if d < 10 then '0' + d as char else 'a' + (d - 10) as char
  }

  /** `n.toString(16)`: lower-case hexadecimal digits without leading zeros. */
  function Hex(n: nat): (r: string)
    ensures r != []
    decreases n
  {
    var d := [HexDigit(n % 16)];
    if n < 16 then d else Hex(n / 16) + d
  }

  function Pow16(k: nat): (r: nat)
    ensures r >= 1
  {
    if k == 0 then 1 else 16 * Pow16(k - 1)
  }

  /** A number of `k + 1` hexadecimal digits is written with exactly that many. */
  lemma {:induction false} HexLength(n: nat, k: nat)
    requires Pow16(k) <= n < Pow16(k + 1)
    ensures |Hex(n)| == k + 1
  {
    if k > 0 {
      HexLength(n / 16, k - 1);
    }
  }

  /**
   * The suffix `init` makes: the current time in milliseconds in hexadecimal,
   * followed by one random hexadecimal digit.
   */
  function FreshSuffix(ms: nat, random: nat): string
    requires random < 16
  {
    Hex(ms) + [HexDigit(random)]
  }

  /** `id.substring(0, id.length - suffix.length) + suffix`. */
  function Spliced(id: string, suffix: string): (r: string)
  {
    Substring(id, 0, |id| - |suffix|) + suffix
  }

  /**
   * A suffix no longer than the id replaces the id's tail: the length stays, the
   * result ends in the suffix and keeps the id's head; a longer one is the whole result.
   */
  lemma SplicedShape(id: string, suffix: string)
    ensures |suffix| <= |id| ==>
              var r := Spliced(id, suffix);
              |r| == |id| && IsSuffixOf(suffix, r) && r[..|id| - |suffix|] == id[..|id| - |suffix|]
    ensures |suffix| > |id| ==> Spliced(id, suffix) == suffix
  {
    if |suffix| <= |id| {
      var r := Spliced(id, suffix);
      assert r[|r| - |suffix|..] == suffix;
    }
  }

  /**
   * Between 2004 and 2527 the time takes 11 hexadecimal digits, so the fresh id
   * is 16 characters: the default's first four and the 12-character suffix.
   */
  lemma FreshIdShape(ms: nat, random: nat)
    requires random < 16 && Pow16(10) <= ms < Pow16(11)
    ensures var id := Spliced(DefaultId, FreshSuffix(ms, random));
            |id| == 16 && id[..4] == "bedd" && IsSuffixOf(FreshSuffix(ms, random), id)
  {
    HexLength(ms, 10);
    SplicedShape(DefaultId, FreshSuffix(ms, random));
  }

  // ---------------------------------------------------------------------------
  // Escaping and the TXT record

  /** `s.replace(/-/g, '\\-')`: a backslash goes before every dash. */
  function Escape(s: string): (r: string)
    ensures |r| >= |s|
    ensures forall i :: 0 <= i < |r| && r[i] == '-' ==> i > 0 && r[i - 1] == '\\'
    ensures r != [] ==> r[0] != '-'
  {
    if s == [] then []
    else
      var rest := Escape(s[1..]);
      if s[0] == '-' then "\\-" + rest else [s[0]] + rest
  }

  /** Removes the backslash of every backslash-dash pair, scanning from the left. */
  function Unescape(s: string): string
  {
    if s == [] then []
    else if |s| >= 2 && s[0] == '\\' && s[1] == '-' then "-" + Unescape(s[2..])
    else [s[0]] + Unescape(s[1..])
  }

  /** Escaping changes nothing but the inserted backslashes. */
  lemma {:induction false} EscapeRoundTrip(s: string)
    ensures Unescape(Escape(s)) == s
  {
    if s != [] {
      EscapeRoundTrip(s[1..]);
      var rest := Escape(s[1..]);
      if s[0] == '-' {
        assert ("\\-" + rest)[2..] == rest;
      } else {
        assert ([s[0]] + rest)[1..] == rest;
      }
    }
  }

  const TxtHead: string := "\"txtvers=1\" \"Database ID="

  /** `getTxt`: the two quoted TXT strings, the record version and the database id. */
  function Txt(id: string): string
  {
    TxtHead + id + "\""
  }

  /** The database id a TXT text carries, if it has the shape `getTxt` writes. */
  function TxtId(txt: string): Option<string>
  {
    if |txt| > |TxtHead| && IsPrefix(TxtHead, txt) && txt[|txt| - 1] == '"'
    then Some(txt[|TxtHead|..|txt| - 1]) else None
  }

  /** The advertised text gives back exactly the id. */
  lemma TxtRoundTrip(id: string)
    ensures TxtId(Txt(id)) == Some(id)
    ensures |Txt(id)| == |TxtHead| + |id| + 1
  {
    var t := Txt(id);
    assert t[..|TxtHead|] == TxtHead;
    assert t[|TxtHead|..|t| - 1] == id;
  }

  // ---------------------------------------------------------------------------
  // init

  /** The module holding the advertised id. */
  class Advertiser {
    var id: string

    constructor ()
      ensures id == DefaultId
    {
      id := DefaultId;
    }

    /**
     * `init`: a stored id that is a non-empty string, read without error, is
     * adopted and nothing is written. Otherwise the current id is spliced with
     * `suffix` (the fresh time-based suffix) and written with `dbId.set`; the
     * error reported is that of the write, and the id is returned either way.
     */
    method Init(db: Store.Store, readFailed: bool, suffix: string) returns (err: bool, result: string)
      modifies this, db
      ensures result == id
      ensures var stored := if old(db.info).Some? then old(db.info).value.dbId else None;
              if !readFailed && stored.Some? && stored.value != "" then
                && id == stored.value && !err
                && db.info == old(db.info) && db.songs == old(db.songs) && db.files == old(db.files)
              else
                && id == Spliced(old(id), suffix) && (err <==> id == "")
                && db.info == (if id != "" && old(db.info).Some? then Some(old(db.info).value.(dbId := Some(id))) else old(db.info))
                && db.songs == old(db.songs) && db.files == old(db.files)
    {
      var stored := db.DbIdGet();
      if !readFailed && stored.Some? && stored.value != "" {
        id := stored.value;
        return false, id;
      }
      id := Spliced(id, suffix);
      var ok := db.DbIdSet(JStr(id));
      err := !ok;
      result := id;
    }
  }
}
