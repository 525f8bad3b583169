/**
 * The song-level helpers of the library indexer: the song id folded from a path
 * hash, the audio-extension filter, the metadata record built from what the
 * metadata reader returns, and the normalisation of that record's year, track,
 * time and genre. The hash of a path is an input here; its algorithm (32-bit
 * FNV) is not modelled.
 */
module Mp3 {
  import opened Wrappers
  import opened JsValues

  // ---------------------------------------------------------------------------
  // Song ids

  const Two31: int := 0x8000_0000
  const Two32: int := 0x1_0000_0000

  /** The conversion every JavaScript bitwise operator applies to its operands. */
  function ToInt32(x: int): (r: int)
    ensures -Two31 <= r < Two31
    ensures (x - r) % Two32 == 0
  {
    var m := x % Two32;
    if m >= Two31 then m - Two32 else m
  }

  /**
   * `id`: the hash value, lifted once when negative, folded as `(h >> 31) ^ (h &
   * 0x7fffffff)`. On a 32-bit value `>> 31` is the sign (0 or all ones) and `&
   * 0x7fffffff` the low 31 bits; exclusive-or with all ones is the complement.
   */
  function Id(h: int): (r: int)
    ensures -Two31 <= r < Two31
    ensures 0 <= h < Two31 ==> r == h
    ensures Two31 <= h < Two32 ==> r == Two31 - 1 - h && r < 0
    ensures -Two31 < h < 0 ==> r == -h
  {
    var f := if h < 0 then Two32 - h else h;
    var x := ToInt32(f);
    var sign := x / Two31;
    var low := x % Two31;
    if sign == 0 then low else -low - 1
  }

  // ---------------------------------------------------------------------------
  // Paths

  /** The index of the last `c` in `s`, or -1. */
  function LastIndexOf(s: string, c: char): (r: int)
    ensures -1 <= r < |s|
    ensures r >= 0 ==> s[r] == c && c !in s[r + 1..]
    ensures r == -1 <==> c !in s
  {
    if s == [] then -1
    else if s[|s| - 1] == c then |s| - 1
    else
      var k := LastIndexOf(s[..|s| - 1], c);
      assert k >= 0 ==> s[k + 1..] == s[..|s| - 1][k + 1..] + [s[|s| - 1]];
      assert s == s[..|s| - 1] + [s[|s| - 1]];
      k
  }

  /** The path without its trailing slashes. */
  function StripSlashes(p: string): (r: string)
    ensures |r| <= |p| && r == p[..|r|]
    ensures r == [] || r[|r| - 1] != '/'
  {
    if p != [] && p[|p| - 1] == '/' then StripSlashes(p[..|p| - 1]) else p
  }

  /** The last component of a path, as `path.basename` sees it. */
  function BaseName(p: string): (r: string)
    ensures '/' !in r
    ensures |r| <= |p|
  {
    var s := StripSlashes(p);
    s[LastIndexOf(s, '/') + 1..]
  }

  /**
   * `path.extname`: the last component from its last `.` on, or empty when that
   * component has no dot, starts with its only dot, or is `..`.
   */
  function ExtName(p: string): (r: string)
    ensures r != "" ==> r[0] == '.' && '.' !in r[1..] && |r| < |BaseName(p)|
    ensures r != "" ==> r == BaseName(p)[|BaseName(p)| - |r|..]
  {
    var b := BaseName(p);
    var d := LastIndexOf(b, '.');
    if d <= 0 || b == ".." then "" else b[d..]
  }

  /** An extension `isSong` accepts, in any case. */
  predicate AudioExt(e: string)
  {
    var l := LowerAscii(e);
    l == ".mp3" || l == ".ogg"
  }

  /** `isSong`: the lower-cased extension is `.mp3` or `.ogg`. */
  predicate IsSong(f: string)
  {
    AudioExt(ExtName(f))
  }

  /** A four-character extension that lower-cases to `.mp3` or `.ogg` is a dot followed by three characters that are not dots. */
  lemma AudioExtension(t: string)
    requires AudioExt(t)
    ensures |t| == 4 && t[0] == '.' && t[1] != '.' && t[2] != '.' && t[3] != '.'
  {
    var l := LowerAscii(t);
    assert |l| == 4;
    assert l[0] == '.' && l[1] != '.' && l[2] != '.' && l[3] != '.';
  }

  /** A path is a song exactly when its last component is longer than four characters and ends in `.mp3` or `.ogg` in any case. */
  lemma IsSongSuffix(f: string)
    ensures IsSong(f) <==> var b := BaseName(f); |b| >= 5 && AudioExt(b[|b| - 4..])
  {
    var b := BaseName(f);
    if IsSong(f) {
      SongHasSuffix(f);
    }
    if |b| >= 5 && AudioExt(b[|b| - 4..]) {
      SuffixIsExtension(b, f);
    }
  }

  lemma SongHasSuffix(f: string)
    requires IsSong(f)
    ensures var b := BaseName(f); |b| >= 5 && b[|b| - 4..] == ExtName(f)
  {
    AudioExtension(ExtName(f));
  }

  lemma SuffixIsExtension(b: string, f: string)
    requires b == BaseName(f) && |b| >= 5 && AudioExt(b[|b| - 4..])
    ensures ExtName(f) == b[|b| - 4..]
  {
    var t := b[|b| - 4..];
    AudioExtension(t);
    assert b[|b| - 4] == '.' && b[|b| - 3] != '.' && b[|b| - 2] != '.' && b[|b| - 1] != '.';
    var d := LastIndexOf(b, '.');
    assert d == |b| - 4;
  }

  /** The song's `format` field: its extension without the dot, cut at the path length less one. */
  function Format(song: string): string
  {
    Substring(ExtName(song), 1, |song| - 1)
  }

  /** `format` is the extension without its dot, with its case kept. */
  lemma FormatIsExtension(song: string)
    ensures ExtName(song) != "" ==> Format(song) == ExtName(song)[1..]
    ensures ExtName(song) == "" ==> Format(song) == ""
  {
  }

  /** The `format` of a song is the last three characters of its name, in the case they are written. */
  lemma FormatKeepsCase(song: string)
    requires IsSong(song)
    ensures var b := BaseName(song); Format(song) == b[|b| - 3..]
    ensures AudioExt("." + Format(song))
  {
    var b := BaseName(song);
    var e := ExtName(song);
    SongHasSuffix(song);
    AudioExtension(e);
    FormatIsExtension(song);
    assert e[1..] == b[|b| - 3..];
    assert "." + e[1..] == e;
  }

  // ---------------------------------------------------------------------------
  // Normalisation (chkmeta)

  /** The number of decimal digits `s` starts with. */
  function LeadingDigits(s: string): (n: nat)
    ensures n <= |s| && AllDigits(s[..n]) && (n == |s| || !IsDigit(s[n]))
  {
    if s != [] && IsDigit(s[0]) then
      var n := 1 + LeadingDigits(s[1..]);
      assert s[..n] == [s[0]] + s[1..][..n - 1];
      n
    else 0
  }

  /** The capture of `([0-9]{2,4})` at the start of `t`: two to four digits, as many as there are. */
  function YearDigits(t: string): (r: Option<string>)
    ensures r.Some? ==> 2 <= |r.value| <= 4 && AllDigits(r.value) && IsPrefix(r.value, t)
    ensures r.Some? && |r.value| < 4 ==> |r.value| == |t| || !IsDigit(t[|r.value|])
    ensures r.None? <==> !(|t| >= 2 && IsDigit(t[0]) && IsDigit(t[1]))
  {
    var n := LeadingDigits(t);
    if n < 2 then None
    else
      var k := if n < 4 then n else 4;
      assert t[..k] == t[..n][..k];
      Some(t[..k])
  }

  /** The capture of `/^\s*([0-9]{2,4})/`, or `None` where the pattern does not match. */
  function LeadingYear(s: string): Option<string>
  {
    YearDigits(TrimStart(s))
  }

  /**
   * The year after `chkmeta`: a value that converts to a finite number is that
   * number raised to 0; any other value is its leading 2 to 4 digit run after
   * white space, or 0 when it has none.
   */
  function NormYear(v: Js): (r: nat)
    ensures ToNumber(v).Int? ==> r == if ToNumber(v).i < 0 then 0 else ToNumber(v).i
    ensures !ToNumber(v).Int? ==> r < 10000
    ensures !ToNumber(v).Int? && LeadingYear(ToStr(v)).None? ==> r == 0
  {
    match ToNumber(v)
    case Int(i) => if i < 0 then 0 else i
    case _ =>
      match LeadingYear(ToStr(v))
      case None => 0
      case Some(d) => YearBound(d); DecimalValue(d)
  }

  lemma {:induction false} YearBound(d: string)
    requires AllDigits(d) && |d| <= 4
    ensures DecimalValue(d) < 10000
  {
    var k := |d|;
    if k > 0 {
      YearBound(d[..k - 1]);
      assert AllDigits(d[..k - 1]);
      if k == 1 {
        assert d[..0] == [];
      }
      assert DecimalValue(d[..k - 1]) < 1000 by { DigitsBound(d[..k - 1]); }
    }
  }

  lemma {:induction false} DigitsBound(d: string)
    requires AllDigits(d) && |d| <= 3
    ensures DecimalValue(d) < 1000 && (|d| <= 2 ==> DecimalValue(d) < 100) && (|d| <= 1 ==> DecimalValue(d) < 10)
  {
    if |d| > 0 {
      DigitsBound(d[..|d| - 1]);
      assert |d| == 1 ==> d[..0] == [];
    }
  }

  /** The track number or time after `chkmeta`: the number when finite and not negative, else 0. */
  function NormCount(v: Js): (r: nat)
    ensures (ToNumber(v).Int? && ToNumber(v).i >= 0) ==> r == ToNumber(v).i
    ensures !(ToNumber(v).Int? && ToNumber(v).i >= 0) ==> r == 0
  {
    match ToNumber(v)
    case Int(i) => if i < 0 then 0 else i
    case _ => 0
  }

  /** A genre part of `/^([^\/]+)\/([^\/]+)$/`: non-empty, without a slash. */
  predicate GenrePart(x: string) { x != "" && '/' !in x }

  /** The genre after `chkmeta`: `X/X` becomes `X`; everything else is kept. */
  function CollapseGenre(g: string): (r: string)
    ensures r != g ==> GenrePart(r) && g == r + "/" + r
  {
    if IndexOf(g, '/') == -1 then g
    else
      var parts := Split(g, '/');
      if |parts| == 2 && GenrePart(parts[0]) && GenrePart(parts[1]) && parts[0] == parts[1] then
        assert JoinWith(parts, '/') == parts[0] + ['/'] + JoinWith(parts[1..], '/');
        parts[0]
      else g
  }

  lemma SplitTwo(x: string, y: string)
    requires '/' !in x && '/' !in y
    ensures Split(x + "/" + y, '/') == [x, y]
  {
    var g := x + "/" + y;
    assert g[..|x|] == x && g[|x|] == '/';
    assert IndexOf(g, '/') == |x|;
    assert g[|x| + 1..] == y;
  }

  lemma GenreCollapses(x: string)
    requires GenrePart(x)
    ensures CollapseGenre(x + "/" + x) == x
  {
    SplitTwo(x, x);
    assert (x + "/" + x)[|x|] == '/';
  }

  /** Collapsing twice is collapsing once. */
  lemma CollapseIdempotent(g: string)
    ensures CollapseGenre(CollapseGenre(g)) == CollapseGenre(g)
  {
    var r := CollapseGenre(g);
    if r != g {
      assert IndexOf(r, '/') == -1;
    }
  }

  // ---------------------------------------------------------------------------
  // The metadata record (setMeta, chkmeta)

  /** The fields of the record `setMeta` builds and `chkmeta` normalises. */
  datatype MetaRec = MetaRec(
    id: int, kind: int, title: Js, artist: Js, album: Js, time: Js,
    year: Js, track: Js, genre: Js, format: string, path: string)

  /** `+x * 1000` on the Numbers represented here. */
  function Times1000(n: Number): Number
  {
    match n
    case Int(i) => Int(1000 * i)
    case _ => n
  }

  predicate Nullish(v: Js) { v == JNull || v == JUndefined }

  /** `v[k]` where that read cannot throw. */
  function Prop(v: Js, k: string): Js
    requires !Nullish(v)
  {
    Get(v, k).value
  }

  /** `v || d` for a non-empty default text: the value when truthy, else the default, so always truthy. */
  function WithDefault(v: Js, d: string): (r: Js)
    requires d != ""
    ensures Truthy(r)
    ensures Truthy(v) ==> r == v
    ensures !Truthy(v) ==> r == JStr(d)
  {
    Or(v, JStr(d))
  }

  /**
   * The record `setMeta` builds for `song` from the reader's result `data`, whose
   * `common` and `format` parts are read as object properties, or `None` where
   * one of those reads throws a TypeError. `artist[0]` is read only when there is
   * no album artist.
   */
  function InitialMeta(song: string, data: Js, id: int): (r: Option<MetaRec>)
    ensures Get(data, "common") == Some(JUndefined) ==> r.None?
    ensures r.Some? ==> r.value.id == id && r.value.kind == 2 && r.value.path == song
    ensures r.Some? ==> r.value.format == Format(song)
  {
    if data == JNull || data == JUndefined then None
    else
      var common := Prop(data, "common");
      var format := Prop(data, "format");
      if Nullish(common) || Nullish(format) then None
      else
        var albumArtist := Prop(common, "albumartist");
        var artists := Prop(common, "artist");
        var track := Prop(common, "track");
        var genres := Prop(common, "genre");
        if (!Truthy(albumArtist) && Nullish(artists)) || Nullish(track) || Nullish(genres) then None
        else
          var artist := if Truthy(albumArtist) then albumArtist else WithDefault(Prop(artists, "0"), "(Unknown Artist)");
          Some(MetaRec(id, 2, Or(Prop(common, "title"), JStr(song)), artist,
                       WithDefault(Prop(common, "album"), "(Unknown Album)"),
                       JNum(Times1000(ToNumber(Prop(format, "duration")))),
                       Or(Prop(common, "year"), JNum(Int(0))), Or(Prop(track, "no"), JNum(Int(0))),
                       WithDefault(Prop(genres, "0"), "(Unknown Genre)"), Format(song), song))
  }

  /** The fallback result `{format: {duration: len}}` has no `common`, so `setMeta` always throws on it. */
  lemma FallbackThrows(song: string, len: Number, id: int)
    ensures InitialMeta(song, JObj([("format", JObj([("duration", JNum(len))]))]), id).None?
  {
    var ps := [("format", JObj([("duration", JNum(len))]))];
    assert ps[0].0 != "common" by { assert ps[0].0[0] != "common"[0]; }
    assert Lookup(ps, "common") == Lookup(ps[1..], "common") == JUndefined;
    assert Get(JObj(ps), "common") == Some(JUndefined);
  }

  /** The time `setMeta` stores from the duration reader: `len * 1000 || 0`, with a failed read as undefined. */
  function DurationTime(len: Option<Number>): (r: Js)
    ensures len.None? ==> r == JNum(Int(0))
    ensures len.Some? && len.value.Int? ==> r == JNum(Int(1000 * len.value.i))
  {
    var t := if len.None? then NaN else Times1000(len.value);
    Or(JNum(t), JNum(Int(0)))
  }

  /** The object `setMeta` builds and then changes in place. */
  class Meta {
    var id: int
    var kind: int
    var title: Js
    var artist: Js
    var album: Js
    var time: Js
    var year: Js
    var track: Js
    var genre: Js
    var format: string
    var path: string

    function Snapshot(): MetaRec
      reads this
    {
      MetaRec(id, kind, title, artist, album, time, year, track, genre, format, path)
    }

    constructor (r: MetaRec)
      ensures Snapshot() == r
    {
      id, kind, title, artist, album, time := r.id, r.kind, r.title, r.artist, r.album, r.time;
      year, track, genre, format, path := r.year, r.track, r.genre, r.format, r.path;
    }

    /** `meta.time = len*1000 || 0` in the duration reader's callback. */
    method SetDuration(len: Option<Number>)
      modifies this
      ensures Snapshot() == old(Snapshot()).(time := DurationTime(len))
    {
      time := DurationTime(len);
    }

    /**
     * `chkmeta`: year, track and time become non-negative numbers; then the genre
     * collapses as `GenreChecked` says, which throws (`ok` false) when the genre
     * has no `indexOf` method, after the numeric fields have already been changed.
     */
    method ChkMeta() returns (ok: bool)
      modifies this
      ensures ok <==> old(genre).JStr? || old(genre).JArr?
      ensures Snapshot() == old(Snapshot()).(
                year := JNum(Int(NormYear(old(year)))),
                track := JNum(Int(NormCount(old(track)))),
                time := JNum(Int(NormCount(old(time)))),
                genre := if ok then GenreChecked(old(genre)).value else old(genre))
    {
      year := JNum(Int(NormYear(year)));
      track := JNum(Int(NormCount(track)));
      time := JNum(Int(NormCount(time)));
      var g := GenreChecked(genre);
      if g.None? {
        return false;
      }
      genre := g.value;
      ok := true;
    }
  }

  /**
   * The genre step of `chkmeta`. A string is collapsed. An array has
   * `Array.prototype.indexOf`, which looks for an element equal to "/"; only
   * then is the regular expression run, on the array's text, and a match of two
   * equal halves replaces the array by that half. Any other value has no
   * `indexOf` method, so the call throws (`None`).
   */
  function GenreChecked(g: Js): (r: Option<Js>)
    ensures r.Some? <==> g.JStr? || g.JArr?
    ensures g.JStr? ==> r == Some(JStr(CollapseGenre(g.s)))
    ensures g.JArr? && JStr("/") !in g.items ==> r == Some(g)
    ensures r.Some? && r.value != g ==> r.value.JStr? && IndexOf(r.value.s, '/') == -1
  {
    match g
    case JStr(s) =>
      CollapseIdempotent(s);
      Some(JStr(CollapseGenre(s)))
    case JArr(items, _) =>
      if JStr("/") !in items then Some(g)
      else
        var t := ToStr(g);
        var c := CollapseGenre(t);
        if c != t then Some(JStr(c)) else Some(g)
    case _ => None
  }

  /** A checked genre is checked again to itself. */
  lemma GenreCheckedStable(g: Js)
    requires GenreChecked(g).Some?
    ensures GenreChecked(GenreChecked(g).value) == GenreChecked(g)
  {
    var r := GenreChecked(g).value;
    if r != g {
      CollapseIdempotent(r.s);
    }
  }

  /** The record `chkmeta` leaves, as a function of the record it is given. */
  function Checked(m: MetaRec): (r: Option<MetaRec>)
  {
    match GenreChecked(m.genre)
    case None => None
    case Some(g) =>
      Some(m.(year := JNum(Int(NormYear(m.year))), track := JNum(Int(NormCount(m.track))),
              time := JNum(Int(NormCount(m.time))), genre := g))
  }

  /**
   * A checked record has numeric year, track and time, a genre that is a string or
   * an array, and checking it again changes nothing.
   */
  lemma CheckedStable(m: MetaRec)
    requires Checked(m).Some?
    ensures var c := Checked(m).value;
            c.year.JNum? && c.year.num.Int? && c.year.num.i >= 0
            && c.track.JNum? && c.track.num.Int? && c.track.num.i >= 0
            && c.time.JNum? && c.time.num.Int? && c.time.num.i >= 0
            && (c.genre.JStr? || c.genre.JArr?)
            && Checked(c) == Some(c)
  {
    GenreCheckedStable(m.genre);
  }

  /**
   * What reading a changed file yields: a checked record, a failure the pass
   * reports and moves past, or an exception raised inside a callback that no
   * one catches, after which the pass never continues.
   */
  datatype Outcome = Got(meta: MetaRec) | Failed | Stuck

  /** Whether the reader's result has a truthy top-level `duration`. */
  predicate DurationGiven(data: Js)
  {
    Get(data, "duration").Some? && Truthy(Get(data, "duration").value)
  }

  /**
   * The record `chkmeta` is given: the one `setMeta` built, with the duration
   * reader's time unless the reader's result has a truthy `duration`.
   */
  function Timed(m: MetaRec, data: Js, len: Option<Number>): MetaRec
  {
    if DurationGiven(data) then m else m.(time := DurationTime(len))
  }

  /**
   * `meta`: the metadata reader's result (`None` for a rejected promise) goes
   * through `setMeta`. With a truthy `duration`, `chkmeta` runs inside the
   * promise, so a throw there, like a throw of `setMeta`, rejects it and the
   * `.catch` tries the duration reader: a failed probe is reported, and a
   * successful one goes through `setMeta` in its callback, which throws with no
   * one to catch it. Without `duration`, `chkmeta` runs in the duration reader's
   * callback, where a throw is not caught either.
   */
  function ReadSong(song: string, id: int, data: Option<Js>, len: Option<Number>): (r: Outcome)
    ensures r.Got? ==> r.meta.id == id && r.meta.path == song
    ensures r.Got? ==> data.Some? && InitialMeta(song, data.value, id).Some?
                       && Checked(Timed(InitialMeta(song, data.value, id).value, data.value, len)) == Some(r.meta)
    ensures r.Got? ==> Checked(r.meta) == Some(r.meta)
                       && r.meta.year.JNum? && r.meta.year.num.Int? && r.meta.year.num.i >= 0
                       && r.meta.track.JNum? && r.meta.track.num.Int? && r.meta.track.num.i >= 0
                       && r.meta.time.JNum? && r.meta.time.num.Int? && r.meta.time.num.i >= 0
    ensures data.None? || InitialMeta(song, data.value, id).None? ==> (r.Failed? <==> len.None?) && (r.Stuck? <==> len.Some?)
    ensures data.Some? && InitialMeta(song, data.value, id).Some?
            && Checked(Timed(InitialMeta(song, data.value, id).value, data.value, len)).Some? ==>
              r == Got(Checked(Timed(InitialMeta(song, data.value, id).value, data.value, len)).value)
    ensures data.Some? && InitialMeta(song, data.value, id).Some?
            && Checked(Timed(InitialMeta(song, data.value, id).value, data.value, len)).None? ==>
              if DurationGiven(data.value) then (r.Failed? <==> len.None?) && (r.Stuck? <==> len.Some?)
              else r.Stuck?
  {
    match if data.Some? then InitialMeta(song, data.value, id) else None
    case Some(m) =>
      var m' := Timed(m, data.value, len);
      (match Checked(m')
       case Some(c) =>
         CheckedStable(m');
         Got(c)
       case None =>
         if DurationGiven(data.value) && len.None? then Failed
         else Stuck)
    case None =>
      if len.None? then Failed
      else
        FallbackThrows(song, len.value, id);
        Stuck
  }
}
