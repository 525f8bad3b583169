/**
 * The record store behind the server, in its two implementations: the embedded
 * document store (NeDB) and MongoDB. Both keep a collection of song documents,
 * one `music` information record holding the library version and the database
 * id, and cache files named after a hash of the requested field list. The two
 * differ where noted: adding a song replaces the stored document in NeDB and
 * merges into it in MongoDB, and clearing the cache removes the `cache-` files
 * of the database directory in NeDB and every stored file in MongoDB.
 */
module Store {
  import opened Wrappers
  import opened JsValues

  datatype Backend = NeDB | Mongo

  /** A stored document: its own fields in order, each key once. */
  type Doc = seq<(string, Js)>

  /** The `music` information record. */
  datatype Info = Info(version: int, dbId: Option<string>)

  /** `k` has a binding in `d`. */
  predicate Has(d: Doc, k: string)
  {
    d != [] && (d[0].0 == k || Has(d[1..], k))
  }

  predicate DistinctKeys(d: Doc)
  {
    d == [] || (!Has(d[1..], d[0].0) && DistinctKeys(d[1..]))
  }

  function IdOf(d: Doc): Js { Lookup(d, "id") }

  /** `typeof id === 'number' && id === id`: a number that is not NaN. */
  predicate ValidId(v: Js) { v.JNum? && v.num != NaN }

  /** `typeof path === 'string' && path`: a non-empty string. */
  predicate ValidPath(v: Js) { v.JStr? && v.s != "" }

  predicate ValidSong(d: Doc) { DistinctKeys(d) && ValidId(IdOf(d)) && ValidPath(Lookup(d, "path")) }

  predicate UniqueIds(songs: seq<Doc>)
  {
    forall i, j :: 0 <= i < j < |songs| ==> IdOf(songs[i]) != IdOf(songs[j])
  }

  /** Replacing a document by one with the same id keeps the ids distinct. */
  lemma ReplaceUnique(songs: seq<Doc>, i: nat, d: Doc)
    requires UniqueIds(songs) && i < |songs| && IdOf(d) == IdOf(songs[i])
    ensures UniqueIds(songs[i := d])
  {
    var after := songs[i := d];
    forall a, b | 0 <= a < b < |after| ensures IdOf(after[a]) != IdOf(after[b]) {
      assert IdOf(after[a]) == IdOf(songs[a]) && IdOf(after[b]) == IdOf(songs[b]);
    }
  }

  /** Appending a document whose id no document has keeps the ids distinct. */
  lemma AppendUnique(songs: seq<Doc>, d: Doc)
    requires UniqueIds(songs) && forall k :: 0 <= k < |songs| ==> IdOf(songs[k]) != IdOf(d)
    ensures UniqueIds(songs + [d])
  {
    var after := songs + [d];
    forall a, b | 0 <= a < b < |after| ensures IdOf(after[a]) != IdOf(after[b]) {
      if b == |songs| {
        assert after[a] == songs[a] && after[b] == d;
      } else {
        assert after[a] == songs[a] && after[b] == songs[b];
      }
    }
  }

  /** The position of the document an `{id: id}` query matches first, or -1. */
  function Find(songs: seq<Doc>, id: Js): (r: int)
    ensures -1 <= r < |songs|
    ensures r >= 0 ==> IdOf(songs[r]) == id
    ensures r >= 0 ==> forall k :: 0 <= k < r ==> IdOf(songs[k]) != id
    ensures r == -1 <==> forall k :: 0 <= k < |songs| ==> IdOf(songs[k]) != id
  {
    if songs == [] then -1
    else if IdOf(songs[|songs| - 1]) == id && Find(songs[..|songs| - 1], id) == -1 then |songs| - 1
    else Find(songs[..|songs| - 1], id)
  }

  /** `$set` of every field of `fields` onto `doc`, in order. */
  function Merge(doc: Doc, fields: Doc): (r: Doc)
    decreases |fields|
  {
    if fields == [] then doc else Merge(Assign(doc, fields[0].0, fields[0].1), fields[1..])
  }

  /** A merged document answers the merged fields with their new values and every other key as before. */
  lemma {:induction false} MergeLookup(doc: Doc, fields: Doc, k: string)
    requires DistinctKeys(fields)
    ensures Lookup(Merge(doc, fields), k) == if Has(fields, k) then Lookup(fields, k) else Lookup(doc, k)
    decreases |fields|
  {
    if fields != [] {
      MergeLookup(Assign(doc, fields[0].0, fields[0].1), fields[1..], k);
    }
  }

  /** Assigning keeps the keys distinct and adds `k` to them. */
  lemma {:induction false} AssignDistinct(d: Doc, k: string, v: Js)
    requires DistinctKeys(d)
    ensures DistinctKeys(Assign(d, k, v))
    ensures forall j :: Has(Assign(d, k, v), j) <==> Has(d, j) || j == k
    decreases |d|
  {
    if d != [] && d[0].0 != k {
      AssignDistinct(d[1..], k, v);
      assert Assign(d, k, v)[1..] == Assign(d[1..], k, v);
    } else if d != [] {
      assert Assign(d, k, v)[1..] == d[1..];
    }
  }

  lemma {:induction false} MergeDistinct(doc: Doc, fields: Doc)
    requires DistinctKeys(doc)
    ensures DistinctKeys(Merge(doc, fields))
    decreases |fields|
  {
    if fields != [] {
      AssignDistinct(doc, fields[0].0, fields[0].1);
      MergeDistinct(Assign(doc, fields[0].0, fields[0].1), fields[1..]);
    }
  }

  /** The document an upsert of `song` leaves under its id: the song itself, or the song merged into what was there. */
  function Upsert(backend: Backend, prev: Option<Doc>, song: Doc): Doc
  {
    match backend
    case NeDB => song
    case Mongo => Merge(if prev.Some? then prev.value else [("id", IdOf(song))], song)
  }

  /** The collection after `update({id: song.id}, song, {upsert: true})`. */
  function Upserted(backend: Backend, songs: seq<Doc>, song: Doc): seq<Doc>
  {
    var i := Find(songs, IdOf(song));
    if i < 0 then songs + [Upsert(backend, None, song)]
    else songs[i := Upsert(backend, Some(songs[i]), song)]
  }

  /** An add of a song with a valid id and path keeps every document valid and the ids distinct. */
  lemma UpsertedValid(backend: Backend, songs: seq<Doc>, song: Doc)
    requires (forall k :: 0 <= k < |songs| ==> ValidSong(songs[k])) && UniqueIds(songs)
    requires DistinctKeys(song) && ValidId(IdOf(song)) && ValidPath(Lookup(song, "path"))
    ensures var r := Upserted(backend, songs, song);
            (forall k :: 0 <= k < |r| ==> ValidSong(r[k])) && UniqueIds(r)
  {
    var i := Find(songs, IdOf(song));
    var doc := Upsert(backend, if i < 0 then None else Some(songs[i]), song);
    UpsertValid(backend, if i < 0 then None else Some(songs[i]), song);
    if i < 0 {
      AppendUnique(songs, doc);
    } else {
      ReplaceUnique(songs, i, doc);
    }
  }

  /** The collection after `update({id: id}, {$set: {version: v}})`. */
  function Touched(songs: seq<Doc>, id: Js, v: int): seq<Doc>
  {
    var i := Find(songs, id);
    if i < 0 then songs else songs[i := Assign(songs[i], "version", JNum(Int(v)))]
  }

  /** `{version: {$lt: v}}`: only numeric versions are compared. */
  predicate Below(d: Doc, v: int)
  {
    var x := Lookup(d, "version");
    x.JNum? && (x.num == NegInf || (x.num.Int? && x.num.i < v))
  }

  /** The collection after `remove({version: {$lt: v}})`, in its order. */
  function Cleared(songs: seq<Doc>, v: int): (r: seq<Doc>)
    ensures forall d :: d in r <==> d in songs && !Below(d, v)
  {
    if songs == [] then []
    else (if Below(songs[0], v) then [] else [songs[0]]) + Cleared(songs[1..], v)
  }

  lemma {:induction false} ClearedUnique(songs: seq<Doc>, v: int)
    requires UniqueIds(songs)
    ensures UniqueIds(Cleared(songs, v))
  {
    if songs != [] {
      var rest := songs[1..];
      assert UniqueIds(rest) by {
        forall i, j | 0 <= i < j < |rest| ensures IdOf(rest[i]) != IdOf(rest[j]) { assert rest[i] == songs[i + 1] && rest[j] == songs[j + 1]; }
      }
      ClearedUnique(rest, v);
      var c := Cleared(rest, v);
      forall d | d in c ensures IdOf(d) != IdOf(songs[0]) {
        var k :| 0 <= k < |rest| && rest[k] == d;
        assert songs[k + 1] == d;
      }
    }
  }

  /** Some document of `songs` has a version below `v`. */
  predicate AnyBelow(songs: seq<Doc>, v: int)
  {
    exists i :: 0 <= i < |songs| && Below(songs[i], v)
  }

  /**
   * NeDB's `remove({version: {$lt: v}}, cb)`: without `{multi: true}` only the
   * first matching document, in collection order, is removed.
   */
  function ClearedFirst(songs: seq<Doc>, v: int): (r: seq<Doc>)
    ensures forall d :: d in r ==> d in songs
    ensures forall d :: d in songs && !Below(d, v) ==> d in r
    ensures |r| == if AnyBelow(songs, v) then |songs| - 1 else |songs|
    ensures !AnyBelow(songs, v) ==> r == songs
  {
    if songs == [] then []
    else if Below(songs[0], v) then songs[1..]
    else
      assert AnyBelow(songs, v) <==> AnyBelow(songs[1..], v) by {
        if AnyBelow(songs, v) {
          var i :| 0 <= i < |songs| && Below(songs[i], v);
          assert songs[1..][i - 1] == songs[i];
        }
        if AnyBelow(songs[1..], v) {
          var i :| 0 <= i < |songs[1..]| && Below(songs[1..][i], v);
          assert songs[i + 1] == songs[1..][i];
        }
      }
      [songs[0]] + ClearedFirst(songs[1..], v)
  }

  lemma {:induction false} ClearedFirstUnique(songs: seq<Doc>, v: int)
    requires UniqueIds(songs)
    ensures UniqueIds(ClearedFirst(songs, v))
  {
    if songs != [] {
      var rest := songs[1..];
      assert UniqueIds(rest) by {
        forall i, j | 0 <= i < j < |rest| ensures IdOf(rest[i]) != IdOf(rest[j]) { assert rest[i] == songs[i + 1] && rest[j] == songs[j + 1]; }
      }
      if !Below(songs[0], v) {
        ClearedFirstUnique(rest, v);
        var c := ClearedFirst(rest, v);
        var r := [songs[0]] + c;
        assert ClearedFirst(songs, v) == r;
        forall i, j | 0 <= i < j < |r| ensures IdOf(r[i]) != IdOf(r[j]) {
          assert r[j] == c[j - 1];
          if i == 0 {
            assert c[j - 1] in rest;
            var k :| 0 <= k < |rest| && rest[k] == c[j - 1];
            assert songs[k + 1] == r[j];
          } else {
            assert r[i] == c[i - 1];
          }
        }
      }
    }
  }

  /**
   * On NeDB a pass that leaves two outdated records behind removes only one of
   * them; removing every match leaves none.
   */
  lemma NeDBClearLeavesStale()
    ensures var a: Doc := [("id", JNum(Int(1))), ("version", JNum(Int(3)))];
            var b: Doc := [("id", JNum(Int(2))), ("version", JNum(Int(3)))];
            ClearedFirst([a, b], 4) == [b] && Below(b, 4) && Cleared([a, b], 4) == []
  {
    var a: Doc := [("id", JNum(Int(1))), ("version", JNum(Int(3)))];
    var b: Doc := [("id", JNum(Int(2))), ("version", JNum(Int(3)))];
    assert Lookup(a, "version") == JNum(Int(3));
    assert Lookup(b, "version") == JNum(Int(3));
    assert [a, b][1..] == [b];
    assert [b][1..] == [];
    assert Cleared([b], 4) == [];
  }

  /** The version `version.get` reports: 2 when there is no information record. */
  function VersionValue(info: Option<Info>): int
  {
    if info.None? then 2 else info.value.version
  }

  /** The record `version.inc` leaves: the version increased by one, or a new record at 2. */
  function VersionBumped(info: Option<Info>): Info
  {
    if info.None? then Info(2, None) else info.value.(version := info.value.version + 1)
  }

  /** On a fresh store the reported version is 2 both before and after the first increment; after that each increment adds one. */
  lemma VersionSequence(info: Option<Info>)
    ensures VersionValue(None) == 2 && VersionValue(Some(VersionBumped(None))) == 2
    ensures info.Some? ==> VersionValue(Some(VersionBumped(info))) == VersionValue(info) + 1
    ensures VersionBumped(info).dbId == if info.Some? then info.value.dbId else None
  {
  }

  // ---------------------------------------------------------------------------
  // Cache names

  function Concat(parts: seq<string>): string
  {
    if parts == [] then "" else parts[0] + Concat(parts[1..])
  }

  /** `hashQuery`: the digest of the field names fed one after another, so of their concatenation. */
  function HashQuery(metas: seq<string>, md5: string -> string): string
  {
    md5(Concat(metas))
  }

  /** The name of a cache file: `cache-<name>-<digest>` in NeDB's database directory, `<name>-<digest>` in MongoDB. */
  function CacheFile(backend: Backend, name: string, metas: seq<string>, md5: string -> string): string
  {
    match backend
    case NeDB => "cache-" + name + "-" + HashQuery(metas, md5)
    case Mongo => name + "-" + HashQuery(metas, md5)
  }

  /** `cacheName` of NeDB: the cache file inside the database directory. */
  function CacheName(dbPath: string, name: string, metas: seq<string>, md5: string -> string): string
  {
    PathJoin(dbPath, CacheFile(NeDB, name, metas, md5))
  }

  /** The field names are neither sorted nor separated: a different split of the same text names the same file. */
  lemma NoSeparator(backend: Backend, name: string, md5: string -> string)
    ensures CacheFile(backend, name, ["ab", "c"], md5) == CacheFile(backend, name, ["a", "bc"], md5)
  {
    assert Concat(["ab", "c"]) == "abc" by { assert Concat(["c"]) == "c"; }
    assert Concat(["a", "bc"]) == "abc" by { assert Concat(["bc"]) == "bc"; }
  }

  /** The order of the field names matters: with a digest that is the identity, two orders name two files. */
  lemma OrderMatters(backend: Backend, name: string)
    ensures CacheFile(backend, name, ["a", "b"], s => s) != CacheFile(backend, name, ["b", "a"], s => s)
  {
    assert Concat(["a", "b"]) == "ab" by { assert Concat(["b"]) == "b"; }
    assert Concat(["b", "a"]) == "ba" by { assert Concat(["a"]) == "a"; }
    var x := CacheFile(backend, name, ["a", "b"], s => s);
    var y := CacheFile(backend, name, ["b", "a"], s => s);
    assert x[|x| - 2] != y[|y| - 2];
  }

  /** `/^cache-/`. */
  predicate IsCacheFile(f: string) { IsPrefix("cache-", f) }

  /** Every cache file NeDB writes is one its cache clearing removes. */
  lemma CacheFilesCleared(name: string, metas: seq<string>, md5: string -> string)
    ensures IsCacheFile(CacheFile(NeDB, name, metas, md5))
  {
  }

  // ---------------------------------------------------------------------------
  // The store

  class Store {
    const backend: Backend
    var songs: seq<Doc>
    var info: Option<Info>
    /** The file names: those of NeDB's database directory, or MongoDB's stored files. */
    var files: set<string>

    ghost predicate Valid()
      reads this
    {
      (forall i :: 0 <= i < |songs| ==> ValidSong(songs[i])) && UniqueIds(songs)
    }

    constructor (backend: Backend, files: set<string>)
      ensures Valid()
      ensures this.backend == backend && songs == [] && info == None && this.files == files
    {
      this.backend := backend;
      songs := [];
      info := None;
      this.files := files;
    }

    /**
     * `song.add`: a song whose id is not a number (or is NaN) or whose path is
     * not a non-empty string is rejected without a write; any other is upserted
     * by id.
     */
    method SongAdd(song: Doc) returns (ok: bool)
      requires Valid() && DistinctKeys(song)
      modifies this
      ensures Valid()
      ensures ok <==> ValidId(IdOf(song)) && ValidPath(Lookup(song, "path"))
      ensures songs == if ok then Upserted(backend, old(songs), song) else old(songs)
      ensures info == old(info) && files == old(files)
    {
      if !ValidId(IdOf(song)) || !ValidPath(Lookup(song, "path")) {
        return false;
      }
      UpsertedValid(backend, songs, song);
      var i := Find(songs, IdOf(song));
      var doc := Upsert(backend, if i < 0 then None else Some(songs[i]), song);
      if i < 0 {
        songs := songs + [doc];
      } else {
        songs := songs[i := doc];
      }
      ok := true;
    }

    /** `song.touch`: the document with that id gets the version; nothing else changes, and an absent id changes nothing. */
    method SongTouch(id: Js, v: int)
      requires Valid()
      modifies this
      ensures Valid()
      ensures songs == Touched(old(songs), id, v)
      ensures info == old(info) && files == old(files)
    {
      var i := Find(songs, id);
      if i >= 0 {
        AssignDistinct(songs[i], "version", JNum(Int(v)));
        assert Lookup(Assign(songs[i], "version", JNum(Int(v))), "id") == Lookup(songs[i], "id");
        ReplaceUnique(songs, i, Assign(songs[i], "version", JNum(Int(v))));
        songs := songs[i := Assign(songs[i], "version", JNum(Int(v)))];
      }
    }

    /**
     * `song.clear`: MongoDB removes exactly the documents whose version is below
     * `v`; NeDB, called without `{multi: true}`, removes only the first of them.
     */
    method SongClear(v: int)
      requires Valid()
      modifies this
      ensures Valid()
      ensures songs == if backend == NeDB then ClearedFirst(old(songs), v) else Cleared(old(songs), v)
      ensures info == old(info) && files == old(files)
    {
      var kept;
      if backend == NeDB {
        ClearedFirstUnique(songs, v);
        kept := ClearedFirst(songs, v);
      } else {
        ClearedUnique(songs, v);
        kept := Cleared(songs, v);
      }
      forall i | 0 <= i < |kept| ensures ValidSong(kept[i]) {
        assert kept[i] in songs;
      }
      songs := kept;
    }

    /** `song.listIter` of MongoDB: walks the cursor, collecting each document once, in cursor order. */
    method SongListIter() returns (list: seq<Doc>)
      ensures list == songs
    {
      list := [];
      var cursor := 0;
      while cursor < |songs|
        invariant 0 <= cursor <= |songs|
        invariant list == songs[..cursor]
      {
        list := list + [songs[cursor]];
        cursor := cursor + 1;
      }
    }

    /** `version.get`: the stored version, or 2 when there is no record. */
    method VersionGet() returns (v: int)
      ensures info.None? ==> v == 2
      ensures info.Some? ==> v == info.value.version
    {
      v := if info.None? then 2 else info.value.version;
    }

    /** `version.inc`: adds one to the stored version; when nothing was modified it writes version 2 with an upsert. */
    method VersionInc()
      modifies this
      ensures info == Some(VersionBumped(old(info)))
      ensures songs == old(songs) && files == old(files)
    {
      match info
      case Some(r) =>
        info := Some(r.(version := r.version + 1));
      case None =>
        info := Some(Info(2, None));
    }

    /** `dbId.get`: the stored database id, or nothing. */
    method DbIdGet() returns (id: Option<string>)
      ensures info.None? ==> id.None?
      ensures info.Some? ==> id == info.value.dbId
    {
      id := if info.None? then None else info.value.dbId;
    }

    /** `dbId.set`: rejects anything but a non-empty string; it does not upsert, so without a record nothing is written. */
    method DbIdSet(dbId: Js) returns (ok: bool)
      modifies this
      ensures ok <==> dbId.JStr? && dbId.s != ""
      ensures info == if ok && old(info).Some? then Some(old(info).value.(dbId := Some(dbId.s))) else old(info)
      ensures songs == old(songs) && files == old(files)
    {
      if !dbId.JStr? || dbId.s == "" {
        return false;
      }
      if info.Some? {
        info := Some(info.value.(dbId := Some(dbId.s)));
      }
      ok := true;
    }

    /**
     * `cache.clear`: NeDB removes the files of its directory whose names start
     * with `cache-` (nothing when the directory cannot be read); MongoDB drops
     * its file collections altogether.
     */
    method CacheClear(readable: bool)
      modifies this
      ensures backend == NeDB ==> files == if readable then (set f | f in old(files) && !IsCacheFile(f)) else old(files)
      ensures backend == Mongo ==> files == {}
      ensures songs == old(songs) && info == old(info)
    {
      if backend == Mongo {
        files := {};
      } else if readable {
        files := set f | f in files && !IsCacheFile(f);
      }
    }
  }

  lemma UpsertValid(backend: Backend, prev: Option<Doc>, song: Doc)
    requires DistinctKeys(song) && ValidId(IdOf(song)) && ValidPath(Lookup(song, "path"))
    requires prev.Some? ==> DistinctKeys(prev.value)
    ensures ValidSong(Upsert(backend, prev, song)) && IdOf(Upsert(backend, prev, song)) == IdOf(song)
  {
    if backend == Mongo {
      var base := if prev.Some? then prev.value else [("id", IdOf(song))];
      MergeDistinct(base, song);
      MergeLookup(base, song, "id");
      MergeLookup(base, song, "path");
      KeyBound(song, "id");
      KeyBound(song, "path");
    }
  }

  /** A key with a defined value has a binding. */
  lemma {:induction false} KeyBound(d: Doc, k: string)
    requires Lookup(d, k) != JUndefined
    ensures Has(d, k)
    decreases |d|
  {
    if d[0].0 != k {
      KeyBound(d[1..], k);
    }
  }

  /** After an add, the id query finds the upserted document: where the old one was, or at the end. */
  lemma FindUpserted(backend: Backend, songs: seq<Doc>, song: Doc)
    requires UniqueIds(songs) && DistinctKeys(song) && ValidId(IdOf(song))
    ensures var j := Find(songs, IdOf(song));
            Find(Upserted(backend, songs, song), IdOf(song)) == if j < 0 then |songs| else j
  {
    var id := IdOf(song);
    var j := Find(songs, id);
    var r := Upserted(backend, songs, song);
    var prev := if j < 0 then None else Some(songs[j]);
    IdAfterUpsert(backend, prev, song);
    var at := if j < 0 then |songs| else j;
    assert IdOf(r[at]) == id;
    forall k | 0 <= k < |r| && k != at ensures IdOf(r[k]) != id {
      assert r[k] == songs[k];
      if j >= 0 {
        if k < j { assert IdOf(songs[k]) != IdOf(songs[j]); } else { assert IdOf(songs[j]) != IdOf(songs[k]); }
      }
    }
    var f := Find(r, id);
    assert f == at;
  }

  /**
   * After an add, the id's document is the song itself (NeDB), or answers each
   * of the song's fields with the song's value and every other field as the
   * document it replaced (MongoDB).
   */
  lemma UpsertedBinds(backend: Backend, songs: seq<Doc>, song: Doc, k: string)
    requires UniqueIds(songs) && DistinctKeys(song) && ValidId(IdOf(song))
    ensures var r := Upserted(backend, songs, song);
            var i := Find(r, IdOf(song));
            var j := Find(songs, IdOf(song));
            i >= 0
            && (backend == NeDB ==> r[i] == song)
            && (Has(song, k) ==> Lookup(r[i], k) == Lookup(song, k))
            && (backend == Mongo && !Has(song, k) && j >= 0 ==> Lookup(r[i], k) == Lookup(songs[j], k))
  {
    FindUpserted(backend, songs, song);
    var j := Find(songs, IdOf(song));
    var prev := if j >= 0 then Some(songs[j]) else None;
    var r := Upserted(backend, songs, song);
    assert r[if j < 0 then |songs| else j] == Upsert(backend, prev, song);
    UpsertLookup(backend, prev, song, k);
  }

  /** The upserted document answers the song's fields with the song's values, and the others as before (MongoDB). */
  lemma UpsertLookup(backend: Backend, prev: Option<Doc>, song: Doc, k: string)
    requires DistinctKeys(song)
    ensures backend == NeDB ==> Upsert(backend, prev, song) == song
    ensures Has(song, k) ==> Lookup(Upsert(backend, prev, song), k) == Lookup(song, k)
    ensures backend == Mongo && !Has(song, k) && prev.Some? ==> Lookup(Upsert(backend, prev, song), k) == Lookup(prev.value, k)
  {
    if backend == Mongo {
      MergeLookup(if prev.Some? then prev.value else [("id", IdOf(song))], song, k);
    }
  }

  lemma IdAfterUpsert(backend: Backend, prev: Option<Doc>, song: Doc)
    requires DistinctKeys(song)
    ensures IdOf(song) != JUndefined ==> IdOf(Upsert(backend, prev, song)) == IdOf(song)
  {
    if backend == Mongo && IdOf(song) != JUndefined {
      var base := if prev.Some? then prev.value else [("id", IdOf(song))];
      KeyBound(song, "id");
      MergeLookup(base, song, "id");
    }
  }
}
