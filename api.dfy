/**
 * The request handlers' decisions: the login session counter, the shared
 * password check, the "nothing changed since `delta`" answers of the database
 * and playlist handlers, the version-tagged response cache of the two listing
 * handlers, and which song file a song request serves.
 *
 * What the handlers obtain from the store (the version, the song count, the
 * song list, the paths stored under an id) and from the file system arrives as
 * parameters; `None` stands for the error the store or `fs.stat` reported.
 */
module Api {
  import opened Wrappers
  import opened JsValues
  import Daap

  // ---------------------------------------------------------------------------
  // Sessions

  /** The largest session id, 2^31 - 1. */
  const SessionMax: int := 0x7FFF_FFFF

  /** The id `nextSession` hands out when its counter holds `session`. */
  function Issued(session: int): (id: int)
    ensures session <= SessionMax ==> id == session
    ensures session > SessionMax ==> id == 1
  {
    if session > SessionMax then 1 else session
  }

  /** The counter after `n` logins. */
  ghost function SessionAfter(n: nat): int
  {
    if n == 0 then 1 else Issued(SessionAfter(n - 1)) + 1
  }

  /** The id of the login numbered `n` (from 0) is `n mod (2^31 - 1)` plus one. */
  lemma {:induction false} SessionSequence(n: nat)
    ensures Issued(SessionAfter(n)) == n % SessionMax + 1
    ensures 1 <= SessionAfter(n) <= SessionMax + 1
  {
    if n > 0 {
      SessionSequence(n - 1);
      var r := (n - 1) % SessionMax;
      assert n - 1 == (n - 1) / SessionMax * SessionMax + r;
      if r == SessionMax - 1 {
        assert n == ((n - 1) / SessionMax + 1) * SessionMax;
      } else {
        assert n == (n - 1) / SessionMax * SessionMax + (r + 1);
      }
    }
  }

  /** Consecutive logins get consecutive ids, except that 2^31 - 1 is followed by 1. */
  lemma SessionsConsecutive(n: nat)
    ensures var a, b := Issued(SessionAfter(n)), Issued(SessionAfter(n + 1));
            1 <= a <= SessionMax && b == if a == SessionMax then 1 else a + 1
  {
    SessionSequence(n);
    SessionSequence(n + 1);
  }

  /** The closure counter behind `nextSession`. */
  class Sessions {
    var session: int
    /** How many ids have been handed out. */
    ghost var calls: nat

    ghost predicate Valid()
      reads this
    {
      session == SessionAfter(calls)
    }

    constructor ()
      ensures Valid() && calls == 0
    {
      session := 1;
      calls := 0;
    }

    /** `nextSession`: wraps the counter back to 1 once it passed 2^31 - 1, then hands it out and increments it. */
    method Next() returns (id: int)
      requires Valid()
      modifies this
      ensures Valid() && calls == old(calls) + 1
      ensures id == old(calls) % SessionMax + 1
      ensures 1 <= id <= SessionMax
    {
      SessionSequence(calls);
      if session > SessionMax {
        session := 1;
      }
      id := session;
      session := session + 1;
      calls := calls + 1;
    }
  }

  // ---------------------------------------------------------------------------
  // Password check

  datatype Verdict = Allow | Deny

  /**
   * `auth`: with no password configured every request passes; otherwise the
   * request needs an authorization header. Its text after the first five
   * characters ("Basic") is decoded (`decode`, base64), and what follows the
   * first `:` of the decoded text, colon included, must be `:` plus the password.
   */
  function CheckAuth(password: Js, header: Option<string>, decode: string -> string): (r: Verdict)
    ensures !Truthy(password) ==> r == Allow
    ensures Truthy(password) && (header.None? || header.value == "") ==> r == Deny
  {
    if !Truthy(password) then Allow
    else if header.None? || header.value == "" then Deny
    else
      var text := decode(Substring(header.value, 5, |header.value|));
      if Substring(text, IndexOf(text, ':'), |text|) == ":" + ToStr(password) then Allow else Deny
  }

  /**
   * With a password and a header, a request passes exactly when the decoded
   * credentials are some user name without a colon, a colon and the password:
   * the user name is never looked at.
   */
  lemma AuthIgnoresUser(password: Js, h: string, decode: string -> string)
    requires Truthy(password) && h != ""
    ensures var text := decode(Substring(h, 5, |h|));
            CheckAuth(password, Some(h), decode) == Allow
            <==> exists user :: ':' !in user && text == user + ":" + ToStr(password)
  {
    ColonTail(decode(Substring(h, 5, |h|)), ToStr(password));
  }

  /** The text from the first colon on is `:` plus `pw` exactly when the text is a colon-free name, `:` and `pw`. */
  lemma ColonTail(text: string, pw: string)
    ensures Substring(text, IndexOf(text, ':'), |text|) == ":" + pw
            <==> exists user :: ':' !in user && text == user + ":" + pw
  {
    ColonTailAt(text, pw, IndexOf(text, ':'));
  }

  /** `ColonTail` for a position `i` known only by what `indexOf` promises. */
  lemma ColonTailAt(text: string, pw: string, i: int)
    requires -1 <= i < |text|
    requires i >= 0 ==> text[i] == ':' && ':' !in text[..i]
    requires i == -1 <==> ':' !in text
    ensures Substring(text, i, |text|) == ":" + pw
            <==> exists user :: ':' !in user && text == user + ":" + pw
  {
    var t := Substring(text, i, |text|);
    if t == ":" + pw {
      assert t[0] == ':';
      assert i < 0 ==> t == text;
      TailSplit(text, pw, i);
      assert ':' !in text[..i];
    }
    forall user | ':' !in user && text == user + ":" + pw
      ensures t == ":" + pw
    {
      assert text[|user|] == ':';
      assert forall j :: 0 <= j < |user| ==> text[j] == user[j];
      assert forall j :: 0 <= j < i ==> text[..i][j] == text[j];
      assert text[|user|..] == ":" + pw;
    }
  }

  lemma TailSplit(text: string, pw: string, i: int)
    requires 0 <= i < |text| && Substring(text, i, |text|) == ":" + pw
    ensures text == text[..i] + ":" + pw
  {
    assert text[i..] == ":" + pw;
    assert text == text[..i] + text[i..];
  }

  // ---------------------------------------------------------------------------
  // "Nothing changed since delta"

  /** `!err && +req.query.delta === version`. */
  predicate UpToDate(delta: Js, read: Option<int>)
  {
    read.Some? && ToNumber(delta) == Int(read.value)
  }

  /**
   * A client that sends back the version it was given is up to date, as long as
   * the read succeeds; one that sends no delta, or whose read fails, never is.
   */
  lemma UpToDateDelta(v: nat, delta: Js)
    requires v < InfinityThreshold
    ensures UpToDate(JStr(DecimalString(v)), Some(v))
    ensures !UpToDate(JUndefined, Some(v)) && !UpToDate(delta, None)
  {
    var s := DecimalString(v);
    DecimalRoundTrip(v);
    assert StringToNumber(s) == Int(v);
  }

  /** The version `update` reports: the one read, or 1 when the read failed. */
  function Reported(read: Option<int>): int
  {
    if read.None? then 1 else read.value
  }

  /** `update`'s answer once the version has been read (the 30-second delay before it is not modelled). */
  function UpdateTree(read: Option<int>): Js
  {
    JObj([("mupd", JArr([Daap.Status(200), JObj([("musr", JNum(Int(Reported(read))))])], []))])
  }

  /**
   * The poll answer carries status 200 and the version read; after a failed read
   * it carries 1, and a client that sends that back is up to date only if a later
   * read yields 1 too.
   */
  lemma UpdateAnswers(read: Option<int>, later: Option<int>)
    ensures Answer(UpdateTree(read), "mstt") == JNum(Int(200))
    ensures Answer(UpdateTree(read), "musr") == JNum(Int(if read.Some? then read.value else 1))
    ensures read.None? ==> (UpToDate(JNum(Int(Reported(read))), later) <==> later == Some(1))
  {
    var nodes := UpdateTree(read).props[0].1.items;
    NodeValueAt(nodes, 0, "mstt");
    NodeValueAt(nodes, 1, "musr");
  }

  function Top(container: bool, info: bool): string
  {
    if info then (if container then "aply" else "avdb") else (if container then "apso" else "adbs")
  }

  /** The one listing item of an info answer; the database's carries the song count beside its elements. */
  function InfoItems(container: bool, name: Js): (r: seq<Js>)
    ensures |r| == if container then 4 else 5
  {
    [JObj([("miid", JNum(Int(1)))]), JObj([("mper", JNum(Int(1)))]), JObj([("minm", name)]), JObj([("mimc", JNum(Int(1)))])]
    + (if container then [] else [JObj([("mctc", JNum(Int(1)))])])
  }

  /** The `mlcl` value: an empty array when up to date, else a `mlit` array, with `extra` assigned beside its elements. */
  function InfoListing(container: bool, name: Js, update: bool, extra: seq<(string, Js)>): Js
  {
    if update then JArr([], []) else JObj([("mlit", JArr(InfoItems(container, name), extra))])
  }

  function InfoTree(container: bool, mlcl: Js, update: bool): Js
  {
    var c := JNum(Int(if update then 0 else 1));
    JObj([(Top(container, true),
           JArr([Daap.Status(200), JObj([("muty", JBool(update))]), JObj([("mtco", c)]), JObj([("mrco", c)]),
                 JObj([("mlcl", mlcl)])], []))])
  }

  lemma InfoTreeAnswers(container: bool, mlcl: Js, update: bool)
    ensures var t, c := InfoTree(container, mlcl, update), JNum(Int(if update then 0 else 1));
            && Answer(t, "mstt") == JNum(Int(200)) && Answer(t, "muty") == JBool(update)
            && Answer(t, "mtco") == c && Answer(t, "mrco") == c && Answer(t, "mlcl") == mlcl
  {
    var nodes := InfoTree(container, mlcl, update).props[0].1.items;
    var keys := ["mstt", "muty", "mtco", "mrco", "mlcl"];
    assert forall j :: 0 <= j < 5 ==> nodes[j].JObj? && |nodes[j].props| == 1 && nodes[j].props[0].0 == keys[j];
    NodeValueAt(nodes, 0, "mstt");
    NodeValueAt(nodes, 1, "muty");
    NodeValueAt(nodes, 2, "mtco");
    NodeValueAt(nodes, 3, "mrco");
    NodeValueAt(nodes, 4, "mlcl");
  }

  lemma {:induction false} NodeValueAt(nodes: seq<Js>, i: nat, key: string)
    requires i < |nodes| && nodes[i].JObj? && |nodes[i].props| == 1 && nodes[i].props[0].0 == key
    requires forall j :: 0 <= j < i ==> !(nodes[j].JObj? && |nodes[j].props| == 1 && nodes[j].props[0].0 == key)
    ensures NodeValue(nodes, key) == nodes[i].props[0].1
  {
    if i > 0 {
      NodeValueAt(nodes[1..], i - 1, key);
    }
  }

  datatype InfoReply = InfoOk(tree: Js) | InfoErr

  /** The value under `key` in an answer `{top: [{k1: v1}, {k2: v2}, ...]}`: the first node with that key. */
  function Answer(tree: Js, key: string): Js
  {
    if tree.JObj? && |tree.props| == 1 && tree.props[0].1.JArr? then NodeValue(tree.props[0].1.items, key) else JUndefined
  }

  function NodeValue(nodes: seq<Js>, key: string): Js
  {
    if nodes == [] then JUndefined
    else if nodes[0].JObj? && |nodes[0].props| == 1 && nodes[0].props[0].0 == key then nodes[0].props[0].1
    else NodeValue(nodes[1..], key)
  }

  /**
   * `databaseInfo` (`container` false) and `containerInfo`: a failed count is an
   * error; otherwise the answer says whether the client is up to date, with no
   * listing and counts 0 if so and one listing item and counts 1 if not. The
   * database handler assigns the song count to the item array as a property
   * (`mlcl.mlit.mimc = number`), which leaves the array's elements alone.
   */
  function InfoHandler(container: bool, name: Js, delta: Js, read: Option<int>, count: Option<int>): (r: InfoReply)
    ensures r.InfoErr? <==> count.None?
    ensures r.InfoOk? ==>
      var update := UpToDate(delta, read);
      var c := JNum(Int(if update then 0 else 1));
      && Answer(r.tree, "mstt") == JNum(Int(200)) && Answer(r.tree, "muty") == JBool(update)
      && Answer(r.tree, "mtco") == c && Answer(r.tree, "mrco") == c
      && Answer(r.tree, "mlcl") == if update then JArr([], [])
                                   else JObj([("mlit", JArr(InfoItems(container, name),
                                                            if container then [] else [("mimc", JNum(Int(count.value)))]))])
  {
    if count.None? then InfoErr
    else
      var update := UpToDate(delta, read);
      var extra := if container || update then [] else Assign([], "mimc", JNum(Int(count.value)));
      var mlcl := InfoListing(container, name, update, extra);
      InfoTreeAnswers(container, mlcl, update);
      InfoOk(InfoTree(container, mlcl, update))
  }

  /**
   * The song count assigned to the item array never reaches the wire: the
   * database answer encodes exactly as with no count at all, so its `mimc` stays 1.
   */
  lemma DatabaseInfoIgnoresCount(name: Js, delta: Js, read: Option<int>, n: int)
    ensures var update := UpToDate(delta, read);
            InfoHandler(false, name, delta, read, Some(n)).InfoOk?
            && Daap.Build(InfoHandler(false, name, delta, read, Some(n)).tree)
               == Daap.Build(InfoTree(false, InfoListing(false, name, update, []), update))
  {
    var update := UpToDate(delta, read);
    var extra := if update then [] else Assign([], "mimc", JNum(Int(n)));
    var m1, m2 := InfoListing(false, name, update, extra), InfoListing(false, name, update, []);
    assert InfoHandler(false, name, delta, read, Some(n)).tree == InfoTree(false, m1, update);
    ListingNodesAlike(name, update, extra, JObj([("mlcl", m1)]), JObj([("mlcl", m2)]));
    InfoTreeCongruence(false, m1, m2, update);
  }

  /** Two info answers whose `mlcl` nodes encode alike encode alike. */
  lemma InfoTreeCongruence(container: bool, m1: Js, m2: Js, update: bool)
    requires Daap.EncodeNode(JObj([("mlcl", m1)])) == Daap.EncodeNode(JObj([("mlcl", m2)]))
    ensures Daap.Build(InfoTree(container, m1, update)) == Daap.Build(InfoTree(container, m2, update))
  {
    var t1, t2 := InfoTree(container, m1, update), InfoTree(container, m2, update);
    var x1, x2 := t1.props[0].1, t2.props[0].1;
    assert forall j :: 0 <= j < 4 ==> x1.items[j] == x2.items[j];
    Daap.EncodeArrCongruence(Top(container, true), x1, x2);
    assert Daap.EncodeNode(t1) == Daap.Encode(Top(container, true), x1);
    assert Daap.EncodeNode(t2) == Daap.Encode(Top(container, true), x2);
  }

  lemma ListingNodesAlike(name: Js, update: bool, extra: seq<(string, Js)>, n1: Js, n2: Js)
    requires n1 == JObj([("mlcl", InfoListing(false, name, update, extra))])
    requires n2 == JObj([("mlcl", InfoListing(false, name, update, []))])
    ensures Daap.EncodeNode(n1) == Daap.EncodeNode(n2)
  {
    if !update {
      var m1, m2 := InfoListing(false, name, update, extra), InfoListing(false, name, update, []);
      var l1, l2 := m1.props[0].1, m2.props[0].1;
      Daap.ArrayExtrasIgnored("mlit", InfoItems(false, name), extra, []);
      assert Daap.Encode("mlit", l1) == Daap.Encode("mlit", l2);
      Daap.EncodeSingleCongruence("mlcl", m1, m2);
    }
  }

  // ---------------------------------------------------------------------------
  // The listing handlers and their cache

  /** The fields a song listing asks for when the request names none. */
  const DefaultSongFields: seq<string> :=
    ["dmap.itemkind", "dmap.itemid", "daap.songalbum", "daap.songartist",
     "daap.songgenre", "daap.songtime", "daap.songtracknumber", "daap.songformat"]
  /** The fields a playlist listing asks for when the request names none. */
  const DefaultContainerFields: seq<string> :=
    ["dmap.itemid", "dmap.itemname", "dmap.persistentid", "dmap.parentcontainerid",
     "com.apple.itunes.smart-playlist"]
  /** The default `meta` strings: the fields above, comma-separated. */
  const DefaultSongMeta: string := JoinWith(DefaultSongFields, ',')
  const DefaultContainerMeta: string := JoinWith(DefaultContainerFields, ',')

  /** `(req.query.meta || default).split(',')`. */
  function Query(meta: Option<string>, default: string): (r: seq<string>)
    ensures |r| >= 1 && forall i :: 0 <= i < |r| ==> ',' !in r[i]
    ensures JoinWith(r, ',') == if meta.Some? && meta.value != "" then meta.value else default
  {
    Split(if meta.Some? && meta.value != "" then meta.value else default, ',')
  }

  /** Without `meta`, the song listing asks for its eight default fields, one by one. */
  lemma DefaultSongQuery()
    ensures Query(None, DefaultSongMeta) == DefaultSongFields
  {
    NoComma(DefaultSongFields);
    SplitJoin(DefaultSongFields, ',');
  }

  /** Without `meta`, the playlist listing asks for its five default fields, one by one. */
  lemma DefaultContainerQuery()
    ensures Query(None, DefaultContainerMeta) == DefaultContainerFields
  {
    NoComma(DefaultContainerFields);
    SplitJoin(DefaultContainerFields, ',');
  }

  /** None of the field names contains a comma: they consist of letters, dots and dashes. */
  lemma NoComma(fields: seq<string>)
    requires forall i, j :: 0 <= i < |fields| && 0 <= j < |fields[i]| ==> fields[i][j] == '.' || fields[i][j] == '-' || 'a' <= fields[i][j] <= 'z'
    ensures forall i :: 0 <= i < |fields| ==> ',' !in fields[i]
  {
  }

  /** A cached answer and the version it was built for (`None`: built after a failed read). */
  datatype Entry = Entry(buffer: seq<Byte>, version: Option<int>)

  /**
   * What a listing handler answers: the empty listing for the fields asked, the
   * cached buffer, a freshly built one, or the store's error.
   */
  datatype ItemReply = EmptyListing(query: seq<string>) | FromCache(buffer: seq<Byte>) | Built(buffer: seq<Byte>) | ItemErr

  /**
   * One listing request given the cache entry, the fields asked, the client's
   * delta, the version read and the song list: the up-to-date answer comes
   * first, then a cache hit, then a rebuild that replaces the entry.
   */
  function ItemStep(entry: Option<Entry>, query: seq<string>, delta: Js, read: Option<int>,
                    list: Option<seq<Daap.Song>>, render: seq<Daap.Song> -> seq<Byte>): (ItemReply, Option<Entry>)
  {
    if UpToDate(delta, read) then (EmptyListing(query), entry)
    else if entry.Some? && read.Some? && entry.value.version == read then (FromCache(entry.value.buffer), entry)
    else if list.None? then (ItemErr, entry)
    else
      var b := render(list.value);
      (Built(b), Some(Entry(b, read)))
  }

  /** An up-to-date client gets the empty listing whatever the cache holds, and the cache is left alone. */
  lemma FastPathFirst(entry: Option<Entry>, query: seq<string>, delta: Js, read: Option<int>,
                      list: Option<seq<Daap.Song>>, render: seq<Daap.Song> -> seq<Byte>)
    requires UpToDate(delta, read)
    ensures ItemStep(entry, query, delta, read, list, render) == (EmptyListing(query), entry)
  {
  }

  /** The cache answers exactly when the read succeeded, the client is behind, and the entry is for the version read. */
  lemma CacheHitIff(entry: Option<Entry>, query: seq<string>, delta: Js, read: Option<int>,
                    list: Option<seq<Daap.Song>>, render: seq<Daap.Song> -> seq<Byte>)
    ensures var (reply, next) := ItemStep(entry, query, delta, read, list, render);
            reply.FromCache? <==> !UpToDate(delta, read) && read.Some? && entry.Some? && entry.value.version == read
    ensures var (reply, next) := ItemStep(entry, query, delta, read, list, render);
            reply.FromCache? ==> reply.buffer == entry.value.buffer && next == entry
  {
  }

  /**
   * Otherwise the listing is rendered from the store's songs and stored with the
   * version just read, replacing the old entry; a failed list leaves the cache alone.
   */
  lemma RebuildReplaces(entry: Option<Entry>, query: seq<string>, delta: Js, read: Option<int>,
                        list: Option<seq<Daap.Song>>, render: seq<Daap.Song> -> seq<Byte>)
    requires !UpToDate(delta, read) && !(read.Some? && entry.Some? && entry.value.version == read)
    ensures list.None? ==> ItemStep(entry, query, delta, read, list, render) == (ItemErr, entry)
    ensures list.Some? ==> ItemStep(entry, query, delta, read, list, render)
                           == (Built(render(list.value)), Some(Entry(render(list.value), read)))
  {
  }

  /**
   * A rebuilt listing is served from the cache to the next client behind the same
   * version, whatever the songs are then; one built after a failed read never is.
   */
  lemma RebuiltIsReused(entry: Option<Entry>, query: seq<string>, delta: Js, delta2: Js, read: Option<int>,
                        list: Option<seq<Daap.Song>>, list2: Option<seq<Daap.Song>>, render: seq<Daap.Song> -> seq<Byte>)
    requires ItemStep(entry, query, delta, read, list, render).0.Built?
    requires !UpToDate(delta2, read)
    ensures var (first, next) := ItemStep(entry, query, delta, read, list, render);
            var (second, _) := ItemStep(next, query, delta2, read, list2, render);
            read.Some? ==> second == FromCache(first.buffer)
  {
  }

  /**
   * The cache entry does not record the fields it was built for: a listing built
   * for one field list is served, as built, to a client asking for another.
   */
  lemma CacheIgnoresQuery(entry: Option<Entry>, query: seq<string>, query2: seq<string>, delta: Js, delta2: Js,
                          read: Option<int>, list: Option<seq<Daap.Song>>, list2: Option<seq<Daap.Song>>,
                          render: (seq<string>, seq<Daap.Song>) -> seq<Byte>)
    requires ItemStep(entry, query, delta, read, list, s => render(query, s)).0.Built?
    requires read.Some? && !UpToDate(delta2, read)
    ensures var (_, next) := ItemStep(entry, query, delta, read, list, s => render(query, s));
            ItemStep(next, query2, delta2, read, list2, s => render(query2, s)).0 == FromCache(render(query, list.value))
  {
  }

  lemma FailedReadNeverCached(buffer: seq<Byte>, query: seq<string>, delta: Js, read: Option<int>,
                              list: Option<seq<Daap.Song>>, render: seq<Daap.Song> -> seq<Byte>)
    ensures !ItemStep(Some(Entry(buffer, None)), query, delta, read, list, render).0.FromCache?
  {
  }

  /** The module-level `cache` object with its two entries. */
  class ItemCache {
    /** What `daap.build(daap.song.item(songs, query))` yields for a listing, songs (`false`) or playlist (`true`). */
    const render: (bool, seq<string>, seq<Daap.Song>) -> seq<Byte>
    var databaseItem: Option<Entry>
    var containerItem: Option<Entry>

    constructor (render: (bool, seq<string>, seq<Daap.Song>) -> seq<Byte>)
      ensures this.render == render && databaseItem.None? && containerItem.None?
    {
      this.render := render;
      databaseItem := None;
      containerItem := None;
    }

    /** `databaseItem`: the song listing. */
    method DatabaseItem(meta: Option<string>, delta: Js, read: Option<int>, list: Option<seq<Daap.Song>>)
      returns (reply: ItemReply)
      modifies this
      ensures var query := Query(meta, DefaultSongMeta);
              (reply, databaseItem) == ItemStep(old(databaseItem), query, delta, read, list, songs => render(false, query, songs))
      ensures containerItem == old(containerItem)
    {
      var query := Query(meta, DefaultSongMeta);
      if read.Some? && ToNumber(delta) == Int(read.value) {
        return EmptyListing(query);
      }
      if databaseItem.Some? && read.Some? && databaseItem.value.version == read {
        return FromCache(databaseItem.value.buffer);
      }
      if list.None? {
        return ItemErr;
      }
      databaseItem := Some(Entry(render(false, query, list.value), read));
      reply := Built(databaseItem.value.buffer);
    }

    /** `containerItem`: the playlist listing. */
    method ContainerItem(meta: Option<string>, delta: Js, read: Option<int>, list: Option<seq<Daap.Song>>)
      returns (reply: ItemReply)
      modifies this
      ensures var query := Query(meta, DefaultContainerMeta);
              (reply, containerItem) == ItemStep(old(containerItem), query, delta, read, list, songs => render(true, query, songs))
      ensures databaseItem == old(databaseItem)
    {
      var query := Query(meta, DefaultContainerMeta);
      if read.Some? && ToNumber(delta) == Int(read.value) {
        return EmptyListing(query);
      }
      if containerItem.Some? && read.Some? && containerItem.value.version == read {
        return FromCache(containerItem.value.buffer);
      }
      if list.None? {
        return ItemErr;
      }
      containerItem := Some(Entry(render(true, query, list.value), read));
      reply := Built(containerItem.value.buffer);
    }
  }

  // ---------------------------------------------------------------------------
  // Serving a song file

  /** The file extension the request names: `.mp3` or `.ogg` in any case. */
  predicate ExtAt(s: string, j: nat)
  {
    j + 4 <= |s| && LowerAscii(s[j..j + 4]) in {".mp3", ".ogg"}
  }

  /** `d` is a match of `([0-9]+)\.(mp3|ogg)` at position `k`, `d` being the first group. */
  predicate MatchesAt(s: string, k: nat, d: string)
  {
    d != "" && AllDigits(d) && k + |d| <= |s| && s[k..k + |d|] == d && ExtAt(s, k + |d|)
  }

  /** The first group of the leftmost match starting at `i` or later. */
  function IdFrom(s: string, i: nat): (r: Option<string>)
    requires i <= |s|
    ensures r.Some? ==> r.value != "" && AllDigits(r.value)
    decreases |s| - i
  {
    if i == |s| then None
    else
      var j := Daap.DigitRun(s, i);
      if j > i && ExtAt(s, j) then Some(s[i..j]) else IdFrom(s, i + 1)
  }

  /** Only the maximal digit run from `k` can be followed by the extension's dot. */
  lemma MatchIsRun(s: string, k: nat, d: string)
    requires k <= |s| && MatchesAt(s, k, d)
    ensures Daap.DigitRun(s, k) == k + |d|
  {
    var j := Daap.DigitRun(s, k);
    var e := k + |d|;
    assert s[e..e + 4][0] == s[e];
    assert !IsDigit(s[e]);
    assert forall t :: k <= t < e ==> IsDigit(s[t]) by {
      forall t | k <= t < e ensures IsDigit(s[t]) { assert s[t] == d[t - k]; }
    }
    assert forall t :: k <= t < j ==> IsDigit(s[t]) by {
      forall t | k <= t < j ensures IsDigit(s[t]) { assert s[t] == s[k..j][t - k]; }
    }
  }

  lemma {:induction false} IdFromLeftmost(s: string, i: nat)
    requires i <= |s|
    ensures IdFrom(s, i).Some? ==>
              exists k :: i <= k <= |s| && MatchesAt(s, k, IdFrom(s, i).value)
                          && forall k', d' :: i <= k' < k ==> !MatchesAt(s, k', d')
    ensures IdFrom(s, i).None? ==> forall k, d :: i <= k <= |s| ==> !MatchesAt(s, k, d)
    decreases |s| - i
  {
    if i < |s| {
      IdFromLeftmost(s, i + 1);
      var j := Daap.DigitRun(s, i);
      forall d | MatchesAt(s, i, d) ensures j > i && ExtAt(s, j) {
        MatchIsRun(s, i, d);
      }
      if j > i && ExtAt(s, j) {
        assert MatchesAt(s, i, s[i..j]);
      }
    }
  }

  /** `/([0-9]+)\.(mp3|ogg)/i.exec(file)`: the first group of the leftmost match. */
  function RequestedId(file: string): (r: Option<string>)
    ensures r.Some? ==> r.value != "" && AllDigits(r.value)
  {
    IdFrom(file, 0)
  }

  /** The regular expression's answer: the leftmost match's digits, or no match at all. */
  lemma RequestedIdMatches(file: string)
    ensures RequestedId(file).Some? ==>
              exists k :: 0 <= k <= |file| && MatchesAt(file, k, RequestedId(file).value)
                          && forall k', d' :: 0 <= k' < k ==> !MatchesAt(file, k', d')
    ensures RequestedId(file).None? ==> forall k, d :: 0 <= k <= |file| ==> !MatchesAt(file, k, d)
  {
    IdFromLeftmost(file, 0);
  }

  /** The stored path lies under one of the configured roots. */
  predicate UnderRoot(path: string, roots: seq<string>)
  {
    exists k :: 0 <= k < |roots| && IsPrefix(roots[k], path)
  }

  /**
   * The root check as `song` writes it: the loop runs over the roots but tests
   * root 0 every time, so it stops at 0 when the path is under root 0 and runs
   * to the end otherwise.
   */
  method RootCheckAsWritten(path: string, roots: seq<string>) returns (i: nat)
    ensures i == if UnderFirstRoot(path, roots) then 0 else |roots|
  {
    i := 0;
    while i < |roots|
      invariant i <= |roots|
      invariant i > 0 ==> !IsPrefix(roots[0], path)
    {
      IndexOfStringZero(path, roots[0]);
      if IndexOfString(path, roots[0]) == 0 {
        break;
      }
      i := i + 1;
    }
  }

  /** A path under the second root only: the written check turns it away. */
  lemma RootCheckMissesLaterRoots()
    ensures var roots, path := ["/music", "/more"], "/more/1.mp3";
            UnderRoot(path, roots) && !UnderFirstRoot(path, roots)
  {
    var roots, path := ["/music", "/more"], "/more/1.mp3";
    assert IsPrefix(roots[1], path);
    assert path[..6] != roots[0] by { assert path[2] != roots[0][2]; }
  }

  /** The root check as intended: the index of the first root the path lies under, or the number of roots. */
  method RootCheck(path: string, roots: seq<string>) returns (i: nat)
    ensures i <= |roots|
    ensures i < |roots| ==> IsPrefix(roots[i], path)
    ensures forall k :: 0 <= k < i ==> !IsPrefix(roots[k], path)
    ensures i < |roots| <==> UnderRoot(path, roots)
  {
    i := 0;
    while i < |roots|
      invariant i <= |roots|
      invariant forall k :: 0 <= k < i ==> !IsPrefix(roots[k], path)
    {
      IndexOfStringZero(path, roots[i]);
      if IndexOfString(path, roots[i]) == 0 {
        return;
      }
      i := i + 1;
    }
  }

  /** What `hodgepodge.range.parse` made of the Range header. */
  datatype Range = NoRange | BadRange | Span(s: int, e: int)

  /**
   * How a song request ends: a thrown TypeError when the file name has no id, a
   * status code, the store's error, a partial (206) or a whole (200) answer
   * with its Content-Length.
   */
  datatype SongReply = Thrown | Status(code: int) | DbErr | Partial(length: int, start: int, end: int) | Whole(length: int)

  /** The root check `song` performs: the path must start with the first root (see `RootCheckAsWritten`). */
  predicate UnderFirstRoot(path: string, roots: seq<string>)
  {
    |roots| > 0 && IsPrefix(roots[0], path)
  }

  /**
   * `song`: the id comes from the file name; a non-finite id is a bad request; the
   * store answers the paths stored under the id; the first must pass the root
   * check as written (it starts with root 0) and be stat-able; then the range decides.
   */
  function SongHandler(file: string, roots: seq<string>, paths: int -> Option<seq<string>>,
                       size: string -> Option<int>, range: Range): (r: SongReply)
  {
    match RequestedId(file)
    case None => Thrown
    case Some(d) => SongFor(StringToNumber(d), roots, paths, size, range)
  }

  /** The rest of `song` once the id, `+id`, is known. */
  function SongFor(n: Number, roots: seq<string>, paths: int -> Option<seq<string>>,
                   size: string -> Option<int>, range: Range): (r: SongReply)
  {
    if !n.Int? then Status(400)
    else match paths(n.i)
      case None => DbErr
      case Some(ps) =>
        if ps == [] || !UnderFirstRoot(ps[0], roots) then Status(404)
        else match size(ps[0])
          case None => Status(404)
          case Some(z) =>
            match range
            case BadRange => Status(416)
            case Span(s, e) => Partial(e - s + 1, s, e)
            case NoRange => Whole(z)
  }

  /**
   * A song is served exactly when the file name carries a digit run whose value
   * `+` reads as finite, the store has a path for it under the first root that can
   * be stat-ed, and the range is not rejected; the partial answer is `e - s + 1`
   * bytes long and the whole answer the file's size. A file name without an id
   * throws (`id[1]` of null), and an id that reads as Infinity is a bad request.
   */
  lemma SongServed(file: string, roots: seq<string>, paths: int -> Option<seq<string>>,
                   size: string -> Option<int>, range: Range)
    ensures var r := SongHandler(file, roots, paths, size, range);
            (r.Partial? || r.Whole?) <==>
              && RequestedId(file).Some?
              && DecimalValue(RequestedId(file).value) < InfinityThreshold
              && var ps := paths(DecimalValue(RequestedId(file).value));
              && ps.Some? && ps.value != [] && UnderFirstRoot(ps.value[0], roots)
              && size(ps.value[0]).Some? && !range.BadRange?
    ensures var r := SongHandler(file, roots, paths, size, range);
            && (r.Partial? ==> range.Span? && r.length == range.e - range.s + 1 && r.start == range.s && r.end == range.e)
            && (r.Whole? ==> range.NoRange? && r.length == size(paths(DecimalValue(RequestedId(file).value)).value[0]).value)
    ensures RequestedId(file).None? ==> SongHandler(file, roots, paths, size, range) == Thrown
    ensures RequestedId(file).Some? && DecimalValue(RequestedId(file).value) >= InfinityThreshold ==>
              SongHandler(file, roots, paths, size, range) == Status(400)
  {
    match RequestedId(file)
    case None =>
    case Some(d) =>
      DigitsToNumber(d);
      SongForServed(StringToNumber(d), roots, paths, size, range);
  }

  /**
   * `SongServed` once the id is known, with the answer of every failing step:
   * 400 for a non-finite id, the store's error, 404 for no path, a path outside
   * the first root or one that cannot be stat-ed, and 416 for a rejected range.
   */
  lemma SongForServed(n: Number, roots: seq<string>, paths: int -> Option<seq<string>>,
                      size: string -> Option<int>, range: Range)
    ensures var r := SongFor(n, roots, paths, size, range);
            (r.Partial? || r.Whole?) <==>
              && n.Int?
              && var ps := paths(n.i);
              && ps.Some? && ps.value != [] && UnderFirstRoot(ps.value[0], roots)
              && size(ps.value[0]).Some? && !range.BadRange?
    ensures var r := SongFor(n, roots, paths, size, range);
            && (r.Partial? ==> range.Span? && r.length == range.e - range.s + 1 && r.start == range.s && r.end == range.e)
            && (r.Whole? ==> range.NoRange? && r.length == size(paths(n.i).value[0]).value)
    ensures var r := SongFor(n, roots, paths, size, range);
            && (!n.Int? ==> r == Status(400))
            && (n.Int? && paths(n.i).None? ==> r == DbErr)
            && (n.Int? && paths(n.i).Some? && (paths(n.i).value == [] || !UnderFirstRoot(paths(n.i).value[0], roots))
                ==> r == Status(404))
            && (n.Int? && paths(n.i).Some? && paths(n.i).value != [] && UnderFirstRoot(paths(n.i).value[0], roots)
                ==> (size(paths(n.i).value[0]).None? ==> r == Status(404))
                    && (size(paths(n.i).value[0]).Some? && range.BadRange? ==> r == Status(416)))
  {
  }
}
