# A verified model of the DAAP media server's core

This project models the core of a small DAAP (Digital Audio Access Protocol)
server written in Node.js. The server shares a directory of MP3/Ogg files with
iTunes-style clients. The model covers six source files:

- `server/lib/daap.js` is the DMAP/DAAP encoder. It holds the registry of 115
  four-character content codes and clamping writers for 1-, 2-, 4- and 8-byte
  integers, dates and versions. It also holds the recursive encoder that frames
  every node as `tag ‖ u32be length ‖ value`, and the `item` builder that
  projects song records onto the fields a client asks for. Modules `DaapTags`,
  `Daap` and `DaapDecode`. `DaapDecode` is a client-side parser used only to
  prove that what the encoder writes reads back as the tree it stands for.
- `server/lib/mp3.js` is the library indexer. It covers:
  - the song id folded from a 32-bit FNV hash;
  - the audio-extension test;
  - the metadata record and its normalisation (`chkmeta`);
  - the scan pass: the `needRescan`/`inProgress` flags, the LIFO directory and
    file queues, changed/unchanged classification, stamping with `version + 1`,
    and the final purge.

  Modules `Mp3` and `Mp3Scan`. `Mp3Scan.Scanner` is a class whose `Scan` method
  drains the queues in a `while` loop. Termination is proved by a weight
  measure over the finite file system map.
- `server/lib/api.js` holds the request handlers' decisions (module `Api`):
  - the wrapping session counter;
  - the shared-password check;
  - the `delta == version` fast path of the info and listing handlers;
  - the version-tagged response cache (class `Api.ItemCache`);
  - the decisions of the song-streaming handler.
- `server/lib/db.ne.js` and `server/lib/db.mongo.js` are the record store.
  One class, `Store.Store`, models both, with a `Backend` switch where they
  differ. A NeDB upsert replaces the document, while a MongoDB upsert merges
  into it. NeDB's cache clear deletes `cache-` files, while MongoDB's drops
  every stored file.
- `server/lib/mdns.js` covers the advertised database id, name escaping and
  the TXT text (module `Mdns`).

JavaScript values are modelled by `JsValues.Js`. Its `Number` is an integer,
NaN or ±Infinity. The module also defines the conversions the code relies on:
unary `+`, truthiness, `String()`, `substring`, `indexOf`, `split`, ASCII
`toLowerCase`, `path.join` (without normalisation) and UTF-8 encoding.

Where the code and the intended design differ, the model follows the code:

- A failed version read counts as version 1 in the indexer and in `update`.
  Only a missing info record yields 2.
- `force` bypasses only the `needRescan` test; it does not mark files changed.
- `format` keeps the case of the extension.
- Cache names hash the field names in the given order, without sorting and
  without a separator.
- The database-info song count never reaches the wire, so `mimc` stays 1.
- Song ids can be negative, because ToInt32 turns a hash of 2^31 or more
  negative.

## Model

| member | source | states |
|---|---|---|
| `DaapTags.TagOfCode` | server/lib/daap.js:16-131 | `tag2info` finds every registered tag from its four-character code |
| `DaapTags.CodeInjective` | server/lib/daap.js:16-131 | no two registry entries share a code |
| `DaapTags.DescInjective` | server/lib/daap.js:16-131 | no two registry entries share a descriptor |
| `DaapTags.Desc2TagDesc` | server/lib/daap.js:153 | after start-up, `desc2tag[d]` is tag `t` exactly when `d` is `t`'s descriptor, so it is the exact inverse of `tag2info[t].desc` |
| `Daap.Init` | server/lib/daap.js:143-154 | the start-up loop binds every descriptor to its tag and nothing else |
| `Daap.Clamp` | server/lib/daap.js:157-172 | `Math.min(hi, Math.max(0, n))`: in range unchanged, above → `hi`, below/−∞/NaN → 0 |
| `Daap.BigEndianRoundTrip` | server/lib/daap.js:157-187 | a value below 256^k written big-endian in k bytes reads back as itself |
| `Daap.Number2` | server/lib/daap.js:157-163 | two bytes that read back big-endian as the value clamped to [0, 65535] |
| `Daap.Number4` | server/lib/daap.js:166-177 | four bytes that read back as the value clamped to [0, 2^32−1] (also `size`) |
| `Daap.Number8` | server/lib/daap.js:180-187 | four zero bytes, then the value clamped to 32 bits, big-endian |
| `Daap.ByteField` | server/lib/daap.js:190-197 | one byte: `+v` (true→1, false→0) clamped to [0, 255] |
| `Daap.DateField` | server/lib/daap.js:200-205 | milliseconds div 1000 in four bytes; the writer rejects values out of range |
| `Daap.MatchAt` | server/lib/daap.js:139 | a match of the version pattern has non-empty digit groups for major, minor and optional patch |
| `Daap.VersionExec` | server/lib/daap.js:139 | `verTmpl.exec` finds a match iff one exists, and it is the leftmost one |
| `Daap.VersionTextMatches` | server/lib/daap.js:139 | "major.minor[.patch]" written in digits is matched component by component |
| `Daap.VersionField` | server/lib/daap.js:208-221 | major clamped to 16 bits big-endian, minor and patch clamped to 8 bits, missing patch → 0 |
| `Daap.Encode` | server/lib/daap.js:247-310 | an unknown tag, a JS type mismatch (`chktype`) and wire types 2/6 are errors; otherwise 4 tag bytes, a u32be length equal to the value's byte count, fixed lengths 1/2/8/4 for types 1/3/7/5,10,11 |
| `Daap.EncodeNode` | server/lib/daap.js:247-253 | `buffer(obj)` encodes the first own key of `obj`; an array's key "0" is unknown, no key is an error |
| `Daap.ObjectAsSingleKeyNodes` | server/lib/daap.js:285-295 | a plain object container encodes exactly as the array of its single-key objects in key order |
| `Daap.ArrayExtrasIgnored` | server/lib/daap.js:296-304 | properties assigned to a container array beside its elements never reach the wire |
| `Daap.Item` | server/lib/daap.js:324-352 | the loop builds `{apso\|adbs: [mstt 200, muty 1, mtco n, mrco n, {mlcl: one mlit per song in order}]}` |
| `Daap.Mlit` | server/lib/daap.js:337-345 | the inner loop builds the song's `mlit` as the projection of the requested descriptors |
| `Daap.Listing` | server/lib/daap.js:343-349 | one `{mlit: …}` per song, in song order |
| `Daap.MlitKeysRequested` | server/lib/daap.js:338-341 | every `mlit` key is the code of a requested descriptor whose tag has a field; unknown names are dropped |
| `Daap.MlitValues` | server/lib/daap.js:340 | every requested descriptor with a field is bound to the song's value of that field |
| `Daap.MlitKeysDistinct` | server/lib/daap.js:337-341 | no key occurs twice in an `mlit` (a repeated request keeps its first position) |
| `DaapDecode.IntRoundTrip` | server/lib/daap.js:256-271 | integer nodes (types 1/3/5/7) encode iff the value type is accepted, and parse back as the clamped value |
| `DaapDecode.TextRoundTrip` | server/lib/daap.js:272-284 | strings parse back as their UTF-8 bytes, dates as whole seconds, versions as clamped components |
| `DaapDecode.ContainerRoundTrip` | server/lib/daap.js:285-305 | a container's frame holds exactly its children's nodes, concatenated in order |
| `DaapDecode.RoundTripItems` | server/lib/daap.js:296-304 | the concatenated child nodes parse back as the sequence of the children's meanings |
| `DaapDecode.RoundTripPairs` | server/lib/daap.js:287-295 | the same for the single-key nodes of a plain object |
| `DaapDecode.RoundTrip` | server/lib/daap.js:247-310 | `buffer({key: val})` succeeds iff the object has a meaning, and its bytes parse back to exactly that meaning |
| `DaapDecode.RoundTripNode` | server/lib/daap.js:248-250 | the same for a whole response object, through its first key |
| `DaapDecode.BuildRoundTrip` | server/lib/daap.js:313-321 | `build` yields output iff nothing threw, and the output parses back to the response's meaning |
| `Mp3.ToInt32` | server/lib/mp3.js:80 | JS ToInt32: the signed 32-bit value congruent to the input mod 2^32 |
| `Mp3.Id` | server/lib/mp3.js:75-81 | result in the signed 32-bit range; h for 0 ≤ h < 2^31; 2^31−1−h, negative, for 2^31 ≤ h < 2^32 |
| `Mp3.ExtName` | server/lib/mp3.js:158 | `path.extname`: empty, or a dot plus the last component's dot-free tail |
| `Mp3.IsSongSuffix` | server/lib/mp3.js:157-160 | `isSong` iff the base name is longer than 4 and ends in `.mp3`/`.ogg` in any case |
| `Mp3.FormatIsExtension` | server/lib/mp3.js:120 | `format` is the extension without its dot (empty when there is none) |
| `Mp3.FormatKeepsCase` | server/lib/mp3.js:120 | for a song, `format` is the last three characters as written, not lower-cased |
| `Mp3.YearDigits` | server/lib/mp3.js:89 | the capture of `([0-9]{2,4})`: 2–4 leading digits, as many as there are |
| `Mp3.NormYear` | server/lib/mp3.js:88-92 | a finite year is raised to ≥ 0; otherwise its leading 2–4 digit run after white space, or 0 |
| `Mp3.NormCount` | server/lib/mp3.js:94-98 | track/time: the number when finite and ≥ 0, else 0 |
| `Mp3.CollapseGenre` | server/lib/mp3.js:100-104 | the genre changes only from `X/X` (X non-empty, slash-free) to X |
| `Mp3.GenreCollapses` | server/lib/mp3.js:101-103 | every `X/X` does collapse to X |
| `Mp3.CollapseIdempotent` | server/lib/mp3.js:100-104 | collapsing twice equals collapsing once |
| `Mp3.WithDefault` | server/lib/mp3.js:114-119 | `v \|\| '(Unknown …)'` is v when truthy, else the placeholder |
| `Mp3.InitialMeta` | server/lib/mp3.js:109-122 | `setMeta`'s record: id, kind 2, path and format; no `common` throws |
| `Mp3.FallbackThrows` | server/lib/mp3.js:149-151 | the duration-only fallback has no `common`, so `setMeta` always throws on it |
| `Mp3.DurationTime` | server/lib/mp3.js:127 | `len*1000 \|\| 0`: a failed probe gives 0 |
| `Mp3.Meta.constructor` | server/lib/mp3.js:110-122 | the meta object holds the record's fields |
| `Mp3.Meta.SetDuration` | server/lib/mp3.js:125-128 | only `time` changes, to the probed duration |
| `Mp3.Meta.ChkMeta` | server/lib/mp3.js:85-107 | year/track/time normalised in place, then the genre checked as `GenreChecked` says; a throw (after the numeric changes) iff the genre is neither a string nor an array |
| `Mp3.GenreChecked` | server/lib/mp3.js:100-104 | a string genre is collapsed; an array with no element `"/"` is kept (`Array.prototype.indexOf` gives −1); any other value throws; a changed genre is a slash-free string |
| `Mp3.GenreCheckedStable` | server/lib/mp3.js:100-104 | checking a checked genre again leaves it as it is |
| `Mp3.CheckedStable` | server/lib/mp3.js:85-107 | after `chkmeta` year, track and time are numbers ≥ 0, the genre is a string or an array, and checking again changes nothing |
| `Mp3.ReadSong` | server/lib/mp3.js:84-154 | whenever `setMeta` builds a record and `chkmeta` accepts it (with the probed time unless `duration` is given), that is what is read, and a read record is always such a one, so its year, track and time are ≥ 0 and it is stable; when the parser or `setMeta` fails, or `chkmeta` throws inside the promise, the result is failure iff the probe fails, else the pass hangs; a `chkmeta` throw in the probe's callback always hangs |
| `Mp3Scan.ReadDir` | server/lib/mp3.js:241-273 | a directory's sub-directories and song files, in listing order |
| `Mp3Scan.NewFilesClassified` | server/lib/mp3.js:215-225 | every queued file is a song on disk with its mtime, changed iff lookup failed, no record, or mtime differs (`force` plays no part) |
| `Mp3Scan.FileStep` | server/lib/mp3.js:282-298 | unchanged → only the version becomes `version+1`; changed and read → stored whole with `version+1`; a failed read touches nothing |
| `Mp3Scan.Purged` | server/lib/mp3.js:192 | `song.clear(++version)` keeps exactly the records of version ≥ v, unchanged |
| `Mp3Scan.PurgeKeepsStamped` | server/lib/mp3.js:192 | when all prior records are older, the survivors are exactly the stamped ones |
| `Mp3Scan.FinishedRecords` | server/lib/mp3.js:282-298 | after the purge, stamped records stay at v; an unstamped one stays unchanged iff it was already ≥ v |
| `Mp3Scan.FoundListing` | server/lib/mp3.js:241-273 | the song files reachable through a directory are exactly those its expansion queues, plus those reachable through the sub-directories it queues |
| `Mp3Scan.FrontierNext` | server/lib/mp3.js:233-303 | popping a file and expanding a popped directory keeps processed ∪ queued files ∪ what queued directories reach equal to the reachable set |
| `Mp3Scan.ExpandQueues` | server/lib/mp3.js:249-269 | expanding a directory queues its weight less its own pop, and every queued file is classified |
| `Mp3Scan.Scanner.constructor` | server/lib/mp3.js:21-23 | empty queues, no pending rescan, no pass in progress |
| `Mp3Scan.Scanner.MarkChanged` | server/lib/mp3.js:53-56 | the watcher callback only sets `needRescan` |
| `Mp3Scan.Scanner.PopDir` | server/lib/mp3.js:235 | pops the last directory (LIFO), keeping the pass invariant |
| `Mp3Scan.Scanner.PopFile` | server/lib/mp3.js:276 | pops the last file (LIFO); the popped file and those still queued are song files on disk, an unchanged one with a record |
| `Mp3Scan.Scanner.Expand` | server/lib/mp3.js:241-273 | appends the directory's sub-directories and classified song files to the queues, keeping the pass invariant |
| `Mp3Scan.Scanner.Process` | server/lib/mp3.js:282-298 | the records change as `FileStep` says and the entry joins the processed ones; its record counts as stamped unless reading failed or threw |
| `Mp3Scan.Scanner.Advance` | server/lib/mp3.js:233-281 | pops both queues before any reading and expands the popped directory, its entries classified against the records before the file is processed; the weight decreases and the popped file moves to the processed side of the frontier |
| `Mp3Scan.Scanner.Next` | server/lib/mp3.js:233-303 | the new queues are the popped ones plus the popped directory's listing; the records and the hang flag are `FileStep` of the popped file (unchanged with no file); the frontier invariant holds and the queue weight strictly decreases |
| `Mp3Scan.Scanner.Done` | server/lib/mp3.js:192-196 | `++version`, purge older records, `inProgress` false, stored version incremented |
| `Mp3Scan.Scanner.Begin` | server/lib/mp3.js:322-334 | consumes `needRescan`, sets `inProgress`, starts from the stored version (1 on a read error), queues every root |
| `Mp3Scan.Scanner.Scan` | server/lib/mp3.js:307-336 | no-op iff (not forced and no change) or in progress; a finished pass has processed exactly the song files reachable from the roots, and leaves exactly the records stamped this pass (those unchanged or read successfully) plus any already ahead, the stamped ones at the new version |
| `Api.Issued` | server/lib/api.js:48 | the counter resets to 1 once it passes 2^31−1 |
| `Api.SessionSequence` | server/lib/api.js:44-51 | the n-th login gets `n mod (2^31−1) + 1` |
| `Api.SessionsConsecutive` | server/lib/api.js:44-51 | ids are consecutive in [1, 2^31−1], and 2^31−1 is followed by 1 |
| `Api.Sessions.constructor` | server/lib/api.js:45 | the counter starts at 1 |
| `Api.Sessions.Next` | server/lib/api.js:47-50 | each call returns the next id of the sequence, in [1, 2^31−1] |
| `Api.CheckAuth` | server/lib/api.js:54-78 | no password → pass; password and missing header → 401 |
| `Api.AuthIgnoresUser` | server/lib/api.js:68-71 | with a header, pass iff the decoded text is a colon-free user name, `:`, the password |
| `Api.UpToDateDelta` | server/lib/api.js:146 | echoing the version read is up to date; no delta or a failed read never is |
| `Api.UpdateAnswers` | server/lib/api.js:91-104 | `update` answers status 200 and the version read, or 1 after a read error |
| `Api.InfoItems` | server/lib/api.js:147-155 | one listing item: 5 nodes for the database, 4 for the playlist |
| `Api.InfoHandler` | server/lib/api.js:144-175 | count error → error; up to date → `muty` true, counts 0, empty listing; otherwise counts 1 and one item |
| `Api.DatabaseInfoIgnoresCount` | server/lib/api.js:163 | the count assigned to the array encodes exactly as no count: `mimc` stays 1 on the wire |
| `Api.Query` | server/lib/api.js:181-183 | the `meta` query (or the default) split on `,` into comma-free names that join back to it |
| `Api.DefaultSongQuery` | server/lib/api.js:181-183 | without `meta`, the song listing asks for its eight default fields |
| `Api.DefaultContainerQuery` | server/lib/api.js:250-253 | without `meta`, the playlist listing asks for its five default fields |
| `Api.FastPathFirst` | server/lib/api.js:186-190 | an up-to-date client gets the empty listing whatever the cache holds, and the cache stays as it was |
| `Api.CacheHitIff` | server/lib/api.js:192-196 | served from cache iff behind, the read succeeded and the entry's version equals it |
| `Api.RebuildReplaces` | server/lib/api.js:198-209 | otherwise rebuilt from the song list and stored as `{buffer, version just read}`; a list error leaves the cache alone |
| `Api.CacheIgnoresQuery` | server/lib/api.js:192-196 | a listing cached for one field list is served, as built, to a client asking for another |
| `Api.RebuiltIsReused` | server/lib/api.js:192-209 | a rebuild after a good read is served from cache to the next client behind that version |
| `Api.FailedReadNeverCached` | server/lib/api.js:192 | an entry built after a failed read is never served |
| `Api.ItemCache.constructor` | server/lib/api.js:20 | the module cache starts empty |
| `Api.ItemCache.DatabaseItem` | server/lib/api.js:178-211 | reply and new `databaseItem` entry as the decision above; `containerItem` untouched |
| `Api.ItemCache.ContainerItem` | server/lib/api.js:247-281 | the same for `containerItem`; `databaseItem` untouched |
| `Api.RequestedId` | server/lib/api.js:287 | the id captured from the file name is a non-empty digit string |
| `Api.RequestedIdMatches` | server/lib/api.js:287 | it is the first group of the leftmost `([0-9]+)\.(mp3\|ogg)` match, or there is none |
| `Api.RootCheckAsWritten` | server/lib/api.js:305-311 | the loop stops at 0 iff the path starts with root 0, else it runs to the end |
| `Api.RootCheckMissesLaterRoots` | server/lib/api.js:305-307 | a path under the second root only is under a root but fails the check as written |
| `Api.RootCheck` | server/lib/api.js:305-311 | the intended loop: the first root the path lies under, or the number of roots iff none |
| `Api.SongServed` | server/lib/api.js:284-330 | served iff an id is found, the store has a path starting with root 0, it can be stat-ed and the range is not rejected; partial length `e−s+1`; no id throws, an id `+` reads as Infinity is 400 |
| `Api.SongForServed` | server/lib/api.js:288-330 | the same once the numeric id is known; a non-finite id is 400, a store error is passed on, no path / a path outside root 0 / a failed stat is 404, a rejected range 416 |
| `Store.Find` | server/lib/db.ne.js:88-90 | the `{id}` query's first match (no earlier document has the id), or −1 iff no document has the id |
| `Store.UpsertedValid` | server/lib/db.ne.js:78-90 | a valid add keeps every document valid and the ids distinct |
| `Store.FindUpserted` | server/lib/db.ne.js:88-90 | after an add the id finds the upserted document, where the old one was or at the end |
| `Store.UpsertedBinds` | server/lib/db.mongo.js:136-138 | afterwards the id's document is the song (NeDB) or answers the song's fields with its values and keeps the rest (MongoDB) |
| `Store.MergeLookup` | server/lib/db.mongo.js:136-138 | a merged document answers merged keys with the new values, others as before |
| `Store.Cleared` | server/lib/db.mongo.js:149-155 | removes exactly the documents whose numeric version is below v |
| `Store.ClearedFirst` | server/lib/db.ne.js:101-107 | without `multi` only the first document below v goes: every other document stays, and one fewer remains iff any is below v |
| `Store.ClearedFirstUnique` | server/lib/db.ne.js:101-107 | removing the first match keeps the ids distinct |
| `Store.NeDBClearLeavesStale` | server/lib/db.ne.js:101-107 | two outdated records: NeDB removes one and an outdated record remains; removing every match leaves none |
| `Store.VersionSequence` | server/lib/db.ne.js:110-143 | a fresh store reports 2 before and after the first increment; later increments add 1 |
| `Store.NoSeparator` | server/lib/db.ne.js:177-182 | field names are hashed concatenated: `["ab","c"]` and `["a","bc"]` share a cache file |
| `Store.OrderMatters` | server/lib/db.mongo.js:212-217 | field order is not normalised: two orders name two files |
| `Store.CacheFilesCleared` | server/lib/db.ne.js:227 | every NeDB cache file name starts with `cache-`, so cache clearing targets it |
| `Store.Store.constructor` | server/lib/db.ne.js:22-50 | an empty store: no songs, no info record |
| `Store.Store.SongAdd` | server/lib/db.ne.js:78-91 | rejects a non-number/NaN id or a non-string/empty path without a write; otherwise upserts by id |
| `Store.Store.SongTouch` | server/lib/db.ne.js:94-98 | sets only `version` of the id's document; an absent id changes nothing |
| `Store.Store.SongClear` | server/lib/db.ne.js:101-107 | NeDB removes the first document below v (`ClearedFirst`), MongoDB every one (`Cleared`); the store stays valid |
| `Store.Store.SongListIter` | server/lib/db.mongo.js:101-115 | the cursor loop returns every document once, in cursor order |
| `Store.Store.VersionGet` | server/lib/db.ne.js:110-122 | 2 without an info record, else the stored version |
| `Store.Store.VersionInc` | server/lib/db.ne.js:125-143 | +1 on an existing record, else a new record at 2 |
| `Store.Store.DbIdGet` | server/lib/db.ne.js:146-160 | the stored database id, or nothing |
| `Store.Store.DbIdSet` | server/lib/db.ne.js:163-174 | rejects a non-string or empty id; without an info record nothing is written |
| `Store.Store.CacheClear` | server/lib/db.ne.js:217-237 | NeDB removes exactly the `cache-` files (none if unreadable); MongoDB drops all stored files |
| `Mdns.HexLength` | server/lib/mdns.js:22 | `toString(16)` of a (k+1)-hex-digit number has k+1 characters |
| `Mdns.SplicedShape` | server/lib/mdns.js:23 | a suffix no longer than the id keeps the length, ends the result and keeps the id's head |
| `Mdns.FreshIdShape` | server/lib/mdns.js:22-23 | a present-day timestamp suffix gives a 16-character id ending in the suffix |
| `Mdns.Escape` | server/lib/mdns.js:29-31 | every `-` in the result is preceded by a backslash |
| `Mdns.EscapeRoundTrip` | server/lib/mdns.js:29-31 | removing the inserted backslashes gives back the input: nothing else changes |
| `Mdns.TxtRoundTrip` | server/lib/mdns.js:34-36 | the text is exactly `"txtvers=1" "Database ID=<id>"` and yields the id back |
| `Mdns.Advertiser.constructor` | server/lib/mdns.js:12 | the id starts as `beddab1edeadbea7` |
| `Mdns.Advertiser.Init` | server/lib/mdns.js:15-26 | a stored non-empty id is adopted with no write; otherwise the timestamp suffix is spliced into the current id, which is returned and written into an existing info record (an error iff it is empty) |

## Left out

- I/O is taken as parameters: file system reads, `fs.stat`, streams, HTTP,
  gzip, timers and logging. The file system is a finite map; a `stat` or
  `readdir` failure reads as "not a directory / not a song".
- These external computations are uninterpreted parameters: the FNV hash, md5,
  base64 decoding, the music-metadata parser and the mp3-duration probe. The
  model keeps their results, not their algorithms.
- `watch` and `ontime` scheduling: only the watcher's effect (`MarkChanged`) is
  modelled.
- `async.parallel` interleaving is not modelled. One `Next` pops both queues,
  then expands, then processes. When one branch fails, `async.parallel` calls
  back before the other branch finishes; that overlap is not modelled either.
- Floating point is not modelled. Numbers are integers, NaN and ±Infinity, so
  fractional durations are absent. `+s` of a string in decimal-point, exponent
  or `0x`/`0o`/`0b` form reads as NaN here, where JavaScript reads a number;
  the members below differ from the source on exactly those strings.
- Mp3.NormYear: a year string such as "1e3" or "0x7D0" gives 0 here, and
  "12.5" gives 12, where `chkmeta` gives 1000, 2000 and 12.5.
- Mp3.NormCount: a track or time string such as "2.5" or "0x10" gives 0 here,
  where `chkmeta` keeps 2.5 and gives 16.
- Api.InfoHandler: a `delta` of "2.0", "2e0" or "0x2" is not up to date with
  version 2 here, while `+req.query.delta === version` holds in the source.
  The same holds for `Api.UpToDateDelta` and the listing handlers
  (`Api.ItemCache.DatabaseItem`, `Api.ItemCache.ContainerItem`).
- Dates are whole milliseconds.
- Store errors other than validation are not modelled. A failed version read is
  the `readFailed`/`None` parameter, and failed counts, lists and path lookups
  are `None` parameters of the handlers.
- `Mp3Scan.Scanner` keeps its own record map, keyed by song id, and its own
  info record. The scanner and the store are modelled as separate modules and
  are not composed: the scanner does not call `Store.Store`. The model
  therefore does not show that the two agree. It covers neither the document
  order of the collection nor the NeDB-replace versus MongoDB-merge upsert for
  the records the pass writes. A store write error, which the pass logs and
  moves past (`server/lib/mp3.js:300-303`), is not modelled: every write of the
  pass is taken to succeed.
- Mp3Scan.Purged: the purge at the end of a pass removes every record older
  than the new version, as MongoDB does. On NeDB the source removes only the
  first such record (see Findings); the scan model follows the corrected purge.
- The end-of-pass cache clear and rebuild at `server/lib/mp3.js:204-210` are
  not part of `Done`. They call `api.cache.update`, which `api.js` does not
  export.
- `login`, `logout` and `serverInfo` answer fixed trees and are not modelled.
  Range header parsing and mime lookup are inputs of `SongHandler`.
- `cacheRead`, `cacheWrite` and `cacheExist` perform I/O; only the file names
  they use are modelled.
- mdns publishing (`avahi`, `dns-sd`, `mdns-js` child processes and
  advertisements) is not modelled.
- `server/server.js`, `server/config.js`, `server/lib/db.js`,
  `server/lib/logger.js`, `server/lib/safePipe.js`, `server/lib/avahi_pub.js`
  and `server/binding/avahi_pub.cc` are not part of this model.
- Daap.EncodeNode: `Object.keys(obj)[0]` and the `for … in` of a container
  object (`server/lib/daap.js:248`, `289`) are taken in insertion order.
  JavaScript lists integer-like keys first, in ascending order, so an object
  such as `{mstt: 200, 0: 1}` encodes here by `mstt` but throws "unknown key"
  in the source. No content code is integer-like, so this differs only for
  objects that also carry integer-like keys. `Daap.ObjectAsSingleKeyNodes` and
  `DaapDecode.RoundTripPairs` share this order.
- Daap.Item: the container loop (`server/lib/daap.js:297-304`) is taken to run
  its body synchronously, child after child. This is what lets a throw in a
  nested child reach the `try`/`catch` of `build` (`server/lib/daap.js:316-320`).
  `hodgepodge-node/asyncLoop` is not part of this model, and neither is what
  happens if it defers a step. `DaapDecode.BuildRoundTrip` rests on the same
  reading.
- JsValues.PathJoin: joins the parts with `/` without normalising them (`.`
  and `..` segments, repeated slashes). So `Store.CacheName` keeps a leading
  `./` of the database path where `path.join` drops it.
- DaapDecode.RoundTrip: holds for nodes of at most 2^32 + 7 bytes. Beyond that
  the 4-byte length field clamps and no parser can recover the node.
- Mp3.ReadSong: an exception thrown where no one catches it (in the duration
  reader's callback) is modelled as `Stuck`,
  and `Scan` then returns `Hung` with `inProgress` left true. The real process
  would report an uncaught exception.

## Findings

| source | as written | input that shows it | evidently intended | confidence | as-written member | corrected member |
|---|---|---|---|---|---|---|
| server/lib/api.js:305-307 | the root loop tests `conf.server.scan.path[0]` on every iteration | roots `["/music", "/more"]`, stored path `/more/1.mp3`: under a root, yet answered 404 | test root `i`, serving paths under any configured root | high; not executed | `Api.RootCheckMissesLaterRoots` | `Api.RootCheck` |
| server/lib/db.ne.js:102-106 | NeDB `remove` is called without `{multi: true}`, so it removes only the first match | two records of version 3 when the pass ends with version 4: one of them survives the purge | remove every outdated record, as the MongoDB backend does | medium (rests on NeDB's documented `multi: false` default); not executed | `Store.ClearedFirst`, `Store.NeDBClearLeavesStale` | `Store.Cleared` |

The song handler model (`Api.SongHandler`, `Api.SongServed`) keeps the check
as written, so it serves only paths under root 0. `Api.RootCheck` is the
corrected loop, proved to find the first root a path lies under.

`Store.Store.SongClear` keeps each backend's removal as written. The scan
pass (`Mp3Scan.Purged`, used by `Mp3Scan.Scanner.Done`) follows the
corrected behaviour: it removes every record older than the new version, as
`Store.Cleared` does.
