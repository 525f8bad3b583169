/**
 * The library indexer's scanning pass. A pass walks the configured roots with a
 * directory queue and a file queue (both used as stacks), classifies each song
 * file as changed or not against the stored record, re-reads the metadata of
 * changed files, stamps every record it adds or touches with the pass's version
 * plus one, and at the end purges every record older than that and increments
 * the stored library version.
 *
 * The file system is a finite map from path to entry. The path hash, the
 * metadata parser, the duration probe and the failures of the record lookup are
 * functions fixed for the scanner's lifetime.
 */
module Mp3Scan {
  import opened Wrappers
  import opened JsValues
  import Mp3
  import Store

  datatype Entry = Dir(names: seq<string>) | File(mtime: int)

  type FileSystem = map<string, Entry>

  /** Directory listings never contain the empty name. */
  predicate ValidFs(fs: FileSystem)
  {
    forall p :: p in fs && fs[p].Dir? ==> forall i :: 0 <= i < |fs[p].names| ==> fs[p].names[i] != ""
  }

  /** A stored song record: the metadata plus the pass stamp and the file's modification time. */
  datatype Stored = Stored(meta: Mp3.MetaRec, version: int, mtime: int)

  /** An entry of the file queue. */
  datatype Pending = Pending(path: string, mtime: int, changed: bool)

  /** A file is changed when its lookup failed, no record exists, or the stored time differs. */
  predicate Changed(lookupFailed: bool, rec: Option<Stored>, mtime: int)
  {
    lookupFailed || rec.None? || rec.value.mtime != mtime
  }

  function Record(songs: map<int, Stored>, id: int): Option<Stored>
  {
    if id in songs then Some(songs[id]) else None
  }

  /**
   * What the scanner is given about the world: the file system, the record id
   * of a path (`key`, the folded FNV hash), the song test (`isSong`) and whether
   * the record lookup for a path fails.
   */
  datatype World = World(fs: FileSystem, key: string -> int, isSong: string -> bool, lookupFails: string -> bool)

  /** What `readdir` answers for `p`: the names of a directory, nothing for anything else. */
  function Listing(fs: FileSystem, p: string): seq<string>
  {
    if p in fs && fs[p].Dir? then fs[p].names else []
  }

  /** What stat-ing `c` queues on the directory queue: `c` itself when it is a directory. */
  function ChildDir(fs: FileSystem, c: string): seq<string>
  {
    if c in fs && fs[c].Dir? then [c] else []
  }

  /** What stat-ing `c` queues on the file queue: a classified entry when it is a song file. */
  function ChildFile(w: World, c: string, songs: map<int, Stored>): seq<Pending>
  {
    if c in w.fs && w.fs[c].File? && w.isSong(c)
    then [Pending(c, w.fs[c].mtime, Changed(w.lookupFails(c), Record(songs, w.key(c)), w.fs[c].mtime))]
    else []
  }

  /** The sub-directories of `p` among its first `n` names, in listing order. */
  function NewDirs(fs: FileSystem, p: string, names: seq<string>, n: nat): seq<string>
    requires n <= |names|
    decreases n
  {
    if n == 0 then [] else NewDirs(fs, p, names, n - 1) + ChildDir(fs, PathJoin(p, names[n - 1]))
  }

  /** The song files of `p` among its first `n` names, each classified against the records. */
  function NewFiles(w: World, p: string, names: seq<string>, n: nat, songs: map<int, Stored>): seq<Pending>
    requires n <= |names|
    decreases n
  {
    if n == 0 then [] else NewFiles(w, p, names, n - 1, songs) + ChildFile(w, PathJoin(p, names[n - 1]), songs)
  }

  /** A queue entry for the song file `e.path`, with its time and classification. */
  predicate Classified(w: World, songs: map<int, Stored>, e: Pending)
  {
    e.path in w.fs && w.fs[e.path].File? && w.isSong(e.path) && e.mtime == w.fs[e.path].mtime
    && (e.changed <==> Changed(w.lookupFails(e.path), Record(songs, w.key(e.path)), w.fs[e.path].mtime))
  }

  /** Expanding queues only song files, each with its own modification time and classification. */
  lemma {:induction false} NewFilesClassified(w: World, p: string, names: seq<string>, n: nat, songs: map<int, Stored>)
    requires n <= |names|
    ensures forall i :: 0 <= i < |NewFiles(w, p, names, n, songs)| ==> Classified(w, songs, NewFiles(w, p, names, n, songs)[i])
    decreases n
  {
    if n > 0 {
      NewFilesClassified(w, p, names, n - 1, songs);
    }
  }

  /** `song.touch` on the map of records: the id's record gets the version, if there is one. */
  function Touch(songs: map<int, Stored>, id: int, v: int): map<int, Stored>
  {
    if id in songs then songs[id := songs[id].(version := v)] else songs
  }

  datatype Step = Step(songs: map<int, Stored>, stuck: bool)

  /**
   * Processing one queued file in a pass with version `v`, given the outcome of
   * reading it: an unchanged file is touched; a changed one is stored whole when
   * reading succeeded, left alone when the duration probe failed, and stops the
   * pass when reading threw.
   */
  function FileStep(songs: map<int, Stored>, f: Pending, v: int, id: int, o: Mp3.Outcome): (r: Step)
    ensures forall k :: k != id ==> Record(r.songs, k) == Record(songs, k)
    ensures songs.Keys <= r.songs.Keys
    ensures r.stuck <==> f.changed && o.Stuck?
    ensures (!f.changed && id in songs) || (f.changed && o.Got?) ==> id in r.songs
    ensures !f.changed && id in songs ==> r.songs[id] == songs[id].(version := v + 1)
    ensures f.changed && o.Got? ==> r.songs[id] == Stored(o.meta, v + 1, f.mtime)
    ensures f.changed && !o.Got? ==> r.songs == songs
  {
    if !f.changed then Step(Touch(songs, id, v + 1), false)
    else
      match o
      case Got(m) => Step(songs[id := Stored(m, v + 1, f.mtime)], false)
      case Failed => Step(songs, false)
      case Stuck => Step(songs, true)
  }

  /** `song.clear(v)` on the map of records: only records of version `v` or later stay. */
  function Purged(songs: map<int, Stored>, v: int): (r: map<int, Stored>)
    ensures forall k :: k in r <==> k in songs && songs[k].version >= v
    ensures forall k :: k in r ==> r[k] == songs[k]
  {
    map k | k in songs && songs[k].version >= v :: songs[k]
  }

  /**
   * When no record was stamped later than the pass's own version, a finished
   * pass keeps exactly the records it stamped.
   */
  lemma PurgeKeepsStamped(start: map<int, Stored>, songs: map<int, Stored>, stamped: set<int>, version: int)
    requires forall k :: k in start ==> start[k].version < version
    requires forall k :: k in songs <==> k in stamped || (k in start && start[k].version >= version)
    ensures songs.Keys == stamped
  {
    assert forall k :: k in stamped ==> k in songs.Keys;
    assert forall k :: k in songs.Keys ==> k in stamped;
  }

  /**
   * Purging after a pass that stamped `stamped` with `v`: the stamped records
   * stay, an unstamped record stays exactly when it was already at `v` or later
   * when the pass started, and it stays unchanged.
   */
  lemma FinishedRecords(start: map<int, Stored>, before: map<int, Stored>, stamped: set<int>, v: int)
    requires forall k :: k in stamped ==> k in before && before[k].version == v
    requires forall k :: k in before && k !in stamped ==> k in start && before[k] == start[k]
    requires start.Keys <= before.Keys
    ensures forall k :: k in stamped ==> k in Purged(before, v) && Purged(before, v)[k].version == v
    ensures forall k :: k in Purged(before, v) <==> k in stamped || (k in start && start[k].version >= v)
    ensures forall k :: k in Purged(before, v) && k !in stamped ==> Purged(before, v)[k] == start[k]
  {
  }

  // ---------------------------------------------------------------------------
  // The measure that bounds a pass

  ghost function MaxLen(ks: set<string>): (r: nat)
    ensures forall k :: k in ks ==> |k| <= r
  {
    if ks == {} then 0
    else
      var k :| k in ks;
      var m := MaxLen(ks - {k});
      if |k| > m then |k| else m
  }

  /**
   * The work a queued directory still stands for: one for its own pop, plus the
   * work of each sub-directory and one per song file it will queue.
   */
  ghost function Weight(w: World, p: string): nat
    decreases MaxLen(w.fs.Keys) - |p|, 1
  {
    1 + (if p in w.fs && w.fs[p].Dir? then ChildWeight(w, p, w.fs[p].names, |w.fs[p].names|) else 0)
  }

  /** The work the first `n` names of `p` stand for. */
  ghost function ChildWeight(w: World, p: string, names: seq<string>, n: nat): nat
    requires n <= |names|
    decreases MaxLen(w.fs.Keys) - |p|, 0, n
  {
    if n == 0 then 0 else ChildWeight(w, p, names, n - 1) + ChildCost(w, p, PathJoin(p, names[n - 1]))
  }

  /** The work the entry `c` of directory `p` stands for. */
  ghost function ChildCost(w: World, p: string, c: string): nat
    decreases MaxLen(w.fs.Keys) - |p|, 0, 0
  {
    if c in w.fs && w.fs[c].Dir? && |c| > |p| then Weight(w, c)
    else if c in w.fs && w.fs[c].File? && w.isSong(c) then 1
    else 0
  }

  ghost function QueueWeight(w: World, q: seq<string>): nat
    decreases |q|
  {
    if q == [] then 0 else QueueWeight(w, q[..|q| - 1]) + Weight(w, q[|q| - 1])
  }

  lemma {:induction false} QueueWeightAppend(w: World, a: seq<string>, b: seq<string>)
    ensures QueueWeight(w, a + b) == QueueWeight(w, a) + QueueWeight(w, b)
    decreases |b|
  {
    if b == [] {
      assert a + b == a;
    } else {
      assert (a + b)[..|a + b| - 1] == a + b[..|b| - 1];
      assert (a + b)[|a + b| - 1] == b[|b| - 1];
      QueueWeightAppend(w, a, b[..|b| - 1]);
    }
  }

  lemma ChildWeightOne(w: World, p: string, c: string, songs: map<int, Stored>)
    requires |c| > |p|
    ensures QueueWeight(w, ChildDir(w.fs, c)) + |ChildFile(w, c, songs)| == ChildCost(w, p, c)
  {
    if c in w.fs && w.fs[c].Dir? {
      assert ChildDir(w.fs, c)[..0] == [];
    }
  }

  /** Expanding a directory queues exactly the work its weight counts. */
  lemma {:induction false} ExpandWeight(w: World, p: string, names: seq<string>, n: nat, songs: map<int, Stored>)
    requires n <= |names|
    requires forall i :: 0 <= i < |names| ==> names[i] != ""
    ensures QueueWeight(w, NewDirs(w.fs, p, names, n)) + |NewFiles(w, p, names, n, songs)| == ChildWeight(w, p, names, n)
    decreases n
  {
    if n > 0 {
      var m: nat := n - 1;
      ExpandWeight(w, p, names, m, songs);
      ExpandStep(w, p, names, m, n, songs);
    }
  }

  /** The name at `m` adds its own cost to what the first `m` names queue. */
  lemma ExpandStep(w: World, p: string, names: seq<string>, m: nat, n: nat, songs: map<int, Stored>)
    requires n == m + 1 && n <= |names| && names[m] != ""
    ensures QueueWeight(w, NewDirs(w.fs, p, names, n)) + |NewFiles(w, p, names, n, songs)|
            == QueueWeight(w, NewDirs(w.fs, p, names, m)) + |NewFiles(w, p, names, m, songs)|
               + ChildCost(w, p, PathJoin(p, names[m]))
    ensures ChildWeight(w, p, names, n) == ChildWeight(w, p, names, m) + ChildCost(w, p, PathJoin(p, names[m]))
  {
    var c := PathJoin(p, names[m]);
    var ds, d := NewDirs(w.fs, p, names, m), ChildDir(w.fs, c);
    var fs, f := NewFiles(w, p, names, m, songs), ChildFile(w, c, songs);
    assert NewDirs(w.fs, p, names, n) == ds + d;
    assert NewFiles(w, p, names, n, songs) == fs + f;
    QueueWeightAppend(w, ds, d);
    ChildWeightOne(w, p, c, songs);
    assert ChildWeight(w, p, names, n) == ChildWeight(w, p, names, m) + ChildCost(w, p, c);
  }

  /** What `p`'s weight counts: its own pop and the work of what it lists. */
  lemma WeightListing(w: World, p: string)
    ensures Weight(w, p) == 1 + ChildWeight(w, p, Listing(w.fs, p), |Listing(w.fs, p)|)
  {
  }

  /**
   * Appending what expanding `p` queues: the weight of the queues grows by the
   * weight of `p` less its own pop, and every new file entry is classified.
   */
  lemma ExpandQueues(w: World, p: string, songs: map<int, Stored>, qd: seq<string>, qf: seq<Pending>,
                     dirs: seq<string>, files: seq<Pending>)
    requires ValidFs(w.fs)
    requires dirs == NewDirs(w.fs, p, Listing(w.fs, p), |Listing(w.fs, p)|)
    requires files == NewFiles(w, p, Listing(w.fs, p), |Listing(w.fs, p)|, songs)
    ensures QueueWeight(w, qd + dirs) + |qf + files| + 1 == QueueWeight(w, qd) + |qf| + Weight(w, p)
    ensures forall i :: 0 <= i < |files| ==> Classified(w, songs, files[i])
  {
    var names := Listing(w.fs, p);
    ExpandWeight(w, p, names, |names|, songs);
    QueueWeightAppend(w, qd, dirs);
    WeightListing(w, p);
    NewFilesClassified(w, p, names, |names|, songs);
  }

  ghost predicate QueuedIn(w: World, songs: map<int, Stored>, f: Pending)
  {
    f.path in w.fs && w.fs[f.path].File? && w.isSong(f.path)
    && (!f.changed ==> w.key(f.path) in songs)
  }

  /** Classified entries appended to a queue of queued files leave only queued files. */
  lemma QueuedAppend(w: World, songs: map<int, Stored>, qf: seq<Pending>, files: seq<Pending>)
    requires forall i :: 0 <= i < |qf| ==> QueuedIn(w, songs, qf[i])
    requires forall i :: 0 <= i < |files| ==> Classified(w, songs, files[i])
    ensures forall i :: 0 <= i < |qf + files| ==> QueuedIn(w, songs, (qf + files)[i])
  {
    forall i | 0 <= i < |qf + files| ensures QueuedIn(w, songs, (qf + files)[i]) {
      if i >= |qf| {
        assert (qf + files)[i] == files[i - |qf|];
      } else {
        assert (qf + files)[i] == qf[i];
      }
    }
  }

  /** Records only gained keep every queued file queued. */
  lemma QueuedKept(w: World, songs1: map<int, Stored>, songs2: map<int, Stored>, qf: seq<Pending>)
    requires songs1.Keys <= songs2.Keys
    requires forall i :: 0 <= i < |qf| ==> QueuedIn(w, songs1, qf[i])
    ensures forall i :: 0 <= i < |qf| ==> QueuedIn(w, songs2, qf[i])
  {
  }

  /** The sub-directories reading `p` queues, in listing order. */
  function DirsOf(fs: FileSystem, p: string): seq<string>
  {
    NewDirs(fs, p, Listing(fs, p), |Listing(fs, p)|)
  }

  /** The song files reading `p` queues, classified against `songs`, in listing order. */
  function FilesOf(w: World, p: string, songs: map<int, Stored>): seq<Pending>
  {
    NewFiles(w, p, Listing(w.fs, p), |Listing(w.fs, p)|, songs)
  }

  /** The last entry of a queue used as a stack, if any. */
  function Top<T>(q: seq<T>): Option<T>
  {
    if q == [] then None else Some(q[|q| - 1])
  }

  /** A queue used as a stack, with its last entry popped. */
  function Popped<T>(q: seq<T>): seq<T>
  {
    if q == [] then [] else q[..|q| - 1]
  }

  /** The paths of the entries of a file queue. */
  function Paths(q: seq<Pending>): set<string>
    decreases |q|
  {
    if q == [] then {} else Paths(q[..|q| - 1]) + {q[|q| - 1].path}
  }

  /**
   * The record ids a pass has stamped, given the entries it processed: those of
   * the unchanged entries and of the changed ones whose reading succeeded.
   */
  ghost function StampedKeys(w: World, read: string -> Mp3.Outcome, seen: set<Pending>): set<int>
  {
    set f | f in seen && (!f.changed || read(f.path).Got?) :: w.key(f.path)
  }

  lemma StampedKeysAdd(w: World, read: string -> Mp3.Outcome, seen: set<Pending>, f: Pending)
    ensures StampedKeys(w, read, seen + {f})
            == StampedKeys(w, read, seen) + (if !f.changed || read(f.path).Got? then {w.key(f.path)} else {})
  {
    if !f.changed || read(f.path).Got? {
      assert w.key(f.path) in StampedKeys(w, read, seen + {f});
    }
  }

  /** `a ∪ b ∪ x ∪ y`, regrouped. */
  lemma UnionRegroup<T>(a: set<T>, b: set<T>, x: set<T>, y: set<T>)
    ensures (a + b) + (x + y) == (a + x) + (b + y)
  {
  }

  /**
   * What holds of the records between the steps of a pass that started from
   * `start` at `version`, having processed `seen`: every processed entry is a
   * song file on disk, the stamped records carry `version + 1`, and every other
   * record is as the pass found it.
   */
  ghost predicate Stamped(w: World, read: string -> Mp3.Outcome, start: map<int, Stored>, songs: map<int, Stored>,
                          version: int, seen: set<Pending>)
  {
    && start.Keys <= songs.Keys
    && (forall f :: f in seen ==> f.path in w.fs && w.fs[f.path].File? && w.isSong(f.path))
    && (forall k :: k in StampedKeys(w, read, seen) ==> k in songs && songs[k].version == version + 1)
    && (forall k :: k in songs && k !in StampedKeys(w, read, seen) ==> k in start && songs[k] == start[k])
  }

  /** Every entry of the file queue is a song file on disk, and an unchanged one has a record. */
  ghost predicate AllQueued(w: World, songs: map<int, Stored>, qf: seq<Pending>)
  {
    forall i :: 0 <= i < |qf| ==> QueuedIn(w, songs, qf[i])
  }

  /**
   * Every song file reachable from the roots has been processed, is queued, or
   * lies under a queued directory, and nothing else is in any of these.
   */
  ghost predicate FrontierOf(w: World, roots: seq<string>, seen: set<Pending>, qd: seq<string>, qf: seq<Pending>)
  {
    PendingPaths(seen) + Paths(qf) + QueueFound(w, qd) == Reachable(w, roots)
  }

  /** The paths of a set of queue entries. */
  function PendingPaths(s: set<Pending>): set<string>
  {
    set f | f in s :: f.path
  }

  lemma PendingPathsAdd(s: set<Pending>, f: Pending)
    ensures PendingPaths(s + {f}) == PendingPaths(s) + {f.path}
  {
    assert f.path in PendingPaths(s + {f});
  }

  lemma {:induction false} PathsAppend(a: seq<Pending>, b: seq<Pending>)
    ensures Paths(a + b) == Paths(a) + Paths(b)
    decreases |b|
  {
    if b == [] {
      assert a + b == a;
    } else {
      assert (a + b)[..|a + b| - 1] == a + b[..|b| - 1];
      PathsAppend(a, b[..|b| - 1]);
    }
  }

  /**
   * The song files a walk from `p` finds: `p`'s listed song files and, through
   * each listed sub-directory, what a walk from it finds.
   */
  ghost function Found(w: World, p: string): set<string>
    decreases MaxLen(w.fs.Keys) - |p|, 1
  {
    if p in w.fs && w.fs[p].Dir? then FoundIn(w, p, w.fs[p].names, |w.fs[p].names|) else {}
  }

  /** What the first `n` names of `p` lead to. */
  ghost function FoundIn(w: World, p: string, names: seq<string>, n: nat): set<string>
    requires n <= |names|
    decreases MaxLen(w.fs.Keys) - |p|, 0, n
  {
    if n == 0 then {} else FoundIn(w, p, names, n - 1) + FoundAt(w, p, PathJoin(p, names[n - 1]))
  }

  /** What the entry `c` of directory `p` leads to. */
  ghost function FoundAt(w: World, p: string, c: string): set<string>
    decreases MaxLen(w.fs.Keys) - |p|, 0, 0
  {
    if c in w.fs && w.fs[c].Dir? && |c| > |p| then Found(w, c)
    else if c in w.fs && w.fs[c].File? && w.isSong(c) then {c}
    else {}
  }

  /** What walks from every directory of a queue find. */
  ghost function QueueFound(w: World, q: seq<string>): set<string>
    decreases |q|
  {
    if q == [] then {} else QueueFound(w, q[..|q| - 1]) + Found(w, q[|q| - 1])
  }

  /** The song files reachable from the roots: those a pass must visit. */
  ghost function Reachable(w: World, roots: seq<string>): set<string>
  {
    QueueFound(w, roots)
  }

  lemma {:induction false} QueueFoundAppend(w: World, a: seq<string>, b: seq<string>)
    ensures QueueFound(w, a + b) == QueueFound(w, a) + QueueFound(w, b)
    decreases |b|
  {
    if b == [] {
      assert a + b == a;
    } else {
      assert (a + b)[..|a + b| - 1] == a + b[..|b| - 1];
      assert (a + b)[|a + b| - 1] == b[|b| - 1];
      QueueFoundAppend(w, a, b[..|b| - 1]);
    }
  }

  /** What the first `n` names lead to is what expanding them queues: directories to walk on, and files. */
  lemma {:induction false} FoundExpand(w: World, p: string, names: seq<string>, n: nat, songs: map<int, Stored>)
    requires n <= |names|
    requires forall i :: 0 <= i < |names| ==> names[i] != ""
    ensures FoundIn(w, p, names, n) == QueueFound(w, NewDirs(w.fs, p, names, n)) + Paths(NewFiles(w, p, names, n, songs))
    decreases n
  {
    if n > 0 {
      var c := PathJoin(p, names[n - 1]);
      var ds, fs := NewDirs(w.fs, p, names, n - 1), NewFiles(w, p, names, n - 1, songs);
      var d, f := ChildDir(w.fs, c), ChildFile(w, c, songs);
      assert NewDirs(w.fs, p, names, n) == ds + d;
      assert NewFiles(w, p, names, n, songs) == fs + f;
      FoundExpand(w, p, names, n - 1, songs);
      QueueFoundAppend(w, ds, d);
      PathsAppend(fs, f);
      FoundAtChild(w, p, c, songs);
      UnionRegroup(QueueFound(w, ds), Paths(fs), QueueFound(w, d), Paths(f));
    }
  }

  /** What one entry leads to is what stat-ing it queues, walked on. */
  lemma FoundAtChild(w: World, p: string, c: string, songs: map<int, Stored>)
    requires |c| > |p|
    ensures FoundAt(w, p, c) == QueueFound(w, ChildDir(w.fs, c)) + Paths(ChildFile(w, c, songs))
  {
    if c in w.fs && w.fs[c].Dir? {
      assert ChildDir(w.fs, c)[..0] == [];
    } else if c in w.fs && w.fs[c].File? && w.isSong(c) {
      assert ChildFile(w, c, songs)[..0] == [];
    }
  }

  /** A walk from `p` finds what expanding `p` queues, walked on. */
  lemma FoundListing(w: World, p: string, songs: map<int, Stored>)
    requires ValidFs(w.fs)
    ensures Found(w, p) == QueueFound(w, DirsOf(w.fs, p)) + Paths(FilesOf(w, p, songs))
  {
    FoundExpand(w, p, Listing(w.fs, p), |Listing(w.fs, p)|, songs);
  }

  /**
   * One round keeps the frontier: popping a file moves its path to the
   * processed ones, and expanding a popped directory replaces it by what it queues.
   */
  lemma FrontierNext(w: World, done: set<string>, qd: seq<string>, qf: seq<Pending>, songs: map<int, Stored>, all: set<string>)
    requires ValidFs(w.fs)
    requires done + Paths(qf) + QueueFound(w, qd) == all
    ensures (done + (if qf == [] then {} else {Top(qf).value.path}))
            + Paths(Popped(qf) + (if qd == [] then [] else FilesOf(w, Top(qd).value, songs)))
            + QueueFound(w, Popped(qd) + (if qd == [] then [] else DirsOf(w.fs, Top(qd).value)))
            == all
  {
    var dq, fq, reached := [], [], {};
    if qd != [] {
      dq, fq, reached := DirsOf(w.fs, Top(qd).value), FilesOf(w, Top(qd).value, songs), Found(w, Top(qd).value);
      QueueFoundPop(w, qd);
      FoundListing(w, Top(qd).value, songs);
    }
    var popped := {};
    if qf != [] {
      popped := {Top(qf).value.path};
      PathsPop(qf);
    }
    PathsAppend(Popped(qf), fq);
    QueueFoundAppend(w, Popped(qd), dq);
    Regroup(done, Paths(Popped(qf)), popped, QueueFound(w, Popped(qd)), QueueFound(w, dq), Paths(fq));
  }

  lemma PathsPop(qf: seq<Pending>)
    requires qf != []
    ensures Paths(qf) == Paths(Popped(qf)) + {Top(qf).value.path}
  {
  }

  lemma QueueFoundPop(w: World, qd: seq<string>)
    requires qd != []
    ensures QueueFound(w, qd) == QueueFound(w, Popped(qd)) + Found(w, Top(qd).value)
  {
  }

  /** Moving the popped file to the processed ones and replacing the popped directory by what it queues. */
  lemma Regroup<T>(done: set<T>, files: set<T>, popped: set<T>, dirs: set<T>, newDirs: set<T>, newFiles: set<T>)
    ensures done + (files + popped) + (dirs + (newDirs + newFiles))
            == (done + popped) + (files + newFiles) + (dirs + newDirs)
  {
  }



  /**
   * Reading the directory `p`: each listed name is joined to `p` and stat-ed;
   * sub-directories and song files are collected in listing order.
   */
  method ReadDir(w: World, p: string, songs: map<int, Stored>) returns (dirs: seq<string>, files: seq<Pending>)
    ensures dirs == NewDirs(w.fs, p, Listing(w.fs, p), |Listing(w.fs, p)|)
    ensures files == NewFiles(w, p, Listing(w.fs, p), |Listing(w.fs, p)|, songs)
  {
    var names := Listing(w.fs, p);
    dirs, files := [], [];
    for i := 0 to |names|
      invariant dirs == NewDirs(w.fs, p, names, i)
      invariant files == NewFiles(w, p, names, i, songs)
    {
      var file := PathJoin(p, names[i]);
      dirs := dirs + ChildDir(w.fs, file);
      files := files + ChildFile(w, file, songs);
    }
  }

  // ---------------------------------------------------------------------------
  // The scanner

  datatype ScanResult = Skipped | Finished | Hung

  class Scanner {
    const w: World
    const roots: seq<string>
    /** The outcome of `meta` for a path. */
    const read: string -> Mp3.Outcome

    var qd: seq<string>
    var qf: seq<Pending>
    var needRescan: bool
    var inProgress: bool
    var version: int
    /** The song records, by id. */
    var songs: map<int, Stored>
    /** The stored information record. */
    var info: Option<Store.Info>

    /** The records as the running pass found them. */
    ghost var start: map<int, Stored>
    /** The file queue entries the running pass has processed. */
    ghost var seen: set<Pending>

    ghost predicate Valid()
      reads this
    {
      ValidFs(w.fs) && (!inProgress ==> qd == [] && qf == [])
    }

    /** Processing `f` stamps its record: it is unchanged, or reading it succeeded. */
    ghost predicate Stamps(f: Pending)
    {
      !f.changed || read(f.path).Got?
    }

    /** The files whose records the running pass has stamped. */
    ghost function StampedFiles(): set<string>
      reads this
    {
      set f | f in seen && Stamps(f) :: f.path
    }

    ghost function StampedIds(): set<int>
      reads this
    {
      StampedKeys(w, read, seen)
    }

    /** The paths the running pass has processed. */
    ghost function SeenPaths(): set<string>
      reads this
    {
      PendingPaths(seen)
    }

    /** The frontier of the running pass: see `FrontierOf`. */
    ghost predicate Frontier()
      reads this
    {
      FrontierOf(w, roots, seen, qd, qf)
    }

    /** What holds between the steps of a pass. */
    ghost predicate PassInv()
      reads this
    {
      Stamped(w, read, start, songs, version, seen) && AllQueued(w, songs, qf)
    }

    ghost function Measure(): nat
      reads this
    {
      QueueWeight(w, qd) + |qf|
    }

    /**
     * A scanner over `fs` and `roots`. A path's record id is `Mp3.Id` of its FNV
     * hash, the song test is `Mp3.IsSong`, and reading a path is `Mp3.ReadSong`
     * on what the parser and the duration probe answer for it.
     */
    constructor (fs: FileSystem, roots: seq<string>, fnv: string -> int, parse: string -> Option<Js>,
                 probe: string -> Option<Number>, lookupFails: string -> bool,
                 songs: map<int, Stored>, info: Option<Store.Info>)
      requires ValidFs(fs)
      ensures Valid()
      ensures w.fs == fs && w.lookupFails == lookupFails && this.roots == roots
      ensures forall f :: w.key(f) == Mp3.Id(fnv(f))
      ensures forall f :: w.isSong(f) == Mp3.IsSong(f)
      ensures forall f :: read(f) == Mp3.ReadSong(f, Mp3.Id(fnv(f)), parse(f), probe(f))
      ensures this.songs == songs && this.info == info
      ensures qd == [] && qf == [] && !needRescan && !inProgress
    {
      w := World(fs, f => Mp3.Id(fnv(f)), f => Mp3.IsSong(f), lookupFails);
      this.roots := roots;
      read := f => Mp3.ReadSong(f, Mp3.Id(fnv(f)), parse(f), probe(f));
      this.songs := songs;
      this.info := info;
      qd := [];
      qf := [];
      needRescan := false;
      inProgress := false;
      version := 0;
    }

    /** The file watcher's callback: a change anywhere under a root schedules a rescan. */
    method MarkChanged()
      modifies this
      ensures needRescan
      ensures qd == old(qd) && qf == old(qf) && inProgress == old(inProgress)
      ensures version == old(version) && songs == old(songs) && info == old(info)
    {
      needRescan := true;
    }

    /**
     * Reads a directory and queues its sub-directories and song files, in
     * listing order; what it queues is the directory's weight less its own pop.
     */
    method Expand(p: string)
      requires ValidFs(w.fs)
      requires AllQueued(w, songs, qf)
      modifies this
      ensures qd == old(qd) + DirsOf(w.fs, p)
      ensures qf == old(qf) + FilesOf(w, p, songs)
      ensures AllQueued(w, songs, qf)
      ensures Measure() + 1 == old(Measure()) + Weight(w, p)
      ensures songs == old(songs) && version == old(version) && info == old(info)
      ensures needRescan == old(needRescan) && inProgress == old(inProgress)
      ensures start == old(start) && seen == old(seen)
    {
      var dirs, files := ReadDir(w, p, songs);
      ExpandQueues(w, p, songs, qd, qf, dirs, files);
      QueuedAppend(w, songs, qf, files);
      qd := qd + dirs;
      qf := qf + files;
    }

    /**
     * Processes one popped file of a pass: the records change as `FileStep` says,
     * and the file counts as stamped unless reading it failed or threw.
     */
    method Process(f: Pending) returns (stuck: bool)
      requires PassInv() && QueuedIn(w, songs, f)
      modifies this
      ensures PassInv()
      ensures var r := FileStep(old(songs), f, version, w.key(f.path), read(f.path));
              songs == r.songs && stuck == r.stuck
      ensures seen == old(seen) + {f}
      ensures qd == old(qd) && qf == old(qf) && version == old(version) && info == old(info) && start == old(start)
      ensures needRescan == old(needRescan) && inProgress == old(inProgress)
    {
      var id := w.key(f.path);
      var o := read(f.path);
      var step := FileStep(songs, f, version, id, o);
      ghost var before := songs;
      ghost var ids := StampedIds();
      songs := step.songs;
      stuck := step.stuck;
      StampedKeysAdd(w, read, seen, f);
      seen := seen + {f};
      if !Stamps(f) {
        assert songs == before;
      }
      forall k | k in songs && k !in StampedIds() ensures k in start && songs[k] == start[k] {
        assert Record(songs, k) == Record(before, k);
      }
      forall k | k in StampedIds() ensures k in songs && songs[k].version == version + 1 {
        if k != id { assert Record(songs, k) == Record(before, k); }
      }
    }

    /** Pops the last entry of the directory queue, if any. */
    method PopDir() returns (dir: Option<string>)
      modifies this
      ensures dir == Top(old(qd)) && qd == Popped(old(qd))
      ensures qf == old(qf) && songs == old(songs) && version == old(version) && info == old(info)
      ensures needRescan == old(needRescan) && inProgress == old(inProgress)
      ensures start == old(start) && seen == old(seen)
    {
      dir := None;
      if |qd| > 0 {
        dir := Some(qd[|qd| - 1]);
        qd := qd[..|qd| - 1];
      }
    }

    /** Pops the last entry of the file queue, if any. */
    method PopFile() returns (file: Option<Pending>)
      requires AllQueued(w, songs, qf)
      modifies this
      ensures AllQueued(w, songs, qf) && (file.Some? ==> QueuedIn(w, songs, file.value))
      ensures file == Top(old(qf)) && qf == Popped(old(qf))
      ensures qd == old(qd) && songs == old(songs) && version == old(version) && info == old(info)
      ensures needRescan == old(needRescan) && inProgress == old(inProgress)
      ensures start == old(start) && seen == old(seen)
    {
      file := None;
      if |qf| > 0 {
        file := Some(qf[|qf| - 1]);
        qf := qf[..|qf| - 1];
      }
    }

    /**
     * The first half of a round: pop a directory and a file (both pops happen
     * before any reading) and expand the directory. The popped file is returned
     * for processing.
     */
    method Advance() returns (file: Option<Pending>)
      requires Valid() && PassInv() && (|qd| > 0 || |qf| > 0)
      modifies this
      ensures Valid() && PassInv()
      ensures Measure() < old(Measure())
      ensures file == Top(old(qf)) && (file.Some? ==> QueuedIn(w, songs, file.value))
      ensures qd == Popped(old(qd)) + (if old(qd) == [] then [] else DirsOf(w.fs, Top(old(qd)).value))
      ensures qf == Popped(old(qf)) + (if old(qd) == [] then [] else FilesOf(w, Top(old(qd)).value, old(songs)))
      ensures songs == old(songs) && seen == old(seen)
      ensures version == old(version) && info == old(info) && start == old(start)
      ensures needRescan == old(needRescan) && inProgress == old(inProgress)
    {
      ghost var qd0, qf0 := qd, qf;
      ghost var qd1 := Popped(qd0) + (if qd0 == [] then [] else DirsOf(w.fs, Top(qd0).value));
      ghost var qf1 := Popped(qf0) + (if qd0 == [] then [] else FilesOf(w, Top(qd0).value, songs));
      var dir := PopDir();
      file := PopFile();
      if dir.Some? {
        var p := dir.value;
        assert qd0 == qd + [p];
        QueueWeightAppend(w, qd, [p]);
        assert QueueWeight(w, [p]) == Weight(w, p) by { assert [p][..0] == []; }
        Expand(p);
      } else {
        assert qd0 == [] && qd == [];
      }
      assert qd == qd1 && qf == qf1;
    }

    /**
     * One round of the pass: `Advance`, then process the popped file. The result
     * says whether processing threw, which ends the pass for good.
     */
    method Next() returns (stuck: bool)
      requires Valid() && PassInv() && Frontier() && (|qd| > 0 || |qf| > 0)
      modifies this
      ensures Valid() && PassInv() && Frontier()
      ensures Measure() < old(Measure())
      ensures qd == Popped(old(qd)) + (if old(qd) == [] then [] else DirsOf(w.fs, Top(old(qd)).value))
      ensures qf == Popped(old(qf)) + (if old(qd) == [] then [] else FilesOf(w, Top(old(qd)).value, old(songs)))
      ensures old(qf) == [] ==> songs == old(songs) && seen == old(seen) && !stuck
      ensures old(qf) != [] ==>
                var f := Top(old(qf)).value;
                var r := FileStep(old(songs), f, version, w.key(f.path), read(f.path));
                songs == r.songs && stuck == r.stuck && seen == old(seen) + {f}
      ensures version == old(version) && info == old(info) && start == old(start)
      ensures needRescan == old(needRescan) && inProgress == old(inProgress)
    {
      FrontierNext(w, SeenPaths(), qd, qf, songs, Reachable(w, roots));
      var file := Advance();
      stuck := false;
      if file.Some? {
        ghost var before, seen0 := songs, seen;
        stuck := Process(file.value);
        QueuedKept(w, before, songs, qf);
        PendingPathsAdd(seen0, file.value);
      }
    }

    /**
     * The end of a pass: the version moves on by one, the records older than it
     * are purged, the pass is over, and the stored version is incremented.
     */
    method Done()
      modifies this
      ensures version == old(version) + 1
      ensures songs == Purged(old(songs), version)
      ensures !inProgress && info == Some(Store.VersionBumped(old(info)))
      ensures qd == old(qd) && qf == old(qf) && needRescan == old(needRescan)
      ensures start == old(start) && seen == old(seen)
    {
      version := version + 1;
      songs := Purged(songs, version);
      inProgress := false;
      info := Some(Store.VersionBumped(info));
    }

    /**
     * The start of a pass: the pending change is consumed, the pass is marked
     * running from the stored version (1 when reading it failed), and every root
     * is queued in order.
     */
    method Begin(readFailed: bool)
      requires Valid()
      modifies this
      ensures Valid() && PassInv() && inProgress && !needRescan
      ensures Frontier()
      ensures qd == roots && qf == [] && start == old(songs) && songs == old(songs) && seen == {}
      ensures version == (if readFailed then 1 else Store.VersionValue(old(info))) && info == old(info)
    {
      needRescan := false;
      inProgress := true;
      start := songs;
      seen := {};
      version := if readFailed then 1 else Store.VersionValue(info);
      qf := [];
      qd := [];
      for i := 0 to |roots|
        invariant qd == roots[..i] && qf == [] && start == old(songs)
        invariant songs == start && seen == {} && inProgress && !needRescan
        invariant version == (if readFailed then 1 else Store.VersionValue(old(info))) && info == old(info)
      {
        assert roots[..i + 1] == roots[..i] + [roots[i]];
        qd := qd + [roots[i]];
      }
      assert roots[..|roots|] == roots;
      assert SeenPaths() == {};
    }

    /**
     * `scan`: without `force` and without a pending change, or while a pass is
     * running, nothing happens. Otherwise a pass starts from the stored version
     * (1 when reading it failed), walks every root, and ends with `Done` unless
     * processing a file threw, in which case the pass stays in progress.
     */
    method Scan(force: bool, readFailed: bool) returns (result: ScanResult)
      requires Valid()
      modifies this
      ensures Valid()
      ensures result == Skipped <==> (!force && !old(needRescan)) || old(inProgress)
      ensures result == Skipped ==>
        qd == old(qd) && qf == old(qf) && needRescan == old(needRescan) && inProgress == old(inProgress)
        && version == old(version) && songs == old(songs) && info == old(info)
      ensures result != Skipped ==> !needRescan && start == old(songs)
      ensures result == Hung ==> inProgress && info == old(info)
      ensures result == Finished ==>
        var v := if readFailed then 1 else Store.VersionValue(old(info));
        && version == v + 1
        && !inProgress && qd == [] && qf == []
        && info == Some(Store.VersionBumped(old(info)))
        && SeenPaths() == Reachable(w, roots)
        && (forall f :: f in seen ==> f.path in w.fs && w.fs[f.path].File? && w.isSong(f.path))
        && (forall k :: k in StampedIds() ==> k in songs && songs[k].version == version)
        && (forall k :: k in songs <==> k in StampedIds() || (k in old(songs) && old(songs)[k].version >= version))
        && (forall k :: k in songs && k !in StampedIds() ==> songs[k] == old(songs)[k])
    {
      if !force && !needRescan {
        return Skipped;
      }
      if inProgress {
        return Skipped;
      }
      Begin(readFailed);
      while |qd| > 0 || |qf| > 0
        invariant Valid() && PassInv() && Frontier() && inProgress && !needRescan
        invariant start == old(songs) && info == old(info)
        invariant version == if readFailed then 1 else Store.VersionValue(old(info))
        decreases Measure()
      {
        var stuck := Next();
        if stuck {
          return Hung;
        }
      }
      qd := [];
      qf := [];
      assert SeenPaths() == Reachable(w, roots);
      ghost var before := songs;
      ghost var stamped := StampedIds();
      FinishedRecords(start, before, stamped, version + 1);
      Done();
      result := Finished;
    }
  }
}
