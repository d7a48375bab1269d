/**
 * The audio cache housekeeping of the main bot (app/audio_manager.py):
 * serving cached files, clearing the cache, reporting its size and pruning it
 * oldest-first. Sizes are whole bytes; a limit in megabytes is converted with
 * 1 MB = 1048576 bytes.
 */
module AudioManager {
  import opened Wrappers
  import opened Files
  import Text

  const BytesPerMb := 1048576

  // ------------------------------------------------------------ serving

  datatype HttpReply = HttpReply(status: int, headers: map<string, string>, body: seq<bv8>)

  /** The CORS headers both audio routes set. */
  const CorsHeaders := map[
    "Access-Control-Allow-Origin" := "*",
    "Access-Control-Allow-Methods" := "GET, OPTIONS",
    "Access-Control-Allow-Headers" := "Content-Type",
    "Content-Type" := "audio/mpeg"]

  /** `serve_audio(filename)`: the file with CORS and caching headers, or 404 when it cannot be sent. */
  function ServeAudio(entries: seq<FileEntry>, filename: string): (r: HttpReply)
    ensures r.status == 200 || r.status == 404
    ensures r.status == 200 <==> filename in Names(entries)
    ensures r.status == 200 ==>
      && "Access-Control-Allow-Origin" in r.headers && r.headers["Access-Control-Allow-Origin"] == "*"
      && "Content-Type" in r.headers && r.headers["Content-Type"] == "audio/mpeg"
      && "Cache-Control" in r.headers && r.headers["Cache-Control"] == "public, max-age=86400"
      && exists f | f in entries :: f.name == filename && r.body == f.content
  {
    match Find(entries, filename)
    case Some(f) => HttpReply(200, CorsHeaders["Cache-Control" := "public, max-age=86400"], f.content)
    case None => HttpReply(404, map[], [])
  }

  /** `options_audio(filename)`: the CORS preflight answer, without the caching header. */
  function OptionsAudio(filename: string): (r: HttpReply)
    ensures r.status == 200 && "Cache-Control" !in r.headers
    ensures "Access-Control-Allow-Origin" in r.headers && r.headers["Access-Control-Allow-Origin"] == "*"
    ensures "Access-Control-Allow-Methods" in r.headers && r.headers["Access-Control-Allow-Methods"] == "GET, OPTIONS"
  {
    HttpReply(200, CorsHeaders, [])
  }

  // ------------------------------------------------------------ statistics

  datatype CacheStats = CacheStats(fileCount: nat, totalSizeBytes: nat)

  /**
   * The files for which the file system raises: `stat` names those whose
   * `stat()` raises, `unlink` those whose `unlink()` raises (a file removed
   * meanwhile, a permission refused).
   */
  datatype IoFaults = IoFaults(stat: set<string>, unlink: set<string>)

  const NoFaults := IoFaults({}, {})

  /** Some `.mp3` file of the cache cannot be `stat`ed. */
  predicate StatFails(entries: seq<FileEntry>, statFails: set<string>) {
    !(Names(Mp3Files(entries)) !! statFails)
  }

  /** `get_cache_stats()`: the number and total size of the `.mp3` files, or all zeros when a `stat()` raises. */
  function GetCacheStats(entries: seq<FileEntry>, statFails: set<string>): (st: CacheStats)
    ensures !StatFails(entries, statFails) ==>
      st.fileCount == |Mp3Files(entries)| && st.totalSizeBytes == TotalSize(Mp3Files(entries))
    ensures StatFails(entries, statFails) ==> st == CacheStats(0, 0)
    ensures st.fileCount == 0 ==> st.totalSizeBytes == 0
  {
    if StatFails(entries, statFails) then CacheStats(0, 0)
    else CacheStats(|Mp3Files(entries)|, TotalSize(Mp3Files(entries)))
  }

  // ------------------------------------------------------------ sorting by modification time

  predicate SortedByMtime(s: seq<FileEntry>) {
    forall i, j :: 0 <= i < j < |s| ==> s[i].mtime <= s[j].mtime
  }

  /** Inserts `f` before the first entry that is not older, keeping equal times in their original order. */
  function InsertByMtime(f: FileEntry, s: seq<FileEntry>): (r: seq<FileEntry>)
    ensures multiset(r) == multiset(s) + multiset{f}
    ensures TotalSize(r) == Size(f) + TotalSize(s)
  {
    if s == [] || f.mtime <= s[0].mtime then [f] + s
    else
      assert s == [s[0]] + s[1..];
      [s[0]] + InsertByMtime(f, s[1..])
  }

  /** An entry no younger than the oldest of a sorted list can go in front of it. */
  lemma ConsSorted(x: FileEntry, r: seq<FileEntry>)
    requires SortedByMtime(r) && forall k :: 0 <= k < |r| ==> x.mtime <= r[k].mtime
    ensures SortedByMtime([x] + r)
  {
    var c := [x] + r;
    forall i, j | 0 <= i < j < |c| ensures c[i].mtime <= c[j].mtime {
      assert c[j] == r[j - 1];
      if i > 0 {
        assert c[i] == r[i - 1];
      }
    }
  }

  lemma {:induction false} InsertKeepsSorted(f: FileEntry, s: seq<FileEntry>)
    requires SortedByMtime(s)
    ensures SortedByMtime(InsertByMtime(f, s))
  {
    if s == [] || f.mtime <= s[0].mtime {
      ConsSorted(f, s);
    } else {
      var tail := s[1..];
      assert SortedByMtime(tail) by {
        forall i, j | 0 <= i < j < |tail| ensures tail[i].mtime <= tail[j].mtime {
          assert tail[i] == s[i + 1] && tail[j] == s[j + 1];
        }
      }
      InsertKeepsSorted(f, tail);
      var r := InsertByMtime(f, tail);
      forall k | 0 <= k < |r| ensures s[0].mtime <= r[k].mtime {
        assert r[k] in multiset(r);
        if r[k] != f {
          assert r[k] in multiset(tail);
          var m :| 0 <= m < |tail| && tail[m] == r[k];
          assert s[m + 1] == r[k];
        }
      }
      ConsSorted(s[0], r);
    }
  }

  /** `sorted(files, key=mtime)`: a stable sort, oldest first. */
  function SortByMtime(s: seq<FileEntry>): (r: seq<FileEntry>)
    ensures multiset(r) == multiset(s)
    ensures TotalSize(r) == TotalSize(s)
  {
    if s == [] then []
    else
      assert s == [s[0]] + s[1..];
      InsertByMtime(s[0], SortByMtime(s[1..]))
  }

  lemma {:induction false} SortByMtimeSorted(s: seq<FileEntry>)
    ensures SortedByMtime(SortByMtime(s))
  {
    if s != [] {
      SortByMtimeSorted(s[1..]);
      InsertKeepsSorted(s[0], SortByMtime(s[1..]));
    }
  }

  // ------------------------------------------------------------ pruning

  /** How many of the oldest-first `files` the pruning loop removes before the total is at most `maxBytes`. */
  function PruneCount(files: seq<FileEntry>, maxBytes: int): (k: nat)
    ensures k <= |files|
  {
    if TotalSize(files) <= maxBytes || files == [] then 0
    else 1 + PruneCount(files[1..], maxBytes)
  }

  /** The `.mp3` files of the cache, oldest first. */
  function ByAge(entries: seq<FileEntry>): seq<FileEntry> {
    SortByMtime(Mp3Files(entries))
  }

  /** The files `prune_cache(max_size_mb)` deletes: a prefix of the oldest-first list. */
  function Pruned(entries: seq<FileEntry>, maxMb: int): (p: seq<FileEntry>)
    ensures p <= ByAge(entries)
  {
    ByAge(entries)[..PruneCount(ByAge(entries), maxMb * BytesPerMb)]
  }

  /** After pruning, the files kept total at most the limit, unless every file was removed. */
  lemma {:induction false} PruneCountEnough(files: seq<FileEntry>, maxBytes: int)
    ensures var k := PruneCount(files, maxBytes);
      TotalSize(files[k..]) <= maxBytes || k == |files|
  {
    if !(TotalSize(files) <= maxBytes || files == []) {
      PruneCountEnough(files[1..], maxBytes);
      assert files[1..][PruneCount(files[1..], maxBytes)..] == files[PruneCount(files, maxBytes)..];
    }
  }

  /** Pruning stops as soon as it may: one file fewer would leave the total above the limit. */
  lemma {:induction false} PruneCountMinimal(files: seq<FileEntry>, maxBytes: int)
    ensures var k := PruneCount(files, maxBytes);
      forall j :: 0 <= j < k ==> TotalSize(files[j..]) > maxBytes
  {
    var k := PruneCount(files, maxBytes);
    if k > 0 {
      PruneCountMinimal(files[1..], maxBytes);
      forall j | 0 <= j < k ensures TotalSize(files[j..]) > maxBytes {
        if j > 0 {
          assert files[1..][j - 1..] == files[j..];
        }
      }
    }
  }

  /** Nothing is deleted when the `.mp3` files already fit under the limit. */
  lemma NothingPrunedUnderLimit(entries: seq<FileEntry>, maxMb: int, statFails: set<string>)
    requires !StatFails(entries, statFails) && GetCacheStats(entries, statFails).totalSizeBytes <= maxMb * BytesPerMb
    ensures Pruned(entries, maxMb) == []
  {
  }

  /** Every deleted file is an `.mp3` file no younger than any `.mp3` file kept. */
  lemma PrunedAreOldest(entries: seq<FileEntry>, maxMb: int, gone: FileEntry, kept: FileEntry)
    requires gone in Pruned(entries, maxMb)
    requires kept in ByAge(entries) && kept !in Pruned(entries, maxMb)
    ensures IsMp3(gone) && IsMp3(kept) && gone.mtime <= kept.mtime
  {
    var s := ByAge(entries);
    SortByMtimeSorted(Mp3Files(entries));
    PrefixIsOlder(s, PruneCount(s, maxMb * BytesPerMb), gone, kept);
    ByAgeAreMp3(entries, gone);
    ByAgeAreMp3(entries, kept);
  }

  /** In a list sorted oldest first, an entry of a prefix is no younger than one found only after it. */
  lemma PrefixIsOlder(s: seq<FileEntry>, k: nat, gone: FileEntry, kept: FileEntry)
    requires SortedByMtime(s) && k <= |s|
    requires gone in s[..k] && kept in s && kept !in s[..k]
    ensures gone.mtime <= kept.mtime
  {
    var i :| 0 <= i < k && s[i] == gone;
    var j :| 0 <= j < |s| && s[j] == kept;
    if j < k {
      assert s[..k][j] == kept;
    }
  }

  /** The oldest-first list holds only `.mp3` files of the cache. */
  lemma ByAgeAreMp3(entries: seq<FileEntry>, f: FileEntry)
    requires f in ByAge(entries)
    ensures f in entries && IsMp3(f)
  {
    Mp3FilesMembers(entries);
    assert f in multiset(ByAge(entries));
    assert f in Mp3Files(entries);
  }


  /**
   * Deleting the names of a prefix of a reordering `s` of the `.mp3` files
   * leaves, of each file, as many copies as the rest of `s` holds.
   */
  lemma RestCount(entries: seq<FileEntry>, s: seq<FileEntry>, k: nat, f: FileEntry)
    requires DistinctNames(entries) && multiset(s) == multiset(Mp3Files(entries)) && k <= |s|
    ensures multiset(Mp3Files(Without(entries, Names(s[..k]))))[f] == multiset(s[k..])[f]
  {
    var gone, kept := s[..k], s[k..];
    assert s == gone + kept;
    assert multiset(s)[f] == multiset(gone)[f] + multiset(kept)[f];
    Mp3FilesCount(Without(entries, Names(gone)), f);
    WithoutCount(entries, Names(gone), f);
    Mp3FilesCount(entries, f);
    if f.name in Names(gone) {
      var j :| 0 <= j < |gone| && gone[j].name == f.name;
      var p := gone[j];
      assert p in multiset(Mp3Files(entries)) by {
        assert p in multiset(s);
      }
      if multiset(Mp3Files(entries))[f] > 0 {
        Mp3FilesMembers(entries);
        assert f in Mp3Files(entries) && p in Mp3Files(entries);
        DistinctOnce(entries, f, p);
        assert multiset(gone)[f] > 0;
      }
    } else {
      forall j | 0 <= j < |gone| ensures gone[j] != f {
        assert gone[j].name in Names(gone);
      }
    }
  }

  /** The `.mp3` files left after deleting the pruned prefix are the rest of the oldest-first list, counted with multiplicity. */
  lemma PrunedLeavesRest(entries: seq<FileEntry>, maxMb: int)
    requires DistinctNames(entries)
    ensures var s := ByAge(entries);
      multiset(Mp3Files(Without(entries, Names(Pruned(entries, maxMb))))) == multiset(s[PruneCount(s, maxMb * BytesPerMb)..])
  {
    var s := ByAge(entries);
    var k := PruneCount(s, maxMb * BytesPerMb);
    forall f ensures multiset(Mp3Files(Without(entries, Names(s[..k]))))[f] == multiset(s[k..])[f] {
      RestCount(entries, s, k, f);
    }
  }

  /** After pruning, the `.mp3` files left total at most the limit, or none is left. */
  lemma PrunedCacheFits(entries: seq<FileEntry>, maxMb: int)
    requires DistinctNames(entries)
    ensures var after := Without(entries, Names(Pruned(entries, maxMb)));
      TotalSize(Mp3Files(after)) <= maxMb * BytesPerMb || Mp3Files(after) == []
  {
    var s := ByAge(entries);
    var k := PruneCount(s, maxMb * BytesPerMb);
    var after := Without(entries, Names(Pruned(entries, maxMb)));
    PrunedLeavesRest(entries, maxMb);
    PruneCountEnough(s, maxMb * BytesPerMb);
    TotalSizePerm(Mp3Files(after), s[k..]);
    if k == |s| {
      assert |multiset(Mp3Files(after))| == 0;
    }
  }

  /** Deleting the pruned files never touches a file that is not `.mp3`. */
  lemma PruneSparesOthers(entries: seq<FileEntry>, maxMb: int, f: FileEntry)
    requires f in entries && !IsMp3(f)
    ensures f in Without(entries, Names(Pruned(entries, maxMb)))
  {
    var p := Pruned(entries, maxMb);
    Mp3FilesMembers(entries);
    forall i | 0 <= i < |p| ensures p[i].name != f.name {
      assert p[i] in ByAge(entries);
      assert p[i] in multiset(ByAge(entries));
      assert p[i] in Mp3Files(entries);
    }
  }

  /** The index of the first entry whose name is in `names`, or `|p|` when there is none. */
  function FirstFault(p: seq<FileEntry>, names: set<string>): (j: nat)
    ensures j <= |p|
    ensures forall i :: 0 <= i < j ==> p[i].name !in names
    ensures j < |p| ==> p[j].name in names
  {
    if p == [] || p[0].name in names then 0
    else 1 + FirstFault(p[1..], names)
  }

  /**
   * The files `prune_cache(max_size_mb)` actually deletes under `faults`: none
   * when a `stat()` raises (the statistics read zero and the sort raises), else
   * the pruned prefix up to the first file whose `unlink()` raises.
   */
  function PruneDeleted(entries: seq<FileEntry>, maxMb: int, faults: IoFaults): (d: seq<FileEntry>)
    ensures d <= Pruned(entries, maxMb)
    ensures StatFails(entries, faults.stat) ==> d == []
  {
    if StatFails(entries, faults.stat) then []
    else
      var p := Pruned(entries, maxMb);
      p[..FirstFault(p, faults.unlink)]
  }

  /**
   * Whether `prune_cache(max_size_mb)` returns `True` under `faults`: with a
   * `stat()` error only when the zeroed statistics already fit, else when no
   * file it deletes raises in `unlink()`.
   */
  predicate PruneSucceeds(entries: seq<FileEntry>, maxMb: int, faults: IoFaults) {
    if StatFails(entries, faults.stat) then 0 <= maxMb
    else
      var p := Pruned(entries, maxMb);
      FirstFault(p, faults.unlink) == |p|
  }

  /** Without I/O faults, pruning deletes the whole pruned prefix and reports success. */
  lemma PruneWithoutFaults(entries: seq<FileEntry>, maxMb: int)
    ensures PruneDeleted(entries, maxMb, NoFaults) == Pruned(entries, maxMb)
    ensures PruneSucceeds(entries, maxMb, NoFaults)
  {
    assert !StatFails(entries, {});
    var p := Pruned(entries, maxMb);
    assert FirstFault(p, {}) == |p|;
  }

  /**
   * Pruning reports failure exactly when the sort raises on a `stat()` error
   * with a negative limit, or a file it has to delete raises in `unlink()`.
   */
  lemma PruneFailsIff(entries: seq<FileEntry>, maxMb: int, faults: IoFaults)
    ensures !PruneSucceeds(entries, maxMb, faults) <==>
      || (StatFails(entries, faults.stat) && maxMb < 0)
      || (!StatFails(entries, faults.stat) && exists f :: f in Pruned(entries, maxMb) && f.name in faults.unlink)
  {
    var p := Pruned(entries, maxMb);
    var j := FirstFault(p, faults.unlink);
    if j < |p| {
      assert p[j] in p;
    }
  }

  /**
   * `prune_cache(max_size_mb)`: when the `.mp3` files exceed the limit, deletes
   * them oldest first until the rest fit or none is left; any `stat()` or
   * `unlink()` error ends it with `False`, the files deleted so far staying deleted.
   */
  method PruneCache(dir: Directory, maxMb: int, faults: IoFaults) returns (ok: bool)
    requires dir.Valid()
    modifies dir
    ensures dir.Valid()
    ensures ok == PruneSucceeds(old(dir.entries), maxMb, faults)
    ensures dir.entries == Without(old(dir.entries), Names(PruneDeleted(old(dir.entries), maxMb, faults)))
    ensures ok && !StatFails(old(dir.entries), faults.stat) ==>
      TotalSize(Mp3Files(dir.entries)) <= maxMb * BytesPerMb || Mp3Files(dir.entries) == []
  {
    var maxBytes := maxMb * BytesPerMb;
    var stats := GetCacheStats(dir.entries, faults.stat);
    WithoutNothing(dir.entries);
    assert Names([]) == {};
    if stats.totalSizeBytes <= maxBytes {
      assert StatFails(dir.entries, faults.stat) || Pruned(dir.entries, maxMb) == [];
      return true;
    }
    if StatFails(dir.entries, faults.stat) {
      return false;
    }
    var files := SortByMtime(Mp3Files(dir.entries));
    var total: int := stats.totalSizeBytes;
    ghost var sorted := files;
    ghost var k := 0;
    while total > maxBytes && files != []
      invariant 0 <= k <= |sorted| && files == sorted[k..]
      invariant total == TotalSize(files)
      invariant PruneCount(sorted, maxBytes) == k + PruneCount(files, maxBytes)
      invariant forall m :: 0 <= m < k ==> sorted[m].name !in faults.unlink
      invariant dir.Valid() && dir.entries == Without(old(dir.entries), Names(sorted[..k]))
      decreases |files|
    {
      var f := files[0];
      PruneStep(sorted, k, maxBytes);
      if f.name in faults.unlink {
        StopsAtFault(sorted, PruneCount(sorted, maxBytes), k, faults.unlink);
        return false;
      }
      dir.Unlink(f.name);
      WithoutStep(old(dir.entries), sorted[..k], f);
      files := files[1..];
      total := total - Size(f);
      k := k + 1;
    }
    StopsAtFault(sorted, k, k, faults.unlink);
    PrunedCacheFits(old(dir.entries), maxMb);
    return true;
  }

  /** A prefix of `s` whose names before `k` are free of `names`, and whose entry at `k` (if any) is not, has its first fault at `k`. */
  lemma StopsAtFault(s: seq<FileEntry>, n: nat, k: nat, names: set<string>)
    requires k <= n <= |s|
    requires forall m :: 0 <= m < k ==> s[m].name !in names
    requires k < n ==> s[k].name in names
    ensures FirstFault(s[..n], names) == k && s[..n][..k] == s[..k]
  {
    var p := s[..n];
    forall i | 0 <= i < n ensures p[i] == s[i] {
    }
  }

  /** One turn of the pruning loop: the oldest remaining file goes and its size leaves the total. */
  lemma PruneStep(sorted: seq<FileEntry>, k: nat, maxBytes: int)
    requires k < |sorted| && TotalSize(sorted[k..]) > maxBytes
    ensures PruneCount(sorted[k..], maxBytes) == 1 + PruneCount(sorted[k + 1..], maxBytes)
    ensures TotalSize(sorted[k..]) == Size(sorted[k]) + TotalSize(sorted[k + 1..])
    ensures sorted[..k + 1] == sorted[..k] + [sorted[k]] && sorted[k..][1..] == sorted[k + 1..]
  {
    assert sorted[k..][1..] == sorted[k + 1..];
  }

  /** The `.mp3` files `clear_cache()` deletes: those listed before the first whose `unlink()` raises. */
  function ClearDeleted(entries: seq<FileEntry>, unlinkFails: set<string>): (d: seq<FileEntry>)
    ensures d <= Mp3Files(entries)
  {
    var files := Mp3Files(entries);
    files[..FirstFault(files, unlinkFails)]
  }

  /** Clearing deletes every `.mp3` file exactly when none of them raises in `unlink()`. */
  lemma ClearDeletesAllIff(entries: seq<FileEntry>, unlinkFails: set<string>)
    ensures ClearDeleted(entries, unlinkFails) == Mp3Files(entries) <==>
      forall f :: f in Mp3Files(entries) ==> f.name !in unlinkFails
  {
    var files := Mp3Files(entries);
    var j := FirstFault(files, unlinkFails);
    if j < |files| {
      assert files[j] in files;
      assert |files[..j]| < |files|;
    } else {
      assert files[..j] == files;
    }
  }

  /**
   * `clear_cache()`: deletes every `.mp3` file listed by the glob; an `unlink()`
   * error ends it with `False`, the files deleted so far staying deleted.
   */
  method ClearCache(dir: Directory, faults: IoFaults) returns (ok: bool)
    requires dir.Valid()
    modifies dir
    ensures dir.Valid()
    ensures ok == (ClearDeleted(old(dir.entries), faults.unlink) == Mp3Files(old(dir.entries)))
    ensures dir.entries == Without(old(dir.entries), Names(ClearDeleted(old(dir.entries), faults.unlink)))
    ensures ok ==> forall f :: f in dir.entries <==> f in old(dir.entries) && !IsMp3(f)
  {
    var files := Mp3Files(dir.entries);
    var i := 0;
    WithoutNothing(dir.entries);
    assert Names(files[..0]) == {};
    while i < |files| && files[i].name !in faults.unlink
      invariant 0 <= i <= FirstFault(files, faults.unlink)
      invariant dir.Valid() && dir.entries == Without(old(dir.entries), Names(files[..i]))
    {
      dir.Unlink(files[i].name);
      DeleteNext(old(dir.entries), files, i);
      i := i + 1;
    }
    assert i == FirstFault(files, faults.unlink);
    if i < |files| {
      assert |ClearDeleted(old(dir.entries), faults.unlink)| < |files|;
      return false;
    }
    assert files[..i] == files;
    WithoutAllMp3(old(dir.entries));
    return true;
  }

  /** Deleting the next listed file extends the deleted prefix by one. */
  lemma DeleteNext(entries: seq<FileEntry>, files: seq<FileEntry>, i: nat)
    requires i < |files|
    ensures Without(Without(entries, Names(files[..i])), {files[i].name}) == Without(entries, Names(files[..i + 1]))
  {
    WithoutStep(entries, files[..i], files[i]);
    assert files[..i + 1] == files[..i] + [files[i]];
  }

  /** Deleting the names of all `.mp3` files leaves exactly the other files. */
  lemma WithoutAllMp3(entries: seq<FileEntry>)
    ensures forall f :: f in Without(entries, Names(Mp3Files(entries))) <==> f in entries && !IsMp3(f)
  {
    var files := Mp3Files(entries);
    Mp3FilesMembers(entries);
    forall f | f in entries && IsMp3(f) ensures f.name in Names(files) {
      var j :| 0 <= j < |files| && files[j] == f by {
        assert f in files;
      }
    }
    forall f | f in entries && !IsMp3(f) ensures f.name !in Names(files) {
      forall j | 0 <= j < |files| ensures files[j].name != f.name {
        assert files[j] in files;
      }
    }
  }

  /** After clearing, the statistics report an empty cache. */
  lemma {:induction false} NoMp3LeftAfterClear(before: seq<FileEntry>, after: seq<FileEntry>, statFails: set<string>)
    requires forall f :: f in after <==> f in before && !IsMp3(f)
    ensures GetCacheStats(after, statFails) == CacheStats(0, 0)
  {
    if Mp3Files(after) != [] {
      Mp3FilesMembers(after);
      assert Mp3Files(after)[0] in Mp3Files(after);
      assert false;
    }
  }
}
