/**
 * The audio cache directory: a listing of files with their bytes and
 * modification times, in the order the file system lists them.
 */
module Files {
  import opened Wrappers
  import Text

  datatype FileEntry = FileEntry(name: string, content: seq<bv8>, mtime: int)

  /** The size of a file in bytes. */
  function Size(f: FileEntry): nat {
    |f.content|
  }

  /** The sum of the sizes of `fs`. */
  function TotalSize(fs: seq<FileEntry>): nat {
    if fs == [] then 0 else Size(fs[0]) + TotalSize(fs[1..])
  }

  lemma {:induction false} TotalSizeAppend(a: seq<FileEntry>, b: seq<FileEntry>)
    ensures TotalSize(a + b) == TotalSize(a) + TotalSize(b)
  {
    if a == [] {
      assert a + b == b;
    } else {
      assert (a + b)[1..] == a[1..] + b;
      TotalSizeAppend(a[1..], b);
    }
  }

  function Names(fs: seq<FileEntry>): set<string> {
    set i | 0 <= i < |fs| :: fs[i].name
  }

  lemma NamesSnoc(fs: seq<FileEntry>, f: FileEntry)
    ensures Names(fs + [f]) == Names(fs) + {f.name}
  {
    assert forall i :: 0 <= i < |fs| ==> (fs + [f])[i] == fs[i];
    assert (fs + [f])[|fs|] == f;
  }

  predicate DistinctNames(fs: seq<FileEntry>) {
    forall i, j :: 0 <= i < j < |fs| ==> fs[i].name != fs[j].name
  }

  /** The file called `name`, if the listing has one. */
  function Find(fs: seq<FileEntry>, name: string): (r: Option<FileEntry>)
    ensures r.Some? <==> name in Names(fs)
    ensures r.Some? ==> r.value in fs && r.value.name == name
  {
    if fs == [] then None
    else if fs[0].name == name then Some(fs[0])
    else
      assert Names(fs) == {fs[0].name} + Names(fs[1..]);
      Find(fs[1..], name)
  }

  /** The listing after deleting every file whose name is in `names`. */
  function Without(fs: seq<FileEntry>, names: set<string>): (r: seq<FileEntry>)
    ensures forall f :: f in r <==> f in fs && f.name !in names
  {
    if fs == [] then []
    else (if fs[0].name in names then [] else [fs[0]]) + Without(fs[1..], names)
  }

  lemma {:induction false} WithoutNothing(fs: seq<FileEntry>)
    ensures Without(fs, {}) == fs
  {
    if fs != [] {
      WithoutNothing(fs[1..]);
      assert fs == [fs[0]] + fs[1..];
    }
  }

  lemma {:induction false} WithoutTwice(fs: seq<FileEntry>, a: set<string>, b: set<string>)
    ensures Without(Without(fs, a), b) == Without(fs, a + b)
  {
    if fs != [] {
      WithoutTwice(fs[1..], a, b);
      var head := if fs[0].name in a then [] else [fs[0]];
      var rest := Without(fs[1..], a);
      assert Without(fs, a) == head + rest;
      if head == [] {
        assert Without(fs, a) == rest;
      } else {
        assert (head + rest)[0] == fs[0] && (head + rest)[1..] == rest;
      }
    }
  }

  /** Deleting one more file extends the set of names deleted so far. */
  lemma WithoutStep(fs: seq<FileEntry>, gone: seq<FileEntry>, f: FileEntry)
    ensures Without(Without(fs, Names(gone)), {f.name}) == Without(fs, Names(gone + [f]))
  {
    WithoutTwice(fs, Names(gone), {f.name});
    NamesSnoc(gone, f);
  }

  /** A directory that only gained files still holds every name it held. */
  lemma NamesGrow(fs: seq<FileEntry>, more: seq<FileEntry>)
    requires fs <= more
    ensures Names(fs) <= Names(more)
  {
    forall n | n in Names(fs) ensures n in Names(more) {
      var i :| 0 <= i < |fs| && fs[i].name == n;
      assert more[i] == fs[i];
    }
  }

  /** Deleting files keeps the names distinct. */
  lemma {:induction false} WithoutDistinct(fs: seq<FileEntry>, names: set<string>)
    requires DistinctNames(fs)
    ensures DistinctNames(Without(fs, names))
  {
    if fs != [] {
      WithoutDistinct(fs[1..], names);
      var rest := Without(fs[1..], names);
      if fs[0].name !in names {
        forall f | f in rest ensures f.name != fs[0].name {
          var k :| 0 <= k < |fs[1..]| && fs[1..][k] == f;
          assert fs[k + 1] == f;
        }
      }
    }
  }

  predicate IsMp3(f: FileEntry) {
    Text.EndsWith(f.name, ".mp3")
  }

  /** `Path(cache_dir).glob('*.mp3')`: the `.mp3` files, in listing order. */
  function Mp3Files(fs: seq<FileEntry>): seq<FileEntry>
  {
    if fs == [] then []
    else (if IsMp3(fs[0]) then [fs[0]] else []) + Mp3Files(fs[1..])
  }

  /** The glob lists exactly the `.mp3` files of the directory. */
  lemma {:induction false} Mp3FilesMembers(fs: seq<FileEntry>)
    ensures forall f :: f in Mp3Files(fs) <==> f in fs && IsMp3(f)
  {
    if fs != [] {
      Mp3FilesMembers(fs[1..]);
      assert fs == [fs[0]] + fs[1..];
    }
  }

  /** Taking out the file at `i` takes its size from the total. */
  lemma RemoveAtSize(b: seq<FileEntry>, i: nat)
    requires i < |b|
    ensures TotalSize(b) == Size(b[i]) + TotalSize(b[..i] + b[i + 1..])
  {
    var front, back := b[..i], b[i + 1..];
    assert b == front + ([b[i]] + back);
    TotalSizeAppend(front, [b[i]] + back);
    TotalSizeAppend(front, back);
    assert ([b[i]] + back)[1..] == back;
  }

  /** Taking out the file at `i` takes one copy of it from the multiset. */
  lemma RemoveAtCount(b: seq<FileEntry>, i: nat)
    requires i < |b|
    ensures multiset(b[..i] + b[i + 1..]) == multiset(b) - multiset{b[i]}
  {
    assert b == b[..i] + [b[i]] + b[i + 1..];
  }

  /** Reordering a listing keeps its total size. */
  lemma {:induction false} TotalSizePerm(a: seq<FileEntry>, b: seq<FileEntry>)
    requires multiset(a) == multiset(b)
    ensures TotalSize(a) == TotalSize(b)
    decreases |a|
  {
    if a != [] {
      assert a[0] in multiset(b);
      var i :| 0 <= i < |b| && b[i] == a[0];
      RemoveAtSize(b, i);
      RemoveAtCount(b, i);
      assert a == [a[0]] + a[1..];
      assert multiset(a[1..]) == multiset(a) - multiset{a[0]};
      TotalSizePerm(a[1..], b[..i] + b[i + 1..]);
    }
  }

  /** Deleting by name keeps every copy of a file whose name is not deleted, and no other. */
  lemma {:induction false} WithoutCount(fs: seq<FileEntry>, names: set<string>, f: FileEntry)
    ensures multiset(Without(fs, names))[f] == if f.name in names then 0 else multiset(fs)[f]
  {
    if fs != [] {
      WithoutCount(fs[1..], names, f);
      assert fs == [fs[0]] + fs[1..];
    }
  }

  /** The glob keeps every copy of an `.mp3` file, and no other. */
  lemma {:induction false} Mp3FilesCount(fs: seq<FileEntry>, f: FileEntry)
    ensures multiset(Mp3Files(fs))[f] == if IsMp3(f) then multiset(fs)[f] else 0
  {
    if fs != [] {
      Mp3FilesCount(fs[1..], f);
      assert fs == [fs[0]] + fs[1..];
    }
  }

  /** With distinct names, a file is listed at most once, and a name tells its file. */
  lemma {:induction false} DistinctOnce(fs: seq<FileEntry>, f: FileEntry, g: FileEntry)
    requires DistinctNames(fs)
    ensures multiset(fs)[f] <= 1
    ensures f in fs && g in fs && f.name == g.name ==> f == g
  {
    if fs != [] {
      var rest := fs[1..];
      assert DistinctNames(rest) by {
        forall i, j | 0 <= i < j < |rest| ensures rest[i].name != rest[j].name {
          assert rest[i] == fs[i + 1] && rest[j] == fs[j + 1];
        }
      }
      DistinctOnce(rest, f, g);
      assert fs == [fs[0]] + rest;
      if fs[0] == f {
        forall i | 0 <= i < |rest| ensures rest[i] != f {
          assert rest[i] == fs[i + 1];
        }
      }
      if f in fs && g in fs && f.name == g.name {
        var i :| 0 <= i < |fs| && fs[i] == f;
        var j :| 0 <= j < |fs| && fs[j] == g;
        assert i == j;
      }
    }
  }

  /** The directory, updated in place by writes and deletions. */
  class Directory {
    var entries: seq<FileEntry>

    ghost predicate Valid()
      reads this
    {
      DistinctNames(entries)
    }

    constructor (entries: seq<FileEntry>)
      requires DistinctNames(entries)
      ensures Valid() && this.entries == entries
    {
      this.entries := entries;
    }

    /** `os.path.exists`. */
    function Exists(name: string): bool
      reads this
    {
      name in Names(entries)
    }

    /** `open(name, 'wb').write(content)` for a file that does not exist yet. */
    method Create(name: string, content: seq<bv8>, now: int)
      requires Valid() && !Exists(name)
      modifies this
      ensures Valid()
      ensures entries == old(entries) + [FileEntry(name, content, now)]
    {
      forall i | 0 <= i < |entries| ensures entries[i].name != name {
        assert entries[i].name in Names(entries);
      }
      entries := entries + [FileEntry(name, content, now)];
    }

    /** `open(name, 'wb').write(content)` whether or not the file exists: its old content, if any, is replaced. */
    method Write(name: string, content: seq<bv8>, now: int)
      requires Valid()
      modifies this
      ensures Valid()
      ensures entries == Without(old(entries), {name}) + [FileEntry(name, content, now)]
    {
      WithoutDistinct(entries, {name});
      var kept := Without(entries, {name});
      forall i | 0 <= i < |kept| ensures kept[i].name != name {
        assert kept[i] in kept;
      }
      entries := kept + [FileEntry(name, content, now)];
    }

    /** `Path.unlink()` of a listed file. */
    method Unlink(name: string)
      requires Valid()
      modifies this
      ensures Valid()
      ensures entries == Without(old(entries), {name})
    {
      WithoutDistinct(entries, {name});
      entries := Without(entries, {name});
    }
  }
}
