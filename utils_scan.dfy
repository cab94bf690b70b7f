/** The two-level file classification of app/utils.py (`_scan_single_dir`,
    `scan_files_two_level`): regular files of an item folder and of its
    immediate subfolders go into four buckets by lower-cased extension. */
module FolderScan {
  import opened Text

  /** A directory as `os.scandir` shows it: unreadable, or its entries in
      listing order. `Dir` is whatever `is_dir()` accepts, `File` whatever
      `is_file()` accepts; `Other` is neither. */
  datatype Listing = Unreadable | Readable(entries: seq<Entry>)
  datatype Entry = File(name: string) | Dir(name: string, listing: Listing) | Other(name: string)

  datatype Bucket = Archives | Documents | Sources | Images

  const ArchiveExts: set<string> := {".zip", ".unitypackage"}
  const DocumentExts: set<string> := {".pdf", ".txt", ".md"}
  const SourceExts: set<string> := {".psd"}
  const ImageExts: set<string> := {".png", ".jpg", ".jpeg", ".webp"}

  /** Index of the last '.' of `s`. */
  function LastDot(s: string): (r: Option<nat>)
    ensures r.None? <==> forall i :: 0 <= i < |s| ==> s[i] != '.'
    ensures r.Some? ==> r.value < |s| && s[r.value] == '.' && forall i :: r.value < i < |s| ==> s[i] != '.'
  {
    if s == [] then None
    else if s[|s| - 1] == '.' then Some(|s| - 1)
    else LastDot(s[..|s| - 1])
  }

  /** `os.path.splitext(name)[1]` for a bare file name: from the last dot on,
      unless only dots precede it (".bashrc" and "..x" have no extension). */
  function Ext(name: string): (r: string)
    ensures r == [] || (r[0] == '.' && EndsWith(name, r) && forall i :: 1 <= i < |r| ==> r[i] != '.')
  {
    match LastDot(name)
    case None => ""
    case Some(d) =>
      if exists i :: 0 <= i < d && name[i] != '.' then
        assert name[d..][0] == '.';
        name[d..]
      else ""
  }

  /** The bucket a file name belongs to, by its lower-cased extension. */
  function Classify(name: string): Option<Bucket> {
    var e := Lower(Ext(name));
    if e in ArchiveExts then Some(Archives)
    else if e in DocumentExts then Some(Documents)
    else if e in SourceExts then Some(Sources)
    else if e in ImageExts then Some(Images)
    else None
  }

  /** A name goes to a bucket exactly when its lower-cased extension is in
      that bucket's set; the four sets share no extension. */
  lemma ClassifyByExt(name: string)
    ensures Classify(name) == Some(Archives) <==> Lower(Ext(name)) in ArchiveExts
    ensures Classify(name) == Some(Documents) <==> Lower(Ext(name)) in DocumentExts
    ensures Classify(name) == Some(Sources) <==> Lower(Ext(name)) in SourceExts
    ensures Classify(name) == Some(Images) <==> Lower(Ext(name)) in ImageExts
  {
  }

  /** The names `_scan_single_dir` appends to bucket `b`, in listing order. */
  function InBucket(entries: seq<Entry>, b: Bucket): (r: seq<string>)
    ensures |r| <= |entries|
  {
    if entries == [] then []
    else
      var e := entries[|entries| - 1];
      InBucket(entries[..|entries| - 1], b) + (if e.File? && Classify(e.name) == Some(b) then [e.name] else [])
  }

  function DirBucket(l: Listing, b: Bucket): seq<string> {
    if l.Readable? then InBucket(l.entries, b) else []
  }

  /** What the children loop of `scan_files_two_level` adds: each
      subdirectory's own files, in listing order. */
  function ChildrenBucket(entries: seq<Entry>, b: Bucket): seq<string> {
    if entries == [] then []
    else
      var e := entries[|entries| - 1];
      ChildrenBucket(entries[..|entries| - 1], b) + (if e.Dir? then DirBucket(e.listing, b) else [])
  }

  /** Bucket `b` of `scan_files_two_level(folder)`. */
  function TwoLevel(folder: Listing, b: Bucket): seq<string> {
    DirBucket(folder, b) + (if folder.Readable? then ChildrenBucket(folder.entries, b) else [])
  }

  /** Every name a listing adds to a bucket belongs to that bucket. */
  lemma {:induction false} InBucketClassified(entries: seq<Entry>, b: Bucket)
    ensures forall i :: 0 <= i < |InBucket(entries, b)| ==> Classify(InBucket(entries, b)[i]) == Some(b)
  {
    if entries != [] {
      InBucketClassified(entries[..|entries| - 1], b);
    }
  }

  /** So does every name the subdirectories add. */
  lemma {:induction false} ChildrenClassified(entries: seq<Entry>, b: Bucket)
    ensures forall i :: 0 <= i < |ChildrenBucket(entries, b)| ==> Classify(ChildrenBucket(entries, b)[i]) == Some(b)
  {
    if entries != [] {
      ChildrenClassified(entries[..|entries| - 1], b);
      var e := entries[|entries| - 1];
      if e.Dir? && e.listing.Readable? {
        InBucketClassified(e.listing.entries, b);
      }
    }
  }

  /** Every name in a bucket of the two-level scan belongs to that bucket. */
  lemma TwoLevelClassified(folder: Listing, b: Bucket)
    ensures forall i :: 0 <= i < |TwoLevel(folder, b)| ==> Classify(TwoLevel(folder, b)[i]) == Some(b)
  {
    if folder.Readable? {
      InBucketClassified(folder.entries, b);
      ChildrenClassified(folder.entries, b);
    }
  }

  /** A name is in a bucket only if its lower-cased extension is one of
      that bucket's. */
  lemma BucketMembership(folder: Listing, b: Bucket, name: string)
    ensures name in TwoLevel(folder, b) ==> Classify(name) == Some(b)
  {
    if name in TwoLevel(folder, b) {
      TwoLevelClassified(folder, b);
      var i :| 0 <= i < |TwoLevel(folder, b)| && TwoLevel(folder, b)[i] == name;
    }
  }

  /** So the buckets are disjoint. */
  lemma BucketsDisjoint(folder: Listing, b1: Bucket, b2: Bucket, name: string)
    requires b1 != b2
    ensures !(name in TwoLevel(folder, b1) && name in TwoLevel(folder, b2))
  {
    BucketMembership(folder, b1, name);
    BucketMembership(folder, b2, name);
  }

  /** And a file whose extension is in no set is dropped. */
  lemma UnknownDropped(folder: Listing, b: Bucket, name: string)
    requires Classify(name).None?
    ensures name !in TwoLevel(folder, b)
  {
    BucketMembership(folder, b, name);
  }

  /** Every regular file directly in the listing lands in its bucket. */
  lemma {:induction false} DirectFileFound(entries: seq<Entry>, i: nat)
    requires i < |entries| && entries[i].File? && Classify(entries[i].name).Some?
    ensures entries[i].name in InBucket(entries, Classify(entries[i].name).value)
    decreases |entries|
  {
    if i < |entries| - 1 {
      DirectFileFound(entries[..|entries| - 1], i);
    }
  }

  /** Only one level down: forgetting what the subdirectories contain in
      their own subdirectories changes nothing. */
  function Forget(e: Entry): Entry {
    if e.Dir? then Dir(e.name, Unreadable) else e
  }

  function ForgetAll(es: seq<Entry>): (r: seq<Entry>)
    ensures |r| == |es|
  {
    if es == [] then [] else ForgetAll(es[..|es| - 1]) + [Forget(es[|es| - 1])]
  }

  function Shallow(e: Entry): Entry {
    match e
    case Dir(n, Readable(es)) => Dir(n, Readable(ForgetAll(es)))
    case _ => e
  }

  function ShallowAll(es: seq<Entry>): (r: seq<Entry>)
    ensures |r| == |es|
  {
    if es == [] then [] else ShallowAll(es[..|es| - 1]) + [Shallow(es[|es| - 1])]
  }

  lemma {:induction false} InBucketShallow(es: seq<Entry>, b: Bucket)
    ensures InBucket(es, b) == InBucket(ForgetAll(es), b)
    decreases |es|
  {
    if es != [] {
      var es' := es[..|es| - 1];
      var f := ForgetAll(es);
      assert f[..|f| - 1] == ForgetAll(es');
      InBucketShallow(es', b);
    }
  }

  lemma {:induction false} ChildrenShallow(es: seq<Entry>, b: Bucket)
    ensures ChildrenBucket(es, b) == ChildrenBucket(ShallowAll(es), b)
    decreases |es|
  {
    if es != [] {
      var es' := es[..|es| - 1];
      var f := ShallowAll(es);
      assert f[..|f| - 1] == ShallowAll(es');
      ChildrenShallow(es', b);
      var e := es[|es| - 1];
      if e.Dir? && e.listing.Readable? {
        InBucketShallow(e.listing.entries, b);
      }
    }
  }

  /** Forgetting twice is forgetting once. */
  lemma {:induction false} ForgetShallow(es: seq<Entry>)
    ensures ForgetAll(ShallowAll(es)) == ForgetAll(es)
    decreases |es|
  {
    if es != [] {
      var es' := es[..|es| - 1];
      var f := ShallowAll(es);
      assert f[..|f| - 1] == ShallowAll(es');
      ForgetShallow(es');
    }
  }

  lemma TwoLevelOnly(entries: seq<Entry>, b: Bucket)
    ensures TwoLevel(Readable(entries), b) == TwoLevel(Readable(ShallowAll(entries)), b)
  {
    ChildrenShallow(entries, b);
    InBucketShallow(entries, b);
    InBucketShallow(ShallowAll(entries), b);
    ForgetShallow(entries);
  }

  /** The four lists of `scan_files_two_level`'s `files`, and its `stats`. */
  datatype FileLists = FileLists(archives: seq<string>, documents: seq<string>, sources: seq<string>, images: seq<string>)
  datatype FileStats = FileStats(archiveCount: nat, documentCount: nat, sourceCount: nat, imageCount: nat)

  function BucketOf(f: FileLists, b: Bucket): seq<string> {
    match b
    case Archives => f.archives
    case Documents => f.documents
    case Sources => f.sources
    case Images => f.images
  }

  /** `name` appended to bucket `c`, if any. */
  function Put(f: FileLists, c: Option<Bucket>, name: string): (r: FileLists)
    ensures forall b :: BucketOf(r, b) == BucketOf(f, b) + (if c == Some(b) then [name] else [])
  {
    match c
    case Some(Archives) => f.(archives := f.archives + [name])
    case Some(Documents) => f.(documents := f.documents + [name])
    case Some(Sources) => f.(sources := f.sources + [name])
    case Some(Images) => f.(images := f.images + [name])
    case None => f
  }

  /** One name appended to the bucket it belongs to, if any. */
  function AddName(f: FileLists, name: string): (r: FileLists)
    ensures forall b :: BucketOf(r, b) == BucketOf(f, b) + (if Classify(name) == Some(b) then [name] else [])
  {
    Put(f, Classify(name), name)
  }

  /** The files of `es` appended in listing order. */
  function AddFiles(f: FileLists, es: seq<Entry>): FileLists {
    if es == [] then f
    else
      var g := AddFiles(f, es[..|es| - 1]);
      if es[|es| - 1].File? then AddName(g, es[|es| - 1].name) else g
  }

  lemma {:induction false} AddFilesBuckets(f: FileLists, es: seq<Entry>)
    ensures forall b :: BucketOf(AddFiles(f, es), b) == BucketOf(f, b) + InBucket(es, b)
    decreases |es|
  {
    if es != [] {
      AddFilesBuckets(f, es[..|es| - 1]);
    }
  }

  /** The `result` dict the scan appends to. */
  class FileBuckets {
    var archives: seq<string>
    var documents: seq<string>
    var sources: seq<string>
    var images: seq<string>

    function Lists(): FileLists
      reads this
    {
      FileLists(archives, documents, sources, images)
    }

    constructor()
      ensures Lists() == FileLists([], [], [], [])
    {
      archives, documents, sources, images := [], [], [], [];
    }

    /** Append one name to its bucket, as the `if`/`elif` chain does. */
    method Add(name: string)
      modifies this
      ensures Lists() == AddName(old(Lists()), name)
    {
      match Classify(name) {
        case Some(Archives) => archives := archives + [name];
        case Some(Documents) => documents := documents + [name];
        case Some(Sources) => sources := sources + [name];
        case Some(Images) => images := images + [name];
        case None =>
      }
    }

    /** `_scan_single_dir`: an unreadable directory adds nothing. */
    method ScanSingleDir(dir: Listing)
      modifies this
      ensures forall b :: BucketOf(Lists(), b) == BucketOf(old(Lists()), b) + DirBucket(dir, b)
    {
      if dir.Unreadable? {
        return;
      }
      var es := dir.entries;
      var i := 0;
      while i < |es|
        invariant 0 <= i <= |es|
        invariant Lists() == AddFiles(old(Lists()), es[..i])
      {
        assert es[..i + 1][..i] == es[..i];
        if es[i].File? {
          Add(es[i].name);
        }
        i := i + 1;
      }
      assert es[..i] == es;
      AddFilesBuckets(old(Lists()), es);
    }
  }

  /** One more entry of the folder adds what that subdirectory holds. */
  lemma ChildrenStep(es: seq<Entry>, i: nat, b: Bucket)
    requires i < |es|
    ensures ChildrenBucket(es[..i + 1], b)
            == ChildrenBucket(es[..i], b) + (if es[i].Dir? then DirBucket(es[i].listing, b) else [])
  {
    assert es[..i + 1][..i] == es[..i];
  }

  lemma AppendAssoc(x: seq<string>, y: seq<string>, z: seq<string>)
    ensures (x + y) + z == x + (y + z)
  {
  }

  /** `scan_files_two_level`. */
  method ScanFilesTwoLevel(folder: Listing) returns (files: FileLists, stats: FileStats)
    ensures forall b :: BucketOf(files, b) == TwoLevel(folder, b)
    ensures stats == FileStats(|files.archives|, |files.documents|, |files.sources|, |files.images|)
  {
    var acc := new FileBuckets();
    acc.ScanSingleDir(folder);
    if folder.Readable? {
      var es := folder.entries;
      var i := 0;
      while i < |es|
        invariant 0 <= i <= |es|
        invariant forall b :: BucketOf(acc.Lists(), b) == DirBucket(folder, b) + ChildrenBucket(es[..i], b)
      {
        ghost var before := acc.Lists();
        if es[i].Dir? {
          acc.ScanSingleDir(es[i].listing);
        }
        forall b ensures BucketOf(acc.Lists(), b) == DirBucket(folder, b) + ChildrenBucket(es[..i + 1], b) {
          ChildrenStep(es, i, b);
          var add := if es[i].Dir? then DirBucket(es[i].listing, b) else [];
          assert BucketOf(acc.Lists(), b) == BucketOf(before, b) + add;
          AppendAssoc(DirBucket(folder, b), ChildrenBucket(es[..i], b), add);
        }
        i := i + 1;
      }
      assert es[..i] == es;
    }
    files := acc.Lists();
    stats := FileStats(|files.archives|, |files.documents|, |files.sources|, |files.images|);
  }
}
