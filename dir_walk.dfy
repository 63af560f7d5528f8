/**
 * DirWalk: the recursive, sorted directory listing StempelWerk uses to
 * find its templates.
 *
 * The file system is a value: an `Entry` tree as `os.scandir` would report
 * it, where a symbolic link carries the entry it resolves to.  A path is a
 * sequence of components (pathlib's `parts`).
 */
module DirWalk {
  import opened PyText

  /** One directory entry. */
  datatype Entry =
    | File(name: string, mtimeNs: int)
    | Dir(name: string, children: seq<Entry>)
    | Link(name: string, target: Entry)   // symbolic link and what it resolves to
    | Other(name: string)                 // device, socket, fifo, dangling link target

  type Path = seq<string>

  /** A path found by `dirwalk_process`, with the entry it names. */
  datatype Found = Found(path: Path, entry: Entry)

  /** One element of the listing: a file path, or a directory path that
      the listing marks with a trailing separator. */
  datatype Item = FileItem(path: Path) | DirItem(path: Path)

  /** The `included` dictionary; a missing key reads as an empty list. */
  datatype Inclusions = Inclusions(
    excludedDirectoryNames: seq<string>,
    excludedFileNames: seq<string>,
    includedSuffixes: seq<string>)

  /** The arguments every level of the walk passes on unchanged, after
      `dirwalk_prepare`; a cutoff of 0 means "no cutoff". */
  datatype Options = Options(
    directoriesFirst: bool,
    includeDirectories: bool,
    followSymlinks: bool,
    included: Inclusions,
    modifiedAfter: int)

  /** A result, or the Python exception the call raises. */
  datatype Outcome<T> = Ok(value: T) | ValueError | TypeError | OSError

  /** `modified_after` as a caller may pass it. */
  datatype ModifiedAfter = NotGiven | Number(x: real) | Text(s: string)

  // ------------------------------------------------------------------
  // The tree
  // ------------------------------------------------------------------

  function Size(e: Entry): nat
  {
    match e
    case Dir(_, children) => 1 + SizeSum(children)
    case Link(_, target) => 1 + Size(target)
    case _ => 1
  }

  function SizeSum(es: seq<Entry>): nat
  {
    if es == [] then 0 else Size(es[0]) + SizeSum(es[1..])
  }

  lemma {:induction false} SizeSumBounds(es: seq<Entry>, x: Entry)
    requires x in es
    ensures Size(x) <= SizeSum(es)
  {
    if es[0] != x {
      SizeSumBounds(es[1..], x);
    }
  }

  /** What `os.scandir` lists for an entry: a directory's children, the
      children of the directory a link resolves to, and nothing else. */
  function Contents(e: Entry): seq<Entry>
  {
    match e
    case Dir(_, children) => children
    case Link(_, target) => Contents(target)
    case _ => []
  }

  /** Everything listed under an entry is a smaller tree. */
  lemma {:induction false} ContentsSmaller(e: Entry)
    ensures forall x :: x in Contents(e) ==> Size(x) < Size(e)
  {
    match e
    case Dir(_, children) =>
      forall x | x in children ensures Size(x) < Size(e) {
        SizeSumBounds(children, x);
      }
    case Link(_, target) =>
      ContentsSmaller(target);
    case _ =>
  }

  /** `DirEntry.is_dir(follow_symlinks=follow)`. */
  predicate IsDir(e: Entry, follow: bool)
  {
    match e
    case Dir(_, _) => true
    case Link(_, target) => follow && IsDir(target, true)
    case _ => false
  }

  /** `DirEntry.is_file(follow_symlinks=follow)`. */
  predicate IsFile(e: Entry, follow: bool)
  {
    match e
    case File(_, _) => true
    case Link(_, target) => follow && IsFile(target, true)
    case _ => false
  }

  /** `DirEntry.stat(follow_symlinks=True).st_mtime_ns`. */
  function ModificationTimeNs(e: Entry): int
  {
    match e
    case File(_, t) => t
    case Link(_, target) => ModificationTimeNs(target)
    case _ => 0
  }

  /** `math.ceil(ns / 1e9)`: whole seconds, rounded up. */
  function CeilSeconds(ns: int): (s: int)
    ensures (s - 1) * 1_000_000_000 < ns <= s * 1_000_000_000
  {
    -((-ns) / 1_000_000_000)
  }

  // ------------------------------------------------------------------
  // Inclusion tests
  // ------------------------------------------------------------------

  /** `fnmatch` with `*` (any run of characters) and `?` (one character);
      every other character matches itself. */
  predicate GlobMatch(pattern: string, name: string)
    decreases |pattern|, |name|
  {
    if pattern == [] then name == []
    else if pattern[0] == '*' then
      GlobMatch(pattern[1..], name) || (name != [] && GlobMatch(pattern, name[1..]))
    else
      name != [] && (pattern[0] == '?' || pattern[0] == name[0])
      && GlobMatch(pattern[1..], name[1..])
  }

  predicate NoWildcards(s: string)
  {
    forall i :: 0 <= i < |s| ==> s[i] != '*' && s[i] != '?'
  }

  predicate EndsWith(s: string, suffix: string)
  {
    |suffix| <= |s| && s[|s| - |suffix|..] == suffix
  }

  /** A pattern without wildcards matches exactly itself. */
  lemma {:induction false} LiteralMatch(literal: string, name: string)
    requires NoWildcards(literal)
    ensures GlobMatch(literal, name) <==> name == literal
  {
    if literal != [] && name != [] {
      LiteralMatch(literal[1..], name[1..]);
      if name[1..] == literal[1..] && name[0] == literal[0] {
        assert name == [name[0]] + name[1..];
        assert literal == [literal[0]] + literal[1..];
      }
    }
  }

  /** A suffix pattern such as `*.jinja` matches exactly the names that
      end with what follows the star. */
  lemma {:induction false} StarSuffixMatch(literal: string, name: string)
    requires NoWildcards(literal)
    ensures GlobMatch("*" + literal, name) <==> EndsWith(name, literal)
    decreases |name|
  {
    var pattern := "*" + literal;
    assert pattern[1..] == literal;
    LiteralMatch(literal, name);
    if name != [] {
      StarSuffixMatch(literal, name[1..]);
      if |name| > |literal| {
        assert name[1..][|name| - 1 - |literal|..] == name[|name| - |literal|..];
      }
    }
  }

  predicate AnyPatternMatches(patterns: seq<string>, name: string)
  {
    exists i :: 0 <= i < |patterns| && GlobMatch(patterns[i], name)
  }

  /** `is_directory_included`. */
  predicate IsDirectoryIncluded(e: Entry, o: Options)
  {
    IsDir(e, o.followSymlinks) && e.name !in o.included.excludedDirectoryNames
  }

  /** The name tests of `is_file_included`. */
  predicate FileNameIncluded(name: string, o: Options)
  {
    name !in o.included.excludedFileNames
    && AnyPatternMatches(o.included.includedSuffixes, name)
  }

  /** `is_file_included`: a file (or a followed link to one) whose name is
      not excluded, matches a suffix pattern, and, when there is a cutoff,
      was modified no earlier than the cutoff once rounded up to seconds. */
  predicate IsFileIncluded(e: Entry, o: Options)
  {
    IsFile(e, o.followSymlinks)
    && FileNameIncluded(e.name, o)
    && (o.modifiedAfter == 0 || CeilSeconds(ModificationTimeNs(e)) >= o.modifiedAfter)
  }

  /** With a cutoff, a file whose name passes is included exactly when it
      was modified after the whole second before the cutoff. */
  lemma CutoffRule(e: Entry, o: Options)
    requires o.modifiedAfter != 0
    requires IsFile(e, o.followSymlinks) && FileNameIncluded(e.name, o)
    ensures IsFileIncluded(e, o)
            <==> ModificationTimeNs(e) > (o.modifiedAfter - 1) * 1_000_000_000
  {
    var s := CeilSeconds(ModificationTimeNs(e));
    if s >= o.modifiedAfter {
      assert (s - 1) * 1_000_000_000 >= (o.modifiedAfter - 1) * 1_000_000_000;
    } else {
      assert s * 1_000_000_000 <= (o.modifiedAfter - 1) * 1_000_000_000;
    }
  }

  /** A directory is never also listed as a file. */
  lemma {:induction false} DirectoryIsNoFile(e: Entry, follow: bool)
    ensures !(IsDir(e, follow) && IsFile(e, follow))
  {
    match e
    case Link(_, target) =>
      DirectoryIsNoFile(target, true);
    case _ =>
  }

  // ------------------------------------------------------------------
  // Preparing the arguments
  // ------------------------------------------------------------------

  /** Python's `int()` on a float: truncation toward zero. */
  function Truncate(x: real): (r: int)
    ensures x >= 0.0 ==> r as real <= x < r as real + 1.0
    ensures x < 0.0 ==> r as real - 1.0 < x <= r as real
  {
    if x >= 0.0 then x.Floor else -((-x).Floor)
  }

  /** The cutoff `dirwalk_prepare` makes of `modified_after`: falsy values
      stay "no cutoff", anything else goes through `int()`, which fails on
      text that is not a whole number. */
  function PrepareCutoff(m: ModifiedAfter): (r: Outcome<int>)
    ensures r.Ok? || r == ValueError
    ensures r == ValueError <==> m.Text? && m.s != [] && ParseInt(m.s).None?
    ensures m.NotGiven? || m == Number(0.0) || m == Text([]) ==> r == Ok(0)
    ensures m.Number? ==> r == Ok(Truncate(m.x))
    ensures m.Text? && ParseInt(m.s).Some? ==> r == Ok(ParseInt(m.s).value)
  {
    match m
    case NotGiven => Ok(0)
    case Number(x) => if x == 0.0 then Ok(0) else Ok(Truncate(x))
    case Text(s) =>
      if s == [] then Ok(0)
      else
        match ParseInt(s)
        case None => ValueError
        case Some(v) => Ok(v)
  }

  /** Preparing an already prepared cutoff changes nothing, whether it is
      passed on as a number or written out as `str()` of it, so every
      level of the walk sees the same cutoff. */
  lemma PrepareCutoffIdempotent(cutoff: int)
    ensures PrepareCutoff(Number(cutoff as real)) == Ok(cutoff)
    ensures PrepareCutoff(Text(IntToString(cutoff))) == Ok(cutoff)
  {
    RepreparedNumber(cutoff);
    RepreparedText(cutoff);
  }

  lemma RepreparedNumber(cutoff: int)
    ensures PrepareCutoff(Number(cutoff as real)) == Ok(cutoff)
  {
    if cutoff < 0 {
      assert -(cutoff as real) == (-cutoff) as real;
      assert ((-cutoff) as real).Floor == -cutoff;
    } else {
      assert (cutoff as real).Floor == cutoff;
    }
  }

  lemma RepreparedText(cutoff: int)
    ensures PrepareCutoff(Text(IntToString(cutoff))) == Ok(cutoff)
  {
    IntRoundTrip(cutoff);
  }

  /** `dirwalk_prepare`: no `included` reads as empty lists. */
  function Prepare(directoriesFirst: bool, includeDirectories: bool, followSymlinks: bool,
                   included: Option<Inclusions>, modifiedAfter: ModifiedAfter): (r: Outcome<Options>)
    ensures r.Ok? <==> PrepareCutoff(modifiedAfter).Ok?
    ensures !r.Ok? ==> r == ValueError
    ensures r.Ok? && included.None? ==> r.value.included == Inclusions([], [], [])
  {
    var inclusions := if included.Some? then included.value else Inclusions([], [], []);
    match PrepareCutoff(modifiedAfter)
    case Ok(cutoff) =>
      Ok(Options(directoriesFirst, includeDirectories, followSymlinks, inclusions, cutoff))
    case _ => ValueError
  }

  // ------------------------------------------------------------------
  // One directory: dirwalk_process
  // ------------------------------------------------------------------

  /** The included subdirectories among `entries`, in scan order. */
  function IncludedDirectories(root: Path, entries: seq<Entry>, o: Options): (r: seq<Found>)
    ensures forall f :: f in r ==>
              f.entry in entries && f.path == root + [f.entry.name] && IsDirectoryIncluded(f.entry, o)
    ensures forall x :: x in entries && IsDirectoryIncluded(x, o) ==> Found(root + [x.name], x) in r
  {
    if entries == [] then []
    else
      var last := entries[|entries| - 1];
      IncludedDirectories(root, entries[..|entries| - 1], o)
      + (if IsDirectoryIncluded(last, o) then [Found(root + [last.name], last)] else [])
  }

  /** The included files among `entries`, in scan order. */
  function IncludedFiles(root: Path, entries: seq<Entry>, o: Options): (r: seq<Found>)
    ensures forall f :: f in r ==>
              f.entry in entries && f.path == root + [f.entry.name] && IsFileIncluded(f.entry, o)
    ensures forall x :: x in entries && IsFileIncluded(x, o) ==> Found(root + [x.name], x) in r
  {
    if entries == [] then []
    else
      var last := entries[|entries| - 1];
      DirectoryIsNoFile(last, o.followSymlinks);
      IncludedFiles(root, entries[..|entries| - 1], o)
      + (if !IsDirectoryIncluded(last, o) && IsFileIncluded(last, o)
         then [Found(root + [last.name], last)] else [])
  }

  /** `dirwalk_process`: one pass over the scanned entries, sorting each
      into the directories to descend into or the files to list. */
  method Process(root: Path, entries: seq<Entry>, o: Options)
    returns (directories: seq<Found>, files: seq<Found>)
    ensures directories == IncludedDirectories(root, entries, o)
    ensures files == IncludedFiles(root, entries, o)
  {
    directories := [];
    files := [];
    var n := 0;
    while n < |entries|
      invariant 0 <= n <= |entries|
      invariant directories == IncludedDirectories(root, entries[..n], o)
      invariant files == IncludedFiles(root, entries[..n], o)
    {
      var entry := entries[n];
      var currentPath := root + [entry.name];
      if IsDirectoryIncluded(entry, o) {
        directories := directories + [Found(currentPath, entry)];
      } else if IsFileIncluded(entry, o) {
        files := files + [Found(currentPath, entry)];
      }
      assert entries[..n + 1][..n] == entries[..n];
      n := n + 1;
    }
    assert entries[..n] == entries;
  }

  // ------------------------------------------------------------------
  // Sorting
  // ------------------------------------------------------------------

  /** Paths found in one directory differ only in their last component, so
      pathlib orders them by name. */
  predicate SortedByName(fs: seq<Found>)
  {
    forall i, j :: 0 <= i < j < |fs| ==> !StrLess(fs[j].entry.name, fs[i].entry.name)
  }

  lemma InsertFrontSorted(f: Found, fs: seq<Found>)
    requires SortedByName(fs) && fs != []
    requires !StrLess(fs[0].entry.name, f.entry.name)
    ensures SortedByName([f] + fs)
  {
    var r := [f] + fs;
    forall i, j | 0 <= i < j < |r|
      ensures !StrLess(r[j].entry.name, r[i].entry.name)
    {
      if i == 0 && j > 1 {
        StrLessEqTransitive(f.entry.name, fs[0].entry.name, fs[j - 1].entry.name);
      }
    }
  }

  lemma InsertLaterSorted(f: Found, fs: seq<Found>, rest: seq<Found>)
    requires SortedByName(fs) && fs != []
    requires StrLess(fs[0].entry.name, f.entry.name)
    requires SortedByName(rest)
    requires forall x :: x in rest ==> x in fs[1..] || x == f
    ensures SortedByName([fs[0]] + rest)
  {
    var r := [fs[0]] + rest;
    forall i, j | 0 <= i < j < |r|
      ensures !StrLess(r[j].entry.name, r[i].entry.name)
    {
      if i == 0 {
        var x := rest[j - 1];
        assert x in rest;
        if x == f {
          StrLessAsymmetric(fs[0].entry.name, f.entry.name);
        } else {
          var k :| 0 <= k < |fs[1..]| && fs[1..][k] == x;
          assert fs[k + 1] == x;
        }
      }
    }
  }

  function Insert(f: Found, fs: seq<Found>): (r: seq<Found>)
    requires SortedByName(fs)
    ensures SortedByName(r)
    ensures multiset(r) == multiset(fs) + multiset{f}
    ensures forall x :: x in r <==> x in fs || x == f
    decreases |fs|
  {
    if fs == [] then [f]
    else if !StrLess(fs[0].entry.name, f.entry.name) then
      InsertFrontSorted(f, fs);
      [f] + fs
    else
      assert fs == [fs[0]] + fs[1..];
      var rest := Insert(f, fs[1..]);
      InsertLaterSorted(f, fs, rest);
      [fs[0]] + rest
  }

  /** `list.sort()` on the paths found in one directory. */
  function SortByName(fs: seq<Found>): (r: seq<Found>)
    ensures SortedByName(r)
    ensures multiset(r) == multiset(fs)
    ensures forall x :: x in r <==> x in fs
  {
    if fs == [] then []
    else
      assert fs == [fs[0]] + fs[1..];
      Insert(fs[0], SortByName(fs[1..]))
  }

  // ------------------------------------------------------------------
  // The walk
  // ------------------------------------------------------------------

  function FileItems(fs: seq<Found>): (r: seq<Item>)
    ensures |r| == |fs|
    ensures forall i :: 0 <= i < |fs| ==> r[i] == FileItem(fs[i].path)
  {
    seq(|fs|, i requires 0 <= i < |fs| => FileItem(fs[i].path))
  }

  /** The subdirectories of `e` the walk descends into, sorted. */
  function SubDirectories(root: Path, e: Entry, o: Options): (r: seq<Found>)
    ensures SortedByName(r)
    ensures forall d :: d in r ==>
              Size(d.entry) < Size(e) && d.path == root + [d.entry.name] && IsDirectoryIncluded(d.entry, o)
  {
    ContentsSmaller(e);
    SortByName(IncludedDirectories(root, Contents(e), o))
  }

  /** The files of `e` the walk lists, sorted. */
  function TopFiles(root: Path, e: Entry, o: Options): (r: seq<Found>)
    ensures SortedByName(r)
    ensures forall f :: f in r ==> f.path == root + [f.entry.name] && IsFileIncluded(f.entry, o)
  {
    SortByName(IncludedFiles(root, Contents(e), o))
  }

  /** The listing `dirwalk` produces for directory `e` at path `root`, with
      each subdirectory marked (when asked for) right before its contents. */
  function Listing(root: Path, e: Entry, o: Options): seq<Item>
    decreases Size(e), 1, 0
  {
    var files := FileItems(TopFiles(root, e, o));
    (if o.directoriesFirst then [] else files)
    + SubListings(SubDirectories(root, e, o), e, o)
    + (if o.directoriesFirst then files else [])
  }

  /** The recursive part of the listing: for each subdirectory in turn its
      marker and its own listing. */
  function SubListings(directories: seq<Found>, parent: Entry, o: Options): seq<Item>
    requires forall d :: d in directories ==> Size(d.entry) < Size(parent)
    decreases Size(parent), 0, |directories|
  {
    if directories == [] then []
    else
      var last := directories[|directories| - 1];
      SubListings(directories[..|directories| - 1], parent, o)
      + (if o.includeDirectories then [DirItem(last.path)] else [])
      + Listing(last.path, last.entry, o)
  }

  /** One more subdirectory adds its marker and its listing. */
  lemma SubListingsStep(directories: seq<Found>, parent: Entry, o: Options, n: nat)
    requires forall d :: d in directories ==> Size(d.entry) < Size(parent)
    requires n < |directories|
    ensures SubListings(directories[..n + 1], parent, o)
            == SubListings(directories[..n], parent, o)
               + (if o.includeDirectories then [DirItem(directories[n].path)] else [])
               + Listing(directories[n].path, directories[n].entry, o)
  {
    assert directories[..n + 1][..n] == directories[..n];
  }

  /** `dirwalk` after preparation: scan, sort, list files before or after
      recursing into each subdirectory. */
  method Walk(root: Path, e: Entry, o: Options) returns (items: seq<Item>)
    ensures items == Listing(root, e, o)
    decreases Size(e), 1
  {
    var directories, files := Process(root, Contents(e), o);
    directories := SortByName(directories);
    files := SortByName(files);
    assert directories == SubDirectories(root, e, o);
    assert files == TopFiles(root, e, o);
    var fileItems := FileItems(files);
    var deep := WalkSubdirectories(directories, e, o);
    // the files go before or after everything found below
    var before := if o.directoriesFirst then [] else fileItems;
    var after := if o.directoriesFirst then fileItems else [];
    items := before + deep + after;
  }

  /** The loop of `dirwalk` over the sorted subdirectories. */
  method WalkSubdirectories(directories: seq<Found>, parent: Entry, o: Options)
    returns (items: seq<Item>)
    requires forall d :: d in directories ==> Size(d.entry) < Size(parent)
    ensures items == SubListings(directories, parent, o)
    decreases Size(parent), 0
  {
    items := [];
    var n := 0;
    assert directories[..0] == [];
    while n < |directories|
      invariant 0 <= n <= |directories|
      invariant items == SubListings(directories[..n], parent, o)
    {
      var current := directories[n];
      assert current in directories;
      var deep := Walk(current.path, current.entry, o);
      var marker := if o.includeDirectories then [DirItem(current.path)] else [];
      items := items + marker + deep;
      SubListingsStep(directories, parent, o, n);
      n := n + 1;
    }
    assert directories[..n] == directories;
  }

  /** `dirwalk` from its public arguments: `root` must name a directory
      (scanning follows a link there), and a cutoff that is not a number
      raises. */
  method Dirwalk(root: Path, tree: Entry, directoriesFirst: bool, includeDirectories: bool,
                 followSymlinks: bool, included: Option<Inclusions>, modifiedAfter: ModifiedAfter)
    returns (r: Outcome<seq<Item>>)
    ensures !Prepare(directoriesFirst, includeDirectories, followSymlinks, included, modifiedAfter).Ok?
            ==> r == ValueError
    ensures (Prepare(directoriesFirst, includeDirectories, followSymlinks, included, modifiedAfter).Ok?
             && !IsDir(tree, true)) ==> r == OSError
    ensures (Prepare(directoriesFirst, includeDirectories, followSymlinks, included, modifiedAfter).Ok?
             && IsDir(tree, true))
            ==> r == Ok(Listing(root, tree,
                  Prepare(directoriesFirst, includeDirectories, followSymlinks, included, modifiedAfter).value))
  {
    var prepared := Prepare(directoriesFirst, includeDirectories, followSymlinks, included, modifiedAfter);
    if !prepared.Ok? {
      return ValueError;
    }
    if !IsDir(tree, true) {
      return OSError;
    }
    var items := Walk(root, tree, prepared.value);
    r := Ok(items);
  }

  // ------------------------------------------------------------------
  // What the listing promises
  // ------------------------------------------------------------------

  predicate Below(root: Path, p: Path)
  {
    |p| > |root| && p[..|root|] == root
  }

  /** An item that may appear in the listing of `root`: it lies below
      `root`, no directory between them has an excluded name, a file's
      name passes the name tests, and a directory marker appears only when
      asked for and never for an excluded name. */
  predicate GoodItem(root: Path, item: Item, o: Options)
  {
    var p := item.path;
    Below(root, p)
    && (forall k :: |root| <= k < |p| - 1 ==> p[k] !in o.included.excludedDirectoryNames)
    && (item.FileItem? ==> FileNameIncluded(p[|p| - 1], o))
    && (item.DirItem? ==> o.includeDirectories && p[|p| - 1] !in o.included.excludedDirectoryNames)
  }

  lemma GoodItemLift(root: Path, name: string, item: Item, o: Options)
    requires GoodItem(root + [name], item, o)
    requires name !in o.included.excludedDirectoryNames
    ensures GoodItem(root, item, o)
  {
    var p := item.path;
    assert p[..|root|] == p[..|root| + 1][..|root|];
    assert p[|root|] == p[..|root| + 1][|root|];
  }

  /** Everything listed lies below the root, passes the name tests, and
      never passes through an excluded directory. */
  lemma {:induction false} ListingSound(root: Path, e: Entry, o: Options)
    ensures forall item :: item in Listing(root, e, o) ==> GoodItem(root, item, o)
    decreases Size(e), 1, 0
  {
    var directories := SubDirectories(root, e, o);
    var sortedFiles := TopFiles(root, e, o);
    forall item | item in FileItems(sortedFiles)
      ensures GoodItem(root, item, o)
    {
      var i :| 0 <= i < |sortedFiles| && FileItems(sortedFiles)[i] == item;
      assert sortedFiles[i] in sortedFiles;
    }
    SubListingsSound(directories, e, root, o);
  }

  lemma {:induction false} SubListingsSound(directories: seq<Found>, parent: Entry, root: Path, o: Options)
    requires forall d :: d in directories ==> Size(d.entry) < Size(parent)
    requires forall d :: d in directories ==>
               d.path == root + [d.entry.name] && IsDirectoryIncluded(d.entry, o)
    ensures forall item :: item in SubListings(directories, parent, o) ==>
              GoodItem(root, item, o) && (item.FileItem? ==> |item.path| > |root| + 1)
    decreases Size(parent), 0, |directories|
  {
    if directories != [] {
      var last := directories[|directories| - 1];
      SubListingsSound(directories[..|directories| - 1], parent, root, o);
      SubListingLifted(last, parent, root, o);
      forall item | item in SubListings(directories, parent, o)
        ensures GoodItem(root, item, o) && (item.FileItem? ==> |item.path| > |root| + 1)
      {
        SubListingsParts(directories, parent, o, item);
      }
    }
  }

  /** The listing of one included subdirectory of `root` is good for
      `root` too, and its files lie at least one directory down. */
  lemma {:induction false} SubListingLifted(d: Found, parent: Entry, root: Path, o: Options)
    requires Size(d.entry) < Size(parent)
    requires d.path == root + [d.entry.name] && IsDirectoryIncluded(d.entry, o)
    ensures forall item :: item in Listing(d.path, d.entry, o) ==>
              GoodItem(root, item, o) && |item.path| > |root| + 1
    decreases Size(parent), 0, 0
  {
    ListingSound(d.path, d.entry, o);
    forall item | item in Listing(d.path, d.entry, o)
      ensures GoodItem(root, item, o) && |item.path| > |root| + 1
    {
      GoodItemLift(root, d.entry.name, item, o);
    }
  }

  /** The walk from directory `e` at `root` scans `x` at path `p`: `x` is
      listed in `e`, or below an included subdirectory the walk descends
      into. */
  predicate Reached(root: Path, e: Entry, o: Options, p: Path, x: Entry)
    decreases Size(e)
  {
    ContentsSmaller(e);
    exists c :: c in Contents(e)
      && ((p == root + [c.name] && x == c)
          || (IsDirectoryIncluded(c, o) && Reached(root + [c.name], c, o, p, x)))
  }

  /** The files listed are exactly those the walk scans that pass
      `is_file_included` (name tests and cutoff alike), each at the path it
      was scanned at. */
  lemma ListingFilesExactly(root: Path, e: Entry, o: Options, p: Path)
    ensures FileItem(p) in Listing(root, e, o) <==> exists x :: Reached(root, e, o, p, x) && IsFileIncluded(x, o)
  {
    if FileItem(p) in Listing(root, e, o) {
      ListingFilesReached(root, e, o, FileItem(p));
    }
    if x :| Reached(root, e, o, p, x) && IsFileIncluded(x, o) {
      ListingComplete(root, e, o, p, x);
    }
  }

  /** Every file scanned below included directories that passes
      `is_file_included` is listed. */
  lemma {:induction false} ListingComplete(root: Path, e: Entry, o: Options, p: Path, x: Entry)
    requires Reached(root, e, o, p, x) && IsFileIncluded(x, o)
    ensures FileItem(p) in Listing(root, e, o)
    decreases Size(e)
  {
    ContentsSmaller(e);
    var c :| c in Contents(e)
      && ((p == root + [c.name] && x == c)
          || (IsDirectoryIncluded(c, o) && Reached(root + [c.name], c, o, p, x)));
    if p == root + [c.name] && x == c {
      TopFileListed(root, e, o, c);
    } else {
      var directories := SubDirectories(root, e, o);
      var d := Found(root + [c.name], c);
      assert d in directories;
      ListingComplete(d.path, c, o, p, x);
      SubListingsContain(directories, e, o, d, FileItem(p));
    }
    ListingHolds(root, e, o, FileItem(p));
  }

  /** A file of `e` that passes `is_file_included` is one of this level's
      files. */
  lemma TopFileListed(root: Path, e: Entry, o: Options, c: Entry)
    requires c in Contents(e) && IsFileIncluded(c, o)
    ensures FileItem(root + [c.name]) in FileItems(TopFiles(root, e, o))
  {
    DirectoryIsNoFile(c, o.followSymlinks);
    var files := TopFiles(root, e, o);
    assert Found(root + [c.name], c) in files;
    var i :| 0 <= i < |files| && files[i] == Found(root + [c.name], c);
    assert FileItems(files)[i] == FileItem(root + [c.name]);
  }

  /** This level's files and the subdirectories' listings are all listed. */
  lemma ListingHolds(root: Path, e: Entry, o: Options, item: Item)
    ensures item in FileItems(TopFiles(root, e, o)) || item in SubListings(SubDirectories(root, e, o), e, o)
            ==> item in Listing(root, e, o)
  {
  }

  /** A subdirectory's listing is part of the listing of all of them. */
  lemma {:induction false} SubListingsContain(directories: seq<Found>, parent: Entry, o: Options, d: Found, item: Item)
    requires forall d :: d in directories ==> Size(d.entry) < Size(parent)
    requires d in directories && item in Listing(d.path, d.entry, o)
    ensures item in SubListings(directories, parent, o)
    decreases |directories|
  {
    var front := directories[..|directories| - 1];
    FrontOrLast(directories, d);
    if d in front {
      SubListingsContain(front, parent, o, d, item);
    }
    SubListingsKeep(directories, parent, o, item);
  }

  /** An element of a non-empty sequence is in its front or is its last. */
  lemma FrontOrLast<T>(s: seq<T>, x: T)
    requires x in s
    ensures x in s[..|s| - 1] || x == s[|s| - 1]
  {
    var i :| 0 <= i < |s| && s[i] == x;
    if i < |s| - 1 {
      assert s[..|s| - 1][i] == x;
    }
  }

  /** An item listed is one of this level's files or comes from a
      subdirectory. */
  lemma ListingParts(root: Path, e: Entry, o: Options, item: Item)
    ensures item in Listing(root, e, o)
            ==> item in FileItems(TopFiles(root, e, o)) || item in SubListings(SubDirectories(root, e, o), e, o)
  {
  }

  /** An item listed among the subdirectories comes from all but the last
      of them, is the last one's marker, or comes from its listing. */
  lemma SubListingsParts(directories: seq<Found>, parent: Entry, o: Options, item: Item)
    requires forall d :: d in directories ==> Size(d.entry) < Size(parent)
    requires directories != []
    ensures var last := directories[|directories| - 1];
            item in SubListings(directories, parent, o)
            ==> item in SubListings(directories[..|directories| - 1], parent, o)
                || (o.includeDirectories && item == DirItem(last.path))
                || item in Listing(last.path, last.entry, o)
  {
  }

  /** The listing of all subdirectories holds what the listing of all but
      the last holds, and the last one's listing. */
  lemma SubListingsKeep(directories: seq<Found>, parent: Entry, o: Options, item: Item)
    requires forall d :: d in directories ==> Size(d.entry) < Size(parent)
    requires directories != []
    ensures var last := directories[|directories| - 1];
            item in SubListings(directories[..|directories| - 1], parent, o) || item in Listing(last.path, last.entry, o)
            ==> item in SubListings(directories, parent, o)
  {
  }

  /** Every file listed was scanned at its path below included
      directories and passes `is_file_included`, cutoff included. */
  lemma {:induction false} ListingFilesReached(root: Path, e: Entry, o: Options, item: Item)
    requires item in Listing(root, e, o) && item.FileItem?
    ensures exists x :: Reached(root, e, o, item.path, x) && IsFileIncluded(x, o)
    decreases Size(e), 1
  {
    ListingParts(root, e, o, item);
    if item in FileItems(TopFiles(root, e, o)) {
      TopFileReached(root, e, o, item);
    } else {
      SubListingsReached(SubDirectories(root, e, o), e, root, o, item);
    }
  }

  /** A file of this level is scanned at its path and passes
      `is_file_included`. */
  lemma TopFileReached(root: Path, e: Entry, o: Options, item: Item)
    requires item in FileItems(TopFiles(root, e, o))
    ensures exists x :: Reached(root, e, o, item.path, x) && IsFileIncluded(x, o)
  {
    ContentsSmaller(e);
    var files := TopFiles(root, e, o);
    var i :| 0 <= i < |files| && FileItems(files)[i] == item;
    var f := files[i];
    assert f in IncludedFiles(root, Contents(e), o);
    assert Reached(root, e, o, item.path, f.entry);
  }

  lemma {:induction false} SubListingsReached(directories: seq<Found>, parent: Entry, root: Path, o: Options, item: Item)
    requires forall d :: d in directories ==> Size(d.entry) < Size(parent)
    requires forall d :: d in directories ==>
               d.entry in Contents(parent) && d.path == root + [d.entry.name] && IsDirectoryIncluded(d.entry, o)
    requires item in SubListings(directories, parent, o) && item.FileItem?
    ensures exists x :: Reached(root, parent, o, item.path, x) && IsFileIncluded(x, o)
    decreases Size(parent), 0, |directories|
  {
    var last := directories[|directories| - 1];
    var front := directories[..|directories| - 1];
    SubListingsParts(directories, parent, o, item);
    if item in SubListings(front, parent, o) {
      SubListingsReached(front, parent, root, o, item);
    } else {
      ListingFilesReached(last.path, last.entry, o, item);
      var x :| Reached(last.path, last.entry, o, item.path, x) && IsFileIncluded(x, o);
      ContentsSmaller(parent);
      assert last.entry in Contents(parent);
      assert Reached(root, parent, o, item.path, x);
    }
  }

  /** With no suffix patterns and no directory markers nothing is listed. */
  lemma {:induction false} NoPatternsNoListing(root: Path, e: Entry, o: Options)
    requires o.included.includedSuffixes == [] && !o.includeDirectories
    ensures Listing(root, e, o) == []
    decreases Size(e), 1, 0
  {
    NoPatternsNoFiles(root, e, o);
    NoPatternsNoSubListings(SubDirectories(root, e, o), e, o);
  }

  lemma NoPatternsNoFiles(root: Path, e: Entry, o: Options)
    requires o.included.includedSuffixes == []
    ensures TopFiles(root, e, o) == []
  {
    var files := TopFiles(root, e, o);
    assert forall i :: 0 <= i < |files| ==> files[i] in files;
  }

  lemma {:induction false} NoPatternsNoSubListings(directories: seq<Found>, parent: Entry, o: Options)
    requires o.included.includedSuffixes == [] && !o.includeDirectories
    requires forall d :: d in directories ==> Size(d.entry) < Size(parent)
    ensures SubListings(directories, parent, o) == []
    decreases Size(parent), 0, |directories|
  {
    if directories != [] {
      var last := directories[|directories| - 1];
      NoPatternsNoSubListings(directories[..|directories| - 1], parent, o);
      NoPatternsNoListing(last.path, last.entry, o);
    }
  }

  /** Is `item` a file found directly in `root`? */
  predicate TopFile(root: Path, item: Item)
  {
    item.FileItem? && |item.path| == |root| + 1
  }

  /** Items of this level, sorted by their last component. */
  predicate SortedTopFiles(root: Path, files: seq<Item>)
  {
    (forall i :: 0 <= i < |files| ==> TopFile(root, files[i]))
    && forall i, j :: 0 <= i < j < |files| ==>
         !StrLess(files[j].path[|root|], files[i].path[|root|])
  }

  /** The files found directly in `root` come after all subdirectory
      listings when directories come first and before them otherwise,
      and among themselves they are sorted by name. */
  lemma TopFilesPlacement(root: Path, e: Entry, o: Options)
    ensures forall i, j :: (0 <= i < j < |Listing(root, e, o)| && o.directoriesFirst
              && TopFile(root, Listing(root, e, o)[i])) ==> TopFile(root, Listing(root, e, o)[j])
    ensures forall i, j :: (0 <= i < j < |Listing(root, e, o)| && !o.directoriesFirst
              && TopFile(root, Listing(root, e, o)[j])) ==> TopFile(root, Listing(root, e, o)[i])
    ensures forall i, j :: 0 <= i < j < |Listing(root, e, o)|
              && TopFile(root, Listing(root, e, o)[i]) && TopFile(root, Listing(root, e, o)[j])
              ==> !StrLess(Listing(root, e, o)[j].path[|root|], Listing(root, e, o)[i].path[|root|])
  {
    var sortedFiles := TopFiles(root, e, o);
    var files := FileItems(sortedFiles);
    SubListingsSound(SubDirectories(root, e, o), e, root, o);
    forall i | 0 <= i < |sortedFiles|
      ensures TopFile(root, files[i]) && files[i].path[|root|] == sortedFiles[i].entry.name
    {
      assert sortedFiles[i] in sortedFiles;
    }
    BlocksPlacement(root, o.directoriesFirst, files, SubListings(SubDirectories(root, e, o), e, o),
                    Listing(root, e, o));
  }

  /** The placement argument on the three blocks of a listing. */
  lemma BlocksPlacement(root: Path, directoriesFirst: bool, files: seq<Item>, subs: seq<Item>,
                        listing: seq<Item>)
    requires SortedTopFiles(root, files)
    requires forall item :: item in subs ==> !TopFile(root, item)
    requires listing == (if directoriesFirst then [] else files) + subs
                        + (if directoriesFirst then files else [])
    ensures forall i, j :: (0 <= i < j < |listing| && directoriesFirst
              && TopFile(root, listing[i])) ==> TopFile(root, listing[j])
    ensures forall i, j :: (0 <= i < j < |listing| && !directoriesFirst
              && TopFile(root, listing[j])) ==> TopFile(root, listing[i])
    ensures forall i, j :: 0 <= i < j < |listing|
              && TopFile(root, listing[i]) && TopFile(root, listing[j])
              ==> !StrLess(listing[j].path[|root|], listing[i].path[|root|])
  {
    var offset := if directoriesFirst then |subs| else 0;
    forall i | 0 <= i < |listing|
      ensures TopFile(root, listing[i]) <==> offset <= i < offset + |files|
      ensures offset <= i < offset + |files| ==> listing[i] == files[i - offset]
    {
      if offset <= i < offset + |files| {
        assert listing[i] == files[i - offset];
      } else {
        assert listing[i] in subs;
      }
    }
  }

  /** With directory markers, everything below a subdirectory is preceded
      by that subdirectory's marker. */
  lemma MarkerPrecedesContents(root: Path, e: Entry, o: Options)
    requires o.includeDirectories
    ensures forall j :: 0 <= j < |Listing(root, e, o)| && |Listing(root, e, o)[j].path| > |root| + 1
              ==> MarkedBefore(Listing(root, e, o), j, Listing(root, e, o)[j].path[..|root| + 1])
  {
    var sortedFiles := TopFiles(root, e, o);
    var files := FileItems(sortedFiles);
    SubListingsMarked(SubDirectories(root, e, o), e, root, o);
    forall i | 0 <= i < |sortedFiles|
      ensures TopFile(root, files[i])
    {
      assert sortedFiles[i] in sortedFiles;
    }
    BlocksMarked(root, o.directoriesFirst, files, SubListings(SubDirectories(root, e, o), e, o),
                 Listing(root, e, o));
  }

  /** The marker argument on the three blocks of a listing. */
  lemma BlocksMarked(root: Path, directoriesFirst: bool, files: seq<Item>, subs: seq<Item>,
                     listing: seq<Item>)
    requires forall i :: 0 <= i < |files| ==> TopFile(root, files[i])
    requires forall j :: 0 <= j < |subs| && |subs[j].path| > |root| + 1
               ==> MarkedBefore(subs, j, subs[j].path[..|root| + 1])
    requires listing == (if directoriesFirst then [] else files) + subs
                        + (if directoriesFirst then files else [])
    ensures forall j :: 0 <= j < |listing| && |listing[j].path| > |root| + 1
              ==> MarkedBefore(listing, j, listing[j].path[..|root| + 1])
  {
    var before := if directoriesFirst then [] else files;
    forall j | 0 <= j < |listing| && !(|before| <= j < |before| + |subs|)
      ensures |listing[j].path| == |root| + 1
    {
      if j < |before| {
        assert listing[j] == files[j];
      } else {
        assert listing[j] == files[j - |before| - |subs|];
      }
    }
    forall j | 0 <= j < |listing| && |listing[j].path| > |root| + 1
      ensures MarkedBefore(listing, j, listing[j].path[..|root| + 1])
    {
      var k := j - |before|;
      assert listing[j] == subs[k];
      var i :| 0 <= i < k && i < |subs| && subs[i] == DirItem(subs[k].path[..|root| + 1]);
      assert listing[i + |before|] == subs[i];
    }
  }

  /** The marker of directory `dir` appears before position `j`. */
  predicate MarkedBefore(items: seq<Item>, j: int, dir: Path)
  {
    exists i :: 0 <= i < j && i < |items| && items[i] == DirItem(dir)
  }

  lemma {:induction false} SubListingsMarked(directories: seq<Found>, parent: Entry, root: Path, o: Options)
    requires o.includeDirectories
    requires forall d :: d in directories ==> Size(d.entry) < Size(parent)
    requires forall d :: d in directories ==> d.path == root + [d.entry.name]
    ensures forall j :: 0 <= j < |SubListings(directories, parent, o)|
              && |SubListings(directories, parent, o)[j].path| > |root| + 1
              ==> MarkedBefore(SubListings(directories, parent, o), j,
                               SubListings(directories, parent, o)[j].path[..|root| + 1])
    decreases |directories|
  {
    if directories != [] {
      var last := directories[|directories| - 1];
      SubListingsMarked(directories[..|directories| - 1], parent, root, o);
      ListingSound(last.path, last.entry, o);
      AppendMarked(root, SubListings(directories[..|directories| - 1], parent, o),
                   last.path, Listing(last.path, last.entry, o), SubListings(directories, parent, o));
    }
  }

  /** Appending a marker and the items below it keeps every deep item
      preceded by its marker. */
  lemma AppendMarked(root: Path, front: seq<Item>, dir: Path, deep: seq<Item>, s: seq<Item>)
    requires |dir| == |root| + 1
    requires s == front + [DirItem(dir)] + deep
    requires forall j :: 0 <= j < |front| && |front[j].path| > |root| + 1
               ==> MarkedBefore(front, j, front[j].path[..|root| + 1])
    requires forall item :: item in deep ==> Below(dir, item.path)
    ensures forall j :: 0 <= j < |s| && |s[j].path| > |root| + 1
              ==> MarkedBefore(s, j, s[j].path[..|root| + 1])
  {
    forall j | 0 <= j < |s| && |s[j].path| > |root| + 1
      ensures MarkedBefore(s, j, s[j].path[..|root| + 1])
    {
      if j < |front| {
        assert s[j] == front[j];
        var i :| 0 <= i < j && i < |front| && front[i] == DirItem(front[j].path[..|root| + 1]);
        assert s[i] == front[i];
      } else {
        var item := deep[j - |front| - 1];
        assert s[j] == item && item in deep;
        assert s[|front|] == DirItem(dir);
      }
    }
  }

  // ------------------------------------------------------------------
  // The walk as written
  // ------------------------------------------------------------------

  /** `dirwalk` as written: with `include_directories` it appends
      `current_directory + os.sep`, a `pathlib.Path` plus a `str`, which
      raises `TypeError` as soon as one subdirectory is included. */
  function WalkAsWritten(root: Path, e: Entry, o: Options): Outcome<seq<Item>>
  {
    if o.includeDirectories && IncludedDirectories(root, Contents(e), o) != [] then TypeError
    else Ok(Listing(root, e, o))
  }

  /** The markers can never be produced as written: any included
      subdirectory makes the walk raise. */
  lemma MarkersRaiseAsWritten(root: Path, e: Entry, o: Options, d: Entry)
    requires o.includeDirectories
    requires d in Contents(e) && IsDirectoryIncluded(d, o)
    ensures WalkAsWritten(root, e, o) == TypeError
  {
    assert Found(root + [d.name], d) in IncludedDirectories(root, Contents(e), o);
  }
}
