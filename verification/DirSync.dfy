/**
 Pushing a directory: enumeration, pipelined STAT requests and the choice of what to push
 (src/file_sync_client.c:170-202, 621-809).
 */
module DirSync {
  import opened Lists

  const PATH_MAX: nat := 4096

  /** What lstat says about a file; a directory also says whether opendir works and what readdir returns. */
  datatype Node =
    | Folder(readable: bool, entries: seq<Entry>)
    | Regular(stat: FileStat)
    | Symlink(stat: FileStat)
    | Special
    | Unknown                  // the first lstat fails
    | Vanished                 // the second lstat fails

  datatype Entry = Entry(name: string, node: Node)

  /** What lstat says of a file. */
  datatype FileStat = FileStat(time: int, mode: bv32, size: nat)

  const WORD: nat := 0x1_0000_0000

  type word = x: nat | x < WORD

  /** What copyinfo keeps of it, and what the device answers: 32 bits each. */
  datatype Stat = Stat(time: word, mode: bv32, size: word)

  function Kept(st: FileStat): Stat {
    Stat(st.time % WORD, st.mode, st.size % WORD)
  }

  /** copyinfo. */
  datatype Info = Info(src: string, dst: string, stat: Stat)

  // ---- names ----

  /** snprintf into a buffer of the given size: what is left of the text. */
  function Printed(text: string, size: nat): string {
    if size == 0 then "" else if |text| < size then text else text[..size - 1]
  }

  function Under(path: string, name: string, dir: bool): string {
    path + name + (if dir then "/" else "")
  }

  /** mkcopyinfo: both strings fit what is allocated for them, so nothing is cut off. */
  method MkCopyInfo(spath: string, dpath: string, name: string, dir: bool, stat: Stat) returns (ci: Info)
    ensures ci == Info(Under(spath, name, dir), Under(dpath, name, dir), stat)
    ensures |ci.src| < |spath| + |name| + 2 && |ci.dst| < |dpath| + |name| + 2
  {
    var ssize, dsize := |spath| + |name| + 2, |dpath| + |name| + 2;
    ci := Info(Printed(Under(spath, name, dir), ssize), Printed(Under(dpath, name, dir), dsize), stat);
  }

  /** An entry the walk looks at: not the two dot names, and short enough for the path buffer. */
  predicate Looked(l: string, name: string) {
    name != "." && name != ".." && |l| + |name| + 1 <= PATH_MAX
  }

  // ---- what should be listed ----

  predicate Subfolder(e: Entry, l: string) {
    Looked(l, e.name) && e.node.Folder?
  }

  /** An entry that is listed itself. */
  predicate IsFile(e: Entry, l: string) {
    Looked(l, e.name) && (e.node.Regular? || e.node.Symlink?)
  }

  function FileOf(e: Entry, l: string, r: string): multiset<Info> {
    if IsFile(e, l) then multiset{Info(Under(l, e.name, false), Under(r, e.name, false), Kept(e.node.stat))}
    else multiset{}
  }

  /** Every regular file and symbolic link that can be reached, once. */
  function Expected(dir: Node, l: string, r: string): multiset<Info>
    decreases dir
  {
    if Opens(dir) then ExpectedIn(dir.entries, l, r) else multiset{}
  }

  /** opendir works. */
  predicate Opens(dir: Node) {
    dir.Folder? && dir.readable
  }

  function ExpectedIn(entries: seq<Entry>, l: string, r: string): multiset<Info>
    decreases entries
  {
    if entries == [] then multiset{}
    else
      var n := |entries| - 1;
      ExpectedIn(entries[..n], l, r) + ExpectedOf(entries[n], l, r)
  }

  function ExpectedOf(e: Entry, l: string, r: string): multiset<Info>
    decreases e
  {
    if !Looked(l, e.name) then multiset{}
    else match e.node
      case Regular(st) => multiset{Info(Under(l, e.name, false), Under(r, e.name, false), Kept(st))}
      case Symlink(st) => multiset{Info(Under(l, e.name, false), Under(r, e.name, false), Kept(st))}
      case Folder(_, _) => Expected(e.node, Under(l, e.name, true), Under(r, e.name, true))
      case _ => multiset{}
  }

  /** Source and destination differ only in their prefix. */
  ghost predicate Swapped(ci: Info, l: string, r: string) {
    exists rel :: ci.src == l + rel && ci.dst == r + rel
  }

  lemma SwappedUnder(ci: Info, l: string, r: string, name: string)
    requires Swapped(ci, Under(l, name, true), Under(r, name, true))
    ensures Swapped(ci, l, r)
  {
    var rel :| ci.src == Under(l, name, true) + rel && ci.dst == Under(r, name, true) + rel;
    assert ci.src == l + (name + "/" + rel) && ci.dst == r + (name + "/" + rel);
  }

  lemma {:induction false} ExpectedSwaps(dir: Node, l: string, r: string, ci: Info)
    requires ci in Expected(dir, l, r)
    ensures Swapped(ci, l, r)
    decreases dir
  {
    ExpectedInSwaps(dir.entries, l, r, ci);
  }

  lemma {:induction false} ExpectedInSwaps(entries: seq<Entry>, l: string, r: string, ci: Info)
    requires ci in ExpectedIn(entries, l, r)
    ensures Swapped(ci, l, r)
    decreases entries
  {
    var n := |entries| - 1;
    if ci in ExpectedIn(entries[..n], l, r) {
      ExpectedInSwaps(entries[..n], l, r, ci);
    } else {
      var e := entries[n];
      if e.node.Folder? {
        ExpectedSwaps(e.node, Under(l, e.name, true), Under(r, e.name, true), ci);
        SwappedUnder(ci, l, r, e.name);
      } else {
        assert ci.src == l + (e.name + "") && ci.dst == r + (e.name + "");
      }
    }
  }

  // ---- the same, by paths ----

  /** The relative path through these entries. */
  function RelPath(es: seq<Entry>): string {
    if es == [] then "" else if |es| == 1 then es[0].name else es[0].name + "/" + RelPath(es[1..])
  }

  predicate FileNode(node: Node) {
    node.Regular? || node.Symlink?
  }

  /**
   The entries lead from directory `dir`, whose path is l, through directories that can be read to a regular
   file or a link: none is one of the two dot names, and the path of none is too long for the path buffer.
   */
  predicate Leads(dir: Node, es: seq<Entry>, l: string)
    decreases |es|
  {
    && es != [] && dir.Folder? && dir.readable && es[0] in dir.entries
    && es[0].name != "." && es[0].name != ".." && |l + es[0].name| < PATH_MAX
    && if |es| == 1 then FileNode(es[0].node) else Leads(es[0].node, es[1..], l + es[0].name + "/")
  }

  /** The file at the end of the path, under both prefixes. */
  function InfoAt(es: seq<Entry>, l: string, r: string): Info
    requires es != [] && FileNode(es[|es| - 1].node)
  {
    Info(l + RelPath(es), r + RelPath(es), Kept(es[|es| - 1].node.stat))
  }

  /** A path to the file ci. */
  ghost predicate At(dir: Node, es: seq<Entry>, l: string, r: string, ci: Info) {
    Leads(dir, es, l) && es != [] && FileNode(es[|es| - 1].node) && ci == InfoAt(es, l, r)
  }

  /** One directory further up. */
  lemma AtMore(dir: Node, e: Entry, es: seq<Entry>, l: string, r: string, ci: Info)
    requires es != []
    requires dir.Folder? && dir.readable && e in dir.entries && Looked(l, e.name)
    ensures At(dir, [e] + es, l, r, ci) <==> At(e.node, es, Under(l, e.name, true), Under(r, e.name, true), ci)
  {
    hide Kept;
    var all := [e] + es;
    assert all[1..] == es && all[|all| - 1] == es[|es| - 1];
    var rel := RelPath(es);
    assert RelPath(all) == e.name + "/" + rel;
    assert l + (e.name + "/" + rel) == l + e.name + "/" + rel && r + (e.name + "/" + rel) == r + e.name + "/" + rel;
  }

  lemma AtOne(dir: Node, e: Entry, l: string, r: string, ci: Info)
    requires dir.Folder? && dir.readable && e in dir.entries && Looked(l, e.name)
    ensures At(dir, [e], l, r, ci) <==>
              FileNode(e.node) && ci == Info(Under(l, e.name, false), Under(r, e.name, false), Kept(e.node.stat))
  {
    hide Kept;
    assert RelPath([e]) == e.name && e.name + "" == e.name;
  }

  /** What is listed lies at the end of a path. */
  lemma {:induction false} ExpectedAt(dir: Node, l: string, r: string, ci: Info) returns (es: seq<Entry>)
    requires ci in Expected(dir, l, r)
    ensures At(dir, es, l, r, ci)
    decreases dir
  {
    hide At, Kept, Under;
    var e := ExpectedFrom(dir.entries, l, r, ci);
    if e.node.Folder? {
      var rest := ExpectedAt(e.node, Under(l, e.name, true), Under(r, e.name, true), ci);
      AtSome(e.node, rest, Under(l, e.name, true), Under(r, e.name, true), ci);
      AtMore(dir, e, rest, l, r, ci);
      es := [e] + rest;
    } else {
      AtOne(dir, e, l, r, ci);
      es := [e];
    }
  }

  lemma AtSome(dir: Node, es: seq<Entry>, l: string, r: string, ci: Info)
    requires At(dir, es, l, r, ci)
    ensures es != []
  {
  }

  lemma {:induction false} ExpectedFrom(entries: seq<Entry>, l: string, r: string, ci: Info) returns (e: Entry)
    requires ci in ExpectedIn(entries, l, r)
    ensures e in entries && ci in ExpectedOf(e, l, r)
  {
    hide ExpectedOf;
    var n := |entries| - 1;
    if ci in ExpectedOf(entries[n], l, r) {
      e := entries[n];
    } else {
      e := ExpectedFrom(entries[..n], l, r, ci);
    }
  }

  lemma {:induction false} ExpectedHas(entries: seq<Entry>, l: string, r: string, ci: Info, e: Entry)
    requires e in entries && ci in ExpectedOf(e, l, r)
    ensures ci in ExpectedIn(entries, l, r)
  {
    hide ExpectedOf;
    var n := |entries| - 1;
    if e != entries[n] {
      ExpectedHas(entries[..n], l, r, ci, e);
    }
  }

  /** What lies at the end of a path is listed. */
  lemma {:induction false} AtExpected(dir: Node, es: seq<Entry>, l: string, r: string, ci: Info)
    requires At(dir, es, l, r, ci)
    ensures ci in Expected(dir, l, r)
    decreases |es|
  {
    hide Kept;
    var e := es[0];
    if |es| == 1 {
      assert es == [e];
      AtOne(dir, e, l, r, ci);
    } else {
      assert es == [e] + es[1..];
      AtMore(dir, e, es[1..], l, r, ci);
      AtExpected(e.node, es[1..], Under(l, e.name, true), Under(r, e.name, true), ci);
    }
    ExpectedHas(dir.entries, l, r, ci, e);
  }

  /** A path leads to ci: it is a file below the directory that names other than the dot names reach. */
  ghost predicate Reached(dir: Node, l: string, r: string, ci: Info) {
    exists es :: At(dir, es, l, r, ci)
  }

  /** A file should be listed exactly if a path leads to it. */
  lemma ExpectedIsReached(dir: Node, l: string, r: string, ci: Info)
    ensures ci in Expected(dir, l, r) <==> Reached(dir, l, r, ci)
  {
    hide At, Expected;
    if ci in Expected(dir, l, r) {
      var es := ExpectedAt(dir, l, r, ci);
    }
    if Reached(dir, l, r, ci) {
      var es :| At(dir, es, l, r, ci);
      AtExpected(dir, es, l, r, ci);
    }
  }

  // ---- the walk ----

  /** The directories of a scan, as entries, in the order they are visited. */
  function Dirs(entries: seq<Entry>, l: string): (ds: seq<Entry>)
    ensures forall d :: d in ds ==> d in entries && d.node.Folder?
  {
    if entries == [] then []
    else
      var n := |entries| - 1;
      var ds := Dirs(entries[..n], l);
      if Subfolder(entries[n], l) then [entries[n]] + ds else ds
  }

  /** The files of a scan. */
  function FilesIn(entries: seq<Entry>, l: string, r: string): multiset<Info> {
    if entries == [] then multiset{}
    else
      var n := |entries| - 1;
      FilesIn(entries[..n], l, r) + FileOf(entries[n], l, r)
  }

  /** The first entry that disappears between the two looks at it, or the end. */
  function FirstGone(entries: seq<Entry>, l: string): (n: nat)
    ensures n <= |entries|
    ensures forall i :: 0 <= i < n && Looked(l, entries[i].name) ==> !entries[i].node.Vanished?
    ensures n < |entries| ==> Looked(l, entries[n].name) && entries[n].node.Vanished?
  {
    if entries == [] then 0
    else
      var n := |entries| - 1;
      var k := FirstGone(entries[..n], l);
      if k < n then k else if Looked(l, entries[n].name) && entries[n].node.Vanished? then n else n + 1
  }

  /** The directory is read to its end. */
  predicate Scanned(dir: Node, l: string) {
    Opens(dir) && FirstGone(dir.entries, l) == |dir.entries|
  }

  /**
   What the walk lists: a vanished file ends the scan of its directory, and none of the subdirectories
   found there is visited.
   */
  function Got(dir: Node, l: string, r: string): multiset<Info>
    decreases dir
  {
    if !Opens(dir) then multiset{}
    else
      var n := FirstGone(dir.entries, l);
      FilesIn(dir.entries[..n], l, r) + (if n == |dir.entries| then GotBelow(dir.entries, l, r) else multiset{})
  }

  function GotBelow(entries: seq<Entry>, l: string, r: string): multiset<Info>
    decreases entries
  {
    if entries == [] then multiset{}
    else
      var n := |entries| - 1;
      GotBelow(entries[..n], l, r) + GotOf(entries[n], l, r)
  }

  function GotOf(e: Entry, l: string, r: string): multiset<Info>
    decreases e
  {
    if Subfolder(e, l) then Got(e.node, Under(l, e.name, true), Under(r, e.name, true)) else multiset{}
  }

  /** The same, over the list of directories. */
  function GotDirs(ds: seq<Entry>, l: string, r: string): multiset<Info> {
    if ds == [] then multiset{}
    else Got(ds[0].node, Under(l, ds[0].name, true), Under(r, ds[0].name, true)) + GotDirs(ds[1..], l, r)
  }

  lemma {:induction false} BelowIsDirs(entries: seq<Entry>, l: string, r: string)
    ensures GotBelow(entries, l, r) == GotDirs(Dirs(entries, l), l, r)
  {
    hide Got;
    if entries != [] {
      BelowIsDirs(entries[..|entries| - 1], l, r);
    }
  }

  lemma ScanStep(entries: seq<Entry>, k: nat, l: string, r: string)
    requires k < |entries|
    ensures var e := entries[k];
            && Dirs(entries[..k + 1], l) ==
               (if Subfolder(e, l) then [e] + Dirs(entries[..k], l) else Dirs(entries[..k], l))
            && FilesIn(entries[..k + 1], l, r) == FilesIn(entries[..k], l, r) + FileOf(e, l, r)
  {
    assert entries[..k + 1][..k] == entries[..k];
  }

  lemma Prepended(ci: Info, list: seq<Info>)
    ensures multiset([ci] + list) == multiset(list) + multiset{ci}
  {
  }

  /** The readdir loop: files go to the front of the list, directories to the front of their own. */
  method ScanDir(filelist: seq<Info>, l: string, r: string, entries: seq<Entry>)
    returns (list: seq<Info>, dirlist: seq<Entry>, ok: bool)
    ensures ok <==> FirstGone(entries, l) == |entries|
    ensures ok ==> dirlist == Dirs(entries, l)
    ensures multiset(list) == multiset(filelist) + FilesIn(entries[..FirstGone(entries, l)], l, r)
  {
    hide Dirs, FilesIn, Under, Looked, FirstGone, Kept;
    list, dirlist := filelist, [];
    NothingScanned(l, r);
    assert entries[..0] == [];
    for k := 0 to |entries|
      invariant k <= FirstGone(entries, l)
      invariant dirlist == Dirs(entries[..k], l)
      invariant multiset(list) == multiset(filelist) + FilesIn(entries[..k], l, r)
    {
      var e := entries[k];
      ScanStep(entries, k, l, r);
      if Looked(l, e.name) {
        match e.node
        case Folder(_, _) => dirlist := [e] + dirlist;
        case Regular(st) =>
          var ci := MkCopyInfo(l, r, e.name, false, Kept(st));
          Prepended(ci, list);
          list := [ci] + list;
        case Symlink(st) =>
          var ci := MkCopyInfo(l, r, e.name, false, Kept(st));
          Prepended(ci, list);
          list := [ci] + list;
        case Special => {}
        case Unknown => {}
        case Vanished => return list, dirlist, false;
      }
    }
    assert entries[..|entries|] == entries;
    return list, dirlist, true;
  }

  lemma NothingScanned(l: string, r: string)
    ensures Dirs([], l) == [] && FilesIn([], l, r) == multiset{}
  {
  }

  /**
   local_build_list on an accumulated list: what it adds, and that it fails exactly when the directory
   cannot be opened or one of its files vanishes. What a subdirectory returns is ignored.
   */
  method BuildList(filelist: seq<Info>, l: string, r: string, dir: Node) returns (list: seq<Info>, ok: bool)
    ensures multiset(list) == multiset(filelist) + Got(dir, l, r)
    ensures ok == Scanned(dir, l)
    decreases dir, 1
  {
    if !Opens(dir) { return filelist, false; }
    var files, dirlist, scanned := ScanDir(filelist, l, r, dir.entries);
    if !scanned { return files, false; }
    BelowIsDirs(dir.entries, l, r);
    list := BuildDirs(files, l, r, dir, dirlist);
    return list, true;
  }

  /** The loop over the directories found. */
  method BuildDirs(files: seq<Info>, l: string, r: string, ghost dir: Node,
                   dirlist: seq<Entry>) returns (list: seq<Info>)
    requires dir.Folder? && forall d :: d in dirlist ==> d in dir.entries && d.node.Folder?
    ensures multiset(list) == multiset(files) + GotDirs(dirlist, l, r)
    decreases dir, 0
  {
    hide Got, Under;
    list := files;
    assert dirlist[0..] == dirlist;
    for k := 0 to |dirlist|
      invariant multiset(list) + GotDirs(dirlist[k..], l, r) == multiset(files) + GotDirs(dirlist, l, r)
    {
      var d := dirlist[k];
      assert d in dir.entries;
      assert dirlist[k..][0] == d && dirlist[k..][1..] == dirlist[k + 1..];
      var more, _ := BuildList(list, Under(l, d.name, true), Under(r, d.name, true), d.node);
      list := more;
    }
  }

  // ---- how much of it is what should be listed ----

  function ExpectedBelow(entries: seq<Entry>, l: string, r: string): multiset<Info> {
    if entries == [] then multiset{}
    else ExpectedBelow(entries[..|entries| - 1], l, r) + BelowOf(entries[|entries| - 1], l, r)
  }

  function BelowOf(e: Entry, l: string, r: string): multiset<Info> {
    if Subfolder(e, l) then Expected(e.node, Under(l, e.name, true), Under(r, e.name, true)) else multiset{}
  }

  /** Files and what lies below make up the whole. */
  lemma {:induction false} FilesAndBelow(entries: seq<Entry>, l: string, r: string)
    ensures ExpectedIn(entries, l, r) == FilesIn(entries, l, r) + ExpectedBelow(entries, l, r)
  {
    hide Expected;
    if entries != [] {
      FilesAndBelow(entries[..|entries| - 1], l, r);
    }
  }

  /** Two sums of parts are equal exactly when the parts are. */
  lemma PartsSame(a: multiset<Info>, b: multiset<Info>, c: multiset<Info>, d: multiset<Info>)
    requires a <= b && c <= d
    ensures a + c <= b + d && (a + c == b + d <==> a == b && c == d)
  {
    if a + c == b + d {
      forall x ensures a[x] == b[x] && c[x] == d[x] {
        assert (a + c)[x] == (b + d)[x];
      }
    }
  }

  lemma {:induction false} FilesSplit(entries: seq<Entry>, n: nat, l: string, r: string)
    requires n <= |entries|
    ensures FilesIn(entries[..n], l, r) <= FilesIn(entries, l, r)
    ensures FilesIn(entries[..n], l, r) == FilesIn(entries, l, r) <==>
              forall i :: n <= i < |entries| ==> !IsFile(entries[i], l)
  {
    hide FilesIn, FileOf, IsFile;
    if n == |entries| {
      assert entries[..n] == entries;
    } else {
      var m := |entries| - 1;
      FilesSplit(entries[..m], n, l, r);
      assert entries[..m][..n] == entries[..n];
      assert forall i :: 0 <= i < m ==> entries[..m][i] == entries[i];
      LastFile(entries, l, r);
      PartsSame(FilesIn(entries[..n], l, r), FilesIn(entries[..m], l, r), multiset{}, FileOf(entries[m], l, r));
      assert FilesIn(entries[..n], l, r) + multiset{} == FilesIn(entries[..n], l, r);
    }
  }

  lemma LastFile(entries: seq<Entry>, l: string, r: string)
    requires entries != []
    ensures var m := |entries| - 1;
            && FilesIn(entries, l, r) == FilesIn(entries[..m], l, r) + FileOf(entries[m], l, r)
            && (FileOf(entries[m], l, r) == multiset{} <==> !IsFile(entries[m], l))
  {
  }

  /** Nothing in the directory or below it would be listed. */
  ghost predicate Bare(dir: Node, l: string)
    decreases dir
  {
    Opens(dir) ==> forall e :: e in dir.entries ==>
      !IsFile(e, l) && (Subfolder(e, l) ==> Bare(e.node, Under(l, e.name, true)))
  }

  /** In every directory read, only the end of what there is to list was cut off, if anything. */
  ghost predicate Lossless(dir: Node, l: string)
    decreases dir
  {
    Opens(dir) ==>
      var n := FirstGone(dir.entries, l);
      && (forall i :: n <= i < |dir.entries| ==> !IsFile(dir.entries[i], l))
      && (forall e :: e in dir.entries && Subfolder(e, l) ==>
            if n == |dir.entries| then Lossless(e.node, Under(l, e.name, true))
            else Bare(e.node, Under(l, e.name, true)))
  }

  lemma {:induction false} BareIff(dir: Node, l: string, r: string)
    ensures Expected(dir, l, r) == multiset{} <==> Bare(dir, l)
    decreases dir, 1
  {
    if Opens(dir) {
      FilesAndBelow(dir.entries, l, r);
      FilesSplit(dir.entries, 0, l, r);
      assert dir.entries[..0] == [];
      BareBelow(dir, dir.entries, l, r);
      var f, b := FilesIn(dir.entries, l, r), ExpectedBelow(dir.entries, l, r);
      assert FilesIn([], l, r) == multiset{};
      PartsSame(multiset{}, f, multiset{}, b);
      hide FilesIn, ExpectedBelow, IsFile;
    }
  }

  lemma {:induction false} BareBelow(dir: Node, entries: seq<Entry>, l: string, r: string)
    requires dir.Folder? && entries <= dir.entries
    ensures ExpectedBelow(entries, l, r) == multiset{} <==>
              forall i :: 0 <= i < |entries| && Subfolder(entries[i], l) ==>
                Bare(entries[i].node, Under(l, entries[i].name, true))
    decreases dir, 0, |entries|
  {
    hide Expected, Bare, Subfolder, Under, ExpectedBelow;
    if entries == [] {
      NothingBelow(entries, l, r);
    } else {
      var m := |entries| - 1;
      var e := entries[m];
      assert e == dir.entries[m];
      BareBelow(dir, entries[..m], l, r);
      if Subfolder(e, l) {
        BareIff(e.node, Under(l, e.name, true), Under(r, e.name, true));
      }
      LastBelow(entries, l, r);
      PartsSame(multiset{}, ExpectedBelow(entries[..m], l, r), multiset{}, BelowOf(e, l, r));
    }
  }

  lemma NothingBelow(entries: seq<Entry>, l: string, r: string)
    requires entries == []
    ensures ExpectedBelow(entries, l, r) == multiset{}
  {
  }

  lemma LastBelow(entries: seq<Entry>, l: string, r: string)
    requires entries != []
    ensures var m := |entries| - 1;
            ExpectedBelow(entries, l, r) == ExpectedBelow(entries[..m], l, r) + BelowOf(entries[m], l, r)
  {
    hide Expected;
  }

  /** What is listed is part of what should be, and all of it exactly when nothing was lost. */
  lemma {:induction false} GotWithin(dir: Node, l: string, r: string)
    ensures Got(dir, l, r) <= Expected(dir, l, r)
    ensures Got(dir, l, r) == Expected(dir, l, r) <==> Lossless(dir, l)
    decreases dir, 1
  {
    hide FilesIn, ExpectedBelow, GotBelow, IsFile, FirstGone, Subfolder, Bare, ExpectedIn;
    if Opens(dir) {
      var n := FirstGone(dir.entries, l);
      FilesAndBelow(dir.entries, l, r);
      FilesSplit(dir.entries, n, l, r);
      GotBelowWithin(dir, dir.entries, l, r);
      BareBelow(dir, dir.entries, l, r);
      var below := if n == |dir.entries| then GotBelow(dir.entries, l, r) else multiset{};
      PartsSame(FilesIn(dir.entries[..n], l, r), FilesIn(dir.entries, l, r), below, ExpectedBelow(dir.entries, l, r));
      LosslessIs(dir, l);
      hide Lossless;
    }
  }

  lemma LosslessIs(dir: Node, l: string)
    requires Opens(dir)
    ensures var n := FirstGone(dir.entries, l);
            Lossless(dir, l) <==>
              && (forall i :: n <= i < |dir.entries| ==> !IsFile(dir.entries[i], l))
              && (forall i :: 0 <= i < |dir.entries| && Subfolder(dir.entries[i], l) ==>
                    var sub := dir.entries[i];
                    if n == |dir.entries| then Lossless(sub.node, Under(l, sub.name, true))
                    else Bare(sub.node, Under(l, sub.name, true)))
  {
    hide IsFile, Subfolder, FirstGone, Bare;
    assert forall i :: 0 <= i < |dir.entries| ==> dir.entries[i] in dir.entries;
  }

  lemma {:induction false} GotBelowWithin(dir: Node, entries: seq<Entry>, l: string, r: string)
    requires dir.Folder? && entries <= dir.entries
    ensures GotBelow(entries, l, r) <= ExpectedBelow(entries, l, r)
    ensures GotBelow(entries, l, r) == ExpectedBelow(entries, l, r) <==>
              forall i :: 0 <= i < |entries| && Subfolder(entries[i], l) ==>
                Lossless(entries[i].node, Under(l, entries[i].name, true))
    decreases dir, 0, |entries|
  {
    hide Expected, Got, Lossless;
    if entries != [] {
      var m := |entries| - 1;
      var e := entries[m];
      assert e == dir.entries[m];
      GotBelowWithin(dir, entries[..m], l, r);
      if Subfolder(e, l) {
        GotWithin(e.node, Under(l, e.name, true), Under(r, e.name, true));
      }
      PartsSame(GotBelow(entries[..m], l, r), ExpectedBelow(entries[..m], l, r), GotOf(e, l, r), BelowOf(e, l, r));
    }
  }

  /** No file of a directory that is read disappears between the two looks at it. */
  ghost predicate Steady(dir: Node, l: string)
    decreases dir
  {
    Opens(dir) ==>
      && FirstGone(dir.entries, l) == |dir.entries|
      && forall e :: e in dir.entries && Subfolder(e, l) ==> Steady(e.node, Under(l, e.name, true))
  }

  lemma {:induction false} SteadyLosesNothing(dir: Node, l: string)
    requires Steady(dir, l)
    ensures Lossless(dir, l)
    decreases dir
  {
    if Opens(dir) {
      forall e | e in dir.entries && Subfolder(e, l) ensures Lossless(e.node, Under(l, e.name, true)) {
        SteadyLosesNothing(e.node, Under(l, e.name, true));
      }
    }
  }

  /** What the walk lists is reached by a path, and all that is reached is listed if nothing was lost. */
  lemma GotIsReached(dir: Node, l: string, r: string)
    ensures forall ci :: ci in Got(dir, l, r) ==> Reached(dir, l, r, ci)
    ensures Lossless(dir, l) ==> forall ci :: Reached(dir, l, r, ci) ==> ci in Got(dir, l, r)
  {
    hide Got, Expected, Lossless, Reached;
    GotWithin(dir, l, r);
    forall ci ensures ci in Expected(dir, l, r) <==> Reached(dir, l, r, ci) {
      ExpectedIsReached(dir, l, r, ci);
    }
  }

  function LostFolder(st: FileStat): Node {
    Folder(true, [Entry("a", Vanished), Entry("b", Regular(st))])
  }

  lemma LostBelow(st: FileStat)
    ensures Got(LostFolder(st), "l/sub/", "r/sub/") == multiset{}
    ensures Info("l/sub/b", "r/sub/b", Kept(st)) in Expected(LostFolder(st), "l/sub/", "r/sub/")
  {
    hide Kept;
    var sub := LostFolder(st);
    assert Under("l/sub/", "b", false) == "l/sub/b" && Under("r/sub/", "b", false) == "r/sub/b";
    assert sub.entries[..1] == [Entry("a", Vanished)] && [Entry("a", Vanished)][..0] == [];
    assert FirstGone(sub.entries[..1], "l/sub/") == 0;
    assert sub.entries[..0] == [];
    assert Info("l/sub/b", "r/sub/b", Kept(st)) in ExpectedOf(sub.entries[1], "l/sub/", "r/sub/");
  }

  /** The run that loses a file: one vanishes in a subdirectory, and the walk still ends well without its neighbour. */
  lemma VanishedLoses(st: FileStat)
    ensures var root := Folder(true, [Entry("sub", LostFolder(st))]);
            && Scanned(root, "l/") && Got(root, "l/", "r/") == multiset{}
            && Info("l/sub/b", "r/sub/b", Kept(st)) in Expected(root, "l/", "r/")
  {
    hide Kept;
    LostBelow(st);
    var e := Entry("sub", LostFolder(st));
    var root := Folder(true, [e]);
    assert Under("l/", "sub", true) == "l/sub/" && Under("r/", "sub", true) == "r/sub/";
    assert [e][..0] == [];
    assert FirstGone([e], "l/") == 1 && [e][..1] == [e];
    assert FilesIn([e], "l/", "r/") == multiset{};
    assert GotOf(e, "l/", "r/") == multiset{};
    assert GotBelow([e], "l/", "r/") == multiset{};
    assert Info("l/sub/b", "r/sub/b", Kept(st)) in ExpectedOf(e, "l/", "r/");
    assert Info("l/sub/b", "r/sub/b", Kept(st)) in ExpectedIn([e], "l/", "r/");
  }

  // ---- every path once ----

  /** The part of a relative path before its first slash. */
  function FirstPart(s: string): string {
    if s == "" || s[0] == '/' then "" else [s[0]] + FirstPart(s[1..])
  }

  lemma {:induction false} FirstPartOf(name: string, rest: string)
    requires '/' !in name && (rest == "" || rest[0] == '/')
    ensures FirstPart(name + rest) == name
  {
    if name == "" {
      assert name + rest == rest;
    } else {
      assert (name + rest)[1..] == name[1..] + rest;
      FirstPartOf(name[1..], rest);
    }
  }

  /** Names within a directory are distinct and hold no slash. */
  ghost predicate WellNamed(dir: Node)
    decreases dir
  {
    dir.Folder? ==>
      && (forall i, j :: 0 <= i < j < |dir.entries| ==> dir.entries[i].name != dir.entries[j].name)
      && (forall e :: e in dir.entries ==> '/' !in e.name && WellNamed(e.node))
  }

  ghost predicate OncePerPath(m: multiset<Info>) {
    && (forall a :: m[a] <= 1)
    && (forall a, b :: a in m && b in m && a.src == b.src ==> a == b)
  }

  /** What an entry contributes lies under its own name. */
  lemma EntryPath(e: Entry, l: string, r: string, ci: Info)
    requires '/' !in e.name && ci in ExpectedOf(e, l, r)
    ensures l <= ci.src && FirstPart(ci.src[|l|..]) == e.name
  {
    if e.node.Folder? {
      ExpectedSwaps(e.node, Under(l, e.name, true), Under(r, e.name, true), ci);
      var rel :| ci.src == Under(l, e.name, true) + rel && ci.dst == Under(r, e.name, true) + rel;
      assert ci.src == l + (e.name + ("/" + rel));
      FirstPartOf(e.name, "/" + rel);
    } else {
      assert ci.src == l + (e.name + "");
      FirstPartOf(e.name, "");
    }
  }

  lemma {:induction false} EntriesPath(entries: seq<Entry>, l: string, r: string, ci: Info)
    requires ci in ExpectedIn(entries, l, r) && forall e :: e in entries ==> '/' !in e.name
    ensures l <= ci.src && exists e :: e in entries && FirstPart(ci.src[|l|..]) == e.name
  {
    var n := |entries| - 1;
    if ci in ExpectedOf(entries[n], l, r) {
      EntryPath(entries[n], l, r, ci);
    } else {
      EntriesPath(entries[..n], l, r, ci);
    }
  }

  /** No path is listed twice. */
  lemma {:induction false} EachPathOnce(dir: Node, l: string, r: string)
    requires WellNamed(dir)
    ensures OncePerPath(Expected(dir, l, r))
    decreases dir, 1
  {
    if dir.Folder? && dir.readable {
      EntriesOnce(dir, dir.entries, l, r);
    }
  }

  lemma {:induction false} EntriesOnce(dir: Node, entries: seq<Entry>, l: string, r: string)
    requires dir.Folder? && WellNamed(dir) && entries <= dir.entries
    ensures OncePerPath(ExpectedIn(entries, l, r))
    decreases dir, 0, |entries|
  {
    if entries != [] {
      hide ExpectedOf, OncePerPath;
      var n := |entries| - 1;
      var e := entries[n];
      assert e == dir.entries[n] && e in dir.entries;
      EntriesOnce(dir, entries[..n], l, r);
      EntryOnce(e, l, r);
      forall a, b | a in ExpectedIn(entries[..n], l, r) && b in ExpectedOf(e, l, r) ensures a.src != b.src {
        Apart(dir, entries, l, r, a, b);
      }
      UnionOnce(ExpectedIn(entries[..n], l, r), ExpectedOf(e, l, r));
    }
  }

  lemma {:induction false} EntryOnce(e: Entry, l: string, r: string)
    requires WellNamed(e.node)
    ensures OncePerPath(ExpectedOf(e, l, r))
    decreases e.node, 2
  {
    hide Expected, WellNamed;
    if e.node.Folder? {
      EachPathOnce(e.node, Under(l, e.name, true), Under(r, e.name, true));
    }
  }

  lemma UnionOnce(x: multiset<Info>, y: multiset<Info>)
    requires OncePerPath(x) && OncePerPath(y) && forall a, b :: a in x && b in y ==> a.src != b.src
    ensures OncePerPath(x + y)
  {
  }

  lemma Apart(dir: Node, entries: seq<Entry>, l: string, r: string, a: Info, b: Info)
    requires dir.Folder? && WellNamed(dir) && entries <= dir.entries && entries != []
    requires a in ExpectedIn(entries[..|entries| - 1], l, r) && b in ExpectedOf(entries[|entries| - 1], l, r)
    ensures a.src != b.src
  {
    var n := |entries| - 1;
    assert forall i :: 0 <= i <= n ==> entries[i] == dir.entries[i] && entries[i] in dir.entries;
    EntriesPath(entries[..n], l, r, a);
    EntryPath(entries[n], l, r, b);
    hide ExpectedIn, ExpectedOf, FirstPart;
  }

  /** So no path is listed twice by the walk. */
  lemma ListedOnce(dir: Node, l: string, r: string)
    requires WellNamed(dir)
    ensures OncePerPath(Got(dir, l, r))
  {
    hide Got, Expected, WellNamed, Lossless;
    EachPathOnce(dir, l, r);
    GotWithin(dir, l, r);
  }

  // ---- pushing ----

  const S_IFMT: bv32 := 0xf000
  const S_IFREG: bv32 := 0x8000
  const S_IFLNK: bv32 := 0xa000

  /** The file on the device is taken to be the same; for links only an older one counts as different. */
  predicate Current(ci: Info, there: Stat) {
    && there.size == ci.stat.size
    && (|| ((ci.stat.mode & there.mode) & S_IFMT == S_IFREG && there.time == ci.stat.time)
        || ((ci.stat.mode & there.mode) & S_IFMT == S_IFLNK && there.time >= ci.stat.time))
  }

  predicate IsRegular(mode: bv32) {
    mode & S_IFMT == S_IFREG
  }

  predicate IsLink(mode: bv32) {
    mode & S_IFMT == S_IFLNK
  }

  /**
   Between regular files the times must agree, between links the one there must not be older; a
   link against a regular file is judged like two regular files.
   */
  lemma CurrentMeans(ci: Info, there: Stat)
    requires (IsRegular(ci.stat.mode) || IsLink(ci.stat.mode)) && (IsRegular(there.mode) || IsLink(there.mode))
    ensures Current(ci, there) <==>
            && there.size == ci.stat.size
            && if IsLink(ci.stat.mode) && IsLink(there.mode) then there.time >= ci.stat.time
                  else there.time == ci.stat.time
  {
    CommonType(ci.stat.mode, there.mode);
  }

  /**
   Of two regular files: they are taken to be the same exactly when sizes and times agree in their
   low 32 bits, so the sizes do agree unless they are 4 GiB or a multiple of it apart.
   */
  lemma RegularCurrent(src: string, dst: string, here: FileStat, there: FileStat)
    requires IsRegular(here.mode) && IsRegular(there.mode)
    ensures Current(Info(src, dst, Kept(here)), Kept(there)) <==>
            (here.size - there.size) % WORD == 0 && (here.time - there.time) % WORD == 0
  {
    CurrentMeans(Info(src, dst, Kept(here)), Kept(there));
    SameWord(here.size, there.size);
    SameWord(here.time, there.time);
    NotBoth(here.mode);
  }

  lemma NotBoth(mode: bv32)
    requires IsRegular(mode)
    ensures !IsLink(mode)
  {
  }

  lemma SameWord(a: int, b: int)
    ensures a % WORD == b % WORD <==> (a - b) % WORD == 0
  {
  }

  /** A file that has grown by 4 GiB within the same second is not pushed. */
  lemma GrownNotPushed(src: string, dst: string, there: FileStat)
    requires IsRegular(there.mode)
    ensures Current(Info(src, dst, Kept(there.(size := there.size + WORD))), Kept(there))
  {
    RegularCurrent(src, dst, there.(size := there.size + WORD), there);
  }

  lemma CommonType(a: bv32, b: bv32)
    ensures (a & b) & S_IFMT == (a & S_IFMT) & (b & S_IFMT)
    ensures S_IFREG & S_IFREG == S_IFREG && S_IFREG & S_IFLNK == S_IFREG
    ensures S_IFLNK & S_IFREG == S_IFREG && S_IFLNK & S_IFLNK == S_IFLNK && S_IFREG != S_IFLNK
  {
  }

  function Stale(list: seq<Info>, answers: string -> Stat): seq<Info> {
    if list == [] then []
    else
      var n := |list| - 1;
      Stale(list[..n], answers) + (if Current(list[n], answers(list[n].dst)) then [] else [list[n]])
  }

  lemma NoneStale(answers: string -> Stat)
    ensures Stale([], answers) == []
  {
  }

  lemma StaleStep(list: seq<Info>, i: nat, answers: string -> Stat)
    requires i < |list|
    ensures Stale(list[..i + 1], answers) ==
            if Current(list[i], answers(list[i].dst)) then Stale(list[..i], answers)
                  else Stale(list[..i], answers) + [list[i]]
  {
    assert list[..i + 1][..i] == list[..i];
  }

  /** `out` is what is picked from the list at the places `at`, in order: where the file there is not current. */
  ghost predicate PickedAt(list: seq<Info>, out: seq<Info>, answers: string -> Stat, at: seq<nat>) {
    && |at| == |out|
    && (forall k :: 0 <= k < |at| ==> at[k] < |list| && out[k] == list[at[k]])
    && (forall j, k :: 0 <= j < k < |at| ==> at[j] < at[k])
    && (forall i :: 0 <= i < |list| ==> (i in at <==> !Current(list[i], answers(list[i].dst))))
  }

  ghost predicate Picked(list: seq<Info>, out: seq<Info>, answers: string -> Stat) {
    exists at :: PickedAt(list, out, answers, at)
  }

  /** What is stale is each file that is not current, once for each time it is listed, in the order of the list. */
  lemma {:induction false} StalePicked(list: seq<Info>, answers: string -> Stat)
    ensures Picked(list, Stale(list, answers), answers)
  {
    hide Current;
    if list == [] {
      assert PickedAt(list, [], answers, []);
    } else {
      var n := |list| - 1;
      StalePicked(list[..n], answers);
      var at :| PickedAt(list[..n], Stale(list[..n], answers), answers, at);
      assert forall i :: 0 <= i < n ==> list[..n][i] == list[i];
      PickMore(list, Stale(list[..n], answers), answers, at);
    }
  }

  lemma PickMore(list: seq<Info>, out: seq<Info>, answers: string -> Stat, at: seq<nat>)
    requires list != [] && PickedAt(list[..|list| - 1], out, answers, at)
    ensures var n := |list| - 1;
            if Current(list[n], answers(list[n].dst)) then PickedAt(list, out + [], answers, at)
            else PickedAt(list, out + [list[n]], answers, at + [n])
  {
    hide Current;
    var n := |list| - 1;
    assert forall i :: 0 <= i < n ==> list[..n][i] == list[i];
    assert out + [] == out && n !in at;
  }

  /** None of the coming calls fails. */
  ghost predicate Sound(faults: seq<bool>) {
    forall i :: 0 <= i < |faults| ==> !faults[i]
  }

  /**
   The sync connection: requests are answered in the order they were written. `faults` says which of
   the coming calls fail.
   */
  class Connection {
    const answers: string -> Stat
    var asked: seq<string>
    var answered: nat
    var sent: seq<Info>
    var faults: seq<bool>

    constructor (answers: string -> Stat, faults: seq<bool>)
      ensures asked == [] && answered == 0 && sent == [] && this.answers == answers && this.faults == faults
    {
      this.answers, this.faults, asked, answered, sent := answers, faults, [], 0, [];
    }

    method Faulty() returns (bad: bool)
      modifies `faults
      ensures Sound(old(faults)) ==> !bad && Sound(faults)
    {
      if faults == [] { return false; }
      bad, faults := faults[0], faults[1..];
    }

    /** sync_start_readtime. */
    method StartReadTime(path: string) returns (ok: bool)
      modifies `asked, `faults
      ensures asked == if ok then old(asked) + [path] else old(asked)
      ensures Sound(old(faults)) ==> ok && Sound(faults)
    {
      var bad := Faulty();
      if bad { return false; }
      asked := asked + [path];
      return true;
    }

    /** sync_finish_readtime: the next reply belongs to the oldest unanswered request. */
    method FinishReadTime() returns (r: Option<Stat>)
      requires answered < |asked|
      modifies `answered, `faults
      ensures r.Some? ==> r.value == answers(asked[old(answered)]) && answered == old(answered) + 1
      ensures Sound(old(faults)) ==> r.Some? && Sound(faults)
    {
      var bad := Faulty();
      if bad { return None; }
      answered := answered + 1;
      return Some(answers(asked[answered - 1]));
    }

    method Send(ci: Info) returns (ok: bool)
      modifies `sent, `faults
      ensures sent == if ok then old(sent) + [ci] else old(sent)
      ensures Sound(old(faults)) ==> ok && Sound(faults)
    {
      var bad := Faulty();
      if bad { return false; }
      sent := sent + [ci];
      return true;
    }

    /** All requests go out before the first reply is read; every file gets the verdict of its own reply. */
    method CheckTimes(list: seq<Info>) returns (ok: bool, flags: seq<bool>)
      requires answered == |asked|
      modifies `asked, `answered, `faults
      ensures ok ==> |flags| == |list| && asked == old(asked) + seq(|list|, i requires 0 <= i < |list| => list[i].dst)
      ensures ok ==> forall i :: 0 <= i < |list| ==> flags[i] == Current(list[i], answers(list[i].dst))
      ensures Sound(old(faults)) ==> ok && Sound(faults)
    {
      hide Current;
      flags := [];
      for i := 0 to |list|
        invariant asked == old(asked) + seq(i, j requires 0 <= j < i => list[j].dst) && answered == |old(asked)|
        invariant Sound(old(faults)) ==> Sound(faults)
      {
        var started := StartReadTime(list[i].dst);
        if !started { return false, flags; }
      }
      for i := 0 to |list|
        invariant |flags| == i && answered == |old(asked)| + i
        invariant asked == old(asked) + seq(|list|, j requires 0 <= j < |list| => list[j].dst)
        invariant forall j :: 0 <= j < i ==> flags[j] == Current(list[j], answers(list[j].dst))
        invariant Sound(old(faults)) ==> Sound(faults)
      {
        var reply := FinishReadTime();
        if reply.None? { return false, flags; }
        assert asked[|old(asked)| + i] == list[i].dst;
        flags := flags + [Current(list[i], reply.value)];
      }
      return true, flags;
    }

    /**
     The end of copy_local_dir_remote: on a completed run the files pushed are exactly those whose own
     reply is not current, in order, and pushed and skipped add up to the list.
     */
    method Push(list: seq<Info>, check: bool, listOnly: bool) returns (r: int, pushed: nat, skipped: nat)
      requires answered == |asked|
      modifies this
      ensures r == 0 || r == 1
      ensures r == 0 ==> pushed + skipped == |list| && pushed == |if check then Stale(list, answers) else list|
      ensures r == 0 ==> sent == old(sent) + if listOnly then [] else if check then Stale(list, answers) else list
      ensures r == 0 && check && !listOnly ==> Picked(list, sent[|old(sent)|..], answers)
      ensures Sound(old(faults)) ==> r == 0
    {
      hide Current, Stale, Picked;
      NoneStale(answers);
      assert list[..0] == [];
      var flags := seq(|list|, i => false);
      pushed, skipped := 0, 0;
      if check {
        var ok, found := CheckTimes(list);
        if !ok { return 1, pushed, skipped; }
        flags := found;
      }
      ghost var picked: seq<Info> := [];
      for i := 0 to |list|
        invariant pushed + skipped == i && pushed == |picked|
        invariant picked == if check then Stale(list[..i], answers) else list[..i]
        invariant sent == old(sent) + if listOnly then [] else picked
        invariant Sound(old(faults)) ==> Sound(faults)
      {
        StaleStep(list, i, answers);
        assert list[..i + 1] == list[..i] + [list[i]];
        if !flags[i] {
          if !listOnly {
            var done := Send(list[i]);
            if !done { return 1, pushed, skipped; }
          }
          picked := picked + [list[i]];
          pushed := pushed + 1;
        } else {
          skipped := skipped + 1;
        }
      }
      assert list[..|list|] == list;
      StalePicked(list, answers);
      assert check && !listOnly ==> sent[|old(sent)|..] == Stale(list, answers);
      return 0, pushed, skipped;
    }

    /** copy_local_dir_remote: both paths get their slash, the tree is listed and what is stale is pushed. */
    method CopyDir(lpath: string, rpath: string, dir: Node, check: bool, listOnly: bool)
      returns (r: int, list: seq<Info>)
      requires answered == |asked|
      modifies this
      ensures r == -1 <==> lpath == "" || rpath == "" || !Scanned(dir, Slashed(lpath))
      ensures r == -1 ==> sent == old(sent) && asked == old(asked)
      ensures r != -1 ==> multiset(list) == Got(dir, Slashed(lpath), Slashed(rpath))
      ensures r != -1 ==> forall ci :: ci in list ==> Reached(dir, Slashed(lpath), Slashed(rpath), ci)
      ensures r != -1 && Lossless(dir, Slashed(lpath)) ==>
                forall ci :: Reached(dir, Slashed(lpath), Slashed(rpath), ci) ==> ci in list
      ensures r == 0 && !listOnly ==> sent == old(sent) + if check then Stale(list, answers) else list
      ensures r == 0 && !listOnly && check ==> Picked(list, sent[|old(sent)|..], answers)
      ensures Sound(old(faults)) && r != -1 ==> r == 0
    {
      hide Got, Lossless, Reached, Stale, Picked;
      list := [];
      if lpath == "" || rpath == "" { return -1, list; }
      var ok;
      list, ok := BuildList([], Slashed(lpath), Slashed(rpath), dir);
      if !ok { return -1, list; }
      GotIsReached(dir, Slashed(lpath), Slashed(rpath));
      assert forall ci :: ci in list <==> ci in multiset(list);
      var pushed, skipped;
      r, pushed, skipped := Push(list, check, listOnly);
    }
  }

  /** The path as a directory's: exactly one slash more, unless it ends in one. */
  function Slashed(path: string): (r: string)
    ensures path != "" ==> |r| > 0 && r[|r| - 1] == '/' && (r == path || (r == path + "/" && path[|path| - 1] != '/'))
  {
    if path == "" || path[|path| - 1] == '/' then path else path + "/"
  }
}
