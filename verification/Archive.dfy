/** The backup helper: a tree written as a tar archive, checked, and unpacked into an emptied root. */
module Archive {
  import opened Common

  newtype int64 = x: int | -0x8000_0000_0000_0000 <= x < 0x8000_0000_0000_0000

  const MAXIMUM_FILES := 1_000_000
  const MAXIMUM_EXPANDED_BYTES: int64 := 107_374_182_400 // 100 << 30
  const MAXIMUM_PATH_BYTES := 4096

  // ---------------------------------------------------------------- names

  /** Go's path.Clean, by its documented rules, on the slash-separated elements. */
  function CleanParts(parts: seq<string>, rooted: bool, out: seq<string>): seq<string>
  {
    if parts == [] then out
    else if parts[0] == "" || parts[0] == "." then CleanParts(parts[1..], rooted, out)
    else if parts[0] != ".." then CleanParts(parts[1..], rooted, out + [parts[0]])
    else if out != [] && out[|out| - 1] != ".." then CleanParts(parts[1..], rooted, out[..|out| - 1])
    else if rooted then CleanParts(parts[1..], rooted, out)
    else CleanParts(parts[1..], rooted, out + [".."])
  }

  function Clean(name: string): string
  {
    if name == "" then "."
    else
      var rooted := name[0] == '/';
      var kept := Join(CleanParts(SplitOn(name, '/'), rooted, []), "/");
      if rooted then "/" + kept else if kept == "" then "." else kept
  }

  /** A name is a string of bytes. */
  predicate SafeArchivePath(name: string)
  {
    && 0 < |name| <= MAXIMUM_PATH_BYTES
    && (forall c :: c in name ==> c != '\\' && c != '\0')
    && name[0] != '/' && Clean(name) == name && name != ".." && !("../" <= name)
  }

  predicate Proper(part: string) { part != "" && part != "." && part != ".." }

  type Path = seq<string>

  /** Where an entry lies below the root; [] is the root itself. */
  function PathOf(name: string): Path
  {
    if name == "." then [] else SplitOn(name, '/')
  }

  lemma {:induction false} ProperStays(parts: seq<string>, out: seq<string>)
    requires forall p :: p in parts ==> Proper(p)
    ensures CleanParts(parts, false, out) == out + parts
  {
    if parts != [] {
      assert parts[0] in parts && forall p :: p in parts[1..] ==> p in parts;
      ProperStays(parts[1..], out + [parts[0]]);
      assert out + [parts[0]] + parts[1..] == out + parts;
    }
  }

  /** Elements that climb stand only in front. */
  predicate Climbs(out: seq<string>)
  {
    && (forall p :: p in out ==> p != "" && p != "." && '/' !in p)
    && (forall i :: 0 < i < |out| && out[i] == ".." ==> out[i - 1] == "..")
  }

  lemma {:induction false} CleanClimbs(parts: seq<string>, out: seq<string>)
    requires Climbs(out) && forall p :: p in parts ==> '/' !in p
    ensures Climbs(CleanParts(parts, false, out))
  {
    if parts != [] {
      assert parts[0] in parts;
      if parts[0] == "" || parts[0] == "." {
        CleanClimbs(parts[1..], out);
      } else if parts[0] != ".." {
        CleanClimbs(parts[1..], out + [parts[0]]);
      } else if out != [] && out[|out| - 1] != ".." {
        CleanClimbs(parts[1..], out[..|out| - 1]);
      } else {
        CleanClimbs(parts[1..], out + [".."]);
      }
    }
  }

  lemma {:induction false} ClimbsFromFront(out: seq<string>, i: nat)
    requires Climbs(out) && i < |out|
    ensures out[i] == ".." ==> out[0] == ".."
  {
    if i > 0 { ClimbsFromFront(out, i - 1); }
  }

  /** What the string test means: the name is `.`, or a path of proper elements that stays below the root. */
  lemma SafeIff(name: string)
    ensures SafeArchivePath(name) <==>
      |name| <= MAXIMUM_PATH_BYTES && (forall c :: c in name ==> c != '\\' && c != '\0')
      && forall p :: p in PathOf(name) ==> Proper(p)
  {
    var parts := SplitOn(name, '/');
    JoinSplit(name, '/');
    if name != "." && forall p :: p in parts ==> Proper(p) { ProperIsSafe(name); }
    if SafeArchivePath(name) && name != "." { SafeIsProper(name); }
    if name == "." {
      assert SplitOn(".", '/') == ["."];
      assert CleanParts(["."], false, []) == CleanParts([], false, []);
      assert Clean(".") == ".";
    }
  }

  lemma ProperIsSafe(name: string)
    requires forall p :: p in SplitOn(name, '/') ==> Proper(p)
    ensures name != "" && name[0] != '/' && Clean(name) == name && name != ".." && !("../" <= name)
  {
    var parts := SplitOn(name, '/');
    JoinSplit(name, '/');
    ProperStays(parts, []);
    DotsFirst(name);
    assert [] + parts == parts && parts[0] in parts;
  }

  lemma DotsFirst(name: string)
    ensures name == ".." || "../" <= name ==> SplitOn(name, '/')[0] == ".."
  {
    if "../" <= name {
      assert name == ".." + ("/" + name[3..]);
      SplitPrefix("..", "/" + name[3..], '/');
      assert ("/" + name[3..])[1..] == name[3..];
      assert ".." + "" == "..";
    } else if name == ".." {
      SplitJoin([".."], '/');
    }
  }

  lemma DotsJoined(out: seq<string>)
    requires out != []
    ensures out[0] == ".." ==> Join(out, "/") == ".." || "../" <= Join(out, "/")
  {
    if out[0] == ".." && |out| > 1 { assert Join(out, "/") == "../" + Join(out[1..], "/"); }
  }

  lemma SafeIsProper(name: string)
    requires SafeArchivePath(name) && name != "."
    ensures forall p :: p in SplitOn(name, '/') ==> Proper(p)
  {
    var parts := SplitOn(name, '/');
    JoinSplit(name, '/');
    var out := CleanParts(parts, false, []);
    SplitParts(name, '/');
    CleanClimbs(parts, []);
    assert name == Join(out, "/") && out != [];
    SplitJoin(out, '/');
    DotsJoined(out);
    forall p | p in out ensures Proper(p) {
      var i :| 0 <= i < |out| && out[i] == p;
      ClimbsFromFront(out, i);
    }
  }

  lemma PathsDistinct(a: string, b: string)
    requires SafeArchivePath(a) && SafeArchivePath(b)
    ensures PathOf(a) == PathOf(b) ==> a == b
  {
    JoinSplit(a, '/');
    JoinSplit(b, '/');
  }

  // ---------------------------------------------------------------- archives

  datatype Kind = Directory | Regular | OtherKind
  datatype Header = Header(name: string, kind: Kind, mode: bv16, uid: int, gid: int, size: int64, modified: int)

  /** What a tar reader yields next: an entry with its content, or an error for the rest of the stream. */
  datatype Item = Entry(header: Header, content: seq<int>) | Broken

  datatype Fault = InvalidTar | SafetyLimit | UnsafeType | DuplicateEntry | SizeLimit

  /** The expanded size of the first `n` entries. */
  function Total(items: seq<Item>, n: nat): int
    requires n <= |items|
  {
    if n == 0 then 0
    else Total(items, n - 1) + if items[n - 1].Entry? && items[n - 1].header.kind == Regular
      then items[n - 1].header.size as int else 0
  }

  predicate HeaderSafe(h: Header)
  {
    SafeArchivePath(h.name) && h.size >= 0 && h.uid >= 0 && h.gid >= 0 && h.kind != OtherKind
  }

  ghost predicate SafeUpTo(items: seq<Item>, n: nat)
    requires n <= |items|
  {
    && n <= MAXIMUM_FILES && Total(items, n) <= MAXIMUM_EXPANDED_BYTES as int
    && (forall i :: 0 <= i < n ==> items[i].Entry? && HeaderSafe(items[i].header))
    && (forall i, j :: 0 <= i < j < n ==> items[i].header.name != items[j].header.name)
  }

  ghost predicate Acceptable(items: seq<Item>) { SafeUpTo(items, |items|) }

  lemma {:induction false} TotalMonotone(items: seq<Item>, n: nat, m: nat)
    requires n <= m <= |items| && forall i :: 0 <= i < m && items[i].Entry? ==> items[i].header.size >= 0
    ensures 0 <= Total(items, n) <= Total(items, m)
  {
    if n < m { TotalMonotone(items, n, m - 1); } else if n > 0 { TotalMonotone(items, n - 1, n - 1); }
  }

  lemma NeverAcceptable(items: seq<Item>, n: nat)
    requires n < |items| && !SafeUpTo(items, n + 1)
    ensures !Acceptable(items)
  {
    if Acceptable(items) { TotalMonotone(items, n + 1, |items|); }
  }

  /** The running state of one walk over an archive. */
  class Walk {
    var seen: set<string>
    var count: nat
    var total: int64

    constructor ()
      ensures seen == {} && count == 0 && total == 0
    {
      seen, count, total := {}, 0, 0;
    }

    ghost predicate Follows(items: seq<Item>, n: nat)
      reads this
      requires n <= |items|
    {
      && SafeUpTo(items, n) && count == n && total as int == Total(items, n) && total >= 0
      && (forall name :: name in seen <==> exists i :: 0 <= i < n && items[i].header.name == name)
    }

    /** The checks on one entry; without a fault the walk goes on, and the sum cannot have wrapped. */
    method Admit(ghost items: seq<Item>, ghost n: nat, h: Header) returns (fault: Option<Fault>)
      requires n < |items| && items[n].Entry? && items[n].header == h && Follows(items, n)
      modifies this
      ensures fault.None? <==> SafeUpTo(items, n + 1)
      ensures fault.None? ==> Follows(items, n + 1)
    {
      count := count + 1;
      if count > MAXIMUM_FILES || !SafeArchivePath(h.name) || h.size < 0 || h.uid < 0 || h.gid < 0 {
        return Some(SafetyLimit);
      }
      if h.kind != Directory && h.kind != Regular { return Some(UnsafeType); }
      var clean := Clean(h.name);
      if clean in seen { return Some(DuplicateEntry); }
      seen := seen + {clean};
      if h.kind == Regular {
        if h.size > MAXIMUM_EXPANDED_BYTES - total { return Some(SizeLimit); }
        total := total + h.size;
      }
      return None;
    }
  }

  /** A walk that visits nothing: it ends well exactly on the archives that are safe throughout. */
  method ValidateArchive(items: seq<Item>) returns (fault: Option<Fault>)
    ensures fault.None? <==> Acceptable(items)
  {
    var walk := new Walk();
    for i := 0 to |items|
      invariant walk.Follows(items, i)
    {
      if items[i].Broken? { return Some(InvalidTar); }
      var f := walk.Admit(items, i, items[i].header);
      if f.Some? {
        NeverAcceptable(items, i);
        return f;
      }
    }
    return None;
  }

  // ---------------------------------------------------------------- the file tree

  datatype Node =
    | Dir(mode: bv16, uid: int, gid: int, modified: int)
    | File(mode: bv16, uid: int, gid: int, modified: int, content: seq<int>)
    | Special   // a link, a socket, a device

  type Nodes = map<Path, Node>

  function Parent(p: Path): Path
    requires p != []
  {
    p[..|p| - 1]
  }

  predicate AtOrAbove(q: Path, p: Path) { q <= p }

  function Touched(d: Node, time: int): Node
    requires d.Dir?
  {
    Dir(d.mode, d.uid, d.gid, time)
  }

  predicate IsDir(nodes: Nodes, p: Path) { p in nodes && nodes[p].Dir? }

  /** A tree: every node lies in a directory of it, down from the root. */
  ghost predicate Closed(nodes: Nodes)
  {
    IsDir(nodes, []) && forall p {:trigger Parent(p)} :: p in nodes && p != [] ==> IsDir(nodes, Parent(p))
  }

  lemma {:induction false} AncestorsAreDirs(nodes: Nodes, q: Path, p: Path)
    requires Closed(nodes) && p in nodes && AtOrAbove(q, p) && q != p
    ensures IsDir(nodes, q)
    decreases |p|
  {
    var parent := Parent(p);
    if q != parent {
      assert q <= parent;
      AncestorsAreDirs(nodes, q, parent);
    }
  }

  function PathAt(items: seq<Item>, k: nat): Path
    requires k < |items|
  {
    if items[k].Entry? then PathOf(items[k].header.name) else []
  }

  predicate RegularAt(items: seq<Item>, k: nat)
    requires k < |items|
  {
    items[k].Entry? && items[k].header.kind == Regular
  }

  /** Extraction keeps owners and times, of modes what is under 0o777 or, for files, 0o666 and the umask. */
  function Restored(item: Item, umask: bv16): Node
    requires item.Entry?
  {
    var h := item.header;
    if h.kind == Regular then File(h.mode & 0x1b6 & !umask, h.uid, h.gid, h.modified, item.content)
    else Dir(h.mode & 0x1ff, h.uid, h.gid, h.modified)
  }

  /** No regular file stands where the root, or a directory above another entry, must be. */
  ghost predicate Unblocked(items: seq<Item>)
  {
    forall i :: 0 <= i < |items| && RegularAt(items, i) ==>
      PathAt(items, i) != [] && forall j :: 0 <= j < |items| && PathAt(items, i) <= PathAt(items, j) ==> j == i
  }

  function NameOf(p: Path): string { Join(p, "/") }

  /** A file system's limits: of an element, of a whole path, and the length of the root's own path. */
  datatype Limits = Limits(element: nat, path: nat, root: nat)

  /** The path can be created below the root; longer ones fail with ENAMETOOLONG. */
  predicate Fits(limits: Limits, p: Path)
  {
    && (forall part :: part in p ==> |part| <= limits.element)
    && (p != [] ==> limits.root + 1 + |NameOf(p)| <= limits.path)
  }

  ghost predicate FitUpTo(limits: Limits, items: seq<Item>, n: nat)
    requires n <= |items|
  {
    forall k :: 0 <= k < n ==> Fits(limits, PathAt(items, k))
  }

  /** Every entry fits below the root, and none stands in the way of another. */
  ghost predicate Extractable(items: seq<Item>, limits: Limits)
  {
    Unblocked(items) && FitUpTo(limits, items, |items|)
  }

  lemma {:induction false} JoinShorter(parts: seq<string>, sep: string, n: nat)
    requires n <= |parts|
    ensures |Join(parts[..n], sep)| <= |Join(parts, sep)|
  {
    if |parts| > 1 && n > 0 {
      JoinShorter(parts[1..], sep, n - 1);
      assert parts[..n][1..] == parts[1..][..n - 1];
    } else if n == |parts| {
      assert parts[..n] == parts;
    } else {
      assert parts[..n] == [];
    }
  }

  lemma FitsAbove(limits: Limits, q: Path, p: Path)
    requires AtOrAbove(q, p) && Fits(limits, p)
    ensures Fits(limits, q)
  {
    JoinShorter(p, "/", |q|);
    assert p[..|q|] == q;
  }

  /** A content cut short is followed by the reader's error. */
  predicate FramedAt(items: seq<Item>, i: nat)
    requires i < |items|
  {
    RegularAt(items, i) && |items[i].content| != items[i].header.size as int ==> i + 1 < |items| && items[i + 1].Broken?
  }

  ghost predicate Framed(items: seq<Item>)
  {
    forall i :: 0 <= i < |items| ==> FramedAt(items, i)
  }

  /** At or above one of the first `n` entries. */
  ghost predicate Covered(items: seq<Item>, n: nat, p: Path)
    requires n <= |items|
  {
    exists k :: 0 <= k < n && AtOrAbove(p, PathAt(items, k))
  }

  ghost predicate FileEntry(items: seq<Item>, n: nat, p: Path)
    requires n <= |items|
  {
    exists k :: 0 <= k < n && RegularAt(items, k) && PathAt(items, k) == p
  }

  /** The tree while the first `n` entries are unpacked; directory attributes are still open. */
  ghost predicate Built(nodes: Nodes, items: seq<Item>, n: nat, umask: bv16)
    requires n <= |items|
  {
    && Closed(nodes)
    && (forall p :: p in nodes ==> nodes[p].Dir? || nodes[p].File?)
    && (forall p {:trigger Covered(items, n, p)} :: p in nodes && p != [] ==> Covered(items, n, p))
    && (forall k :: 0 <= k < n ==> items[k].Entry? && PathAt(items, k) in nodes)
    && (forall k :: 0 <= k < n && RegularAt(items, k) ==> nodes[PathAt(items, k)] == Restored(items[k], umask))
    && (forall p {:trigger FileEntry(items, n, p)} :: p in nodes && nodes[p].File? ==> FileEntry(items, n, p))
  }

  /** What extraction leaves: exactly the entries and the directories above them, each entry as recorded. */
  ghost predicate Unpacked(nodes: Nodes, items: seq<Item>, umask: bv16)
  {
    && Closed(nodes)
    && (forall p {:trigger Covered(items, |items|, p)} :: p in nodes && p != [] ==> Covered(items, |items|, p))
    && (forall k :: 0 <= k < |items| ==>
        items[k].Entry? && PathAt(items, k) in nodes && nodes[PathAt(items, k)] == Restored(items[k], umask))
  }

  /** What making directories down to `p` changes. */
  ghost predicate Grown(before: Nodes, nodes: Nodes, p: Path)
  {
    && Closed(nodes) && (forall q :: q in nodes <==> q in before || AtOrAbove(q, p))
    && (forall q :: q in nodes ==> if q in before && !before[q].Dir? then nodes[q] == before[q] else nodes[q].Dir?)
  }

  lemma FileBlocks(nodes: Nodes, items: seq<Item>, n: nat, umask: bv16, q: Path)
    requires n < |items| && Built(nodes, items, n, umask) && q in nodes && !nodes[q].Dir?
      && AtOrAbove(q, PathAt(items, n))
    ensures !Unblocked(items)
  {
    assert FileEntry(items, n, q);
  }

  /** What has been unpacked fits. */
  lemma NodesFit(nodes: Nodes, items: seq<Item>, n: nat, umask: bv16, limits: Limits, p: Path)
    requires n <= |items| && Built(nodes, items, n, umask) && FitUpTo(limits, items, n) && p in nodes
    ensures Fits(limits, p)
  {
    if p != [] {
      assert Covered(items, n, p);
      var k :| 0 <= k < n && AtOrAbove(p, PathAt(items, k));
      FitsAbove(limits, p, PathAt(items, k));
    }
  }

  lemma PlaceTaken(nodes: Nodes, items: seq<Item>, n: nat, umask: bv16)
    requires n < |items| && RegularAt(items, n) && Built(nodes, items, n, umask) && PathAt(items, n) in nodes
    ensures !Unblocked(items)
  {
    if PathAt(items, n) != [] {
      assert Covered(items, n, PathAt(items, n));
    }
  }

  lemma BuiltDirectory(before: Nodes, nodes: Nodes, items: seq<Item>, n: nat, umask: bv16)
    requires n < |items| && items[n].Entry? && !RegularAt(items, n) && Built(before, items, n, umask)
    requires Grown(before, nodes, PathAt(items, n))
    ensures Built(nodes, items, n + 1, umask)
  {
    forall p | p in nodes
      ensures (p != [] ==> Covered(items, n + 1, p)) && (nodes[p].File? ==> FileEntry(items, n + 1, p))
        && (nodes[p].Dir? || nodes[p].File?)
    {
      BuiltDirectoryNames(before, nodes, items, n, umask, p);
    }
    forall k | 0 <= k < n + 1
      ensures items[k].Entry? && PathAt(items, k) in nodes
        && (RegularAt(items, k) ==> nodes[PathAt(items, k)] == Restored(items[k], umask))
    {
      if k < n {
        assert items[k].Entry? && PathAt(items, k) in before;
        if RegularAt(items, k) { assert before[PathAt(items, k)] == Restored(items[k], umask); }
      }
    }
  }

  lemma BuiltDirectoryNames(before: Nodes, nodes: Nodes, items: seq<Item>, n: nat, umask: bv16, p: Path)
    requires n < |items| && items[n].Entry? && !RegularAt(items, n) && Built(before, items, n, umask)
    requires Grown(before, nodes, PathAt(items, n)) && p in nodes
    ensures p != [] ==> Covered(items, n + 1, p)
    ensures nodes[p].File? ==> FileEntry(items, n + 1, p)
    ensures nodes[p].Dir? || nodes[p].File?
  {
    if p in before { assert p != [] ==> Covered(items, n, p); }
    if nodes[p].File? { assert FileEntry(items, n, p); }
  }

  /** What putting a new file at `p` changes. */
  ghost predicate Placed(before: Nodes, nodes: Nodes, p: Path, node: Node)
  {
    && Closed(nodes) && (forall q :: q in nodes <==> q in before || AtOrAbove(q, p))
    && p in nodes && nodes[p] == node
    && (forall q :: q in nodes && q != p ==>
        if q in before && !before[q].Dir? then nodes[q] == before[q] else nodes[q].Dir?)
  }

  lemma BuiltFileNames(before: Nodes, nodes: Nodes, items: seq<Item>, n: nat, umask: bv16, q: Path)
    requires n < |items| && RegularAt(items, n) && Built(before, items, n, umask)
    requires Placed(before, nodes, PathAt(items, n), Restored(items[n], umask)) && q in nodes
    ensures q != [] ==> Covered(items, n + 1, q)
    ensures nodes[q].File? ==> FileEntry(items, n + 1, q)
  {
    if q in before { assert q != [] ==> Covered(items, n, q); }
    if nodes[q].File? && q != PathAt(items, n) { assert FileEntry(items, n, q); }
  }

  lemma BuiltFileEntries(before: Nodes, nodes: Nodes, items: seq<Item>, n: nat, umask: bv16, k: nat)
    requires n < |items| && RegularAt(items, n) && Built(before, items, n, umask) && k <= n
    requires PathAt(items, n) !in before && Placed(before, nodes, PathAt(items, n), Restored(items[n], umask))
    ensures items[k].Entry? && PathAt(items, k) in nodes
    ensures RegularAt(items, k) ==> nodes[PathAt(items, k)] == Restored(items[k], umask)
  {
    if k < n {
      assert items[k].Entry? && PathAt(items, k) in before;
      if RegularAt(items, k) { assert before[PathAt(items, k)] == Restored(items[k], umask); }
    }
  }

  lemma BuiltFile(before: Nodes, nodes: Nodes, items: seq<Item>, n: nat, umask: bv16)
    requires n < |items| && RegularAt(items, n) && Built(before, items, n, umask)
    requires PathAt(items, n) !in before && Placed(before, nodes, PathAt(items, n), Restored(items[n], umask))
    ensures Built(nodes, items, n + 1, umask)
  {
    forall q | q in nodes
      ensures (q != [] ==> Covered(items, n + 1, q)) && (nodes[q].File? ==> FileEntry(items, n + 1, q))
        && (nodes[q].Dir? || nodes[q].File?)
    {
      BuiltFileNames(before, nodes, items, n, umask, q);
    }
    forall k | 0 <= k < n + 1
      ensures items[k].Entry? && PathAt(items, k) in nodes
        && (RegularAt(items, k) ==> nodes[PathAt(items, k)] == Restored(items[k], umask))
    {
      BuiltFileEntries(before, nodes, items, n, umask, k);
    }
  }

  lemma PlacedAfter(before: Nodes, made: Nodes, nodes: Nodes, p: Path, node: Node)
    requires p != [] && p !in made && Grown(before, made, Parent(p)) && Closed(nodes)
    requires nodes.Keys == made.Keys + {p} && nodes[p] == node
    requires forall q :: q in made ==> if made[q].Dir? then nodes[q].Dir? else nodes[q] == made[q]
    ensures Placed(before, nodes, p, node)
  {
    forall q ensures AtOrAbove(q, p) <==> AtOrAbove(q, Parent(p)) || q == p { PrefixOfParent(q, p); }
  }

  lemma PrefixOfParent(q: Path, p: Path)
    requires p != []
    ensures AtOrAbove(q, p) <==> AtOrAbove(q, Parent(p)) || q == p
  {
    if AtOrAbove(q, p) && |q| < |p| { assert q == Parent(p)[..|q|]; }
  }

  lemma GrownAfter(before: Nodes, made: Nodes, nodes: Nodes, p: Path)
    requires p != [] && p !in made && Grown(before, made, Parent(p)) && Closed(nodes)
    requires nodes.Keys == made.Keys + {p} && nodes[p].Dir?
    requires forall q :: q in made ==> if made[q].Dir? then nodes[q].Dir? else nodes[q] == made[q]
    ensures Grown(before, nodes, p)
  {
    forall q ensures AtOrAbove(q, p) <==> AtOrAbove(q, Parent(p)) || q == p { PrefixOfParent(q, p); }
  }

  lemma BuiltIsUnblocked(nodes: Nodes, items: seq<Item>, umask: bv16)
    requires Built(nodes, items, |items|, umask) && Acceptable(items)
    ensures Unblocked(items)
  {
    forall i, j | 0 <= i < |items| && RegularAt(items, i) && 0 <= j < |items| && PathAt(items, i) <= PathAt(items, j)
      ensures j == i
    {
      if PathAt(items, i) != PathAt(items, j) {
        AncestorsAreDirs(nodes, PathAt(items, i), PathAt(items, j));
      }
      PathsDistinct(items[i].header.name, items[j].header.name);
    }
  }

  /** The headers of the first `n` directory entries. */
  function DirHeaders(items: seq<Item>, n: nat): seq<Header>
    requires n <= |items|
  {
    if n == 0 then []
    else DirHeaders(items, n - 1) + if items[n - 1].Entry? && !RegularAt(items, n - 1) then [items[n - 1].header]
      else []
  }

  ghost predicate DirEntry(items: seq<Item>, n: nat, h: Header)
    requires n <= |items|
  {
    h.kind == Directory && exists k :: 0 <= k < n && items[k].Entry? && items[k].header == h
  }

  lemma {:induction false} DirHeadersAre(items: seq<Item>, n: nat)
    requires n <= |items| && Acceptable(items)
    ensures forall h :: h in DirHeaders(items, n) <==> DirEntry(items, n, h)
  {
    if n > 0 {
      DirHeadersAre(items, n - 1);
      var last := items[n - 1].header;
      assert items[n - 1].Entry? && HeaderSafe(last);
      forall h ensures h in DirHeaders(items, n) <==> DirEntry(items, n, h) {
        if DirEntry(items, n, h) && h != last { assert DirEntry(items, n - 1, h); }
      }
    }
  }

  lemma {:induction false} DirHeadersDistinct(items: seq<Item>, n: nat)
    requires n <= |items| && Acceptable(items)
    ensures forall a, b :: 0 <= a < b < |DirHeaders(items, n)| ==>
      DirHeaders(items, n)[a].name != DirHeaders(items, n)[b].name
  {
    if n > 0 {
      DirHeadersDistinct(items, n - 1);
      DirHeadersAre(items, n - 1);
      var before := DirHeaders(items, n - 1);
      forall a | 0 <= a < |before| ensures before[a].name != items[n - 1].header.name {
        assert DirEntry(items, n - 1, before[a]);
      }
    }
  }

  class Target {
    var nodes: Nodes
    var clock: int
    const umask: bv16
    const uid: int
    const gid: int
    const limits: Limits

    constructor (nodes: Nodes, umask: bv16, limits: Limits, uid: int, gid: int)
      ensures this.nodes == nodes && this.umask == umask && this.limits == limits
    {
      this.nodes, this.umask, this.limits, this.uid, this.gid, clock := nodes, umask, limits, uid, gid, 0;
    }

    /** A new entry of a directory sets the directory's time. */
    method Create(p: Path, node: Node)
      requires Closed(nodes) && p !in nodes && IsDir(nodes, Parent(p))
      modifies this
      ensures nodes.Keys == old(nodes).Keys + {p} && nodes[p] == node
      ensures forall q :: q in old(nodes) ==> if old(nodes)[q].Dir? then nodes[q].Dir? else nodes[q] == old(nodes)[q]
      ensures Closed(nodes)
    {
      var parent := Parent(p);
      nodes := nodes[parent := Touched(nodes[parent], clock)][p := node];
      clock := clock + 1;
    }

    method MkdirAll(p: Path, mode: bv16) returns (ok: bool)
      requires Closed(nodes)
      modifies this
      ensures ok <==>
        && (p in old(nodes) || Fits(limits, p))
        && forall q :: AtOrAbove(q, p) && q in old(nodes) ==> old(nodes)[q].Dir?
      ensures if ok then Grown(old(nodes), nodes, p) else Closed(nodes)
      decreases |p|
    {
      if p in nodes {
        ok := nodes[p].Dir?;
        forall q: Path | AtOrAbove(q, p) ensures q in nodes && (ok ==> nodes[q].Dir?) {
          if q != p { AncestorsAreDirs(nodes, q, p); }
        }
        assert AtOrAbove(p, p);
        return;
      }
      forall q ensures AtOrAbove(q, p) <==> AtOrAbove(q, Parent(p)) || q == p { PrefixOfParent(q, p); }
      if Fits(limits, p) { FitsAbove(limits, Parent(p), p); }
      ok := MkdirAll(Parent(p), mode);
      if ok && !Fits(limits, p) { return false; }
      if ok {
        ghost var made := nodes;
        Create(p, Dir(mode & !umask, uid, gid, clock));
        GrownAfter(old(nodes), made, nodes, p);
      }
    }

    /** A change of a file's content or attributes. */
    method SetFile(p: Path, node: Node)
      requires Closed(nodes) && p in nodes && nodes[p].File? && node.File?
      modifies this`nodes
      ensures nodes == old(nodes)[p := node] && Closed(nodes)
    {
      nodes := nodes[p := node];
    }

    /** MkdirAll, open with O_EXCL, copy, chown, set times. */
    method PlaceFile(p: Path, h: Header, content: seq<int>) returns (ok: bool)
      requires Closed(nodes) && p != [] && 0 <= h.size as int <= |content|
      modifies this
      ensures ok <==>
        && p !in old(nodes) && Fits(limits, p)
        && forall q :: AtOrAbove(q, Parent(p)) && q in old(nodes) ==> old(nodes)[q].Dir?
      ensures ok ==>
        Placed(old(nodes), nodes, p, File(h.mode & 0x1b6 & !umask, h.uid, h.gid, h.modified, content[..h.size as int]))
    {
      if Fits(limits, p) { FitsAbove(limits, Parent(p), p); }
      ok := MkdirAll(Parent(p), 0x1ed);
      if !ok { return; }
      ghost var made := nodes;
      if p in nodes || !Fits(limits, p) { return false; }
      var mode, copied := h.mode & 0x1b6 & !umask, content[..h.size as int];
      Create(p, File(mode, uid, gid, clock, []));
      SetFile(p, File(mode, uid, gid, clock, copied));
      SetFile(p, File(mode, h.uid, h.gid, clock, copied));
      SetFile(p, File(mode, h.uid, h.gid, h.modified, copied));
      PlacedAfter(old(nodes), made, nodes, p, nodes[p]);
    }

    /** A directory's chmod, chown and times. */
    method FinishDirectory(h: Header)
      requires Closed(nodes) && IsDir(nodes, PathOf(h.name))
      modifies this`nodes
      ensures nodes == old(nodes)[PathOf(h.name) := Dir(h.mode & 0x1ff, h.uid, h.gid, h.modified)] && Closed(nodes)
    {
      var p, mode := PathOf(h.name), h.mode & 0x1ff;
      var was := nodes[p];
      nodes := nodes[p := Dir(mode, was.uid, was.gid, was.modified)];
      nodes := nodes[p := Dir(mode, h.uid, h.gid, was.modified)];
      nodes := nodes[p := Dir(mode, h.uid, h.gid, h.modified)];
    }

    /** The reverse pass, after which no entry is created that could set a directory's time again. */
    method FinishDirectories(items: seq<Item>, directories: seq<Header>)
      requires Acceptable(items) && Built(nodes, items, |items|, umask) && directories == DirHeaders(items, |items|)
      modifies this`nodes
      ensures Unpacked(nodes, items, umask)
    {
      DirectoriesDistinct(items);
      var index := |directories|;
      ghost var built := nodes;
      while index > 0
        invariant 0 <= index <= |directories|
        invariant Finishing(built, nodes, directories, index)
      {
        index := index - 1;
        ghost var before := nodes;
        DirectoryThere(built, items, umask, directories[index]);
        FinishDirectory(directories[index]);
        FinishedOne(built, before, nodes, directories, index);
      }
      Finished(built, nodes, items, umask);
    }

    method Unpack(items: seq<Item>, n: nat) returns (ok: bool)
      requires n < |items| && Acceptable(items) && Framed(items) && Built(nodes, items, n, umask)
        && FitUpTo(limits, items, n)
      modifies this
      ensures if ok then Built(nodes, items, n + 1, umask) && FitUpTo(limits, items, n + 1)
        else !Extractable(items, limits)
    {
      var h, p := items[n].header, PathAt(items, n);
      ghost var before := nodes;
      if h.kind == Directory {
        ok := MkdirAll(p, h.mode & 0x1ff);
        if ok {
          BuiltDirectory(before, nodes, items, n, umask);
          if p in before { NodesFit(before, items, n, umask, limits, p); }
        } else if p in before || Fits(limits, p) {
          ghost var q :| AtOrAbove(q, p) && q in before && !before[q].Dir?;
          FileBlocks(before, items, n, umask, q);
        }
      } else if p == [] {
        PlaceTaken(nodes, items, n, umask);
        return false; // the root is there already
      } else {
        WholeContent(items, n);
        ok := PlaceFile(p, h, items[n].content);
        if ok {
          BuiltFile(before, nodes, items, n, umask);
        } else if p in before {
          PlaceTaken(before, items, n, umask);
        } else if Fits(limits, p) {
          ghost var q :| AtOrAbove(q, Parent(p)) && q in before && !before[q].Dir?;
          PrefixOfParent(q, p);
          FileBlocks(before, items, n, umask, q);
        }
      }
    }

    /**
     * Unpacks an archive that passed validation into an emptied root. The checks of the walk pass again; it fails
     * exactly when a regular file stands in the way of another entry, or a path is too long for the file system.
     */
    method ExtractArchive(items: seq<Item>) returns (ok: bool)
      requires Acceptable(items) && Framed(items) && nodes.Keys == {[]} && Closed(nodes)
      modifies this
      ensures ok <==> Extractable(items, limits)
      ensures ok ==> Unpacked(nodes, items, umask)
    {
      var directories;
      ok, directories := UnpackAll(items);
      if ok {
        BuiltIsUnblocked(nodes, items, umask);
        FinishDirectories(items, directories);
      }
    }

    /** The forward pass. */
    method UnpackAll(items: seq<Item>) returns (ok: bool, directories: seq<Header>)
      requires Acceptable(items) && Framed(items) && nodes.Keys == {[]} && Closed(nodes)
      modifies this
      ensures if ok then Built(nodes, items, |items|, umask) && FitUpTo(limits, items, |items|)
        else !Extractable(items, limits)
      ensures ok ==> directories == DirHeaders(items, |items|)
    {
      var walk := new Walk();
      directories := [];
      for i := 0 to |items|
        invariant walk.Follows(items, i) && fresh(walk)
        invariant Built(nodes, items, i, umask) && FitUpTo(limits, items, i)
        invariant directories == DirHeaders(items, i)
      {
        AcceptableSoFar(items, i + 1);
        var fault := walk.Admit(items, i, items[i].header);
        assert fault.None?;
        ok := Unpack(items, i);
        if !ok { return; }
        if items[i].header.kind == Directory { directories := directories + [items[i].header]; }
      }
      ok := true;
    }
  }

  lemma AcceptableSoFar(items: seq<Item>, n: nat)
    requires Acceptable(items) && n <= |items|
    ensures SafeUpTo(items, n)
  {
    TotalMonotone(items, n, |items|);
  }

  lemma WholeContent(items: seq<Item>, n: nat)
    requires Acceptable(items) && Framed(items) && n < |items| && RegularAt(items, n)
    ensures |items[n].content| == items[n].header.size as int
  {
    assert FramedAt(items, n);
  }

  // ---- the reverse pass

  /** All directory headers from `index` on have been applied; everything else is as it was built. */
  ghost predicate Finishing(built: Nodes, nodes: Nodes, directories: seq<Header>, index: nat)
    requires index <= |directories|
  {
    && Closed(nodes) && nodes.Keys == built.Keys
    && (forall a :: index <= a < |directories| ==> var h := directories[a];
          PathOf(h.name) in nodes && nodes[PathOf(h.name)] == Dir(h.mode & 0x1ff, h.uid, h.gid, h.modified))
    && (forall q :: q in built ==> if built[q].Dir? then nodes[q].Dir? else nodes[q] == built[q])
  }

  lemma NotAFile(built: Nodes, items: seq<Item>, umask: bv16, k: nat)
    requires Acceptable(items) && Built(built, items, |items|, umask) && k < |items| && !RegularAt(items, k)
    ensures IsDir(built, PathAt(items, k))
  {
    if built[PathAt(items, k)].File? {
      assert FileEntry(items, |items|, PathAt(items, k));
      var j :| 0 <= j < |items| && RegularAt(items, j) && PathAt(items, j) == PathAt(items, k);
      PathsDistinct(items[j].header.name, items[k].header.name);
    }
  }

  lemma DirectoryThere(built: Nodes, items: seq<Item>, umask: bv16, h: Header)
    requires Acceptable(items) && Built(built, items, |items|, umask) && h in DirHeaders(items, |items|)
    ensures IsDir(built, PathOf(h.name))
  {
    DirHeadersAre(items, |items|);
    assert DirEntry(items, |items|, h);
    var k :| 0 <= k < |items| && items[k].Entry? && items[k].header == h;
    assert items[k].Entry?;
    NotAFile(built, items, umask, k);
  }

  ghost predicate DistinctPaths(directories: seq<Header>)
  {
    forall a, b :: 0 <= a < b < |directories| ==> PathOf(directories[a].name) != PathOf(directories[b].name)
  }

  lemma DirectoriesDistinct(items: seq<Item>)
    requires Acceptable(items)
    ensures DistinctPaths(DirHeaders(items, |items|))
  {
    var directories := DirHeaders(items, |items|);
    DirHeadersDistinct(items, |items|);
    forall a, b | 0 <= a < b < |directories| ensures PathOf(directories[a].name) != PathOf(directories[b].name) {
      DirHeaderSafe(items, directories[a]);
      DirHeaderSafe(items, directories[b]);
      PathsDistinct(directories[a].name, directories[b].name);
    }
  }

  lemma FinishedOne(built: Nodes, before: Nodes, nodes: Nodes, directories: seq<Header>, index: nat)
    requires index < |directories| && Finishing(built, before, directories, index + 1) && Closed(nodes)
    requires DistinctPaths(directories)
    requires var h := directories[index];
      IsDir(built, PathOf(h.name)) && nodes == before[PathOf(h.name) := Dir(h.mode & 0x1ff, h.uid, h.gid, h.modified)]
    ensures Finishing(built, nodes, directories, index)
  {
  }

  lemma DirHeaderSafe(items: seq<Item>, h: Header)
    requires Acceptable(items) && h in DirHeaders(items, |items|)
    ensures SafeArchivePath(h.name)
  {
    DirHeadersAre(items, |items|);
    assert DirEntry(items, |items|, h);
    var k :| 0 <= k < |items| && items[k].Entry? && items[k].header == h;
    assert HeaderSafe(items[k].header);
  }

  lemma FinishedAt(built: Nodes, nodes: Nodes, items: seq<Item>, umask: bv16, k: nat)
    requires Acceptable(items) && Built(built, items, |items|, umask) && k < |items|
    requires Finishing(built, nodes, DirHeaders(items, |items|), 0)
    ensures PathAt(items, k) in nodes && nodes[PathAt(items, k)] == Restored(items[k], umask)
  {
    assert items[k].Entry? && PathAt(items, k) in built;
    if RegularAt(items, k) {
      assert built[PathAt(items, k)] == Restored(items[k], umask);
    } else {
      DirHeaderListed(items, k);
      var a :| 0 <= a < |DirHeaders(items, |items|)| && DirHeaders(items, |items|)[a] == items[k].header;
    }
  }

  lemma DirHeaderListed(items: seq<Item>, k: nat)
    requires Acceptable(items) && k < |items| && !RegularAt(items, k)
    ensures items[k].header in DirHeaders(items, |items|) && items[k].header.kind == Directory
  {
    DirHeadersAre(items, |items|);
    assert items[k].Entry? && HeaderSafe(items[k].header);
    assert DirEntry(items, |items|, items[k].header);
  }

  lemma Finished(built: Nodes, nodes: Nodes, items: seq<Item>, umask: bv16)
    requires Acceptable(items) && Built(built, items, |items|, umask)
    requires Finishing(built, nodes, DirHeaders(items, |items|), 0)
    ensures Unpacked(nodes, items, umask)
  {
    forall k | 0 <= k < |items|
      ensures PathAt(items, k) in nodes && nodes[PathAt(items, k)] == Restored(items[k], umask)
    {
      FinishedAt(built, nodes, items, umask, k);
    }
    forall p | p in nodes && p != [] ensures Covered(items, |items|, p) {
      assert p in built;
    }
  }

  // ---------------------------------------------------------------- writing an archive

  const SECOND := 1_000_000_000

  /** The writer records times to the nearest second. */
  function Rounded(time: int): int { (time + SECOND / 2) / SECOND * SECOND }

  /** Names as a file system holds them; sizes as stat reports them; owners are never negative. */
  ghost predicate Real(nodes: Nodes)
  {
    && Closed(nodes)
    && (forall p, part :: p in nodes && part in p ==> Proper(part) && '/' !in part)
    && (forall p :: p in nodes && nodes[p].File? ==> |nodes[p].content| < 0x8000_0000_0000_0000)
    && (forall p :: p in nodes && !nodes[p].Special? ==> nodes[p].uid >= 0 && nodes[p].gid >= 0)
  }

  /** What a walk lists: every node below the root, once. The order does not matter. */
  ghost predicate Listing(nodes: Nodes, listing: seq<Path>)
  {
    && (forall i :: 0 <= i < |listing| ==> listing[i] in nodes && listing[i] != [])
    && (forall p :: p in nodes && p != [] ==> p in listing)
    && (forall i, j :: 0 <= i < j < |listing| ==> listing[i] != listing[j])
  }

  predicate Writable(p: Path, node: Node)
  {
    !node.Special? && |NameOf(p)| <= MAXIMUM_PATH_BYTES && forall c :: c in NameOf(p) ==> c != '\\' && c != '\0'
  }

  /** The sum of the file sizes among the first `n` listed nodes. */
  function Weight(nodes: Nodes, listing: seq<Path>, n: nat): nat
    requires n <= |listing| && forall i :: 0 <= i < |listing| ==> listing[i] in nodes
  {
    if n == 0 then 0
    else Weight(nodes, listing, n - 1) + if nodes[listing[n - 1]].File? then |nodes[listing[n - 1]].content| else 0
  }

  ghost predicate WithinLimits(nodes: Nodes, listing: seq<Path>, n: nat)
    requires n <= |listing| && Listing(nodes, listing)
  {
    && n <= MAXIMUM_FILES && Weight(nodes, listing, n) <= MAXIMUM_EXPANDED_BYTES as int
    && forall i :: 0 <= i < n ==> Writable(listing[i], nodes[listing[i]])
  }

  /** The entry written for a node. */
  predicate Records(item: Item, p: Path, node: Node)
  {
    && item.Entry? && item.header.name == NameOf(p)
    && match node
       case Dir(mode, uid, gid, modified) =>
         item.header == Header(NameOf(p), Directory, mode, uid, gid, 0, Rounded(modified)) && item.content == []
       case File(mode, uid, gid, modified, content) =>
         |content| == item.header.size as int && item.content == content
         && item.header == Header(NameOf(p), Regular, mode, uid, gid, item.header.size, Rounded(modified))
       case Special => false
  }

  ghost predicate Archived(nodes: Nodes, listing: seq<Path>, items: seq<Item>, n: nat)
  {
    n <= |items| && n <= |listing|
    && forall i :: 0 <= i < n ==> listing[i] in nodes && Records(items[i], listing[i], nodes[listing[i]])
  }

  lemma {:induction false} PathOfName(p: Path)
    requires p != [] && forall part :: part in p ==> Proper(part) && '/' !in part
    ensures PathOf(NameOf(p)) == p && NameOf(p) != "."
  {
    SplitJoin(p, '/');
    SplitJoin(["."], '/');
    assert Join(["."], "/") == "." && p[0] in p;
  }

  lemma SafeName(p: Path)
    requires p != [] && forall part :: part in p ==> Proper(part) && '/' !in part
    ensures SafeArchivePath(NameOf(p))
      <==> |NameOf(p)| <= MAXIMUM_PATH_BYTES && forall c :: c in NameOf(p) ==> c != '\\' && c != '\0'
  {
    PathOfName(p);
    SafeIff(NameOf(p));
  }

  lemma {:induction false} WeightMonotone(nodes: Nodes, listing: seq<Path>, n: nat, m: nat)
    requires n <= m <= |listing| && forall i :: 0 <= i < |listing| ==> listing[i] in nodes
    ensures Weight(nodes, listing, n) <= Weight(nodes, listing, m)
  {
    if n < m { WeightMonotone(nodes, listing, n, m - 1); }
  }

  lemma ArchivedAlso(nodes: Nodes, listing: seq<Path>, items: seq<Item>, n: nat, item: Item)
    requires Archived(nodes, listing, items, n) && n == |items| < |listing|
    requires listing[n] in nodes && Records(item, listing[n], nodes[listing[n]])
    ensures Archived(nodes, listing, items + [item], n + 1)
  {
  }

  lemma LimitsSoFar(nodes: Nodes, listing: seq<Path>, n: nat)
    requires Listing(nodes, listing) && n <= |listing|
    ensures WithinLimits(nodes, listing, |listing|) ==> WithinLimits(nodes, listing, n)
  {
    WeightMonotone(nodes, listing, n, |listing|);
  }

  /** The checks on one node, and the expanded size with it. */
  method AdmitNode(nodes: Nodes, listing: seq<Path>, n: nat, count: nat, total: int64) returns (sum: Option<int64>)
    requires Real(nodes) && Listing(nodes, listing) && n < |listing| && WithinLimits(nodes, listing, n)
    requires count == n + 1 && total as int == Weight(nodes, listing, n)
    ensures sum.Some? <==> WithinLimits(nodes, listing, n + 1)
    ensures sum.Some? ==> sum.value as int == Weight(nodes, listing, n + 1)
  {
    var p := listing[n];
    if count > MAXIMUM_FILES || nodes[p].Special? { return None; }
    SafeName(p);
    if !SafeArchivePath(NameOf(p)) { return None; }
    if !nodes[p].File? { return Some(total); }
    var size := |nodes[p].content| as int64;
    if size < 0 || size > MAXIMUM_EXPANDED_BYTES - total { return None; }
    return Some(total + size);
  }

  /** Writes the listed nodes, or nothing when a node is special, a name is unsafe or a limit is exceeded. */
  method CreateArchive(nodes: Nodes, listing: seq<Path>) returns (r: Option<seq<Item>>)
    requires Real(nodes) && Listing(nodes, listing)
    ensures r.Some? <==> WithinLimits(nodes, listing, |listing|)
    ensures r.Some? ==> |r.value| == |listing| && Archived(nodes, listing, r.value, |listing|)
  {
    var items: seq<Item> := [];
    var count := 0;
    var total: int64 := 0;
    for i := 0 to |listing|
      invariant count == i == |items| && WithinLimits(nodes, listing, i) && total as int == Weight(nodes, listing, i)
      invariant Archived(nodes, listing, items, i)
    {
      LimitsSoFar(nodes, listing, i + 1);
      count := count + 1;
      var sum := AdmitNode(nodes, listing, i, count, total);
      if sum.None? { return None; }
      total := sum.value;
      var item := EntryFor(listing[i], nodes[listing[i]]);
      ArchivedAlso(nodes, listing, items, i, item);
      items := items + [item];
    }
    return Some(items);
  }

  function EntryFor(p: Path, node: Node): (item: Item)
    requires !node.Special? && (node.File? ==> |node.content| < 0x8000_0000_0000_0000)
    ensures Records(item, p, node)
  {
    match node
    case Dir(mode, uid, gid, modified) => Entry(Header(NameOf(p), Directory, mode, uid, gid, 0, Rounded(modified)), [])
    case File(mode, uid, gid, modified, content) =>
      Entry(Header(NameOf(p), Regular, mode, uid, gid, |content| as int64, Rounded(modified)), content)
  }

  // ---- what is written is accepted and unpacks

  lemma {:induction false} SameTotals(nodes: Nodes, listing: seq<Path>, items: seq<Item>, n: nat)
    requires Archived(nodes, listing, items, n) && forall i :: 0 <= i < |listing| ==> listing[i] in nodes
    ensures Total(items, n) == Weight(nodes, listing, n)
  {
    if n > 0 { SameTotals(nodes, listing, items, n - 1); }
  }

  lemma WrittenAt(nodes: Nodes, listing: seq<Path>, items: seq<Item>, i: nat)
    requires Real(nodes) && Listing(nodes, listing) && Archived(nodes, listing, items, |listing|) && i < |listing|
    ensures i < |items| && PathAt(items, i) == listing[i] && items[i].header.name == NameOf(listing[i])
  {
    assert listing[i] in listing;
    PathOfName(listing[i]);
  }

  /** Whatever the writer emits within the limits passes every check of the walk, in any listing order. */
  lemma WrittenIsAcceptable(nodes: Nodes, listing: seq<Path>, items: seq<Item>)
    requires Real(nodes) && Listing(nodes, listing)
    requires WithinLimits(nodes, listing, |listing|) && |items| == |listing|
      && Archived(nodes, listing, items, |listing|)
    ensures Acceptable(items) && Framed(items)
  {
    SameTotals(nodes, listing, items, |listing|);
    forall i | 0 <= i < |items| ensures items[i].Entry? && HeaderSafe(items[i].header) {
      WrittenAt(nodes, listing, items, i);
      assert listing[i] in listing && Records(items[i], listing[i], nodes[listing[i]]);
      SafeName(listing[i]);
      assert Writable(listing[i], nodes[listing[i]]);
    }
    forall i, j | 0 <= i < j < |items| ensures items[i].header.name != items[j].header.name {
      WrittenAt(nodes, listing, items, i);
      WrittenAt(nodes, listing, items, j);
    }
  }

  lemma WrittenIsUnblocked(nodes: Nodes, listing: seq<Path>, items: seq<Item>)
    requires Real(nodes) && Listing(nodes, listing) && |items| == |listing|
      && Archived(nodes, listing, items, |listing|)
    ensures Unblocked(items)
  {
    forall i | 0 <= i < |items| && RegularAt(items, i)
      ensures PathAt(items, i) != [] && forall j :: 0 <= j < |items| && PathAt(items, i) <= PathAt(items, j) ==> j == i
    {
      WrittenAt(nodes, listing, items, i);
      assert listing[i] in listing && Records(items[i], listing[i], nodes[listing[i]]);
      forall j | 0 <= j < |items| && PathAt(items, i) <= PathAt(items, j) ensures j == i {
        WrittenAt(nodes, listing, items, j);
        assert listing[j] in listing;
        if listing[i] != listing[j] { AncestorsAreDirs(nodes, listing[i], listing[j]); }
      }
    }
  }

  /** It unpacks exactly where every path of the tree fits, as it does below the root it was read from. */
  lemma WrittenIsExtractableIff(nodes: Nodes, listing: seq<Path>, items: seq<Item>, limits: Limits)
    requires Real(nodes) && Listing(nodes, listing) && |items| == |listing|
      && Archived(nodes, listing, items, |listing|)
    ensures Extractable(items, limits) <==> forall p :: p in nodes && p != [] ==> Fits(limits, p)
  {
    WrittenIsUnblocked(nodes, listing, items);
    if Extractable(items, limits) {
      forall p | p in nodes && p != [] ensures Fits(limits, p) {
        assert p in listing;
        var i :| 0 <= i < |listing| && listing[i] == p;
        WrittenAt(nodes, listing, items, i);
      }
    }
    if forall p :: p in nodes && p != [] ==> Fits(limits, p) {
      forall k | 0 <= k < |items| ensures Fits(limits, PathAt(items, k)) {
        WrittenAt(nodes, listing, items, k);
      }
    }
  }

  /** What a node looks like after a backup and a restore: only mode bits and fractions of a second are lost. */
  function Faded(node: Node, umask: bv16): Node
  {
    match node
    case Dir(mode, uid, gid, modified) => Dir(mode & 0x1ff, uid, gid, Rounded(modified))
    case File(mode, uid, gid, modified, content) => File(mode & 0x1b6 & !umask, uid, gid, Rounded(modified), content)
    case Special => Special
  }

  /** Unpacking what was written rebuilds the same paths, contents, owners and recorded times. */
  lemma RoundTrip(nodes: Nodes, listing: seq<Path>, items: seq<Item>, rebuilt: Nodes, umask: bv16)
    requires Real(nodes) && Listing(nodes, listing) && |items| == |listing|
      && Archived(nodes, listing, items, |listing|)
    requires Unpacked(rebuilt, items, umask)
    ensures rebuilt.Keys == nodes.Keys
    ensures forall p :: p in nodes && p != [] ==> rebuilt[p] == Faded(nodes[p], umask)
  {
    forall p | p in nodes && p != [] ensures p in rebuilt && rebuilt[p] == Faded(nodes[p], umask) {
      RebuiltAt(nodes, listing, items, rebuilt, umask, p);
    }
    forall p | p in rebuilt && p != [] ensures p in nodes {
      NothingElse(nodes, listing, items, rebuilt, umask, p);
    }
  }

  lemma RebuiltAt(nodes: Nodes, listing: seq<Path>, items: seq<Item>, rebuilt: Nodes, umask: bv16, p: Path)
    requires Real(nodes) && Listing(nodes, listing) && |items| == |listing|
      && Archived(nodes, listing, items, |listing|)
    requires Unpacked(rebuilt, items, umask) && p in nodes && p != []
    ensures p in rebuilt && rebuilt[p] == Faded(nodes[p], umask)
  {
    assert p in listing;
    var i :| 0 <= i < |listing| && listing[i] == p;
    WrittenAt(nodes, listing, items, i);
    assert Records(items[i], p, nodes[p]);
  }

  lemma NothingElse(nodes: Nodes, listing: seq<Path>, items: seq<Item>, rebuilt: Nodes, umask: bv16, p: Path)
    requires Real(nodes) && Listing(nodes, listing) && |items| == |listing|
      && Archived(nodes, listing, items, |listing|)
    requires Unpacked(rebuilt, items, umask) && p in rebuilt && p != []
    ensures p in nodes
  {
    assert Covered(items, |items|, p);
    var k :| 0 <= k < |items| && AtOrAbove(p, PathAt(items, k));
    WrittenAt(nodes, listing, items, k);
    if p != listing[k] { AncestorsAreDirs(nodes, p, listing[k]); }
  }

  // ---------------------------------------------------------------- the helper's two modes

  datatype Answer = Done | Rejected | Failed

  class Helper {
    var archives: map<string, seq<Item>>
    var source: Nodes
    const umask: bv16
    const limits: Limits

    /** Only a complete archive is published under its name. */
    method Backup(archiveName: string, listing: seq<Path>) returns (answer: Answer)
      requires Real(source) && Listing(source, listing)
      modifies this`archives
      ensures answer.Done? <==> WithinLimits(source, listing, |listing|)
      ensures answer.Done? ==>
        && archiveName in archives && archives == old(archives)[archiveName := archives[archiveName]]
        && |archives[archiveName]| == |listing| && Archived(source, listing, archives[archiveName], |listing|)
      ensures !answer.Done? ==> archives == old(archives)
    {
      var items := CreateArchive(source, listing);
      if items.None? { return Failed; }
      archives := archives[archiveName := items.value];
      return Done;
    }

    /**
     * Nothing is touched unless the whole archive passed its checks. After that the old content is gone, and the
     * archive's content is there exactly when no file of it blocks another entry and every path fits.
     */
    method Restore(archiveName: string) returns (answer: Answer)
      requires Closed(source) && (archiveName in archives ==> Framed(archives[archiveName]))
      modifies this`source
      ensures answer.Rejected? <==> archiveName !in archives || !Acceptable(archives[archiveName])
      ensures answer.Rejected? ==> source == old(source)
      ensures answer.Done? <==>
        && archiveName in archives && Acceptable(archives[archiveName])
        && Extractable(archives[archiveName], limits)
      ensures answer.Done? ==> Unpacked(source, archives[archiveName], umask)
    {
      if archiveName !in archives { return Rejected; }
      var fault := ValidateArchive(archives[archiveName]);
      if fault.Some? { return Rejected; }
      source := map p | p in source && p == [] :: source[p];
      var target := new Target(source, umask, limits, 0, 0);
      var ok := target.ExtractArchive(archives[archiveName]);
      source := target.nodes;
      return if ok then Done else Failed;
    }
  }

  lemma TwoNames()
    ensures PathOf("a") == ["a"] && PathOf("a/b") == ["a", "b"] && SafeArchivePath("a") && SafeArchivePath("a/b")
  {
    SplitJoin(["a", "b"], '/');
    SplitJoin(["a"], '/');
    assert Join(["a", "b"], "/") == "a/b";
    SafeIff("a");
    SafeIff("a/b");
  }

  /** An accepted archive whose restore destroys the old content and then fails: a file where a directory must be. */
  lemma AcceptedButBlocked(size: int64, content: seq<int>)
    requires 0 <= size && size as int == |content| && size <= MAXIMUM_EXPANDED_BYTES
    ensures var items :=
      [Entry(Header("a", Regular, 0, 0, 0, size, 0), content), Entry(Header("a/b", Directory, 0, 0, 0, 0, 0), [])];
      Acceptable(items) && Framed(items) && !Unblocked(items)
  {
    var items := [Entry(Header("a", Regular, 0, 0, 0, size, 0), content),
                  Entry(Header("a/b", Directory, 0, 0, 0, 0, 0), [])];
    TwoNames();
    assert Total(items, 2) == Total(items, 1) && Total(items, 1) == Total(items, 0) + size as int;
    assert RegularAt(items, 0) && PathAt(items, 0) <= PathAt(items, 1);
  }

  /** Another one: a name within the archive's limit whose one element is too long for the file system. */
  lemma AcceptedButTooLong(n: nat, limits: Limits)
    requires limits.element < n <= MAXIMUM_PATH_BYTES
    ensures var items := [Entry(Header(seq(n, _ => 'a'), Directory, 0, 0, 0, 0, 0), [])];
      Acceptable(items) && Framed(items) && Unblocked(items) && !Extractable(items, limits)
  {
    var name := seq(n, _ => 'a');
    var items := [Entry(Header(name, Directory, 0, 0, 0, 0, 0), [])];
    SplitJoin([name], '/');
    assert PathOf(name) == [name];
    SafeIff(name);
    assert HeaderSafe(items[0].header);
    assert Total(items, 1) == Total(items, 0) == 0;
    assert name in PathAt(items, 0) && !Fits(limits, PathAt(items, 0));
  }
}
