/** The workspace fingerprint taken before and after an agent turn, and the list
    of files that changed in between. */
module Workspace {
  import opened Wrappers

  datatype Stamp = Stamp(len: nat, modifiedNanos: Option<nat>)

  /** `Special` is anything that is neither a directory nor a regular file. A
      directory that is not readable makes read_dir or metadata fail. */
  datatype Node = File(stamp: Stamp) | Dir(readable: bool, entries: seq<Entry>) | Special

  datatype Entry = Entry(name: string, node: Node)

  /** Path components below the root. */
  type Path = seq<string>

  type Fingerprint = map<Path, Stamp>

  // ----- the tree as a specification --------------------------------------

  function Child(entries: seq<Entry>, name: string): Option<Node> {
    if entries == [] then None
    else if entries[0].name == name then Some(entries[0].node)
    else Child(entries[1..], name)
  }

  function Lookup(node: Node, path: Path): Option<Node>
    decreases |path|
  {
    if path == [] then Some(node)
    else if !node.Dir? then None
    else match Child(node.entries, path[0])
      case None => None
      case Some(next) => Lookup(next, path[1..])
  }

  predicate DistinctNames(entries: seq<Entry>) {
    forall i, j :: 0 <= i < j < |entries| ==> entries[i].name != entries[j].name
  }

  /** No directory lists a name twice. */
  ghost predicate IsTree(root: Node) {
    forall p: Path :: Lookup(root, p).Some? && Lookup(root, p).value.Dir? ==>
      DistinctNames(Lookup(root, p).value.entries)
  }

  /** Exactly the regular files below the root, by relative path. */
  ghost predicate IsFingerprint(root: Node, files: Fingerprint) {
    && (forall p: Path :: p in files ==> Lookup(root, p) == Some(File(files[p])))
    && (forall p: Path :: Lookup(root, p).Some? && Lookup(root, p).value.File? ==> p in files)
  }

  ghost predicate Unreadable(root: Node, p: Path) {
    Lookup(root, p).Some? && Lookup(root, p).value.Dir? && !Lookup(root, p).value.readable
  }

  // ----- sizes, for termination -------------------------------------------

  function Size(node: Node): nat {
    match node
    case Dir(_, entries) => 1 + SizeAll(entries)
    case _ => 1
  }

  function SizeAll(entries: seq<Entry>): nat {
    if entries == [] then 0 else Size(entries[0].node) + SizeAll(entries[1..])
  }

  function StackSize(root: Node, stack: seq<Path>): nat {
    if stack == [] then 0
    else
      var top := Lookup(root, stack[|stack| - 1]);
      StackSize(root, stack[..|stack| - 1]) + (if top.Some? then Size(top.value) else 0)
  }

  lemma {:induction false} SizeSplits(entries: seq<Entry>, n: nat)
    requires n < |entries|
    ensures SizeAll(entries[..n + 1]) == SizeAll(entries[..n]) + Size(entries[n].node)
    ensures SizeAll(entries[..n + 1]) <= SizeAll(entries)
    decreases n
  {
    if n == 0 {
      assert entries[..1] == [entries[0]] && entries[..0] == [];
      assert SizeAll([entries[0]]) == Size(entries[0].node) + SizeAll([entries[0]][1..]);
    } else {
      SizeSplits(entries[1..], n - 1);
      assert entries[..n + 1][1..] == entries[1..][..n] && entries[..n][1..] == entries[1..][..n - 1];
    }
  }

  // ----- paths below a directory ------------------------------------------

  lemma {:induction false} LookupSplits(root: Node, p: Path, rest: Path)
    ensures Lookup(root, p + rest) == match Lookup(root, p) case None => None case Some(node) => Lookup(node, rest)
    decreases |p|
  {
    if p == [] {
      assert p + rest == rest;
    } else if root.Dir? && Child(root.entries, p[0]).Some? {
      LookupSplits(Child(root.entries, p[0]).value, p[1..], rest);
      assert (p + rest)[1..] == p[1..] + rest;
    }
  }

  lemma {:induction false} ChildAt(entries: seq<Entry>, i: nat)
    requires DistinctNames(entries) && i < |entries|
    ensures Child(entries, entries[i].name) == Some(entries[i].node)
    decreases i
  {
    if i > 0 { ChildAt(entries[1..], i - 1); }
  }

  lemma {:induction false} ChildIsEntry(entries: seq<Entry>, name: string) returns (i: nat)
    requires Child(entries, name).Some?
    ensures i < |entries| && entries[i].name == name && Child(entries, name).value == entries[i].node
    decreases |entries|
  {
    if entries[0].name == name {
      i := 0;
    } else {
      i := ChildIsEntry(entries[1..], name);
      i := i + 1;
    }
  }

  /** An entry of the directory at `p`. */
  lemma EntryPath(root: Node, p: Path, i: nat)
    requires IsTree(root) && Lookup(root, p).Some? && Lookup(root, p).value.Dir? && i < |Lookup(root, p).value.entries|
    ensures Lookup(root, p + [Lookup(root, p).value.entries[i].name]) == Some(Lookup(root, p).value.entries[i].node)
  {
    var entries := Lookup(root, p).value.entries;
    ChildAt(entries, i);
    LookupSplits(root, p, [entries[i].name]);
    assert [entries[i].name][1..] == [];
  }

  /** Whatever lies strictly below the directory at `p` lies at or below an entry. */
  lemma BelowEntry(root: Node, p: Path, q: Path) returns (i: nat)
    requires Lookup(root, p).Some? && Lookup(root, p).value.Dir?
    requires p < q && Lookup(root, q).Some?
    ensures i < |Lookup(root, p).value.entries| && p + [Lookup(root, p).value.entries[i].name] <= q
  {
    var entries := Lookup(root, p).value.entries;
    var rest := q[|p|..];
    assert q == p + rest;
    LookupSplits(root, p, rest);
    i := ChildIsEntry(entries, rest[0]);
    assert (p + [entries[i].name])[|p|] == rest[0];
  }

  /** Nothing lies below a node that is not a directory. */
  lemma LeafHasNothingBelow(root: Node, p: Path, q: Path)
    requires Lookup(root, p).Some? && !Lookup(root, p).value.Dir? && p <= q && Lookup(root, q).Some?
    ensures q == p
  {
    var rest := q[|p|..];
    assert q == p + rest;
    LookupSplits(root, p, rest);
  }

  // ----- the traversal ----------------------------------------------------

  predicate Covered(stack: seq<Path>, q: Path) {
    exists i :: 0 <= i < |stack| && stack[i] <= q
  }

  /** Files found so far are right; everything else lies below the stack, and no
      directory outside it is unreadable. */
  ghost predicate Searching(root: Node, files: Fingerprint, stack: seq<Path>) {
    && (forall i :: 0 <= i < |stack| ==> Lookup(root, stack[i]).Some? && Lookup(root, stack[i]).value.Dir?)
    && (forall p: Path :: p in files ==> Lookup(root, p) == Some(File(files[p])))
    && (forall q: Path :: Lookup(root, q).Some? && Lookup(root, q).value.File? ==> q in files || Covered(stack, q))
    && (forall q: Path :: Unreadable(root, q) ==> Covered(stack, q))
  }

  /** While the entries of the directory at `p` are read, the first `n` are done:
      what lies below `p` is found, covered, or below an entry still to come. */
  ghost predicate Reading(root: Node, files: Fingerprint, stack: seq<Path>, p: Path, n: nat) {
    && Lookup(root, p).Some? && Lookup(root, p).value.Dir? && Lookup(root, p).value.readable
    && n <= |Lookup(root, p).value.entries|
    && (forall i :: 0 <= i < |stack| ==> Lookup(root, stack[i]).Some? && Lookup(root, stack[i]).value.Dir?)
    && (forall q: Path :: q in files ==> Lookup(root, q) == Some(File(files[q])))
    && (forall q: Path :: Lookup(root, q).Some? && Lookup(root, q).value.File? ==>
          q in files || Covered(stack, q) || ToCome(root, p, n, q))
    && (forall q: Path :: Unreadable(root, q) ==> Covered(stack, q) || ToCome(root, p, n, q))
  }

  predicate ToCome(root: Node, p: Path, n: nat, q: Path)
    requires Lookup(root, p).Some? && Lookup(root, p).value.Dir?
  {
    exists i :: n <= i < |Lookup(root, p).value.entries| && p + [Lookup(root, p).value.entries[i].name] <= q
  }

  lemma CoverGrows(stack: seq<Path>, top: Path, q: Path)
    ensures Covered(stack + [top], q) <==> Covered(stack, q) || top <= q
  {
    var all := stack + [top];
    assert all[|stack|] == top;
    if Covered(stack, q) {
      var i :| 0 <= i < |stack| && stack[i] <= q;
      assert all[i] <= q;
    }
  }

  lemma BeginReading(root: Node, files: Fingerprint, stack: seq<Path>, p: Path)
    requires IsTree(root) && Searching(root, files, stack + [p]) && !Unreadable(root, p)
    ensures Reading(root, files, stack, p, 0)
  {
    var all := stack + [p];
    assert all[|stack|] == p;
    forall i | 0 <= i < |stack| ensures Lookup(root, stack[i]).Some? && Lookup(root, stack[i]).value.Dir? {
      assert all[i] == stack[i];
    }
    forall q: Path | Lookup(root, q).Some? && p <= q && q != p ensures ToCome(root, p, 0, q) {
      var i := BelowEntry(root, p, q);
    }
    forall q: Path ensures Covered(all, q) <==> Covered(stack, q) || p <= q { CoverGrows(stack, p, q); }
  }

  lemma EndReading(root: Node, files: Fingerprint, stack: seq<Path>, p: Path)
    requires Lookup(root, p).Some? && Lookup(root, p).value.Dir?
    requires Reading(root, files, stack, p, |Lookup(root, p).value.entries|)
    ensures Searching(root, files, stack)
  {
  }

  /** Entry `n` and what lies below it are no longer to come. */
  lemma PassEntry(root: Node, p: Path, n: nat)
    requires IsTree(root) && Lookup(root, p).Some? && Lookup(root, p).value.Dir? && n < |Lookup(root, p).value.entries|
    ensures var e := Lookup(root, p).value.entries[n]; var path := p + [e.name];
            && Lookup(root, path) == Some(e.node)
            && (forall q: Path :: ToCome(root, p, n, q) ==> path <= q || ToCome(root, p, n + 1, q))
            && (forall q: Path :: Lookup(root, q).Some? && path <= q && !e.node.Dir? ==> q == path)
  {
    var e := Lookup(root, p).value.entries[n];
    var path := p + [e.name];
    EntryPath(root, p, n);
    forall q: Path | Lookup(root, q).Some? && path <= q && !e.node.Dir? ensures q == path {
      LeafHasNothingBelow(root, path, q);
    }
  }

  lemma ReadDirectory(root: Node, files: Fingerprint, stack: seq<Path>, p: Path, n: nat)
    requires IsTree(root) && Reading(root, files, stack, p, n) && n < |Lookup(root, p).value.entries|
    requires Lookup(root, p).value.entries[n].node.Dir?
    ensures Reading(root, files, stack + [p + [Lookup(root, p).value.entries[n].name]], p, n + 1)
  {
    var path := p + [Lookup(root, p).value.entries[n].name];
    PassEntry(root, p, n);
    forall q: Path ensures Covered(stack + [path], q) <==> Covered(stack, q) || path <= q {
      CoverGrows(stack, path, q);
    }
  }

  /** One entry: pushed if a directory, recorded if a file, skipped otherwise. */
  lemma ReadEntry(root: Node, files: Fingerprint, stack: seq<Path>, p: Path, n: nat)
    requires IsTree(root) && Reading(root, files, stack, p, n) && n < |Lookup(root, p).value.entries|
    ensures var e := Lookup(root, p).value.entries[n]; var path := p + [e.name];
            match e.node
            case Dir(_, _) => Reading(root, files, stack + [path], p, n + 1)
            case File(stamp) => Reading(root, files[path := stamp], stack, p, n + 1)
            case Special => Reading(root, files, stack, p, n + 1)
  {
    PassEntry(root, p, n);
    if Lookup(root, p).value.entries[n].node.Dir? { ReadDirectory(root, files, stack, p, n); }
  }

  /** The root is a directory and every directory below it can be read. */
  ghost predicate Readable(root: Node) {
    root.Dir? && forall p: Path :: !Unreadable(root, p)
  }

  lemma SearchBegins(root: Node)
    requires root.Dir?
    ensures Searching(root, map[], [[]])
  {
    var dirs: seq<Path> := [[]];
    assert dirs[0] == [];
    forall q: Path ensures Covered(dirs, q) { assert dirs[0] <= q; }
  }

  /** Pushing an entry costs the size of its node. */
  lemma StackGrows(root: Node, dirs: seq<Path>, path: Path)
    requires Lookup(root, path).Some?
    ensures StackSize(root, dirs + [path]) == StackSize(root, dirs) + Size(Lookup(root, path).value)
  {
    assert (dirs + [path])[..|dirs|] == dirs;
  }

  /** workspace_fingerprint: an explicit stack of directories. It succeeds exactly
      when the root and every directory below it can be read, and then returns
      exactly the regular files. */
  method WorkspaceFingerprint(root: Node) returns (r: Option<Fingerprint>)
    requires IsTree(root)
    ensures r.Some? <==> Readable(root)
    ensures r.Some? ==> IsFingerprint(root, r.value)
  {
    if !root.Dir? {
      return None; // read_dir of the root fails
    }
    var files: Fingerprint := map[];
    var dirs: seq<Path> := [[]];
    SearchBegins(root);
    while dirs != []
      invariant Searching(root, files, dirs)
      decreases StackSize(root, dirs)
    {
      var dir := dirs[|dirs| - 1];
      ghost var all := dirs;
      dirs := dirs[..|dirs| - 1];
      assert all == dirs + [dir];
      assert all[|dirs|] == dir;
      var node := Lookup(root, dir).value;
      StackGrows(root, dirs, dir);
      if !node.readable {
        assert Unreadable(root, dir);
        return None;
      }
      BeginReading(root, files, dirs, dir);
      files, dirs := ReadEntries(root, dir, files, dirs);
    }
    return Some(files);
  }

  /** The inner loop: one directory's entries. */
  method ReadEntries(root: Node, dir: Path, files: Fingerprint, dirs: seq<Path>)
    returns (files': Fingerprint, dirs': seq<Path>)
    requires IsTree(root) && Reading(root, files, dirs, dir, 0)
    ensures Searching(root, files', dirs')
    ensures StackSize(root, dirs') < StackSize(root, dirs) + Size(Lookup(root, dir).value)
  {
    files', dirs' := files, dirs;
    var entries := Lookup(root, dir).value.entries;
    assert entries[..0] == [];
    for n := 0 to |entries|
      invariant Reading(root, files', dirs', dir, n)
      invariant StackSize(root, dirs') <= StackSize(root, dirs) + SizeAll(entries[..n])
    {
      var e := entries[n];
      var path := dir + [e.name];
      SizeSplits(entries, n);
      ReadEntry(root, files', dirs', dir, n);
      match e.node {
        case Dir(_, _) =>
          EntryPath(root, dir, n);
          StackGrows(root, dirs', path);
          dirs' := dirs' + [path];
        case File(stamp) => files' := files'[path := stamp];
        case Special =>
      }
    }
    assert entries[..|entries|] == entries;
    EndReading(root, files', dirs', dir);
  }

  /** There is only one fingerprint of a tree. */
  lemma FingerprintIsUnique(root: Node, a: Fingerprint, b: Fingerprint)
    requires IsFingerprint(root, a) && IsFingerprint(root, b)
    ensures a == b
  {
    forall p: Path | p in a ensures p in b && a[p] == b[p] {
      assert Lookup(root, p) == Some(File(a[p]));
    }
    forall p: Path | p in b ensures p in a {
      assert Lookup(root, p) == Some(File(b[p]));
    }
  }

  // ----- path order -------------------------------------------------------

  predicate TextLess(a: string, b: string) {
    b != "" && (a == "" || a[0] < b[0] || (a[0] == b[0] && TextLess(a[1..], b[1..])))
  }

  predicate PathLess(a: Path, b: Path) {
    b != [] && (a == [] || TextLess(a[0], b[0]) || (a[0] == b[0] && PathLess(a[1..], b[1..])))
  }

  lemma {:induction false} TextOrder(a: string, b: string, c: string)
    ensures !TextLess(a, a)
    ensures TextLess(a, b) && TextLess(b, c) ==> TextLess(a, c)
    ensures a == b || TextLess(a, b) || TextLess(b, a)
    decreases |a|
  {
    if a != "" && b != "" && a[0] == b[0] {
      assert a == [a[0]] + a[1..] && b == [b[0]] + b[1..];
    }
    if a != "" { TextOrder(a[1..], if b == "" then "" else b[1..], if c == "" then "" else c[1..]); }
  }

  lemma {:induction false} PathOrder(a: Path, b: Path, c: Path)
    ensures !PathLess(a, a)
    ensures PathLess(a, b) && PathLess(b, c) ==> PathLess(a, c)
    ensures a == b || PathLess(a, b) || PathLess(b, a)
    decreases |a|
  {
    if a != [] {
      if b != [] {
        TextOrder(a[0], b[0], if c == [] then "" else c[0]);
        if a[0] == b[0] { assert a == [a[0]] + a[1..] && b == [b[0]] + b[1..]; }
      }
      TextOrder(a[0], a[0], a[0]);
      PathOrder(a[1..], if b == [] then [] else b[1..], if c == [] then [] else c[1..]);
    }
  }

  /** Names are ordered by the first character that differs, a name before its
      extensions. */
  lemma {:induction false} NamesInOrder(s: string, c: char, x: string, d: char, y: string)
    ensures c < d ==> TextLess(s + [c] + x, s + [d] + y)
    ensures x != "" ==> TextLess(s, s + x)
    decreases |s|
  {
    if s != "" {
      NamesInOrder(s[1..], c, x, d, y);
      assert (s + [c] + x)[1..] == s[1..] + [c] + x && (s + [d] + y)[1..] == s[1..] + [d] + y;
      assert (s + x)[1..] == s[1..] + x;
    }
  }

  /** Paths are ordered by the first name that differs. */
  lemma {:induction false} PathsInOrder(p: Path, x: string, q: Path, y: string, r: Path)
    requires TextLess(x, y)
    ensures PathLess(p + ([x] + q), p + ([y] + r))
    decreases |p|
  {
    if p == [] {
      assert p + ([x] + q) == [x] + q && p + ([y] + r) == [y] + r;
    } else {
      PathsInOrder(p[1..], x, q, y, r);
      TailOf(p, [x] + q);
      TailOf(p, [y] + r);
    }
  }

  /** A directory comes before what lies below it. */
  lemma {:induction false} ParentFirst(p: Path, q: Path)
    requires q != []
    ensures PathLess(p, p + q)
    decreases |p|
  {
    if p != [] {
      ParentFirst(p[1..], q);
      TailOf(p, q);
    }
  }

  lemma TailOf(p: Path, q: Path)
    requires p != []
    ensures (p + q)[0] == p[0] && (p + q)[1..] == p[1..] + q
  {
  }

  lemma {:induction false} LeastExists(paths: set<Path>) returns (least: Path)
    requires paths != {}
    ensures least in paths && forall p :: p in paths ==> p == least || PathLess(least, p)
    decreases paths
  {
    var any :| any in paths;
    var rest := paths - {any};
    assert forall p :: p in paths ==> p == any || p in rest;
    if rest == {} {
      least := any;
    } else {
      var below := LeastExists(rest);
      PathOrder(any, below, any);
      least := if PathLess(any, below) then any else below;
      forall p | p in paths ensures p == least || PathLess(least, p) {
        if p != any { PathOrder(any, below, p); }
      }
    }
  }

  predicate Ascending(paths: seq<Path>) {
    forall i, j :: 0 <= i < j < |paths| ==> PathLess(paths[i], paths[j])
  }

  ghost predicate IsFileAt(root: Node, p: Path) {
    Lookup(root, p).Some? && Lookup(root, p).value.File?
  }

  /** The fingerprint or, when it cannot be taken, an empty one. */
  method Snapshot(root: Node) returns (files: Fingerprint)
    requires IsTree(root)
    ensures if Readable(root) then IsFingerprint(root, files) else files == map[]
  {
    var r := WorkspaceFingerprint(root);
    files := if r.Some? then r.value else map[];
  }

  /** changed_workspace_files: the files below the root that are new or restamped,
      never deleted ones, each once and in path order; none if the root cannot be
      read in full. */
  method ChangedWorkspaceFiles(root: Node, before: Fingerprint) returns (changed: seq<Path>)
    requires IsTree(root)
    ensures forall p :: p in changed <==>
              Readable(root) && IsFileAt(root, p) && !(p in before && Lookup(root, p) == Some(File(before[p])))
    ensures Ascending(changed)
  {
    var after := Snapshot(root);
    changed := [];
    var rest := after.Keys;
    while rest != {}
      invariant rest <= after.Keys
      invariant forall p :: p in changed <==> p in after && !(p in before && before[p] == after[p]) && p !in rest
      invariant forall p, q :: p in changed && q in rest ==> PathLess(p, q)
      invariant Ascending(changed)
      decreases rest
    {
      ghost var least := LeastExists(rest);
      var p :| p in rest && forall q :: q in rest ==> q == p || PathLess(p, q);
      forall q ensures !PathLess(q, q) { PathOrder(q, q, q); }
      if !(p in before && before[p] == after[p]) {
        changed := changed + [p];
      }
      rest := rest - {p};
    }
  }

  /** What the two snapshots around a turn make of the trees before and after it. */
  ghost predicate Reported(was: Node, now: Node, changed: seq<Path>) {
    forall p :: p in changed <==>
      Readable(now) && IsFileAt(now, p) && !(Readable(was) && Lookup(was, p) == Lookup(now, p))
  }

  /** Exactly the files that are new or restamped. */
  ghost predicate ExactlyChanged(was: Node, now: Node, changed: seq<Path>) {
    forall p :: p in changed <==> IsFileAt(now, p) && Lookup(was, p) != Lookup(now, p)
  }

  /** The two snapshots around a turn. A tree that could not be read before makes
      every file count, one that cannot be read after makes none. */
  method ChangesOfTurn(was: Node, now: Node) returns (changed: seq<Path>)
    requires IsTree(was) && IsTree(now)
    ensures Reported(was, now, changed) && Ascending(changed)
  {
    var before := Snapshot(was);
    changed := ChangedWorkspaceFiles(now, before);
  }

  /** The reported files are exactly the changed ones if and only if the later tree
      can be read, and so can the earlier one or no file is unchanged; or the later
      tree cannot be read and no file changed. */
  lemma ReportIsExactIff(was: Node, now: Node, changed: seq<Path>)
    requires Reported(was, now, changed)
    ensures ExactlyChanged(was, now, changed) <==>
              if Readable(now)
              then Readable(was) || forall p :: IsFileAt(now, p) ==> Lookup(was, p) != Lookup(now, p)
              else forall p :: IsFileAt(now, p) ==> Lookup(was, p) == Lookup(now, p)
  {
  }

  const STAMP := Stamp(0, None)

  /** File "a", unchanged, beside a directory "d" that can be read or not. */
  function Beside(readable: bool): Node {
    Dir(true, [Entry("a", File(STAMP)), Entry("d", Dir(readable, []))])
  }

  lemma ChildOfBeside(readable: bool, name: string)
    ensures Child(Beside(readable).entries, name)
         == if name == "a" then Some(File(STAMP)) else if name == "d" then Some(Dir(readable, [])) else None
  {
    var entries := Beside(readable).entries;
    var rest := entries[1..];
    assert rest == [Entry("d", Dir(readable, []))];
    assert rest[1..] == [];
    assert Child(rest[1..], name) == None;
    assert Child(rest, name) == if rest[0].name == name then Some(rest[0].node) else Child(rest[1..], name);
    assert Child(entries, name) == if entries[0].name == name then Some(entries[0].node) else Child(rest, name);
  }

  /** Below that root there are only the two entries. */
  lemma LookupBeside(readable: bool, p: Path)
    requires p != []
    ensures Lookup(Beside(readable), p)
         == if p == ["a"] then Some(File(STAMP)) else if p == ["d"] then Some(Dir(readable, [])) else None
  {
    var name, rest := p[0], p[1..];
    ChildOfBeside(readable, name);
    assert p == [name] + rest;
    forall x: string ensures p == [x] <==> name == x && rest == [] { assert [x] == [x] + []; }
    if rest != [] {
      assert Lookup(File(STAMP), rest) == None;
      assert Child([], rest[0]) == None;
      assert Lookup(Dir(readable, []), rest) == None;
    }
  }

  lemma BesideIsTree(readable: bool)
    ensures IsTree(Beside(readable))
  {
    var root := Beside(readable);
    assert "a"[0] != "d"[0];
    forall p: Path | Lookup(root, p).Some? && Lookup(root, p).value.Dir?
      ensures DistinctNames(Lookup(root, p).value.entries)
    {
      if p != [] { LookupBeside(readable, p); }
    }
  }

  lemma BesideIsReadable()
    ensures Readable(Beside(true)) && !Readable(Beside(false))
  {
    forall p: Path ensures !Unreadable(Beside(true), p) {
      if p != [] { LookupBeside(true, p); }
    }
    LookupBeside(false, ["d"]);
    assert ["a"][0][0] != ["d"][0][0];
    assert Unreadable(Beside(false), ["d"]);
  }

  /** A directory that could not be read before the turn makes the unchanged file
      "a" count as changed. */
  lemma UnchangedFileIsReported(changed: seq<Path>)
    requires Reported(Beside(false), Beside(true), changed)
    ensures ["a"] in changed && Lookup(Beside(false), ["a"]) == Lookup(Beside(true), ["a"])
    ensures IsTree(Beside(false)) && IsTree(Beside(true)) && !ExactlyChanged(Beside(false), Beside(true), changed)
  {
    LookupBeside(false, ["a"]);
    LookupBeside(true, ["a"]);
    BesideIsTree(false);
    BesideIsTree(true);
    BesideIsReadable();
    assert IsFileAt(Beside(true), ["a"]);
  }
}
