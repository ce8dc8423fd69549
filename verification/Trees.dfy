/**
 The recursive walks of filerail/utils.h: zipping a folder and removing a tree, as loops over directory listings that
 mutate the archive and the file system, with their exact effects and the archive round trip.
 */
module Trees {
  import opened Bytes

  type Name = Bytes
  type Path = seq<Name>

  datatype Node = File(data: Bytes) | Link(target: Path) | Special | Directory

  type Tree = map<Path, Node>

  /** Every node but the root lies in a directory. */
  ghost predicate WellFormed(t: Tree) {
    forall q {:trigger Parent(q)} | q in t && q != [] :: Parent(q) in t && t[Parent(q)].Directory?
  }

  function Parent(q: Path): Path
    requires q != []
  {
    q[..|q| - 1]
  }

  /** q is strictly below p. */
  predicate Below(p: Path, q: Path) { p <= q && |p| < |q| }

  lemma {:induction false} Ancestors(t: Tree, q: Path, n: nat)
    requires WellFormed(t) && q in t && n < |q|
    ensures q[..n] in t && t[q[..n]].Directory?
    decreases |q|
  {
    if n < |q| - 1 {
      Ancestors(t, Parent(q), n);
      assert Parent(q)[..n] == q[..n];
    }
  }

  // ---------------------------------------------------------------- removal

  /** The tree without everything at or below p. */
  function Without(t: Tree, p: Path): Tree {
    map q | q in t && !(p <= q) :: t[q]
  }

  /** The tree without everything in the entries `done` of directory p. */
  function Emptied(t: Tree, p: Path, done: set<Name>): Tree {
    map q | q in t && !(Below(p, q) && q[|p|] in done) :: t[q]
  }

  /** Only nodes strictly below p are missing, and nothing else changed. */
  ghost predicate LostBelow(t: Tree, t': Tree, p: Path) {
    && (forall q | q in t' :: q in t && t'[q] == t[q])
    && (forall q | q in t && q !in t' :: Below(p, q))
  }

  lemma EntryPrefix(p: Path, n: Name, q: Path)
    ensures p + [n] <= q <==> Below(p, q) && q[|p|] == n
  {
    if Below(p, q) && q[|p|] == n {
      assert q[..|p| + 1] == p + [n];
    }
  }

  lemma EmptyOneMore(t: Tree, p: Path, done: set<Name>, n: Name)
    ensures Without(Emptied(t, p, done), p + [n]) == Emptied(t, p, done + {n})
  {
    forall q ensures p + [n] <= q <==> Below(p, q) && q[|p|] == n { EntryPrefix(p, n, q); }
  }

  lemma SameEntry(p: Path, q: Path)
    requires q != []
    ensures Below(p, Parent(q)) ==> Below(p, q) && q[|p|] == Parent(q)[|p|]
  {
  }

  lemma EmptiedWellFormed(t: Tree, p: Path, done: set<Name>)
    requires WellFormed(t)
    ensures WellFormed(Emptied(t, p, done))
  {
    var e := Emptied(t, p, done);
    forall q | q in e && q != [] ensures Parent(q) in e && e[Parent(q)].Directory? {
      SameEntry(p, q);
    }
  }

  /** The names listed in directory p. */
  function Entries(t: Tree, p: Path): set<Name> {
    set q | q in t && Below(p, q) && |q| == |p| + 1 :: q[|p|]
  }

  lemma AllEntriesEmptied(t: Tree, p: Path, q: Path)
    requires WellFormed(t) && q in t && Below(p, q)
    ensures q[|p|] in Entries(t, p)
  {
    var e := q[..|p| + 1];
    if |q| > |p| + 1 {
      Ancestors(t, q, |p| + 1);
    } else {
      assert e == q;
    }
    assert e in t && Below(p, e) && |e| == |p| + 1 && e[|p|] == q[|p|];
  }

  lemma EntryKept(t: Tree, p: Path, done: set<Name>, n: Name)
    requires n in Entries(t, p) && n !in done
    ensures p + [n] in t && p + [n] in Emptied(t, p, done) && Emptied(t, p, done)[p + [n]] == t[p + [n]]
  {
    var q :| q in t && Below(p, q) && |q| == |p| + 1 && q[|p|] == n;
    assert q == p + [n];
  }

  /** The first i names of a listing. */
  ghost function Seen(names: seq<Name>, i: nat): set<Name>
    requires i <= |names|
  {
    set n | n in names[..i]
  }

  /** A listing: every entry of directory p once. */
  ghost predicate Listing(t: Tree, p: Path, names: seq<Name>) {
    && (forall n :: n in names <==> n in Entries(t, p))
    && (forall i, j | 0 <= i < j < |names| :: names[i] != names[j])
  }

  lemma SeenNext(t: Tree, p: Path, names: seq<Name>, i: nat)
    requires Listing(t, p, names) && i < |names|
    ensures names[i] in Entries(t, p) && names[i] !in Seen(names, i)
    ensures Seen(names, i + 1) == Seen(names, i) + {names[i]}
  {
    assert names[i] in names;
    assert names[..i + 1] == names[..i] + [names[i]];
  }

  lemma SeenAll(t: Tree, p: Path, names: seq<Name>)
    requires Listing(t, p, names)
    ensures Seen(names, |names|) == Entries(t, p)
  {
    assert names[..|names|] == names;
  }

  class FileSystem {
    const reliable: bool // no call fails that can succeed
    var nodes: Tree

    constructor (t: Tree, reliable: bool)
      ensures nodes == t && this.reliable == reliable
    {
      nodes, this.reliable := t, reliable;
    }

    /** opendir and readdir: every entry once, in any order. */
    method ReadDir(p: Path) returns (ok: bool, names: seq<Name>)
      ensures ok ==> p in nodes && nodes[p].Directory? && Listing(nodes, p, names)
      ensures reliable && p in nodes && nodes[p].Directory? ==> ok
    {
      var fails: bool := *;
      ok := (reliable || !fails) && p in nodes && nodes[p].Directory?;
      names := [];
      var rest := Entries(nodes, p);
      while rest != {}
        invariant forall n :: n in names || n in rest <==> n in Entries(nodes, p)
        invariant forall n | n in names :: n !in rest
        invariant forall i, j | 0 <= i < j < |names| :: names[i] != names[j]
        decreases rest
      {
        var n :| n in rest;
        rest := rest - {n};
        names := names + [n];
      }
    }

    /** unlink(2) removes anything but a directory, and a link rather than its target. */
    method Unlink(p: Path) returns (ok: bool)
      modifies this
      ensures ok ==> p in old(nodes) && !old(nodes)[p].Directory? && nodes == old(nodes) - {p}
      ensures reliable && p in old(nodes) && !old(nodes)[p].Directory? ==> ok
      ensures !ok ==> nodes == old(nodes)
    {
      var fails: bool := *;
      ok := (reliable || !fails) && p in nodes && !nodes[p].Directory?;
      if ok {
        nodes := nodes - {p};
      }
    }

    /** rmdir(2) removes an empty directory. */
    method Rmdir(p: Path) returns (ok: bool)
      modifies this
      ensures ok ==> p in old(nodes) && Entries(old(nodes), p) == {} && nodes == old(nodes) - {p}
      ensures var t := old(nodes); reliable && p in t && t[p].Directory? && Entries(t, p) == {} ==> ok
      ensures !ok ==> nodes == old(nodes)
    {
      var fails: bool := *;
      ok := (reliable || !fails) && p in nodes && nodes[p].Directory? && Entries(nodes, p) == {};
      if ok {
        nodes := nodes - {p};
      }
    }
  }

  lemma OnlyDirectoriesHold(t: Tree, p: Path)
    requires WellFormed(t)
    ensures forall q | q in t && Below(p, q) :: p in t && t[p].Directory?
  {
    forall q | q in t && Below(p, q) ensures p in t && t[p].Directory? {
      Ancestors(t, q, |p|);
      assert q[..|p|] == p;
    }
  }

  lemma LeafAlone(t: Tree, p: Path)
    requires WellFormed(t) && p in t && !t[p].Directory?
    ensures t - {p} == Without(t, p) && WellFormed(t - {p})
  {
    OnlyDirectoriesHold(t, p);
    assert forall q | q in t && p <= q :: q == p;
  }

  lemma NothingLeft(t: Tree, p: Path)
    requires WellFormed(t) && p in t
    ensures Emptied(t, p, Entries(t, p)) - {p} == Without(t, p) && WellFormed(Without(t, p))
  {
    forall q | q in t && Below(p, q) ensures q[|p|] in Entries(t, p) { AllEntriesEmptied(t, p, q); }
    assert forall q | p <= q && !Below(p, q) :: q == p;
    forall q | q in Without(t, p) && q != [] ensures Parent(q) in Without(t, p) && Without(t, p)[Parent(q)].Directory? {
      assert p <= Parent(q) ==> p <= q;
    }
  }

  lemma NoEntries(t: Tree, p: Path)
    requires p in t
    ensures var e := Emptied(t, p, Entries(t, p)); p in e && e[p] == t[p] && Entries(e, p) == {}
  {
  }

  /** What filerail_rm promises about the tree before and after. */
  ghost predicate RmPost(t: Tree, t': Tree, p: Path, ok: bool, reliable: bool) {
    && WellFormed(t')
    && (ok ==> p in t && t' == if t[p].Special? then t else Without(t, p))
    && (!ok ==> LostBelow(t, t', p))
    && (p in t && t[p].Special? ==> ok)
    && (reliable ==> ok == (p in t))
  }

  /**
   filerail_rm. On success nothing at or below the path is left and everything else is as it was; a link goes, not
   its target. One kind of node is reported removed but stays: what is neither file, link nor directory. On failure
   only nodes strictly below the path may be gone. If no call fails that can succeed, it fails only where nothing is.
   */
  method Rm(fs: FileSystem, p: Path) returns (ok: bool)
    requires WellFormed(fs.nodes)
    modifies fs
    ensures RmPost(old(fs.nodes), fs.nodes, p, ok, fs.reliable)
    decreases set q | q in fs.nodes && p <= q
  {
    if p !in fs.nodes {
      return false;
    }
    match fs.nodes[p]
    case Special => return true;
    case Directory =>
      ok := RmDirectory(fs, p);
    case _ =>
      LeafAlone(fs.nodes, p);
      ok := fs.Unlink(p);
  }

  method RmDirectory(fs: FileSystem, p: Path) returns (ok: bool)
    requires WellFormed(fs.nodes) && p in fs.nodes && fs.nodes[p].Directory?
    modifies fs
    ensures RmPost(old(fs.nodes), fs.nodes, p, ok, fs.reliable)
    decreases set q | q in fs.nodes && p <= q, 0
  {
    ghost var t := fs.nodes;
    var names;
    ok, names := fs.ReadDir(p);
    if !ok {
      return;
    }
    assert Emptied(t, p, {}) == t && Seen(names, 0) == {};
    var i := 0;
    while i < |names|
      invariant 0 <= i <= |names|
      invariant fs.nodes == Emptied(t, p, Seen(names, i))
    {
      ghost var done, before := Seen(names, i), fs.nodes;
      EmptiedWellFormed(t, p, done);
      SeenNext(t, p, names, i);
      EntryKept(t, p, done, names[i]);
      SmallerSubtree(t, before, p, names[i]);
      ok := RmEntry(fs, p + [names[i]]);
      if !ok {
        LostDeeper(t, before, fs.nodes, p, names[i]);
        return;
      }
      EmptyOneMore(t, p, done, names[i]);
      i := i + 1;
    }
    SeenAll(t, p, names);
    NothingLeft(t, p);
    NoEntries(t, p);
    EmptiedWellFormed(t, p, Entries(t, p));
    ok := fs.Rmdir(p);
  }

  /** One turn of the loop: descend into a directory, unlink anything else. */
  method RmEntry(fs: FileSystem, path: Path) returns (ok: bool)
    requires WellFormed(fs.nodes) && path in fs.nodes
    modifies fs
    ensures WellFormed(fs.nodes)
    ensures ok ==> fs.nodes == Without(old(fs.nodes), path)
    ensures fs.reliable ==> ok
    ensures !ok ==> LostBelow(old(fs.nodes), fs.nodes, path)
    decreases set q | q in fs.nodes && path <= q, 1
  {
    if fs.nodes[path].Directory? {
      ok := RmDirectory(fs, path);
    } else {
      LeafAlone(fs.nodes, path);
      ok := fs.Unlink(path);
    }
  }

  lemma SmallerSubtree(t: Tree, e: Tree, p: Path, n: Name)
    requires p in t && forall q | q in e :: q in t
    ensures (set q | q in e && p + [n] <= q) < (set q | q in t && p <= q)
  {
    var small, big := (set q | q in e && p + [n] <= q), (set q | q in t && p <= q);
    forall q | q in small ensures q in big { EntryPrefix(p, n, q); }
    assert p in big && p !in small;
  }

  lemma LostDeeper(t: Tree, e: Tree, e': Tree, p: Path, n: Name)
    requires (forall q | q in e :: q in t && e[q] == t[q]) && (forall q | q in t && q !in e :: Below(p, q))
    requires LostBelow(e, e', p + [n])
    ensures LostBelow(t, e', p)
  {
    forall q | q in t && q !in e' ensures Below(p, q) {
      if q in e { EntryPrefix(p, n, q); }
    }
  }
}
