/**
 Zipping a resource and extracting it again (filerail/utils.h, filerail/operations.h): the archive is its list of
 entries, a path and the octets read from it.
 */
module Zipping {
  import opened Bytes
  import opened Trees

  datatype Entry = Entry(path: Path, data: Bytes)

  /** How many symbolic links an open follows before it gives up. */
  const MAX_LINKS := 40

  /** What reading a path yields: a link is followed, and only regular files can be read. */
  function Read(t: Tree, p: Path, links: nat := MAX_LINKS): Option<Bytes>
    decreases links
  {
    if p !in t then None else
    match t[p]
    case File(data) => Some(data)
    case Link(target) => if links == 0 then None else Read(t, target, links - 1)
    case _ => None
  }

  /** Following n links one after the other leads from p to q. */
  ghost predicate Leads(t: Tree, p: Path, q: Path, n: nat)
    decreases n
  {
    if n == 0 then p == q else p in t && t[p].Link? && Leads(t, t[p].target, q, n - 1)
  }

  /** A path reads as a file to which a bounded number of links leads... */
  lemma {:induction false} ReadFollows(t: Tree, p: Path, q: Path, n: nat, links: nat)
    requires n <= links && Leads(t, p, q, n) && q in t && t[q].File?
    ensures Read(t, p, links) == Some(t[q].data)
    decreases links
  {
    if 0 < n {
      ReadFollows(t, t[p].target, q, n - 1, links - 1);
    }
  }

  /** ... and as nothing else. */
  lemma {:induction false} ReadFinds(t: Tree, p: Path, links: nat) returns (q: Path, n: nat)
    requires Read(t, p, links).Some?
    ensures n <= links && Leads(t, p, q, n) && q in t && t[q] == File(Read(t, p, links).value)
    decreases links
  {
    if t[p].Link? {
      q, n := ReadFinds(t, t[p].target, links - 1);
      n := n + 1;
    } else {
      q, n := p, 0;
    }
  }

  /** q is a node at or below p that is not a directory. */
  ghost predicate Leaf(t: Tree, p: Path, q: Path) {
    q in t && p <= q && !t[q].Directory?
  }

  /** q is a directory on the way to a leaf. */
  ghost predicate HoldsLeaf(t: Tree, p: Path, q: Path) {
    exists l :: Leaf(t, p, l) && q < l
  }

  ghost function Paths(es: seq<Entry>): set<Path> {
    set e | e in es :: e.path
  }

  ghost predicate Distinct(es: seq<Entry>) {
    forall i, j | 0 <= i < j < |es| :: es[i].path != es[j].path
  }

  /** Every entry is a leaf of the resource, with the octets read from it. */
  ghost predicate Sound(t: Tree, p: Path, es: seq<Entry>) {
    forall e | e in es :: Leaf(t, p, e.path) && Read(t, e.path) == Some(e.data)
  }

  /** The archive of the resource: one entry for each of its leaves, and no other. */
  ghost predicate Zipped(t: Tree, p: Path, es: seq<Entry>) {
    Distinct(es) && Sound(t, p, es) && forall q | Leaf(t, p, q) :: q in Paths(es)
  }

  /** The same for the entries `done` of directory p only. */
  ghost predicate Partly(t: Tree, p: Path, done: set<Name>, es: seq<Entry>) {
    && Distinct(es) && Sound(t, p, es)
    && (forall e | e in es :: Below(p, e.path) && e.path[|p|] in done)
    && (forall q | Leaf(t, p, q) && Below(p, q) && q[|p|] in done :: q in Paths(es))
  }

  lemma PathsAppend(es: seq<Entry>, more: seq<Entry>)
    ensures Paths(es + more) == Paths(es) + Paths(more)
  {
  }

  lemma PartlyOneMore(t: Tree, p: Path, done: set<Name>, n: Name, es: seq<Entry>, more: seq<Entry>)
    requires Partly(t, p, done, es) && n !in done && Zipped(t, p + [n], more)
    ensures Partly(t, p, done + {n}, es + more)
  {
    forall e | e in more ensures Below(p, e.path) && e.path[|p|] == n { EntryPrefix(p, n, e.path); }
    forall q | Leaf(t, p, q) && Below(p, q) && q[|p|] in done + {n} ensures q in Paths(es + more) {
      EntryPrefix(p, n, q);
      PathsAppend(es, more);
    }
    forall i, j | 0 <= i < j < |es + more| ensures (es + more)[i].path != (es + more)[j].path {
      if i < |es| <= j { assert (es + more)[i] in es && (es + more)[j] in more; }
    }
  }

  lemma SoundSoFar(t: Tree, p: Path, n: Name, done: set<Name>, es: seq<Entry>, more: seq<Entry>)
    requires Partly(t, p, done, es) && Sound(t, p + [n], more)
    ensures Sound(t, p, es + more)
  {
    forall e | e in more ensures p <= e.path { EntryPrefix(p, n, e.path); }
  }

  lemma PartlyNone(t: Tree, p: Path)
    ensures Partly(t, p, {}, [])
  {
  }

  lemma PartlyAll(t: Tree, p: Path, es: seq<Entry>)
    requires WellFormed(t) && p in t && t[p].Directory? && Partly(t, p, Entries(t, p), es)
    ensures Zipped(t, p, es)
  {
    forall q | Leaf(t, p, q) ensures q in Paths(es) {
      assert q != p;
      AllEntriesEmptied(t, p, q);
    }
  }

  lemma LeafZipped(t: Tree, p: Path, data: Bytes)
    requires WellFormed(t) && p in t && !t[p].Directory? && Read(t, p) == Some(data)
    ensures Zipped(t, p, [Entry(p, data)])
  {
    OnlyDirectoriesHold(t, p);
    assert Entry(p, data) in [Entry(p, data)];
    assert forall q | Leaf(t, p, q) :: !Below(p, q) && (q == p || Below(p, q));
  }

  /** Every leaf of the resource can be read: an archive of it exists. */
  ghost predicate AllReadable(t: Tree, p: Path) {
    forall q {:trigger Read(t, q)} | Leaf(t, p, q) :: Read(t, q).Some?
  }

  class Zip {
    const reliable: bool // no call fails that can succeed
    var entries: seq<Entry>

    constructor (reliable: bool)
      ensures entries == [] && this.reliable == reliable
    {
      entries, this.reliable := [], reliable;
    }

    /** zip_entry_open, zip_entry_fwrite and zip_entry_close on one path, any of which may fail. */
    method Add(fs: FileSystem, p: Path) returns (ok: bool)
      modifies this
      ensures ok ==> Read(fs.nodes, p).Some? && entries == old(entries) + [Entry(p, Read(fs.nodes, p).value)]
      ensures reliable && Read(fs.nodes, p).Some? ==> ok
      ensures !ok ==> entries == old(entries)
    {
      var fails: bool := *;
      ok := (reliable || !fails) && Read(fs.nodes, p).Some?;
      if ok {
        entries := entries + [Entry(p, Read(fs.nodes, p).value)];
      }
    }
  }

  /** filerail_zip_file. */
  method ZipFile(zip: Zip, fs: FileSystem, p: Path) returns (ok: bool)
    requires WellFormed(fs.nodes) && p in fs.nodes && !fs.nodes[p].Directory?
    modifies zip
    ensures old(zip.entries) <= zip.entries
    ensures ok ==> Zipped(fs.nodes, p, zip.entries[|old(zip.entries)|..])
    ensures zip.reliable && AllReadable(fs.nodes, p) ==> ok
    ensures !ok ==> zip.entries == old(zip.entries)
  {
    assert Leaf(fs.nodes, p, p);
    ok := zip.Add(fs, p);
    if ok {
      LeafZipped(fs.nodes, p, Read(fs.nodes, p).value);
      assert zip.entries[|old(zip.entries)|..] == [Entry(p, Read(fs.nodes, p).value)];
    }
  }

  /**
   filerail_zip_folder: on success exactly one entry, with its content, for each node below the path that is not a
   directory, at any depth.
   */
  method ZipFolder(zip: Zip, fs: FileSystem, p: Path) returns (ok: bool)
    requires WellFormed(fs.nodes)
    modifies zip
    ensures old(zip.entries) <= zip.entries
    ensures ok ==> p in fs.nodes && fs.nodes[p].Directory? && Zipped(fs.nodes, p, zip.entries[|old(zip.entries)|..])
    ensures var t := fs.nodes;
            zip.reliable && fs.reliable && p in t && t[p].Directory? && AllReadable(t, p) ==> ok
    ensures !ok ==> Sound(fs.nodes, p, zip.entries[|old(zip.entries)|..])
    decreases set q | q in fs.nodes && p <= q, 0
  {
    ghost var t, before := fs.nodes, zip.entries;
    var names;
    ok, names := fs.ReadDir(p);
    if !ok {
      return;
    }
    PartlyNone(t, p);
    ghost var done: seq<Entry> := [];
    assert Seen(names, 0) == {} && zip.entries == before + done;
    var i := 0;
    while i < |names|
      invariant 0 <= i <= |names|
      invariant zip.entries == before + done && Partly(t, p, Seen(names, i), done)
    {
      SeenNext(t, p, names, i);
      EntryKept(t, p, {}, names[i]);
      SmallerSubtree(t, t, p, names[i]);
      ReadableBelow(t, p, names[i]);
      ok := ZipEntry(zip, fs, p + [names[i]]);
      ghost var more := zip.entries[|before + done|..];
      assert zip.entries == before + (done + more);
      if !ok {
        SoundSoFar(t, p, names[i], Seen(names, i), done, more);
        assert zip.entries[|before|..] == done + more;
        return;
      }
      PartlyOneMore(t, p, Seen(names, i), names[i], done, more);
      done := done + more;
      i := i + 1;
    }
    SeenAll(t, p, names);
    PartlyAll(t, p, done);
    assert zip.entries[|before|..] == done;
  }

  lemma ReadableBelow(t: Tree, p: Path, n: Name)
    ensures AllReadable(t, p) ==> AllReadable(t, p + [n])
  {
    forall q | Leaf(t, p + [n], q) ensures Leaf(t, p, q) { EntryPrefix(p, n, q); }
  }

  /** One turn of the loop: descend into a directory, add anything else. */
  method ZipEntry(zip: Zip, fs: FileSystem, path: Path) returns (ok: bool)
    requires WellFormed(fs.nodes) && path in fs.nodes
    modifies zip
    ensures old(zip.entries) <= zip.entries
    ensures ok ==> Zipped(fs.nodes, path, zip.entries[|old(zip.entries)|..])
    ensures zip.reliable && fs.reliable && AllReadable(fs.nodes, path) ==> ok
    ensures !ok ==> Sound(fs.nodes, path, zip.entries[|old(zip.entries)|..])
    decreases set q | q in fs.nodes && path <= q, 1
  {
    if fs.nodes[path].Directory? {
      ok := ZipFolder(zip, fs, path);
    } else {
      ok := ZipFile(zip, fs, path);
    }
  }

  // ---------------------------------------------------------------- extraction

  function Prefixes(p: Path): set<Path> {
    set n | 0 <= n <= |p| :: p[..n]
  }

  lemma PrefixesAre(p: Path)
    ensures forall q :: q in Prefixes(p) <==> q <= p
  {
    forall q | q <= p ensures q in Prefixes(p) { assert q == p[..|q|]; }
  }

  /** Creates the missing parents of the entry and writes its file; fails where a node of another kind is in the way. */
  function Place(t: Tree, e: Entry): Option<Tree> {
    if (exists q | q in Prefixes(e.path) && q in t :: t[q].Directory? <==> q == e.path) then None
    else Some(map q | q in t.Keys + Prefixes(e.path) ::
                if q == e.path then File(e.data) else if q in t then t[q] else Directory)
  }

  function Extract(base: Tree, es: seq<Entry>): Option<Tree> {
    if es == [] then Some(base) else
    match Extract(base, es[..|es| - 1])
    case None => None
    case Some(t) => Place(t, es[|es| - 1])
  }

  /** No entry names a directory another entry needs. */
  ghost predicate Unnested(es: seq<Entry>) {
    forall e, f | e in es && f in es :: !(e.path < f.path)
  }

  ghost predicate Free(base: Tree, es: seq<Entry>) {
    forall e, q | e in es && q in base && q <= e.path :: base[q].Directory? && q != e.path
  }

  /** q is the path of an entry or a directory on the way to it. */
  ghost predicate Covered(es: seq<Entry>, q: Path) {
    exists e :: e in es && q <= e.path
  }

  /** The tree that extraction of es onto base leaves. */
  ghost predicate Extracted(base: Tree, es: seq<Entry>, t: Tree) {
    && (forall q :: q in t <==> q in base || Covered(es, q))
    && Holding(es, t)
    && (forall q | q in t && q !in Paths(es) :: t[q] == if q in base then base[q] else Directory)
  }

  ghost predicate Holding(es: seq<Entry>, t: Tree) {
    forall e | e in es :: e.path in t && t[e.path] == File(e.data)
  }

  lemma {:induction false} ExtractIs(base: Tree, es: seq<Entry>)
    requires Distinct(es) && Unnested(es) && Free(base, es)
    ensures Extract(base, es).Some? && Extracted(base, es, Extract(base, es).value)
  {
    if es != [] {
      var before, e := es[..|es| - 1], es[|es| - 1];
      assert es == before + [e];
      FirstOnes(base, before, e);
      ExtractIs(base, before);
      var t := Extract(base, before).value;
      LastApart(before, e);
      forall q | q in t && q <= e.path ensures t[q].Directory? && q != e.path { Unobstructed(base, before, e, t, q); }
      PlaceIs(t, e);
      PlacedIs(base, before, e, t, Place(t, e).value);
    }
  }

  lemma FirstOnes(base: Tree, es: seq<Entry>, e: Entry)
    requires Distinct(es + [e]) && Unnested(es + [e]) && Free(base, es + [e])
    ensures Distinct(es) && Unnested(es) && Free(base, es)
    ensures e.path !in Paths(es)
    ensures forall q | q in base && q <= e.path :: base[q].Directory? && q != e.path
  {
    DistinctLast(es, e);
    assert e in es + [e] && forall f | f in es :: f in es + [e];
  }

  lemma LastApart(es: seq<Entry>, e: Entry)
    requires Distinct(es + [e]) && Unnested(es + [e])
    ensures Apart(es, e)
  {
    DistinctLast(es, e);
    assert e in es + [e];
    forall f | f in es ensures !(e.path <= f.path) && !(f.path <= e.path) {
      assert f in es + [e] && f.path in Paths(es);
    }
  }

  /** The effect of placing one entry where nothing is in its way. */
  ghost predicate Placed(t: Tree, e: Entry, t': Tree) {
    && (forall q :: q in t' <==> q in t || q <= e.path)
    && (forall q | q in t' :: t'[q] == if q == e.path then File(e.data) else if q in t then t[q] else Directory)
  }

  lemma PlaceIs(t: Tree, e: Entry)
    requires forall q | q in t && q <= e.path :: t[q].Directory? && q != e.path
    ensures Place(t, e).Some? && Placed(t, e, Place(t, e).value)
  {
    PrefixesAre(e.path);
  }

  ghost predicate Apart(es: seq<Entry>, e: Entry) {
    forall f | f in es :: !(e.path <= f.path) && !(f.path <= e.path)
  }

  lemma Unobstructed(base: Tree, es: seq<Entry>, e: Entry, t: Tree, q: Path)
    requires Extracted(base, es, t) && q in t && q <= e.path && Apart(es, e)
    requires q in base ==> base[q].Directory? && q != e.path
    ensures t[q].Directory? && q != e.path
  {
    assert q !in Paths(es);
    assert !Covered(es, e.path);
  }

  lemma DistinctLast(es: seq<Entry>, e: Entry)
    requires Distinct(es + [e])
    ensures e.path !in Paths(es) && Distinct(es)
  {
    forall f | f in es ensures f.path != e.path {
      var i :| 0 <= i < |es| && es[i] == f;
      assert (es + [e])[i] == f && (es + [e])[|es|] == e;
    }
    assert forall i | 0 <= i < |es| :: (es + [e])[i] == es[i];
  }

  lemma PlacedIs(base: Tree, es: seq<Entry>, e: Entry, t: Tree, t': Tree)
    requires e.path !in Paths(es) && Extracted(base, es, t) && Placed(t, e, t')
    ensures Extracted(base, es + [e], t')
  {
    forall q ensures Covered(es + [e], q) <==> Covered(es, q) || q <= e.path { CoveredOneMore(es, e, q); }
    PlacedHolds(es, e, t, t');
    PathsAppend(es, [e]);
    assert Paths([e]) == {e.path};
  }

  lemma PlacedHolds(es: seq<Entry>, e: Entry, t: Tree, t': Tree)
    requires e.path !in Paths(es) && Holding(es, t) && Placed(t, e, t')
    ensures Holding(es + [e], t')
  {
    forall f | f in es + [e] ensures f.path in t' && t'[f.path] == File(f.data) {
      if f in es {
        assert f.path in Paths(es);
      } else {
        assert f == e && e.path <= e.path;
      }
    }
  }

  lemma CoveredOneMore(es: seq<Entry>, e: Entry, q: Path)
    ensures Covered(es + [e], q) <==> Covered(es, q) || q <= e.path
  {
    assert forall f :: f in es + [e] <==> f in es || f == e;
  }

  // ---------------------------------------------------------------- round trip

  /** The resource as an archive can hold it: leaves as files, and only the directories that hold one. */
  ghost function Pruned(t: Tree, p: Path): Tree {
    map q | q in t && (Leaf(t, p, q) || HoldsLeaf(t, p, q)) ::
      if Leaf(t, p, q) && Read(t, q).Some? then File(Read(t, q).value) else Directory
  }

  lemma ZippedUnnested(t: Tree, p: Path, es: seq<Entry>)
    requires WellFormed(t) && Zipped(t, p, es)
    ensures Unnested(es)
  {
    forall e, f | e in es && f in es ensures !(e.path < f.path) {
      OnlyDirectoriesHold(t, e.path);
    }
  }

  lemma InPruned(t: Tree, p: Path, es: seq<Entry>, q: Path)
    requires WellFormed(t) && Zipped(t, p, es)
    ensures q in Pruned(t, p) <==> Covered(es, q)
  {
    if e :| e in es && q <= e.path {
      assert Leaf(t, p, e.path);
      if q != e.path {
        Ancestors(t, e.path, |q|);
        assert e.path[..|q|] == q;
      }
    }
    if q in Pruned(t, p) {
      var l :| Leaf(t, p, l) && q <= l;
      assert l in Paths(es);
    }
  }

  lemma LeafIsEntry(t: Tree, p: Path, es: seq<Entry>, q: Path)
    requires Zipped(t, p, es)
    ensures q in Paths(es) <==> Leaf(t, p, q)
  {
  }

  /**
   Zipping a file or folder and extracting the archive beside nothing of that name gives back every leaf as a file
   with its content and exactly the directories that hold a leaf, and changes nothing else.
   */
  lemma ArchiveRoundTrip(t: Tree, p: Path, es: seq<Entry>, base: Tree)
    requires WellFormed(t) && Zipped(t, p, es)
    requires forall q | q in base :: !(p <= q) && (q <= p ==> base[q].Directory?)
    ensures Extract(base, es) == Some(base + Pruned(t, p))
  {
    ZippedUnnested(t, p, es);
    forall e, q | e in es && q in base && q <= e.path ensures base[q].Directory? && q != e.path {
      assert p <= e.path;
      assert q <= p || p <= q;
    }
    ExtractIs(base, es);
    var r := Extract(base, es).value;
    forall q ensures q in r <==> q in base + Pruned(t, p) { InPruned(t, p, es, q); }
    forall q | q in r ensures r[q] == (base + Pruned(t, p))[q] {
      InPruned(t, p, es, q);
      LeafIsEntry(t, p, es, q);
    }
    assert r == base + Pruned(t, p);
  }

  /** Where no leaf is a link the copy is the original, with the directories that hold no file pruned. */
  lemma PrunedOriginal(t: Tree, p: Path)
    requires WellFormed(t) && forall q | Leaf(t, p, q) :: t[q].File?
    ensures forall q | q in Pruned(t, p) :: q in t && Pruned(t, p)[q] == t[q]
    ensures forall q | q in t && p <= q && q !in Pruned(t, p) ::
              t[q].Directory? && forall l | l in t && q <= l :: t[l].Directory?
  {
    forall q | q in t && HoldsLeaf(t, p, q) ensures t[q].Directory? {
      OnlyDirectoriesHold(t, q);
    }
    forall q, l | q in t && Leaf(t, p, l) && q <= l ensures q in Pruned(t, p) {
      assert q == l || q < l;
    }
  }
}
