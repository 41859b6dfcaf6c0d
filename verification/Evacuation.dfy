/** Evacuating a working directory and restoring it onto a fresh clone, over an abstract git: commits
    with their ancestors and trees, and files by path. */
module Evacuation {
  import opened Orders
  import opened Porcelain
  import opened Paths
  import opened Disk

  type Id = nat

  /** A commit: its ancestors, itself included, and its tree. */
  datatype Node = Node(ancestors: set<Id>, tree: Tree)

  type Graph = map<Id, Node>

  ghost predicate ValidGraph(g: Graph) {
    forall c :: c in g ==> c in g[c].ancestors && g[c].ancestors <= g.Keys
  }

  /** A working directory: the commit checked out, the remote's branch as last fetched, the commits
      at hand, the files on disk, and which paths are staged or ignored. */
  datatype Dir = Dir(head: Id, tracking: Option<Id>, objects: set<Id>, files: Tree, staged: set<Path>, ignored: set<Path>)

  ghost predicate ValidDir(g: Graph, d: Dir) {
    && d.head in g && g[d.head].ancestors <= d.objects
    && (d.tracking.Some? ==> d.tracking.value in g && g[d.tracking.value].ancestors <= d.objects)
    && (forall p :: p in d.ignored ==> p !in g[d.head].tree)
    && WellFormed(d.files)
  }

  /** On disk and not as the commit has it. */
  predicate Changed(tree: Tree, files: Tree, p: Path) {
    p in files && (p !in tree || tree[p] != files[p])
  }

  /** Some record is about this path. */
  predicate Reported(rs: seq<Record>, p: Path) {
    exists i :: 0 <= i < |rs| && rs[i].path == p
  }

  /** What git may print: a record for every change that is not ignored, and only for paths that are
      changed, gone or staged. */
  ghost predicate StatusFits(g: Graph, d: Dir, rs: seq<Record>)
    requires d.head in g
  {
    && AllLegal(rs)
    && (forall p :: Changed(g[d.head].tree, d.files, p) && p !in d.ignored ==> Reported(rs, p))
    && (forall i :: 0 <= i < |rs| ==> Reportable(g, d, rs[i].path))
  }

  predicate Reportable(g: Graph, d: Dir, p: Path)
    requires d.head in g
  {
    Changed(g[d.head].tree, d.files, p) || (p in g[d.head].tree && p !in d.files) || p in d.staged
  }

  /** The names the evacuation reads from a status. */
  function NamesIn(rs: seq<Record>): seq<string> {
    DirtyOf(Split(Print(rs)))
  }

  // ---- the two objects ----

  datatype Bundle = Bundle(tip: Id, commits: set<Id>)

  datatype Entry = Entry(name: string, content: string, regular: bool)

  /** The commits the remote does not have. */
  function Beyond(g: Graph, d: Dir): set<Id>
    requires d.head in g && (d.tracking.Some? ==> d.tracking.value in g)
  {
    if d.tracking.Some? then g[d.head].ancestors - g[d.tracking.value].ancestors else g[d.head].ancestors
  }

  /** The bundle; none where there is nothing to carry. */
  function BundleOf(g: Graph, d: Dir): Option<Bundle>
    requires d.head in g && (d.tracking.Some? ==> d.tracking.value in g)
  {
    if Beyond(g, d) == {} then None else Some(Bundle(d.head, Beyond(g, d)))
  }

  /** `addFile`: what is gone from disk or is not a regular file is passed over. */
  function EntryFor(root: seq<string>, files: Tree, outer: Outer, name: string): seq<Entry> {
    var k := FileSystem(root, files, outer);
    match LookUp(k, name)
    case Seen(path) =>
      (match ItemAt(k, path)
       case Document(content) => [Entry(name, content, true)]
       case _ => [])
    case _ => []
  }

  function ArchiveOf(root: seq<string>, files: Tree, outer: Outer, names: seq<string>): seq<Entry> {
    if names == [] then []
    else ArchiveOf(root, files, outer, names[..|names| - 1]) + EntryFor(root, files, outer, names[|names| - 1])
  }

  lemma ArchiveOneMore(root: seq<string>, files: Tree, outer: Outer, names: seq<string>, i: nat)
    requires i < |names|
    ensures ArchiveOf(root, files, outer, names[..i + 1]) == ArchiveOf(root, files, outer, names[..i]) + EntryFor(root, files, outer, names[i])
  {
    assert names[..i + 1][..i] == names[..i];
  }

  /** Looking the name up is no error: nothing being there is none, but a file in the place of a
      directory is, be it in the name itself or behind a link, and so are too many links. */
  predicate LooksUp(root: seq<string>, files: Tree, outer: Outer, name: string) {
    !LookUp(FileSystem(root, files, outer), name).Fails?
  }

  /** Every name can be looked up. */
  predicate Collectable(root: seq<string>, files: Tree, outer: Outer, names: seq<string>) {
    forall i :: 0 <= i < |names| ==> LooksUp(root, files, outer, names[i])
  }

  // ---- putting them back ----

  /** `git reset --hard`: tracked files as in the commit, untracked ones left. */
  function ResetHard(g: Graph, d: Dir, c: Id): Dir
    requires d.head in g && c in g
  {
    var untracked := map p | p in d.files && p !in g[d.head].tree && p !in d.staged :: d.files[p];
    d.(head := c, files := untracked + g[c].tree, staged := {})
  }

  function Fetched(g: Graph, d: Dir, b: Option<Bundle>): Dir
    requires d.head in g && (b.Some? ==> b.value.tip in g)
  {
    if b.None? then d else ResetHard(g, d.(objects := d.objects + b.value.commits), b.value.tip)
  }

  /** A bundle applies where the commits it builds on are at hand. */
  predicate Applies(g: Graph, d: Dir, b: Option<Bundle>) {
    b.Some? ==> b.value.tip in g && g[b.value.tip].ancestors - b.value.commits <= d.objects
  }

  /** Where the content of an entry goes: a link in its place is written through, not replaced. */
  function Target(root: seq<string>, links: Links, e: Entry): Place {
    if e.regular && Below(root, e.name) then Destination(root, links, e.name) else Nowhere
  }

  /** Files after one entry was written. */
  function Put(root: seq<string>, files: Tree, e: Entry): Tree {
    var to := Target(root, LinksOf(files), e);
    if to.Inside? then files[to.path := Regular(e.content)] else files
  }

  function Overlay(root: seq<string>, files: Tree, entries: seq<Entry>): Tree {
    if entries == [] then files else Put(root, Overlay(root, files, entries[..|entries| - 1]), entries[|entries| - 1])
  }

  /** The content last written to a path. */
  function Written(root: seq<string>, links: Links, entries: seq<Entry>, p: Path): Option<string> {
    if entries == [] then None
    else
      var e := entries[|entries| - 1];
      if Target(root, links, e) == Inside(p) then Some(e.content) else Written(root, links, entries[..|entries| - 1], p)
  }

  lemma TargetIsNoLink(root: seq<string>, links: Links, e: Entry)
    ensures Target(root, links, e).Inside? ==> Target(root, links, e).path !in links
  {
    DestinationIsNoLink(root, links, e.name);
  }

  lemma PutKeepsLinks(root: seq<string>, files: Tree, e: Entry)
    ensures LinksOf(Put(root, files, e)) == LinksOf(files)
  {
    TargetIsNoLink(root, LinksOf(files), e);
  }

  lemma {:induction false} OverlayKeepsLinks(root: seq<string>, files: Tree, entries: seq<Entry>)
    ensures LinksOf(Overlay(root, files, entries)) == LinksOf(files)
  {
    if entries != [] {
      OverlayKeepsLinks(root, files, entries[..|entries| - 1]);
      PutKeepsLinks(root, Overlay(root, files, entries[..|entries| - 1]), entries[|entries| - 1]);
    }
  }

  /** A path has the content last written to it, and is as it was where nothing was. */
  lemma {:induction false} OverlayAt(root: seq<string>, files: Tree, entries: seq<Entry>, p: Path)
    ensures var r, content := Overlay(root, files, entries), Written(root, LinksOf(files), entries, p);
      if content.Some? then p in r && r[p] == Regular(content.value)
      else (p in r <==> p in files) && (p in files ==> r[p] == files[p])
  {
    if entries != [] {
      var front := entries[..|entries| - 1];
      OverlayAt(root, files, front, p);
      OverlayKeepsLinks(root, files, front);
    }
  }

  lemma {:induction false} NeverOnLinks(root: seq<string>, links: Links, entries: seq<Entry>, p: Path)
    requires p in links
    ensures Written(root, links, entries, p) == None
  {
    if entries != [] {
      TargetIsNoLink(root, links, entries[|entries| - 1]);
      NeverOnLinks(root, links, entries[..|entries| - 1], p);
    }
  }

  /** For instance: where the commit has a link, the file it leads to is overwritten, and the link
      stays. */
  lemma LinkIsWrittenThrough(root: seq<string>, a: string, b: string, x: string, y: string)
    requires Clean(root) && Plain(a) && '/' !in a && Plain(b) && '/' !in b && a != b
    ensures Put(root, map[a := Special(b), b := Regular(y)], Entry(a, x, true)) == map[a := Special(b), b := Regular(x)]
  {
    var files: Tree := map[a := Special(b), b := Regular(y)];
    var links := LinksOf(files);
    assert links == map[a := b];
    LinkLeadsTo(root, links, a, b);
  }

  lemma LinkFollowed(root: seq<string>, links: Links, a: string, b: string)
    requires Clean(root) && Plain(a) && '/' !in a && Plain(b) && '/' !in b && a != b && links == map[a := b]
    ensures Follow(root, links, [], root + [a], MAX_LINKS) == Some(Reached(root + [b], MAX_LINKS - 1))
  {
    OneComponent(b);
    assert (root + [a])[|root|..] == [a] && (root + [b])[|root|..] == [b];
    RootIsPlain(root, links);
    FollowInTwo(root, links, [], root, [a], MAX_LINKS);
    assert Components(b) + [a][1..] == [b] && [b][1..] == [];
    assert !IsLink(root, links, root + [b]) && IsLink(root, links, root + [a]);
    assert Follow(root, links, root, [b], MAX_LINKS - 1) == Some(Reached(root + [b], MAX_LINKS - 1));
  }

  lemma LinkLeadsTo(root: seq<string>, links: Links, a: string, b: string)
    requires Clean(root) && Plain(a) && '/' !in a && Plain(b) && '/' !in b && a != b && links == map[a := b]
    ensures Resolve(root, a) == Some(a) && Destination(root, links, a) == Inside(b)
  {
    OneComponent(a);
    WalkPlain(root, [a]);
    assert (root + [a])[|root|..] == [a] && (root + [b])[|root|..] == [b];
    LinkFollowed(root, links, a, b);
  }

  // ---- what restoring gives back ----

  /** A clone just made: clean, on the remote's branch where there is one; the remote has not moved
      since the directory last saw it. */
  ghost predicate FreshFor(g: Graph, d: Dir, clone: Dir) {
    && FreshClone(g, clone)
    && (d.tracking.Some? ==> clone.tracking == d.tracking)
  }

  ghost predicate FreshClone(g: Graph, clone: Dir) {
    && ValidDir(g, clone) && clone.files == g[clone.head].tree && clone.staged == {}
    && (clone.tracking.Some? ==> clone.tracking.value == clone.head)
  }

  /** What is restored onto a clone. */
  function Restored(g: Graph, root: seq<string>, clone: Dir, b: Option<Bundle>, archive: seq<Entry>): Dir
    requires clone.head in g && (b.Some? ==> b.value.tip in g)
  {
    var d := Fetched(g, clone, b);
    d.(files := Overlay(root, d.files, archive))
  }

  /** Two sets of files agree at a path. */
  predicate SameIn(a: Tree, b: Tree, p: Path) {
    (p in a <==> p in b) && (p in a && p in b ==> a[p] == b[p])
  }

  /** The work is the same: all files that are not ignored. */
  ghost predicate SameWork(d: Dir, r: Dir) {
    forall p :: p !in d.ignored ==> SameIn(d.files, r.files, p)
  }

  /** What an archive writes is what the directory has, and where it writes nothing the directory is
      as its commit. */
  ghost predicate Describes(g: Graph, root: seq<string>, archive: seq<Entry>, d: Dir)
    requires d.head in g
  {
    forall p :: p !in d.ignored ==>
      var content := Written(root, LinksOf(g[d.head].tree), archive, p);
      if content.Some? then p in d.files && d.files[p] == Regular(content.value) else SameIn(d.files, g[d.head].tree, p)
  }

  /** The commit a bundle leads to. */
  function Tip(clone: Dir, b: Option<Bundle>): Id {
    if b.Some? then b.value.tip else clone.head
  }

  lemma CleanCheckout(g: Graph, clone: Dir, b: Option<Bundle>)
    requires FreshClone(g, clone) && (b.Some? ==> b.value.tip in g)
    ensures var r := Fetched(g, clone, b); r.head == Tip(clone, b) && r.files == g[r.head].tree
  {
  }

  /** Any stored pair, whatever it was made from, gives back a directory's work exactly when the
      bundle leads to its commit and the archive describes its files. */
  lemma PairRestoresIff(g: Graph, root: seq<string>, clone: Dir, b: Option<Bundle>, archive: seq<Entry>, d: Dir)
    requires FreshClone(g, clone) && d.head in g && (b.Some? ==> b.value.tip in g)
    ensures var r := Restored(g, root, clone, b, archive);
      r.head == d.head && SameWork(d, r) <==> Tip(clone, b) == d.head && Describes(g, root, archive, d)
  {
    CleanCheckout(g, clone, b);
    var r := Restored(g, root, clone, b, archive);
    if Tip(clone, b) == d.head {
      forall p ensures SameIn(d.files, r.files, p) <==>
        var content := Written(root, LinksOf(g[d.head].tree), archive, p);
        if content.Some? then p in d.files && d.files[p] == Regular(content.value) else SameIn(d.files, g[d.head].tree, p)
      {
        OverlayAt(root, g[d.head].tree, archive, p);
      }
    }
  }

  // ---- the round trip ----

  /** The branch is not behind its remote. */
  predicate NotBehind(g: Graph, d: Dir)
    requires d.head in g && (d.tracking.Some? ==> d.tracking.value in g)
  {
    d.tracking.None? || Beyond(g, d) != {} || d.head == d.tracking.value
  }

  /** The bundle always applies to the clone, and gives back the commit exactly when the branch is not
      behind. */
  lemma HeadComesBack(g: Graph, d: Dir, clone: Dir)
    requires ValidGraph(g) && ValidDir(g, d) && FreshFor(g, d, clone)
    ensures Applies(g, clone, BundleOf(g, d))
    ensures Tip(clone, BundleOf(g, d)) == d.head <==> NotBehind(g, d)
  {
    if d.tracking.None? {
      assert d.head in Beyond(g, d);
    }
  }

  /** One of the names leads to the path. */
  predicate LeadsTo(root: seq<string>, files: Tree, outer: Outer, names: seq<string>, p: Path) {
    && names != []
    && (|| Sighted(FileSystem(root, files, outer), names[|names| - 1]) == Inside(p)
        || LeadsTo(root, files, outer, names[..|names| - 1], p))
  }

  lemma {:induction false} LeadsToIff(root: seq<string>, files: Tree, outer: Outer, names: seq<string>, p: Path)
    ensures LeadsTo(root, files, outer, names, p) <==>
              exists i :: 0 <= i < |names| && Sighted(FileSystem(root, files, outer), names[i]) == Inside(p)
  {
    if names != [] {
      LeadsToIff(root, files, outer, names[..|names| - 1], p);
    }
  }

  /** A regular file on disk that one of the names leads to. */
  predicate Carried(root: seq<string>, files: Tree, outer: Outer, names: seq<string>, p: Path) {
    p in files && files[p].Regular? && LeadsTo(root, files, outer, names, p)
  }

  /** An entry is made exactly for a regular file that is seen. */
  lemma EntryOfSeen(root: seq<string>, files: Tree, outer: Outer, name: string, p: Path)
    requires Sighted(FileSystem(root, files, outer), name) == Inside(p)
    ensures EntryFor(root, files, outer, name) ==
              if p in files && files[p].Regular? then [Entry(name, files[p].content, true)] else []
  {
  }

  /** A name is seen where it would be with these links. */
  predicate SeenAlike(root: seq<string>, files: Tree, outer: Outer, links: Links, name: string) {
    var at := Sighted(FileSystem(root, files, outer), name);
    at == Nowhere || at == Where(root, links, name)
  }

  /** Where the commit's links are the directory's, each archived file is written back to where it
      was read. */
  lemma EntryComesBack(root: seq<string>, files: Tree, outer: Outer, name: string, links: Links, e: Entry)
    requires Clean(root) && SeenAlike(root, files, outer, links, name)
    requires forall q :: q in files && files[q].Regular? ==> q !in links
    requires EntryFor(root, files, outer, name) == [e]
    ensures var at := Sighted(FileSystem(root, files, outer), name);
      && (at.Inside? ==> Target(root, links, e) == at && at.path in files && files[at.path].Regular? && e.content == files[at.path].content)
      && (!at.Inside? ==> !Target(root, links, e).Inside?)
  {
    var at := Sighted(FileSystem(root, files, outer), name);
    WhereIsDestination(root, links, name);
    InsideIsInsideByName(root, links, name);
    if at.Inside? {
      EntryOfSeen(root, files, outer, name, at.path);
    }
  }

  /** What the archive of a directory writes: the carried files, each with its own content. */
  lemma {:induction false} ArchiveComesBack(root: seq<string>, files: Tree, outer: Outer, names: seq<string>, links: Links, p: Path)
    requires Clean(root) && forall i :: 0 <= i < |names| ==> SeenAlike(root, files, outer, links, names[i])
    requires forall q :: q in files && files[q].Regular? ==> q !in links
    ensures Written(root, links, ArchiveOf(root, files, outer, names), p) ==
              if Carried(root, files, outer, names, p) then Some(files[p].content) else None
  {
    if names != [] {
      var n := |names| - 1;
      var front, entry := ArchiveOf(root, files, outer, names[..n]), EntryFor(root, files, outer, names[n]);
      assert SeenAlike(root, files, outer, links, names[n]);
      ArchiveComesBack(root, files, outer, names[..n], links, p);
      var at := Sighted(FileSystem(root, files, outer), names[n]);
      if at.Inside? {
        EntryOfSeen(root, files, outer, names[n], at.path);
      }
      if entry == [] {
        assert front + entry == front;
      } else {
        var e := entry[0];
        assert entry == [e] && (front + entry)[..|front|] == front && (front + entry)[|front|] == e;
        EntryComesBack(root, files, outer, names[n], links, e);
      }
    }
  }

  /** Nothing of the work is beyond what the archive can carry: no path of the commit is gone, and
      every change is a regular file that is carried and whose place in the commit is not a link. */
  ghost predicate Archivable(g: Graph, root: seq<string>, d: Dir, outer: Outer, names: seq<string>)
    requires d.head in g
  {
    && NothingGone(g, d)
    && (forall p :: Changed(g[d.head].tree, d.files, p) && p !in d.ignored ==> Carried(root, d.files, outer, names, p))
    && LinksUnchanged(g, d)
  }

  ghost predicate NothingGone(g: Graph, d: Dir)
    requires d.head in g
  {
    forall p :: p in g[d.head].tree ==> p in d.files
  }

  /** No link was changed, made or replaced. */
  ghost predicate LinksUnchanged(g: Graph, d: Dir)
    requires d.head in g
  {
    forall p :: Changed(g[d.head].tree, d.files, p) && p !in d.ignored ==>
      d.files[p].Regular? && !(p in g[d.head].tree && g[d.head].tree[p].Special?)
  }

  function Unignored(d: Dir): Tree {
    map p | p in d.files && p !in d.ignored :: d.files[p]
  }

  /** No name that was read leads through an ignored link. */
  ghost predicate AvoidsIgnoredLinks(root: seq<string>, d: Dir, outer: Outer, names: seq<string>) {
    forall i :: 0 <= i < |names| ==> SeenAlike(root, d.files, outer, LinksOf(Unignored(d)), names[i])
  }

  lemma LinksAgree(g: Graph, d: Dir)
    requires ValidDir(g, d) && NothingGone(g, d) && LinksUnchanged(g, d)
    ensures LinksOf(Unignored(d)) == LinksOf(g[d.head].tree)
    ensures forall q :: q in d.files && d.files[q].Regular? ==> q !in LinksOf(g[d.head].tree)
  {
    var tree := g[d.head].tree;
    forall p ensures p in LinksOf(Unignored(d)) <==> p in LinksOf(tree) {
      if p in LinksOf(tree) {
        assert p in d.files && !Changed(tree, d.files, p);
      }
      assert p in LinksOf(Unignored(d)) ==> !Changed(tree, d.files, p);
    }
    forall p | p in LinksOf(tree) ensures LinksOf(Unignored(d))[p] == LinksOf(tree)[p] {
      assert !Changed(tree, d.files, p);
    }
  }

  /** An archive that describes the directory leaves none of its links changed. */
  lemma DescribedLinks(g: Graph, root: seq<string>, archive: seq<Entry>, d: Dir)
    requires ValidDir(g, d) && Describes(g, root, archive, d)
    ensures NothingGone(g, d) && LinksUnchanged(g, d)
  {
    var tree := g[d.head].tree;
    forall p | Changed(tree, d.files, p) && p !in d.ignored ensures d.files[p].Regular? && !(p in tree && tree[p].Special?) {
      if p in tree && tree[p].Special? {
        NeverOnLinks(root, LinksOf(tree), archive, p);
      }
    }
  }

  /** What arrives at a path: the last name that leads there past `links` brings what it found in the
      directory. */
  function Arrives(root: seq<string>, files: Tree, outer: Outer, names: seq<string>, links: Links, p: Path): Option<string> {
    if names == [] then None
    else
      var found := EntryFor(root, files, outer, names[|names| - 1]);
      if found != [] && Target(root, links, found[0]) == Inside(p) then Some(found[0].content)
      else Arrives(root, files, outer, names[..|names| - 1], links, p)
  }

  lemma {:induction false} WrittenIsArrived(root: seq<string>, files: Tree, outer: Outer, names: seq<string>, links: Links, p: Path)
    ensures Written(root, links, ArchiveOf(root, files, outer, names), p) == Arrives(root, files, outer, names, links, p)
  {
    if names != [] {
      var n := |names| - 1;
      var front, entry := ArchiveOf(root, files, outer, names[..n]), EntryFor(root, files, outer, names[n]);
      WrittenIsArrived(root, files, outer, names[..n], links, p);
      if entry == [] {
        assert front + entry == front;
      } else {
        assert entry == [entry[0]] && (front + entry)[..|front|] == front && (front + entry)[|front|] == entry[0];
      }
    }
  }

  /** No path of the commit is gone, no link was touched, and with the directory's own links what
      arrives anywhere is what stands there; where nothing arrives nothing was changed. */
  ghost predicate Recoverable(g: Graph, root: seq<string>, d: Dir, outer: Outer, names: seq<string>)
    requires d.head in g
  {
    && NothingGone(g, d) && LinksUnchanged(g, d)
    && forall p :: p !in d.ignored ==>
         var content := Arrives(root, d.files, outer, names, LinksOf(Unignored(d)), p);
         if content.Some? then p in d.files && d.files[p] == Regular(content.value) else !Changed(g[d.head].tree, d.files, p)
  }

  /** The directory's own archive describes it exactly when it is recoverable; where no name leads
      through an ignored link, that is when nothing is beyond the archive. */
  lemma ArchiveDescribesIff(g: Graph, root: seq<string>, d: Dir, outer: Outer, names: seq<string>)
    requires Clean(root) && ValidDir(g, d)
    ensures Describes(g, root, ArchiveOf(root, d.files, outer, names), d) <==> Recoverable(g, root, d, outer, names)
    ensures AvoidsIgnoredLinks(root, d, outer, names) ==> (Recoverable(g, root, d, outer, names) <==> Archivable(g, root, d, outer, names))
  {
    var tree, archive := g[d.head].tree, ArchiveOf(root, d.files, outer, names);
    if Describes(g, root, archive, d) {
      DescribedLinks(g, root, archive, d);
    }
    if NothingGone(g, d) && LinksUnchanged(g, d) {
      LinksAgree(g, d);
      forall p ensures Written(root, LinksOf(tree), archive, p) == Arrives(root, d.files, outer, names, LinksOf(tree), p) {
        WrittenIsArrived(root, d.files, outer, names, LinksOf(tree), p);
      }
      if AvoidsIgnoredLinks(root, d, outer, names) {
        forall p ensures Written(root, LinksOf(tree), archive, p) == if Carried(root, d.files, outer, names, p) then Some(d.files[p].content) else None {
          ArchiveComesBack(root, d.files, outer, names, LinksOf(tree), p);
        }
      }
    }
  }

  /** Evacuating and restoring onto a fresh clone of a remote that has not moved gives back the commit
      and all files that are not ignored, exactly when the branch is not behind its remote and the
      directory is recoverable: unless a name leads through an ignored link, that is when every path
      of the commit is still on disk, no link is concerned, and every change is a regular file that
      one of the names read from the status leads to. */
  lemma RoundTrip(g: Graph, root: seq<string>, d: Dir, outer: Outer, rs: seq<Record>, clone: Dir)
    requires ValidGraph(g) && Clean(root) && ValidDir(g, d) && FreshFor(g, d, clone)
    requires AllLegal(rs)
    ensures Applies(g, clone, BundleOf(g, d))
    ensures var r := Restored(g, root, clone, BundleOf(g, d), ArchiveOf(root, d.files, outer, NamesIn(rs)));
      r.head == d.head && SameWork(d, r) <==> NotBehind(g, d) && Recoverable(g, root, d, outer, NamesIn(rs))
    ensures AvoidsIgnoredLinks(root, d, outer, NamesIn(rs)) ==>
              (Recoverable(g, root, d, outer, NamesIn(rs)) <==> Archivable(g, root, d, outer, NamesIn(rs)))
  {
    HeadComesBack(g, d, clone);
    PairRestoresIff(g, root, clone, BundleOf(g, d), ArchiveOf(root, d.files, outer, NamesIn(rs)), d);
    ArchiveDescribesIff(g, root, d, outer, NamesIn(rs));
  }

  /** A regular file is carried if the status is read at a record of its own; it is lost if all of
      them are skipped or it is the editor's, unless another name happens to lead to it. */
  lemma CarriedFromRecords(root: seq<string>, d: Dir, outer: Outer, rs: seq<Record>, p: Path)
    requires Clean(root) && WellFormed(d.files) && AllLegal(rs) && p in d.files && d.files[p].Regular?
    ensures !HasPrefix(p, EDITOR_PREFIX) && (exists i :: 0 <= i < |rs| && ReadAt(rs, i, p)) ==> Carried(root, d.files, outer, NamesIn(rs), p)
    ensures Carried(root, d.files, outer, NamesIn(rs), p) ==>
              || (!HasPrefix(p, EDITOR_PREFIX) && exists i :: 0 <= i < |rs| && ReadAt(rs, i, p))
              || exists i :: 0 <= i < |NamesIn(rs)| && NamesIn(rs)[i] != p && Sighted(FileSystem(root, d.files, outer), NamesIn(rs)[i]) == Inside(p)
  {
    var k := FileSystem(root, d.files, outer);
    DirtyPathsMembers(rs, p);
    FilesAreSeen(k, p);
    var names := NamesIn(rs);
    LeadsToIff(root, d.files, outer, names, p);
    if p in names {
      var i :| 0 <= i < |names| && names[i] == p;
      assert Sighted(k, names[i]) == Inside(p);
    }
    if Carried(root, d.files, outer, names, p) && p !in names {
      var i :| 0 <= i < |names| && Sighted(k, names[i]) == Inside(p);
      assert names[i] != p;
    }
  }

  /** For instance: behind a rename of README.md marked in the second column, a changed file is not
      carried. */
  lemma SwallowedFileIsLost(root: seq<string>, d: Dir, outer: Outer, path: string, source: string, f: Path)
    requires Clean(root) && WellFormed(d.files) && LinksOf(d.files) == map[] && f in d.files
    requires path != "" && NulFree(path) && Normal(path) && NulFree(source) && |source| >= 4 && RenameMark(source[0]) && Normal(source[3..])
    requires f != "" && NulFree(f) && f != path && f != source[3..]
    ensures var rs := [Record(' ', 'R', path, Some(source)), Record(' ', 'M', f, None)];
      AllLegal(rs) && Reported(rs, f) && !Carried(root, d.files, outer, NamesIn(rs), f)
  {
    var rs := [Record(' ', 'R', path, Some(source)), Record(' ', 'M', f, None)];
    assert rs[1].path == f;
    SecondColumnRename(path, source, rs[1]);
    ReadOfPrinted(rs);
    var names := NamesIn(rs);
    forall n | n in names ensures Sighted(FileSystem(root, d.files, outer), n) != Inside(f) {
      FilteredMembers([path, source[3..]] + [], n);
      NormalPathsAreFound(root, map[], n);
      SightedIsWhere(FileSystem(root, d.files, outer), n);
    }
    LeadsToIff(root, d.files, outer, names, f);
  }

  /** All names are paths on disk. */
  ghost predicate OnDisk(d: Dir, names: seq<string>) {
    forall i :: 0 <= i < |names| ==> names[i] in d.files
  }

  /** Every change that git reports is outside the editor's directory. */
  ghost predicate OutsideEditor(g: Graph, d: Dir)
    requires d.head in g
  {
    forall p :: Changed(g[d.head].tree, d.files, p) && p !in d.ignored ==> !HasPrefix(p, EDITOR_PREFIX)
  }

  /** With the rename marks in the first column, as git prints staged renames, the condition is on the
      directory alone: exactly so if what is staged is on disk. Then, too, the names are all on disk
      and none leads through an ignored link. */
  lemma FirstColumnArchivable(g: Graph, root: seq<string>, d: Dir, outer: Outer, rs: seq<Record>)
    requires Clean(root) && ValidDir(g, d) && StatusFits(g, d, rs)
    requires forall i :: 0 <= i < |rs| && RenameMark(rs[i].y) ==> RenameMark(rs[i].x)
    ensures NothingGone(g, d) && LinksUnchanged(g, d) && OutsideEditor(g, d) ==> Archivable(g, root, d, outer, NamesIn(rs))
    ensures d.staged <= d.files.Keys ==>
              (Archivable(g, root, d, outer, NamesIn(rs)) <==> NothingGone(g, d) && LinksUnchanged(g, d) && OutsideEditor(g, d))
    ensures NothingGone(g, d) && d.staged <= d.files.Keys ==> OnDisk(d, NamesIn(rs)) && AvoidsIgnoredLinks(root, d, outer, NamesIn(rs))
  {
    if NothingGone(g, d) && d.staged <= d.files.Keys {
      FirstColumnOnDisk(g, d, rs);
      OnDiskAvoidsLinks(root, d, outer, NamesIn(rs));
      forall p | Carried(root, d.files, outer, NamesIn(rs), p) ensures !HasPrefix(p, EDITOR_PREFIX) {
        CarriedOnDisk(root, d, outer, NamesIn(rs), p);
        DirtyPathsMembers(rs, p);
      }
    }
    if NothingGone(g, d) && LinksUnchanged(g, d) {
      forall p | Changed(g[d.head].tree, d.files, p) && p !in d.ignored && !HasPrefix(p, EDITOR_PREFIX)
        ensures Carried(root, d.files, outer, NamesIn(rs), p)
      {
        var i :| 0 <= i < |rs| && rs[i].path == p;
        NotSkipped(rs, i);
        assert ReadAt(rs, i, p);
        CarriedFromRecords(root, d, outer, rs, p);
      }
    }
  }

  lemma CarriedOnDisk(root: seq<string>, d: Dir, outer: Outer, names: seq<string>, p: Path)
    requires Clean(root) && WellFormed(d.files) && OnDisk(d, names) && Carried(root, d.files, outer, names, p)
    ensures p in names
  {
    LeadsToIff(root, d.files, outer, names, p);
    var i :| 0 <= i < |names| && Sighted(FileSystem(root, d.files, outer), names[i]) == Inside(p);
    FilesAreSeen(FileSystem(root, d.files, outer), names[i]);
  }

  lemma FirstColumnOnDisk(g: Graph, d: Dir, rs: seq<Record>)
    requires ValidDir(g, d) && StatusFits(g, d, rs) && NothingGone(g, d) && d.staged <= d.files.Keys
    requires forall i :: 0 <= i < |rs| && RenameMark(rs[i].y) ==> RenameMark(rs[i].x)
    ensures OnDisk(d, NamesIn(rs))
  {
    var names := NamesIn(rs);
    FirstColumnRoundTrip(rs);
    forall i | 0 <= i < |names| ensures names[i] in d.files {
      assert names[i] in names;
      KeptMembers(rs, names[i]);
      var j :| 0 <= j < |rs| && rs[j].path == names[i];
      assert Reportable(g, d, rs[j].path);
    }
  }

  lemma OnDiskAvoidsLinks(root: seq<string>, d: Dir, outer: Outer, names: seq<string>)
    requires Clean(root) && WellFormed(d.files) && OnDisk(d, names)
    ensures AvoidsIgnoredLinks(root, d, outer, names)
  {
    forall i | 0 <= i < |names| ensures SeenAlike(root, d.files, outer, LinksOf(Unignored(d)), names[i]) {
      NormalPathsAreFound(root, LinksOf(Unignored(d)), names[i]);
      FilesAreSeen(FileSystem(root, d.files, outer), names[i]);
    }
  }

  /** For instance: a path added to the index whose directory then gave way to an ignored link. The
      file found through the link arrives as one more file. */
  lemma IgnoredLinkIsFollowed(root: seq<string>, l: string, dir: string, f: string, y: string, outer: Outer)
    returns (g: Graph, d: Dir)
    requires Clean(root) && Plain(l) && '/' !in l && Plain(dir) && '/' !in dir && Plain(f) && '/' !in f && l != dir
    requires !HasPrefix(l + "/" + f, EDITOR_PREFIX) && NulFree(l + "/" + f)
    ensures ValidGraph(g) && ValidDir(g, d) && NotBehind(g, d) && d.ignored == {l}
    ensures var rs := [Record('A', 'D', l + "/" + f, None)];
      StatusFits(g, d, rs) && Archivable(g, root, d, outer, NamesIn(rs)) && !Recoverable(g, root, d, outer, NamesIn(rs))
  {
    var name, at := l + "/" + f, dir + "/" + f;
    var rs := [Record('A', 'D', name, None)];
    g := map[0 := Node({0}, map[at := Regular(y)])];
    d := Dir(0, Some(0), {0}, map[l := Special(dir), at := Regular(y)], {name}, {l});
    TwoPathsAreApart(l, dir, f, d.files);
    assert rs[0].path == name;
    FirstColumnRoundTrip(rs);
    assert rs[1..] == [] && KeptPaths(rs) == [name];
    ArrivesThroughLink(root, l, dir, f, y, outer);
    assert LinksOf(Unignored(d)) == map[];
  }

  lemma TwoPathsAreApart(l: string, dir: string, f: string, files: Tree)
    requires Plain(l) && '/' !in l && Plain(dir) && '/' !in dir && Plain(f) && '/' !in f && l != dir
    requires files.Keys == {l, dir + "/" + f}
    ensures WellFormed(files) && l + "/" + f !in files && l != dir + "/" + f
  {
    var name, at := l + "/" + f, dir + "/" + f;
    OneComponent(l);
    OneComponent(f);
    ComponentsFirst(dir, f);
    ComponentsFirst(l, f);
    assert Components(at) == [dir, f] && Components(name) == [l, f] && Components(l) == [l];
    assert Components(at)[..1] == [dir] && Joined([dir]) == dir;
    assert Components(at)[0] == dir && Components(name)[0] == l;
  }

  lemma ArrivesThroughLink(root: seq<string>, l: string, dir: string, f: string, y: string, outer: Outer)
    requires Clean(root) && Plain(l) && '/' !in l && Plain(dir) && '/' !in dir && Plain(f) && '/' !in f && l != dir
    ensures var name, at := l + "/" + f, dir + "/" + f;
      Arrives(root, map[l := Special(dir), at := Regular(y)], outer, [name], map[], name) == Some(y)
  {
    var name, at := l + "/" + f, dir + "/" + f;
    var files: Tree := map[l := Special(dir), at := Regular(y)];
    TwoPathsAreApart(l, dir, f, files);
    assert LinksOf(files) == map[l := dir];
    FoundThroughLink(root, l, dir, f, files, outer);
    assert (root + [dir, f])[|root|..] == [dir, f] && [dir, f][1..] == [f] && Joined([dir, f]) == at;
    assert EntryFor(root, files, outer, name) == [Entry(name, y, true)];
    assert [name][..0] == [];
  }

  /** Behind the link `l` to the directory `dir` the file `f` of that directory is seen, and without
      the link it is written in a new directory `l`. */
  lemma FoundThroughLink(root: seq<string>, l: string, dir: string, f: string, files: Tree, outer: Outer)
    requires Clean(root) && Plain(l) && '/' !in l && Plain(dir) && '/' !in dir && Plain(f) && '/' !in f && l != dir
    requires LinksOf(files) == map[l := dir] && dir + "/" + f in files && dir !in files
    ensures var name := l + "/" + f;
      && LookUp(FileSystem(root, files, outer), name) == Seen(root + [dir, f])
      && Below(root, name) && Destination(root, map[], name) == Inside(name)
  {
    var name, k := l + "/" + f, FileSystem(root, files, outer);
    TwoComponents(l, f);
    TwoComponents(dir, f);
    WalkPlain(root, [l, f]);
    var target := root + [l, f];
    assert target[..|target| - 1] == root + [l] && target[|target| - 1] == f && root + [dir] + [f] == root + [dir, f];
    assert (root + [dir])[|root|..] == [dir] && Joined([dir]) == dir && [dir] < Components(dir + "/" + f);
    LinkPassed(k, l, dir);
    assert ItemAt(k, root + [dir]).Folder?;
    NormalPathsStay(root, name);
    NormalPathsAreFound(root, map[], name);
    WhereIsDestination(root, map[], name);
  }

  lemma TwoComponents(a: string, b: string)
    requires '/' !in a && '/' !in b
    ensures Components(a + "/" + b) == [a, b]
  {
    ComponentsFirst(a, b);
    OneComponent(b);
  }

  /** A walk over a link to `b` is one to `b`. */
  lemma LinkPassed(k: FileSystem, a: string, b: string)
    requires Clean(k.root) && Plain(a) && Plain(b) && '/' !in b && a != b && LinksOf(k.files) == map[a := b]
    ensures Pass(k, [], k.root + [a], MAX_LINKS) ==
              match ItemAt(k, k.root + [b])
              case Folder => Through(k.root + [b], MAX_LINKS - 1)
              case Absent => Missing
              case _ => Barred
  {
    OneComponent(b);
    assert (k.root + [a])[|k.root|..] == [a] && (k.root + [b])[|k.root|..] == [b];
    RootPasses(k, MAX_LINKS);
    PassInTwo(k, [], k.root, [a], MAX_LINKS);
    assert Components(b) + [a][1..] == [b] && [b][1..] == [];
    assert !IsLink(k.root, LinksOf(k.files), k.root + [b]) && IsLink(k.root, LinksOf(k.files), k.root + [a]);
    assert Pass(k, k.root, [a], MAX_LINKS) == Pass(k, k.root, [b], MAX_LINKS - 1);
    assert Pass(k, k.root + [b], [], MAX_LINKS - 1) == Through(k.root + [b], MAX_LINKS - 1);
  }

  // ---- a pair from two attempts ----

  /** The second upload failed: the new bundle beside the archive of an earlier directory. What comes
      back is the new work exactly when the old archive describes it, and the old work exactly when
      the new bundle leads to its commit and its own archive described it. */
  lemma TornPairIff(g: Graph, root: seq<string>, clone: Dir, old_: Dir, outer: Outer, names: seq<string>, new_: Dir)
    requires ValidGraph(g) && Clean(root) && ValidDir(g, old_) && ValidDir(g, new_) && FreshFor(g, new_, clone)
    ensures Applies(g, clone, BundleOf(g, new_))
    ensures var archive := ArchiveOf(root, old_.files, outer, names);
      var r := Restored(g, root, clone, BundleOf(g, new_), archive);
      && (r.head == new_.head && SameWork(new_, r) <==> NotBehind(g, new_) && Describes(g, root, archive, new_))
      && (r.head == old_.head && SameWork(old_, r) <==> Tip(clone, BundleOf(g, new_)) == old_.head && Recoverable(g, root, old_, outer, names))
  {
    var archive := ArchiveOf(root, old_.files, outer, names);
    HeadComesBack(g, new_, clone);
    PairRestoresIff(g, root, clone, BundleOf(g, new_), archive, new_);
    PairRestoresIff(g, root, clone, BundleOf(g, new_), archive, old_);
    ArchiveDescribesIff(g, root, old_, outer, names);
  }

  /** Without links: the old archive describes the new work exactly when every file it carries is
      there with the same content, and every other file is as the new commit has it. */
  lemma OldArchiveDescribesIff(g: Graph, root: seq<string>, old_: Dir, outer: Outer, names: seq<string>, new_: Dir)
    requires Clean(root) && new_.head in g && LinksOf(old_.files) == map[] && LinksOf(g[new_.head].tree) == map[]
    ensures Describes(g, root, ArchiveOf(root, old_.files, outer, names), new_) <==>
              forall p :: p !in new_.ignored ==>
                if Carried(root, old_.files, outer, names, p) then p in new_.files && new_.files[p] == old_.files[p]
                else SameIn(new_.files, g[new_.head].tree, p)
  {
    var archive, links := ArchiveOf(root, old_.files, outer, names), LinksOf(g[new_.head].tree);
    forall i | 0 <= i < |names| ensures SeenAlike(root, old_.files, outer, links, names[i]) {
      SightedIsWhere(FileSystem(root, old_.files, outer), names[i]);
    }
    forall p ensures Written(root, links, archive, p) == if Carried(root, old_.files, outer, names, p) then Some(old_.files[p].content) else None {
      ArchiveComesBack(root, old_.files, outer, names, links, p);
    }
  }

  /** For instance: a file was edited, evacuated, edited again and committed; the next evacuation is
      cut off between its uploads. Neither the new content nor the old commit comes back. */
  lemma TornPairLosesWork(root: seq<string>, f: string, first: string, dirty: string, second: string, outer: Outer)
    returns (g: Graph, old_: Dir, new_: Dir, clone: Dir)
    requires Clean(root) && Plain(f) && '/' !in f && dirty != second && first != second
    ensures ValidGraph(g) && ValidDir(g, old_) && ValidDir(g, new_) && FreshFor(g, old_, clone) && FreshFor(g, new_, clone)
    ensures old_.files == map[f := Regular(dirty)] && new_.files == map[f := Regular(second)] && new_.files == g[new_.head].tree
    ensures var r := Restored(g, root, clone, BundleOf(g, new_), ArchiveOf(root, old_.files, outer, [f]));
      r.head == new_.head != old_.head && r.files == map[f := Regular(dirty)]
  {
    g := map[0 := Node({0}, map[f := Regular(first)]), 1 := Node({0, 1}, map[f := Regular(second)])];
    clone := Dir(0, Some(0), {0}, map[f := Regular(first)], {}, {});
    old_ := clone.(files := map[f := Regular(dirty)]);
    new_ := Dir(1, Some(0), {0, 1}, map[f := Regular(second)], {}, {});
    OneComponent(f);
    assert 1 in Beyond(g, new_);
    assert WellFormed(map[f := Regular(first)]) && WellFormed(map[f := Regular(dirty)]) && WellFormed(map[f := Regular(second)]);
    OneFileArchived(root, f, dirty, outer);
    OneFileWritten(root, f, second, dirty);
    CleanCheckout(g, clone, BundleOf(g, new_));
  }

  lemma OneFileArchived(root: seq<string>, f: string, content: string, outer: Outer)
    requires Clean(root) && Plain(f) && '/' !in f
    ensures ArchiveOf(root, map[f := Regular(content)], outer, [f]) == [Entry(f, content, true)]
  {
    var files: Tree := map[f := Regular(content)];
    OneComponent(f);
    FilesAreSeen(FileSystem(root, files, outer), f);
    assert EntryFor(root, files, outer, f) == [Entry(f, content, true)];
    assert [f][..0] == [] && ArchiveOf(root, files, outer, []) == [];
  }

  lemma OneFileWritten(root: seq<string>, f: string, before: string, content: string)
    requires Clean(root) && Plain(f) && '/' !in f
    ensures Overlay(root, map[f := Regular(before)], [Entry(f, content, true)]) == map[f := Regular(content)]
  {
    var files: Tree := map[f := Regular(before)];
    var e := Entry(f, content, true);
    OneComponent(f);
    assert LinksOf(files) == map[];
    NormalPathsAreFound(root, map[], f);
    WhereIsDestination(root, map[], f);
    InsideIsInsideByName(root, map[], f);
    assert [e][..0] == [] && Overlay(root, files, []) == files;
  }

  // ---- what hasLocalWork sees ----

  /** The branch has a commit that its remote's branch lacks. */
  ghost predicate Ahead(g: Graph, d: Dir)
    requires d.head in g && (d.tracking.Some? ==> d.tracking.value in g)
  {
    d.tracking.Some? && exists c :: c in g[d.head].ancestors && c !in g[d.tracking.value].ancestors
  }

  lemma AheadIff(g: Graph, d: Dir)
    requires d.head in g && (d.tracking.Some? ==> d.tracking.value in g)
    ensures Ahead(g, d) <==> d.tracking.Some? && g[d.head].ancestors - g[d.tracking.value].ancestors != {}
  {
    if d.tracking.Some? && g[d.head].ancestors - g[d.tracking.value].ancestors != {} {
      var c :| c in g[d.head].ancestors - g[d.tracking.value].ancestors;
      assert c in g[d.head].ancestors && c !in g[d.tracking.value].ancestors;
    }
    if Ahead(g, d) {
      var c :| c in g[d.head].ancestors && c !in g[d.tracking.value].ancestors;
      assert c in g[d.head].ancestors - g[d.tracking.value].ancestors;
    }
  }

  /** A fresh clone has no local work. */
  lemma FreshHasNoLocalWork(g: Graph, clone: Dir, rs: seq<Record>)
    requires ValidGraph(g) && FreshClone(g, clone) && StatusFits(g, clone, rs)
    ensures DirtyOf(Split(Print(rs))) == [] && !Ahead(g, clone)
  {
    FreshIsClean(g, clone, rs);
    FirstColumnRoundTrip(rs);
  }

  /** A change that git reports is seen, unless the editor's or, behind a rename marked in the second
      column, swallowed. */
  lemma LocalChangeIsSeen(g: Graph, d: Dir, rs: seq<Record>, p: Path)
    requires ValidDir(g, d) && StatusFits(g, d, rs) && Changed(g[d.head].tree, d.files, p) && p !in d.ignored
    requires !HasPrefix(p, EDITOR_PREFIX) && forall j :: 0 <= j < |rs| && RenameMark(rs[j].y) ==> RenameMark(rs[j].x)
    ensures DirtyOf(Split(Print(rs))) != []
  {
    SomethingDirtyIff(rs);
    var i :| 0 <= i < |rs| && rs[i].path == p;
  }

  lemma FreshIsClean(g: Graph, clone: Dir, rs: seq<Record>)
    requires FreshClone(g, clone) && StatusFits(g, clone, rs)
    ensures rs == []
  {
    if rs != [] {
      NothingReportable(g, clone, rs[0].path);
    }
  }

  lemma NothingReportable(g: Graph, clone: Dir, p: Path)
    requires FreshClone(g, clone)
    ensures !Reportable(g, clone, p)
  {
  }

  /** A directory that became a file while the commit still has files in it: git reports them gone,
      and looking one of them up is an error, so the directory cannot be evacuated at all. */
  lemma DirectoryBecameFile(root: seq<string>, files: Tree, outer: Outer, names: seq<string>, dir: string, f: string)
    requires Clean(root) && Plain(dir) && '/' !in dir && Plain(f) && '/' !in f
    requires dir in files && files[dir].Regular? && dir + "/" + f in names
    ensures !Collectable(root, files, outer, names)
  {
    var k := FileSystem(root, files, outer);
    assert (root + [dir])[|root|..] == [dir] && Joined([dir]) == dir;
    RootPasses(k, MAX_LINKS);
    PassInTwo(k, [], root, [dir], MAX_LINKS);
    BarredBelow(root, files, outer, names, dir, f);
  }

  /** The same where the directory gave way to a link to a file. */
  lemma DirectoryBecameLinkToFile(root: seq<string>, files: Tree, outer: Outer, names: seq<string>, l: string, b: string, f: string)
    requires Clean(root) && Plain(l) && '/' !in l && Plain(b) && '/' !in b && Plain(f) && '/' !in f && l != b
    requires LinksOf(files) == map[l := b] && b in files && l + "/" + f in names
    ensures !Collectable(root, files, outer, names)
  {
    var k := FileSystem(root, files, outer);
    assert (root + [b])[|root|..] == [b] && Joined([b]) == b;
    assert b !in LinksOf(files);
    LinkPassed(k, l, b);
    BarredBelow(root, files, outer, names, l, f);
  }

  lemma BarredBelow(root: seq<string>, files: Tree, outer: Outer, names: seq<string>, dir: string, f: string)
    requires Plain(dir) && '/' !in dir && Plain(f) && '/' !in f && dir + "/" + f in names
    requires Pass(FileSystem(root, files, outer), [], root + [dir], MAX_LINKS).Barred?
    ensures !Collectable(root, files, outer, names)
  {
    var name := dir + "/" + f;
    TwoComponents(dir, f);
    WalkPlain(root, [dir, f]);
    var target := root + [dir, f];
    assert target[..|target| - 1] == root + [dir];
    var i :| 0 <= i < |names| && names[i] == name;
    assert !LooksUp(root, files, outer, names[i]);
  }

  // ---- the archive's size ----

  /** 2 GiB in blocks of 512 bytes. */
  const MAX_ARCHIVE_BLOCKS: nat := 0x80000000 / 512

  function TotalBlocks(entries: seq<Entry>, blocks: Entry -> nat): nat {
    if entries == [] then 0 else TotalBlocks(entries[..|entries| - 1], blocks) + blocks(entries[|entries| - 1])
  }

  /** The archive is read to its end. */
  predicate Fits(entries: seq<Entry>, blocks: Entry -> nat) {
    512 * TotalBlocks(entries, blocks) <= 0x80000000
  }

  lemma {:induction false} PrefixIsSmaller(entries: seq<Entry>, n: nat, blocks: Entry -> nat)
    requires n <= |entries|
    ensures TotalBlocks(entries[..n], blocks) <= TotalBlocks(entries, blocks)
  {
    if n < |entries| {
      PrefixIsSmaller(entries[..|entries| - 1], n, blocks);
      assert entries[..|entries| - 1][..n] == entries[..n];
    } else {
      assert entries[..n] == entries;
    }
  }

  // ---- extraction ----

  /** An entry that is no regular file is passed over; any other must be below the directory by name,
      its directories must be there or be made, and there must be a file or nothing where it leads. */
  predicate CanBeWritten(k: FileSystem, e: Entry) {
    e.regular ==> Opened(k, e.name).Some?
  }

  /** Outside, after an entry was written. */
  function Spilled(k: FileSystem, e: Entry): Outer {
    if e.regular && Opened(k, e.name).Some? && PlaceOf(k.root, Opened(k, e.name).value).Outside?
    then Spill(k.outer, Opened(k, e.name).value, e.content)
    else k.outer
  }

  function OuterAfter(root: seq<string>, files: Tree, outer: Outer, entries: seq<Entry>): Outer {
    if entries == [] then outer
    else
      var front := entries[..|entries| - 1];
      Spilled(FileSystem(root, Overlay(root, files, front), OuterAfter(root, files, outer, front)), entries[|entries| - 1])
  }

  /** Each entry can be written after those before it. */
  predicate Writable(root: seq<string>, files: Tree, outer: Outer, entries: seq<Entry>) {
    entries == [] ||
    var front := entries[..|entries| - 1];
    && Writable(root, files, outer, front)
    && CanBeWritten(FileSystem(root, Overlay(root, files, front), OuterAfter(root, files, outer, front)), entries[|entries| - 1])
  }

  lemma {:induction false} WritablePrefix(root: seq<string>, files: Tree, outer: Outer, entries: seq<Entry>, n: nat)
    requires n <= |entries| && Writable(root, files, outer, entries)
    ensures Writable(root, files, outer, entries[..n])
  {
    if n < |entries| {
      assert entries[..|entries| - 1][..n] == entries[..n];
      WritablePrefix(root, files, outer, entries[..|entries| - 1], n);
    } else {
      assert entries[..n] == entries;
    }
  }

  lemma WritableOneMore(root: seq<string>, files: Tree, outer: Outer, entries: seq<Entry>, i: nat)
    requires i < |entries|
    ensures var k := FileSystem(root, Overlay(root, files, entries[..i]), OuterAfter(root, files, outer, entries[..i]));
      && (Writable(root, files, outer, entries[..i + 1]) <==> Writable(root, files, outer, entries[..i]) && CanBeWritten(k, entries[i]))
      && OuterAfter(root, files, outer, entries[..i + 1]) == Spilled(k, entries[i])
    ensures Writable(root, files, outer, entries) ==> Writable(root, files, outer, entries[..i + 1])
  {
    assert entries[..i + 1][..i] == entries[..i] && entries[..i + 1][i] == entries[i];
    if Writable(root, files, outer, entries) {
      WritablePrefix(root, files, outer, entries, i + 1);
    }
  }

  /** Some entry is written outside the directory, through a link. */
  predicate LeadsOut(root: seq<string>, links: Links, entries: seq<Entry>) {
    entries != [] && (LeadsOut(root, links, entries[..|entries| - 1]) || Target(root, links, entries[|entries| - 1]).Outside?)
  }

  lemma {:induction false} LeadingOutIsSeen(root: seq<string>, links: Links, entries: seq<Entry>, i: nat)
    requires i < |entries| && Target(root, links, entries[i]).Outside?
    ensures LeadsOut(root, links, entries)
  {
    if i < |entries| - 1 {
      LeadingOutIsSeen(root, links, entries[..|entries| - 1], i);
    }
  }

  /** Files that no entry leads to are as they were. */
  ghost predicate OnlyTargets(root: seq<string>, links: Links, entries: seq<Entry>, before: Tree, after: Tree) {
    forall p :: (forall i :: 0 <= i < |entries| ==> Target(root, links, entries[i]) != Inside(p)) ==> SameIn(before, after, p)
  }

  lemma {:induction false} UnwrittenWhereUntargeted(root: seq<string>, links: Links, entries: seq<Entry>, n: nat, p: Path)
    requires n <= |entries| && forall i :: 0 <= i < |entries| ==> Target(root, links, entries[i]) != Inside(p)
    ensures Written(root, links, entries[..n], p) == None
  {
    if n > 0 {
      UnwrittenWhereUntargeted(root, links, entries, n - 1, p);
      assert entries[..n][..n - 1] == entries[..n - 1] && entries[..n][n - 1] == entries[n - 1];
    }
  }

  lemma OverlayHitsTargets(root: seq<string>, files: Tree, entries: seq<Entry>, n: nat)
    requires n <= |entries|
    ensures OnlyTargets(root, LinksOf(files), entries, files, Overlay(root, files, entries[..n]))
  {
    var after := Overlay(root, files, entries[..n]);
    forall p | forall i :: 0 <= i < |entries| ==> Target(root, LinksOf(files), entries[i]) != Inside(p) ensures SameIn(files, after, p) {
      UnwrittenWhereUntargeted(root, LinksOf(files), entries, n, p);
      OverlayAt(root, files, entries[..n], p);
    }
  }

  lemma OverlayOneMore(root: seq<string>, files: Tree, entries: seq<Entry>, i: nat)
    requires i < |entries|
    ensures Overlay(root, files, entries[..i + 1]) == Put(root, Overlay(root, files, entries[..i]), entries[i])
    ensures LinksOf(Overlay(root, files, entries[..i])) == LinksOf(files)
  {
    assert entries[..i + 1][..i] == entries[..i];
    OverlayKeepsLinks(root, files, entries[..i]);
  }

  // ---- nothing fails that need not ----

  lemma PathOnDiskIsOpen(files: Tree, some: Tree, p: Path)
    requires WellFormed(files) && some.Keys <= files.Keys && p in files && p !in LinksOf(some)
    ensures Open(some, Components(p))
  {
    JoinUndoesSplit(p);
    assert forall q :: q in some && Components(p) < Components(q) ==> Components(q)[..|Components(p)|] == Components(p);
  }

  /** Onto a checkout of its commit all files of a directory can be written back, as long as no path of
      the commit is gone and no link is touched. */
  lemma {:induction false} OnDiskIsWritable(g: Graph, root: seq<string>, d: Dir, outer: Outer, names: seq<string>, elsewhere: Outer)
    requires Clean(root) && ValidDir(g, d) && OnDisk(d, names) && NothingGone(g, d) && LinksUnchanged(g, d)
    ensures var tree, entries := g[d.head].tree, ArchiveOf(root, d.files, outer, names);
      Writable(root, tree, elsewhere, entries) && Overlay(root, tree, entries).Keys <= d.files.Keys
  {
    if names != [] {
      var n := |names| - 1;
      var tree, name := g[d.head].tree, names[n];
      var front, entry := ArchiveOf(root, d.files, outer, names[..n]), EntryFor(root, d.files, outer, name);
      OnDiskIsWritable(g, root, d, outer, names[..n], elsewhere);
      FilesAreSeen(FileSystem(root, d.files, outer), name);
      EntryOfSeen(root, d.files, outer, name, name);
      if entry == [] {
        assert front + entry == front;
      } else {
        var e := Entry(name, d.files[name].content, true);
        var some := Overlay(root, tree, front);
        assert (front + entry)[..|front|] == front && (front + entry)[|front|] == e;
        LinksAgree(g, d);
        OverlayKeepsLinks(root, tree, front);
        PathOnDiskIsOpen(d.files, some, name);
        WritesInPlace(FileSystem(root, some, OuterAfter(root, tree, elsewhere, front)), e);
      }
    }
  }

  lemma WritesInPlace(k: FileSystem, e: Entry)
    requires Clean(k.root) && Normal(e.name) && Open(k.files, Components(e.name)) && e.regular
    ensures CanBeWritten(k, e) && Put(k.root, k.files, e).Keys == k.files.Keys + {e.name}
  {
    OpensInPlace(k, e.name);
    OpenedIsDestination(k, e.name);
    TargetOf(k.root, e.name, |Components(e.name)| - 1);
  }

  /** The branch is not behind, no path of the commit is gone, no link is touched, and all names that
      were read are paths on disk. */
  ghost predicate Unhindered(g: Graph, d: Dir, names: seq<string>)
    requires d.head in g && (d.tracking.Some? ==> d.tracking.value in g)
  {
    OnDisk(d, names) && NotBehind(g, d) && NothingGone(g, d) && LinksUnchanged(g, d)
  }

  /** Such a directory is evacuated and restored without a failure of its own making. */
  lemma RecoverySucceeds(g: Graph, root: seq<string>, d: Dir, outer: Outer, names: seq<string>, clone: Dir, elsewhere: Outer)
    requires ValidGraph(g) && Clean(root) && ValidDir(g, d) && FreshFor(g, d, clone)
    requires Unhindered(g, d, names)
    ensures Collectable(root, d.files, outer, names)
    ensures Applies(g, clone, BundleOf(g, d))
    ensures Writable(root, Fetched(g, clone, BundleOf(g, d)).files, elsewhere, ArchiveOf(root, d.files, outer, names))
  {
    forall i | 0 <= i < |names| ensures LooksUp(root, d.files, outer, names[i]) {
      FilesAreSeen(FileSystem(root, d.files, outer), names[i]);
    }
    HeadComesBack(g, d, clone);
    CleanCheckout(g, clone, BundleOf(g, d));
    OnDiskIsWritable(g, root, d, outer, names, elsewhere);
  }

  /** Where an evacuation is cut off: nowhere, before the first upload took effect, between the two,
      or after both with the answer lost. */
  datatype Fault = NoFault | BeforeUploads | BetweenUploads | AnswerLost

  class Agent {
    const graph: Graph
    const root: seq<string>
    /** The room an entry takes in the archive. */
    const blocks: Entry -> nat
    /** No command, download or write fails. */
    const calm: bool
    var dir: Dir
    /** What stands outside the working directory. */
    var outside: Outer
    /** The two stored objects, once written. */
    var bundle: Option<Option<Bundle>>
    var archive: Option<seq<Entry>>

    ghost predicate Valid()
      reads `dir, `bundle
    {
      && ValidGraph(graph) && Clean(root) && dir.head in graph && (dir.tracking.Some? ==> dir.tracking.value in graph)
      && (bundle.Some? && bundle.value.Some? ==> bundle.value.value.tip in graph)
    }

    constructor (graph: Graph, root: seq<string>, blocks: Entry -> nat, calm: bool, dir: Dir, outside: Outer)
      requires ValidGraph(graph) && Clean(root) && ValidDir(graph, dir)
      ensures Valid() && this.graph == graph && this.root == root && this.blocks == blocks && this.calm == calm
      ensures this.dir == dir && this.outside == outside && bundle == None && archive == None
    {
      this.graph, this.root, this.blocks, this.calm, this.dir, this.outside := graph, root, blocks, calm, dir, outside;
      bundle, archive := None, None;
    }

    /** Any command or request may fail. */
    method Fails() returns (fails: bool)
      ensures calm ==> !fails
    {
      fails := *;
      fails := fails && !calm;
    }

    method WriteBundle() returns (b: Option<Bundle>)
      requires Valid()
      ensures b == BundleOf(graph, dir)
      ensures b.None? <==> dir.tracking.Some? && !Ahead(graph, dir)
      ensures b.Some? ==> b.value.tip == dir.head
      ensures b.Some? ==> forall c :: c in b.value.commits <==>
                            c in graph[dir.head].ancestors && (dir.tracking.Some? ==> c !in graph[dir.tracking.value].ancestors)
    {
      AheadIff(graph, dir);
      b := None;
      var revs := graph[dir.head].ancestors;
      if dir.tracking.Some? {
        revs := revs - graph[dir.tracking.value].ancestors;
      }
      assert dir.tracking.None? ==> dir.head in revs;
      if revs != {} {
        b := Some(Bundle(dir.head, revs));
      }
    }

    /** `writeDirtyArchive`: `status` is what git printed. It fails exactly where a name cannot be
        looked up. */
    method WriteDirtyArchive(status: string) returns (ok: bool, entries: seq<Entry>)
      ensures ok <==> Collectable(root, dir.files, outside, DirtyOf(Split(status)))
      ensures ok ==> entries == ArchiveOf(root, dir.files, outside, DirtyOf(Split(status)))
    {
      var names := DirtyPaths(status);
      ok, entries := CollectFiles(names);
    }

    method CollectFiles(names: seq<string>) returns (ok: bool, entries: seq<Entry>)
      ensures ok <==> Collectable(root, dir.files, outside, names)
      ensures ok ==> entries == ArchiveOf(root, dir.files, outside, names)
    {
      entries := [];
      for i := 0 to |names|
        invariant entries == ArchiveOf(root, dir.files, outside, names[..i])
        invariant forall j :: 0 <= j < i ==> LooksUp(root, dir.files, outside, names[j])
      {
        ArchiveOneMore(root, dir.files, outside, names, i);
        var found, entry := AddFile(names[i]);
        if !found {
          assert !LooksUp(root, dir.files, outside, names[i]);
          return false, entries;
        }
        entries := entries + entry;
      }
      assert names[..|names|] == names;
      ok := true;
    }

    method AddFile(name: string) returns (ok: bool, entry: seq<Entry>)
      ensures ok <==> LooksUp(root, dir.files, outside, name)
      ensures ok ==> entry == EntryFor(root, dir.files, outside, name)
    {
      ok, entry := true, [];
      var k := FileSystem(root, dir.files, outside);
      var info := LookUp(k, name);
      if info.Fails? {
        return false, [];
      }
      if info.Seen? {
        var item := ItemAt(k, info.path);
        if item.Document? {
          entry := [Entry(name, item.content, true)];
        }
      }
    }

    /** `Evacuate`: both objects are overwritten, the bundle first; the directory is not touched. Cut
        off between the uploads, it leaves the new bundle beside the archive of before. */
    method Evacuate(status: string, fault: Fault) returns (ok: bool)
      requires Valid()
      modifies `bundle, `archive
      ensures Valid()
      ensures ok <==> fault == NoFault && Collectable(root, dir.files, outside, DirtyOf(Split(status)))
      ensures bundle ==
                if fault != BeforeUploads && Collectable(root, dir.files, outside, DirtyOf(Split(status)))
                then Some(BundleOf(graph, dir))
                else old(bundle)
      ensures archive ==
                if (fault == NoFault || fault == AnswerLost) && Collectable(root, dir.files, outside, DirtyOf(Split(status)))
                then Some(ArchiveOf(root, dir.files, outside, DirtyOf(Split(status))))
                else old(archive)
    {
      var b := WriteBundle();
      var entries;
      ok, entries := WriteDirtyArchive(status);
      if !ok || fault == BeforeUploads {
        return false;
      }
      bundle := Some(b);
      if fault == BetweenUploads {
        return false;
      }
      archive := Some(entries);
      ok := fault == NoFault;
    }

    method HasLocalWork(status: string) returns (ok: bool, local: bool)
      requires Valid()
      ensures ok ==> (local <==> DirtyOf(Split(status)) != [] || Ahead(graph, dir))
      ensures calm ==> ok
    {
      local := false;
      var failed := Fails();
      if failed {
        return false, false;
      }
      var names := DirtyPaths(status);
      if |names| > 0 {
        return true, true;
      }
      if dir.tracking.None? {
        return true, false;
      }
      AheadIff(graph, dir);
      return true, graph[dir.head].ancestors - graph[dir.tracking.value].ancestors != {};
    }

    /** `extractArchive`, on entries from anywhere. Left alone and within the limit it succeeds exactly
        when each entry in turn can be written. Only files that entries lead to are touched; what is
        outside changes only through links of the directory that lead out. An archive over the limit
        is cut short, which shows as an error or as an early end. */
    method ExtractArchive(entries: seq<Entry>) returns (ok: bool, ghost n: nat)
      requires Clean(root)
      modifies `dir, `outside
      ensures dir == old(dir).(files := dir.files)
      ensures n <= |entries|
      ensures ok ==>
                && dir.files == Overlay(root, old(dir.files), entries[..n]) && outside == OuterAfter(root, old(dir.files), old(outside), entries[..n])
                && Writable(root, old(dir.files), old(outside), entries[..n])
      ensures ok && Fits(entries, blocks) ==> n == |entries|
      ensures calm && Fits(entries, blocks) ==> (ok <==> Writable(root, old(dir.files), old(outside), entries))
      ensures OnlyTargets(root, LinksOf(old(dir.files)), entries, old(dir.files), dir.files)
      ensures !LeadsOut(root, LinksOf(old(dir.files)), entries) ==> outside == old(outside)
    {
      n := 0;
      var used := 0;
      ghost var links := LinksOf(dir.files);
      OverlayHitsTargets(root, dir.files, entries, 0);
      for i := 0 to |entries|
        invariant n == i && used == TotalBlocks(entries[..i], blocks)
        invariant dir == old(dir).(files := Overlay(root, old(dir.files), entries[..i]))
        invariant outside == OuterAfter(root, old(dir.files), old(outside), entries[..i])
        invariant Writable(root, old(dir.files), old(outside), entries[..i])
        invariant !LeadsOut(root, links, entries) ==> outside == old(outside)
      {
        OverlayHitsTargets(root, old(dir.files), entries, i);
        OverlayOneMore(root, old(dir.files), entries, i);
        WritableOneMore(root, old(dir.files), old(outside), entries, i);
        assert entries[..i + 1][..i] == entries[..i] && entries[..i + 1][i] == entries[i];
        PrefixIsSmaller(entries, i + 1, blocks);
        var e := entries[i];
        if used + blocks(e) > MAX_ARCHIVE_BLOCKS {
          ok := *;
          return;
        }
        used := used + blocks(e);
        if e.regular {
          var to := Opened(FileSystem(root, dir.files, outside), e.name);
          if to.None? {
            return false, i;
          }
          ok := WriteFile(entries, i, to.value);
          if !ok {
            return false, i;
          }
        }
        n := i + 1;
      }
      assert entries[..|entries|] == entries;
      OverlayHitsTargets(root, old(dir.files), entries, |entries|);
      ok := true;
    }

    /** Writing a file to the place that was opened, or part of it. */
    method WriteFile(entries: seq<Entry>, i: nat, to: seq<string>) returns (ok: bool)
      requires Clean(root) && i < |entries| && entries[i].regular && Opened(FileSystem(root, dir.files, outside), entries[i].name) == Some(to)
      modifies `dir, `outside
      ensures calm ==> ok
      ensures ok ==> dir.files == Put(root, old(dir.files), entries[i]) && outside == Spilled(FileSystem(root, old(dir.files), old(outside)), entries[i])
      ensures dir == old(dir).(files := dir.files)
      ensures !LeadsOut(root, LinksOf(old(dir.files)), entries) ==> outside == old(outside)
      ensures forall before :: OnlyTargets(root, LinksOf(old(dir.files)), entries, before, old(dir.files)) ==>
                OnlyTargets(root, LinksOf(old(dir.files)), entries, before, dir.files)
    {
      OpenedIsDestination(FileSystem(root, dir.files, outside), entries[i].name);
      if Target(root, LinksOf(dir.files), entries[i]).Outside? {
        LeadingOutIsSeen(root, LinksOf(dir.files), entries, i);
      }
      var part: string := *;
      var failed := Fails();
      ok := !failed;
      var content := if ok then entries[i].content else part;
      var at := PlaceOf(root, to);
      if at.Inside? {
        dir := dir.(files := dir.files[at.path := Regular(content)]);
      } else {
        outside := Spill(outside, to, content);
      }
    }

    /** `git fetch` of the bundle and `git reset --hard`. */
    method ApplyBundle(b: Bundle) returns (ok: bool)
      requires Valid() && b.tip in graph
      modifies `dir
      ensures ok ==> Applies(graph, old(dir), Some(b)) && dir == Fetched(graph, old(dir), Some(b))
      ensures calm ==> (ok <==> Applies(graph, old(dir), Some(b)))
      ensures !ok ==> dir == old(dir)
    {
      var failed := Fails();
      if failed || !(graph[b.tip].ancestors - b.commits <= dir.objects) {
        return false;
      }
      dir := Fetched(graph, dir, Some(b));
      ok := true;
    }

    /** `Restore`: where there is local work it does nothing; otherwise it replays the stored bundle
        and then the stored archive, all of it if it is within the limit. Left alone it succeeds
        exactly when the bundle applies and the entries can be written. */
    method Restore(status: string) returns (ok: bool, ghost n: nat)
      requires Valid()
      modifies `dir, `outside
      ensures DirtyOf(Split(status)) != [] || Ahead(graph, old(dir)) ==> dir == old(dir) && outside == old(outside) && (calm ==> ok)
      ensures ok && DirtyOf(Split(status)) == [] && !Ahead(graph, old(dir)) ==>
                && bundle.Some? && archive.Some? && Applies(graph, old(dir), bundle.value) && n <= |archive.value|
                && dir == Restored(graph, root, old(dir), bundle.value, archive.value[..n])
                && (Fits(archive.value, blocks) ==> n == |archive.value|)
      ensures calm && DirtyOf(Split(status)) == [] && !Ahead(graph, old(dir)) && archive.Some? && Fits(archive.value, blocks) ==>
                (ok <==>
                   && bundle.Some? && Applies(graph, old(dir), bundle.value)
                   && Writable(root, Fetched(graph, old(dir), bundle.value).files, old(outside), archive.value))
    {
      var local;
      n := 0;
      ok, local := HasLocalWork(status);
      if !ok || local {
        return;
      }
      if bundle.None? {
        return false, 0;
      }
      if bundle.value.Some? {
        ok := ApplyBundle(bundle.value.value);
        if !ok {
          return;
        }
      }
      if archive.None? {
        return false, 0;
      }
      ok, n := ExtractArchive(archive.value);
    }

    /** Restoring what was evacuated from the directory `lost`, with `around` outside of it. */
    method RestoreClone(cloneStatus: string, ghost lost: Dir, ghost around: Outer, ghost rs: seq<Record>, ghost cloneRs: seq<Record>)
      returns (ok: bool)
      requires Valid() && ValidDir(graph, lost) && FreshFor(graph, lost, dir) && AllLegal(rs)
      requires cloneStatus == Print(cloneRs) && StatusFits(graph, dir, cloneRs)
      requires bundle == Some(BundleOf(graph, lost)) && archive == Some(ArchiveOf(root, lost.files, around, NamesIn(rs)))
      modifies `dir, `outside
      ensures ok && Fits(archive.value, blocks) ==> (dir.head == lost.head && SameWork(lost, dir) <==> NotBehind(graph, lost) && Recoverable(graph, root, lost, around, NamesIn(rs)))
      ensures calm && Fits(archive.value, blocks) ==>
                (ok <==> Writable(root, Fetched(graph, old(dir), BundleOf(graph, lost)).files, old(outside), archive.value))
    {
      FreshHasNoLocalWork(graph, dir, cloneRs);
      RoundTrip(graph, root, lost, around, rs, dir);
      ghost var n;
      ok, n := Restore(cloneStatus);
      assert archive.value[..|archive.value|] == archive.value;
    }

    /** The node is lost after an evacuation, and the directory restored onto a fresh clone somewhere
        else. If the archive is within the limit, the work is back exactly when it could be carried;
        with all names on disk, nothing gone and no link touched, nothing fails that is left alone. */
    method LoseAndRecover(status: string, clone: Dir, elsewhere: Outer, cloneStatus: string, ghost rs: seq<Record>, ghost cloneRs: seq<Record>)
      returns (ok: bool)
      requires Valid() && ValidDir(graph, dir) && FreshFor(graph, dir, clone)
      requires status == Print(rs) && AllLegal(rs)
      requires cloneStatus == Print(cloneRs) && StatusFits(graph, clone, cloneRs)
      modifies `dir, `bundle, `archive, `outside
      ensures ok && Fits(ArchiveOf(root, old(dir.files), old(outside), NamesIn(rs)), blocks) ==>
                (dir.head == old(dir.head) && SameWork(old(dir), dir) <==>
                   NotBehind(graph, old(dir)) && Recoverable(graph, root, old(dir), old(outside), NamesIn(rs)))
      ensures calm && Fits(ArchiveOf(root, old(dir.files), old(outside), NamesIn(rs)), blocks) ==>
                (ok <==>
                   && Collectable(root, old(dir.files), old(outside), NamesIn(rs))
                   && Writable(root, Fetched(graph, clone, BundleOf(graph, old(dir))).files, elsewhere, ArchiveOf(root, old(dir.files), old(outside), NamesIn(rs))))
      ensures calm && Fits(ArchiveOf(root, old(dir.files), old(outside), NamesIn(rs)), blocks) && Unhindered(graph, old(dir), NamesIn(rs)) ==> ok
    {
      if Unhindered(graph, dir, NamesIn(rs)) {
        RecoverySucceeds(graph, root, dir, outside, NamesIn(rs), clone, elsewhere);
      }
      ok := Evacuate(status, NoFault);
      if ok {
        ghost var lost, around := dir, outside;
        dir, outside := clone, elsewhere;
        ok := RestoreClone(cloneStatus, lost, around, rs, cloneRs);
      }
    }
  }
}
