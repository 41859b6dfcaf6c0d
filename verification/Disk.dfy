/** The files of a working directory and what the file system makes of a name: looking it up, making
    its directories and opening it for writing, through links and past files in the way. */
module Disk {
  import opened Orders
  import opened Paths

  type Path = string

  datatype File = Regular(content: string) | Special(target: string)

  type Tree = map<Path, File>

  /** The symbolic links among some files. */
  function LinksOf(files: Tree): Links {
    map p | p in files && files[p].Special? :: files[p].target
  }

  /** Paths as git has them, none of them below another: a file is not a directory. */
  ghost predicate WellFormed(files: Tree) {
    forall p :: p in files ==> Normal(p) && forall k :: 0 < k < |Components(p)| ==> Joined(Components(p)[..k]) !in files
  }

  /** What stands at a place. */
  datatype Item = Folder | Document(content: string) | Other | Absent

  /** What stands at the places outside the working directory. */
  type Outer = seq<string> -> Item

  datatype FileSystem = FileSystem(root: seq<string>, files: Tree, outer: Outer)

  /** Some file is below: git knows no empty directories. */
  predicate IsFolder(files: Tree, parts: seq<string>) {
    exists p :: p in files && parts < Components(p)
  }

  function ItemOf(files: Tree, parts: seq<string>): Item {
    var p := Joined(parts);
    if p in files then (if files[p].Regular? then Document(files[p].content) else Other)
    else if IsFolder(files, parts) then Folder
    else Absent
  }

  function ItemAt(k: FileSystem, path: seq<string>): Item {
    if path <= k.root then Folder
    else if k.root <= path then ItemOf(k.files, path[|k.root|..])
    else k.outer(path)
  }

  // ---- walking through directories ----

  /** A walk comes through to a directory, finds nothing, finds something that is no directory, or
      meets too many links. */
  datatype Passage = Through(path: seq<string>, budget: nat) | Missing | Barred | Endless

  /** The walk from the directory `at`, every place on the way being looked at. */
  function Pass(k: FileSystem, at: seq<string>, todo: seq<string>, budget: nat): Passage
    decreases budget, |todo|
  {
    if todo == [] then Through(at, budget)
    else if todo[0] == "" || todo[0] == "." then Pass(k, at, todo[1..], budget)
    else if todo[0] == ".." then Pass(k, if at == [] then [] else at[..|at| - 1], todo[1..], budget)
    else
      var next := at + [todo[0]];
      if IsLink(k.root, LinksOf(k.files), next) then
        if budget == 0 then Endless
        else
          var target := LinksOf(k.files)[Joined(next[|k.root|..])];
          Pass(k, if target != "" && target[0] == '/' then [] else at, Components(target) + todo[1..], budget - 1)
      else
        match ItemAt(k, next)
        case Folder => Pass(k, next, todo[1..], budget)
        case Absent => Missing
        case _ => Barred
  }

  /** Where it comes through, it goes where the links lead. */
  lemma {:induction false} PassIsFollow(k: FileSystem, at: seq<string>, todo: seq<string>, budget: nat)
    ensures var end := Pass(k, at, todo, budget);
      end.Through? ==> Follow(k.root, LinksOf(k.files), at, todo, budget) == Some(Reached(end.path, end.budget))
    decreases budget, |todo|
  {
    if todo != [] {
      if todo[0] == "" || todo[0] == "." {
        PassIsFollow(k, at, todo[1..], budget);
      } else if todo[0] == ".." {
        PassIsFollow(k, if at == [] then [] else at[..|at| - 1], todo[1..], budget);
      } else if !IsLink(k.root, LinksOf(k.files), at + [todo[0]]) {
        PassIsFollow(k, at + [todo[0]], todo[1..], budget);
      } else if budget > 0 {
        var target := LinksOf(k.files)[Joined((at + [todo[0]])[|k.root|..])];
        PassIsFollow(k, if target != "" && target[0] == '/' then [] else at, Components(target) + todo[1..], budget - 1);
      }
    }
  }

  lemma {:induction false} PassInTwo(k: FileSystem, at: seq<string>, a: seq<string>, b: seq<string>, budget: nat)
    ensures var first := Pass(k, at, a, budget);
      Pass(k, at, a + b, budget) == if first.Through? then Pass(k, first.path, b, first.budget) else first
    decreases budget, |a|
  {
    if a == [] {
      assert a + b == b;
    } else {
      assert (a + b)[0] == a[0] && (a + b)[1..] == a[1..] + b;
      if a[0] == "" || a[0] == "." {
        PassInTwo(k, at, a[1..], b, budget);
      } else if a[0] == ".." {
        PassInTwo(k, if at == [] then [] else at[..|at| - 1], a[1..], b, budget);
      } else if !IsLink(k.root, LinksOf(k.files), at + [a[0]]) {
        PassInTwo(k, at + [a[0]], a[1..], b, budget);
      } else if budget > 0 {
        var target := LinksOf(k.files)[Joined((at + [a[0]])[|k.root|..])];
        Reassociate(Components(target), a[1..], b);
        PassInTwo(k, if target != "" && target[0] == '/' then [] else at, Components(target) + a[1..], b, budget - 1);
      }
    }
  }

  lemma FolderIsNoLink(k: FileSystem, path: seq<string>)
    requires ItemAt(k, path).Folder? || ItemAt(k, path).Absent? || ItemAt(k, path).Document?
    ensures !IsLink(k.root, LinksOf(k.files), path)
  {
  }

  /** Plain directories are walked through one by one. */
  lemma {:induction false} PassPlain(k: FileSystem, at: seq<string>, todo: seq<string>, budget: nat)
    requires Clean(todo) && forall i :: 0 < i <= |todo| ==> ItemAt(k, at + todo[..i]).Folder?
    ensures Pass(k, at, todo, budget) == Through(at + todo, budget)
    decreases |todo|
  {
    if todo == [] {
      assert at + todo == at;
    } else {
      assert Plain(todo[0]) && todo[..1] == [todo[0]];
      FolderIsNoLink(k, at + todo[..1]);
      forall i | 0 < i <= |todo[1..]| ensures ItemAt(k, at + [todo[0]] + todo[1..][..i]).Folder? {
        assert at + [todo[0]] + todo[1..][..i] == at + todo[..i + 1];
      }
      PassPlain(k, at + [todo[0]], todo[1..], budget);
      assert at + [todo[0]] + todo[1..] == at + todo;
    }
  }

  lemma RootPasses(k: FileSystem, budget: nat)
    requires Clean(k.root)
    ensures Pass(k, [], k.root, budget) == Through(k.root, budget)
  {
    forall i | 0 < i <= |k.root| ensures ItemAt(k, [] + k.root[..i]).Folder? {
      assert [] + k.root[..i] == k.root[..i];
    }
    PassPlain(k, [], k.root, budget);
    assert [] + k.root == k.root;
  }

  // ---- looking a name up ----

  /** `Lstat` of the joined name: the place it looks at, nothing there, or another error. */
  datatype Sight = Seen(path: seq<string>) | Unseen | Fails

  function LookUp(k: FileSystem, name: string): Sight {
    var target := Walk(k.root, Components(name));
    if target == [] then Seen([])
    else
      match Pass(k, [], target[..|target| - 1], MAX_LINKS)
      case Through(path, _) => Seen(path + [target[|target| - 1]])
      case Missing => Unseen
      case _ => Fails
  }

  /** The place a name is seen at. */
  function Sighted(k: FileSystem, name: string): Place {
    match LookUp(k, name)
    case Seen(path) => PlaceOf(k.root, path)
    case _ => Nowhere
  }

  lemma SightedIsWhere(k: FileSystem, name: string)
    ensures LookUp(k, name).Seen? ==> Sighted(k, name) == Where(k.root, LinksOf(k.files), name)
  {
    var target := Walk(k.root, Components(name));
    if target != [] {
      PassIsFollow(k, [], target[..|target| - 1], MAX_LINKS);
    }
  }

  lemma PrefixIsFolder(k: FileSystem, p: Path, n: nat)
    requires WellFormed(k.files) && p in k.files && n < |Components(p)|
    ensures ItemAt(k, k.root + Components(p)[..n]).Folder?
  {
    var parts := Components(p);
    if n == 0 {
      assert k.root + parts[..n] == k.root;
    } else {
      assert (k.root + parts[..n])[|k.root|..] == parts[..n];
      assert parts[..n] < parts;
    }
  }

  ghost predicate AllFolders(k: FileSystem, parts: seq<string>, n: nat)
    requires n <= |parts|
  {
    forall i :: 0 < i <= n ==> ItemAt(k, k.root + parts[..i]).Folder?
  }

  /** A walk from `/` down to a place below the root, when all on the way are directories. */
  lemma PassesDown(k: FileSystem, parts: seq<string>, n: nat, budget: nat)
    requires Clean(k.root) && Clean(parts) && n <= |parts|
    requires AllFolders(k, parts, n)
    ensures Pass(k, [], k.root + parts[..n], budget) == Through(k.root + parts[..n], budget)
  {
    RootPasses(k, budget);
    PassInTwo(k, [], k.root, parts[..n], budget);
    forall i | 0 < i <= n ensures ItemAt(k, k.root + parts[..n][..i]).Folder? {
      assert parts[..n][..i] == parts[..i];
    }
    PassPlain(k, k.root, parts[..n], budget);
  }

  lemma TargetOf(root: seq<string>, p: Path, n: nat)
    requires Normal(p) && n == |Components(p)| - 1
    ensures var target := Walk(root, Components(p));
      && target == root + Components(p) && root < target && target[|root|..] == Components(p)
      && target[..|target| - 1] == root + Components(p)[..n] && target[|target| - 1] == Components(p)[n]
      && root + Components(p)[..n] + [Components(p)[n]] == target
      && PlaceOf(root, target) == Inside(p)
  {
    WalkPlain(root, Components(p));
    JoinUndoesSplit(p);
  }

  /** A file on disk is seen in its place. */
  lemma FilesAreSeen(k: FileSystem, p: Path)
    requires Clean(k.root) && WellFormed(k.files) && p in k.files
    ensures LookUp(k, p) == Seen(k.root + Components(p)) && Sighted(k, p) == Inside(p)
    ensures ItemAt(k, k.root + Components(p)) == if k.files[p].Regular? then Document(k.files[p].content) else Other
  {
    var n := |Components(p)| - 1;
    TargetOf(k.root, p, n);
    forall i | 0 < i <= n ensures ItemAt(k, k.root + Components(p)[..i]).Folder? {
      PrefixIsFolder(k, p, i);
    }
    PassesDown(k, Components(p), n, MAX_LINKS);
    JoinUndoesSplit(p);
  }

  /** A plain walk past directories and places where nothing is comes through or finds nothing. */
  lemma {:induction false} PassFindsNothing(k: FileSystem, at: seq<string>, todo: seq<string>, budget: nat)
    requires Clean(todo) && forall i :: 0 < i <= |todo| ==> ItemAt(k, at + todo[..i]).Folder? || ItemAt(k, at + todo[..i]).Absent?
    ensures var end := Pass(k, at, todo, budget); end == Missing || end == Through(at + todo, budget)
    decreases |todo|
  {
    if todo == [] {
      assert at + todo == at;
    } else {
      assert Plain(todo[0]) && todo[..1] == [todo[0]];
      FolderIsNoLink(k, at + todo[..1]);
      forall i | 0 < i <= |todo[1..]|
        ensures ItemAt(k, at + [todo[0]] + todo[1..][..i]).Folder? || ItemAt(k, at + [todo[0]] + todo[1..][..i]).Absent?
      {
        assert at + [todo[0]] + todo[1..][..i] == at + todo[..i + 1];
      }
      PassFindsNothing(k, at + [todo[0]], todo[1..], budget);
      assert at + [todo[0]] + todo[1..] == at + todo;
    }
  }

  /** No file or link stands above the place. */
  ghost predicate NothingInTheWay(files: Tree, parts: seq<string>) {
    forall i :: 0 < i < |parts| ==> Joined(parts[..i]) !in files
  }

  lemma AboveIsFolderOrAbsent(k: FileSystem, parts: seq<string>, i: nat)
    requires NothingInTheWay(k.files, parts) && i < |parts|
    ensures ItemAt(k, k.root + parts[..i]).Folder? || ItemAt(k, k.root + parts[..i]).Absent?
  {
    if i == 0 {
      assert k.root + parts[..i] == k.root;
    } else {
      assert (k.root + parts[..i])[|k.root|..] == parts[..i];
    }
  }

  /** A path that is gone from disk is looked up without an error, and nothing is found. */
  lemma GoneIsNoError(k: FileSystem, p: Path)
    requires Clean(k.root) && Normal(p) && NothingInTheWay(k.files, Components(p)) && p !in k.files
    ensures LookUp(k, p) == Unseen || (LookUp(k, p).Seen? && (ItemAt(k, LookUp(k, p).path).Absent? || ItemAt(k, LookUp(k, p).path).Folder?))
  {
    var n := |Components(p)| - 1;
    TargetOf(k.root, p, n);
    JoinUndoesSplit(p);
    PassesOrMissing(k, Components(p), n);
  }

  lemma PassesOrMissing(k: FileSystem, parts: seq<string>, n: nat)
    requires Clean(k.root) && Clean(parts) && n < |parts| && NothingInTheWay(k.files, parts)
    ensures var end := Pass(k, [], k.root + parts[..n], MAX_LINKS); end == Missing || end == Through(k.root + parts[..n], MAX_LINKS)
  {
    RootPasses(k, MAX_LINKS);
    PassInTwo(k, [], k.root, parts[..n], MAX_LINKS);
    forall i | 0 < i <= n ensures ItemAt(k, k.root + parts[..n][..i]).Folder? || ItemAt(k, k.root + parts[..n][..i]).Absent? {
      assert parts[..n][..i] == parts[..i];
      AboveIsFolderOrAbsent(k, parts, i);
    }
    PassFindsNothing(k, k.root, parts[..n], MAX_LINKS);
  }

  // ---- making directories and opening for writing ----

  /** `MkdirAll`: the directory a path leads to, made where there is nothing; none when something else
      is in the way. */
  function Made(k: FileSystem, path: seq<string>): Option<Reached>
    decreases |path|
  {
    match Pass(k, [], path, MAX_LINKS)
    case Through(at, budget) => Some(Reached(at, budget))
    case _ =>
      if path == [] then None
      else
        match Made(k, path[..|path| - 1])
        case None => None
        case Some(up) =>
          var next := up.path + [path[|path| - 1]];
          if ItemAt(k, next).Absent? then Some(Reached(next, up.budget)) else None
  }

  /** Opening for writing from the directory `at`: links are followed to the end, where there may be a
      file or nothing, but no directory. */
  function Enter(k: FileSystem, at: seq<string>, todo: seq<string>, budget: nat): Option<seq<string>>
    decreases budget, |todo|
  {
    if todo == [] then None
    else if todo[0] == "" || todo[0] == "." then Enter(k, at, todo[1..], budget)
    else if todo[0] == ".." then Enter(k, if at == [] then [] else at[..|at| - 1], todo[1..], budget)
    else
      var next := at + [todo[0]];
      if IsLink(k.root, LinksOf(k.files), next) then
        if budget == 0 then None
        else
          var target := LinksOf(k.files)[Joined(next[|k.root|..])];
          Enter(k, if target != "" && target[0] == '/' then [] else at, Components(target) + todo[1..], budget - 1)
      else if ItemAt(k, next).Folder? then Enter(k, next, todo[1..], budget)
      else if |todo| == 1 then Some(next)
      else None
  }

  /** The name is below the working directory, not the directory itself. */
  predicate Below(root: seq<string>, name: string) {
    root < Walk(root, Components(name))
  }

  /** The place that is written when an entry of this name is extracted; none if that fails. */
  function Opened(k: FileSystem, name: string): Option<seq<string>> {
    var target := Walk(k.root, Components(name));
    if !Below(k.root, name) then None
    else
      match Made(k, target[..|target| - 1])
      case None => None
      case Some(parent) => Enter(k, parent.path, [target[|target| - 1]], parent.budget)
  }

  lemma {:induction false} MadeIsFollow(k: FileSystem, path: seq<string>)
    requires Clean(path)
    ensures Made(k, path).Some? ==> Follow(k.root, LinksOf(k.files), [], path, MAX_LINKS) == Made(k, path)
    decreases |path|
  {
    PassIsFollow(k, [], path, MAX_LINKS);
    if path != [] && !Pass(k, [], path, MAX_LINKS).Through? && Made(k, path).Some? {
      var front, c := path[..|path| - 1], path[|path| - 1];
      MadeIsFollow(k, front);
      assert path == front + [c] && Plain(c) && [c][1..] == [];
      FollowInTwo(k.root, LinksOf(k.files), [], front, [c], MAX_LINKS);
      FolderIsNoLink(k, Made(k, path).value.path);
    }
  }

  lemma {:induction false} EnterIsFollow(k: FileSystem, at: seq<string>, todo: seq<string>, budget: nat)
    ensures var to, end := Enter(k, at, todo, budget), Follow(k.root, LinksOf(k.files), at, todo, budget);
      to.Some? ==> end.Some? && end.value.path == to.value
    decreases budget, |todo|
  {
    if todo != [] {
      if todo[0] == "" || todo[0] == "." {
        EnterIsFollow(k, at, todo[1..], budget);
      } else if todo[0] == ".." {
        EnterIsFollow(k, if at == [] then [] else at[..|at| - 1], todo[1..], budget);
      } else if !IsLink(k.root, LinksOf(k.files), at + [todo[0]]) {
        EnterIsFollow(k, at + [todo[0]], todo[1..], budget);
      } else if budget > 0 {
        var target := LinksOf(k.files)[Joined((at + [todo[0]])[|k.root|..])];
        EnterIsFollow(k, if target != "" && target[0] == '/' then [] else at, Components(target) + todo[1..], budget - 1);
      }
    }
  }

  /** What is opened is where the links lead. */
  lemma OpenedIsDestination(k: FileSystem, name: string)
    requires Clean(k.root)
    ensures Opened(k, name).Some? ==> Below(k.root, name) && Destination(k.root, LinksOf(k.files), name) == PlaceOf(k.root, Opened(k, name).value)
  {
    var target := Walk(k.root, Components(name));
    if Below(k.root, name) {
      var front, c := target[..|target| - 1], target[|target| - 1];
      WalkIsClean(k.root, Components(name));
      MadeIsFollow(k, front);
      assert target == front + [c];
      FollowInTwo(k.root, LinksOf(k.files), [], front, [c], MAX_LINKS);
      if Made(k, front).Some? {
        EnterIsFollow(k, Made(k, front).value.path, [c], Made(k, front).value.budget);
      }
    }
  }

  // ---- where nothing is in the way ----

  /** No file stands above the place, and no directory in it. */
  ghost predicate Open(files: Tree, parts: seq<string>) {
    && Joined(parts) !in LinksOf(files)
    && (forall i :: 0 < i < |parts| ==> Joined(parts[..i]) !in files)
    && (Joined(parts) in files || !IsFolder(files, parts))
  }

  lemma {:induction false} MadePlain(k: FileSystem, parts: seq<string>, n: nat)
    requires Clean(k.root) && Clean(parts) && n <= |parts| && forall i :: 0 < i <= n ==> Joined(parts[..i]) !in k.files
    ensures Made(k, k.root + parts[..n]).Some? && Made(k, k.root + parts[..n]).value.path == k.root + parts[..n]
  {
    if AllFolders(k, parts, n) {
      PassesDown(k, parts, n, MAX_LINKS);
    } else {
      NotThere(k, parts, n);
      FrontOf(k.root, parts, n);
      MadePlain(k, parts, n - 1);
      MadeWithout(k, k.root + parts[..n]);
    }
  }

  lemma FrontOf(root: seq<string>, parts: seq<string>, n: nat)
    requires 0 < n <= |parts| && Clean(root) && Clean(parts)
    ensures var path := root + parts[..n]; path[..|path| - 1] == root + parts[..n - 1] && Clean(path)
  {
  }

  lemma MadeWithout(k: FileSystem, path: seq<string>)
    requires path != [] && Clean(path) && ItemAt(k, path).Absent?
    requires var up := Made(k, path[..|path| - 1]); up.Some? && up.value.path == path[..|path| - 1]
    ensures Made(k, path).Some? && Made(k, path).value.path == path
  {
    var front, c := path[..|path| - 1], path[|path| - 1];
    assert path == front + [c] && Plain(c) && [c][1..] == [];
    PassIsFollow(k, [], path, MAX_LINKS);
    MadeIsFollow(k, front);
    FollowInTwo(k.root, LinksOf(k.files), [], front, [c], MAX_LINKS);
    FolderIsNoLink(k, path);
  }

  /** Below a directory that is not there nothing is. */
  lemma NotThere(k: FileSystem, parts: seq<string>, n: nat)
    requires 0 < n <= |parts| && forall i :: 0 < i <= n ==> Joined(parts[..i]) !in k.files
    requires !AllFolders(k, parts, n)
    ensures ItemAt(k, k.root + parts[..n]).Absent?
  {
    var i :| 0 < i <= n && !ItemAt(k, k.root + parts[..i]).Folder?;
    assert (k.root + parts[..i])[|k.root|..] == parts[..i] && (k.root + parts[..n])[|k.root|..] == parts[..n];
    FolderAbove(k.files, parts[..i], parts[..n]);
  }

  lemma FolderAbove(files: Tree, a: seq<string>, b: seq<string>)
    requires a <= b
    ensures IsFolder(files, b) ==> IsFolder(files, a)
  {
    if IsFolder(files, b) {
      var p :| p in files && b < Components(p);
      assert a < Components(p);
    }
  }

  lemma OpensInPlace(k: FileSystem, p: Path)
    requires Clean(k.root) && Normal(p) && Open(k.files, Components(p))
    ensures Opened(k, p) == Some(k.root + Components(p))
  {
    var n := |Components(p)| - 1;
    TargetOf(k.root, p, n);
    MadePlain(k, Components(p), n);
    EntersInPlace(k, k.root + Components(p)[..n], Components(p)[n], Made(k, k.root + Components(p)[..n]).value.budget);
  }

  lemma EntersInPlace(k: FileSystem, at: seq<string>, c: string, budget: nat)
    requires Plain(c) && !ItemAt(k, at + [c]).Folder? && !IsLink(k.root, LinksOf(k.files), at + [c])
    ensures Enter(k, at, [c], budget) == Some(at + [c])
  {
  }

  lemma MadeWhere(k: FileSystem, parts: seq<string>, n: nat)
    requires Clean(k.root) && Clean(parts) && n <= |parts| && forall i :: 0 < i <= n ==> Joined(parts[..i]) !in LinksOf(k.files)
    ensures Made(k, k.root + parts[..n]).Some? ==> Made(k, k.root + parts[..n]).value.path == k.root + parts[..n]
    ensures Pass(k, [], k.root + parts[..n], MAX_LINKS).Through? ==> Pass(k, [], k.root + parts[..n], MAX_LINKS).path == k.root + parts[..n]
  {
    var path := k.root + parts[..n];
    forall i | 0 < i <= |path| ensures !IsLink(k.root, LinksOf(k.files), [] + path[..i]) {
      assert [] + path[..i] == path[..i];
      if i > |k.root| {
        assert path[..i][|k.root|..] == parts[..i - |k.root|];
      }
    }
    FollowPlain(k.root, LinksOf(k.files), [], path, MAX_LINKS);
    assert [] + path == path;
    MadeIsFollow(k, path);
    PassIsFollow(k, [], path, MAX_LINKS);
  }

  /** Where a walk does not come through, a longer one does not. */
  lemma NoFurther(k: FileSystem, parts: seq<string>, n: nat)
    requires 0 < n <= |parts| && !Pass(k, [], k.root + parts[..n - 1], MAX_LINKS).Through?
    ensures !Pass(k, [], k.root + parts[..n], MAX_LINKS).Through?
  {
    var front := k.root + parts[..n - 1];
    assert k.root + parts[..n] == front + [parts[n - 1]];
    PassInTwo(k, [], front, [parts[n - 1]], MAX_LINKS);
  }

  /** No directory can be made in the place of a file, nor below one. */
  lemma {:induction false} FileBars(k: FileSystem, parts: seq<string>, i: nat, n: nat)
    requires Clean(k.root) && Clean(parts) && 0 < i <= n <= |parts| && Joined(parts[..i]) in k.files
    requires forall j :: 0 < j <= n ==> Joined(parts[..j]) !in LinksOf(k.files)
    ensures CannotBeMade(k, k.root + parts[..n])
    decreases n
  {
    if i < n {
      FileBars(k, parts, i, n - 1);
      StillCannot(k, parts, n);
    } else {
      FileItselfBars(k, parts, n);
    }
  }

  ghost predicate CannotBeMade(k: FileSystem, path: seq<string>) {
    Made(k, path).None? && !Pass(k, [], path, MAX_LINKS).Through?
  }

  lemma StillCannot(k: FileSystem, parts: seq<string>, n: nat)
    requires Clean(k.root) && Clean(parts) && 0 < n <= |parts| && CannotBeMade(k, k.root + parts[..n - 1])
    ensures CannotBeMade(k, k.root + parts[..n])
  {
    FrontOf(k.root, parts, n);
    NoFurther(k, parts, n);
  }

  lemma FileItselfBars(k: FileSystem, parts: seq<string>, n: nat)
    requires Clean(k.root) && Clean(parts) && 0 < n <= |parts| && Joined(parts[..n]) in k.files
    requires forall j :: 0 < j <= n ==> Joined(parts[..j]) !in LinksOf(k.files)
    ensures CannotBeMade(k, k.root + parts[..n])
  {
    FrontOf(k.root, parts, n);
    MadeWhere(k, parts, n - 1);
    LastIsFile(k, parts, n);
    var path := k.root + parts[..n];
    assert k.root + parts[..n - 1] + [path[|path| - 1]] == path;
  }

  lemma LastIsFile(k: FileSystem, parts: seq<string>, n: nat)
    requires Clean(k.root) && Clean(parts) && 0 < n <= |parts| && Joined(parts[..n]) in k.files
    requires forall j :: 0 < j <= n ==> Joined(parts[..j]) !in LinksOf(k.files)
    ensures ItemAt(k, k.root + parts[..n]).Document? && !Pass(k, [], k.root + parts[..n], MAX_LINKS).Through?
  {
    var front, c := k.root + parts[..n - 1], parts[n - 1];
    assert (k.root + parts[..n])[|k.root|..] == parts[..n] && k.root + parts[..n] == front + [c] && Plain(c);
    MadeWhere(k, parts, n - 1);
    PassInTwo(k, [], front, [c], MAX_LINKS);
    FolderIsNoLink(k, front + [c]);
  }

  /** Without links on its path a name can be opened exactly when no file is in the way of its
      directories and no directory in its own place. */
  lemma OpensInPlaceIff(k: FileSystem, p: Path)
    requires Clean(k.root) && Normal(p) && Unlinked(LinksOf(k.files), p) && p !in LinksOf(k.files)
    ensures Opened(k, p).Some? <==> NothingInTheWay(k.files, Components(p)) && (p in k.files || !IsFolder(k.files, Components(p)))
    ensures Opened(k, p).Some? ==> Opened(k, p).value == k.root + Components(p)
  {
    JoinUndoesSplit(p);
    if !NothingInTheWay(k.files, Components(p)) {
      BarredByFile(k, p);
    } else if p in k.files || !IsFolder(k.files, Components(p)) {
      OpensInPlace(k, p);
    } else {
      BarredByFolder(k, p);
    }
  }

  lemma BarredByFile(k: FileSystem, p: Path)
    requires Clean(k.root) && Normal(p) && Unlinked(LinksOf(k.files), p) && !NothingInTheWay(k.files, Components(p))
    ensures Opened(k, p) == None
  {
    var n := |Components(p)| - 1;
    TargetOf(k.root, p, n);
    var i :| 0 < i < |Components(p)| && Joined(Components(p)[..i]) in k.files;
    FileBars(k, Components(p), i, n);
  }

  lemma BarredByFolder(k: FileSystem, p: Path)
    requires Clean(k.root) && Normal(p) && NothingInTheWay(k.files, Components(p)) && p !in k.files && IsFolder(k.files, Components(p))
    ensures Opened(k, p) == None
  {
    var n := |Components(p)| - 1;
    TargetOf(k.root, p, n);
    JoinUndoesSplit(p);
    MadePlain(k, Components(p), n);
    FolderIsNotEntered(k, k.root + Components(p)[..n], Components(p)[n], Made(k, k.root + Components(p)[..n]).value.budget);
  }

  /** A name that climbs out of the directory is never opened, and the directory itself neither. */
  lemma OutsideIsRefused(k: FileSystem, path: string)
    requires Clean(k.root) && k.root != [] && Normal(path) && Components(path)[0] != k.root[|k.root| - 1]
    ensures Opened(k, "../" + path) == None && Opened(k, ".") == None && Opened(k, "") == None
  {
    ClimbingEscapes(k.root, path);
    OneComponent(".");
    assert ["."][1..] == [] && [""][1..] == [];
  }

  lemma FolderIsNotEntered(k: FileSystem, at: seq<string>, c: string, budget: nat)
    requires Plain(c) && ItemAt(k, at + [c]).Folder?
    ensures Enter(k, at, [c], budget) == None
  {
    FolderIsNoLink(k, at + [c]);
  }

  // ---- what a write leaves ----

  /** Outside, after a file was written there: the directories it needed have been made. */
  function Spill(outer: Outer, path: seq<string>, content: string): Outer {
    x => if x == path then Document(content) else if x < path && outer(x).Absent? then Folder else outer(x)
  }
}
