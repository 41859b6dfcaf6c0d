/** Where a name leads: `filepath.Join` of the working directory and the name with the check that the
    result is inside, which is by name alone, and where the file system takes it through links. */
module Paths {
  import opened Orders

  /** The components of a path. */
  function Components(path: string): (parts: seq<string>)
    ensures parts != []
    ensures forall i :: 0 <= i < |parts| ==> '/' !in parts[i]
  {
    if path == "" then [""]
    else if path[0] == '/' then [""] + Components(path[1..])
    else
      var rest := Components(path[1..]);
      [[path[0]] + rest[0]] + rest[1..]
  }

  function Joined(parts: seq<string>): string {
    if parts == [] then "" else if |parts| == 1 then parts[0] else parts[0] + "/" + Joined(parts[1..])
  }

  predicate Plain(part: string) {
    part != "" && part != "." && part != ".."
  }

  /** A relative path as git writes it. */
  predicate Normal(path: string) {
    forall i :: 0 <= i < |Components(path)| ==> Plain(Components(path)[i])
  }

  predicate Clean(dir: seq<string>) {
    forall i :: 0 <= i < |dir| ==> Plain(dir[i])
  }

  /** `filepath.Clean` of an absolute path, component by component. */
  function Walk(dir: seq<string>, parts: seq<string>): seq<string>
    decreases |parts|
  {
    if parts == [] then dir
    else if parts[0] == "" || parts[0] == "." then Walk(dir, parts[1..])
    else if parts[0] == ".." then Walk(if dir == [] then [] else dir[..|dir| - 1], parts[1..])
    else Walk(dir + [parts[0]], parts[1..])
  }

  /** Where an entry lands, relative to the working directory `root`; none if that is outside. */
  function Resolve(root: seq<string>, name: string): Option<string> {
    var target := Walk(root, Components(name));
    if root <= target then Some(Joined(target[|root|..])) else None
  }

  /** The result has no dots left: the check compares plain names. Links are another matter. */
  lemma {:induction false} WalkIsClean(dir: seq<string>, parts: seq<string>)
    requires Clean(dir)
    ensures Clean(Walk(dir, parts))
    decreases |parts|
  {
    if parts != [] {
      if parts[0] == "" || parts[0] == "." {
        WalkIsClean(dir, parts[1..]);
      } else if parts[0] == ".." {
        WalkIsClean(if dir == [] then [] else dir[..|dir| - 1], parts[1..]);
      } else {
        WalkIsClean(dir + [parts[0]], parts[1..]);
      }
    }
  }

  lemma {:induction false} WalkPlain(dir: seq<string>, parts: seq<string>)
    requires Clean(parts)
    ensures Walk(dir, parts) == dir + parts
    decreases |parts|
  {
    if parts == [] {
      assert dir + parts == dir;
    } else {
      assert Plain(parts[0]);
      WalkPlain(dir + [parts[0]], parts[1..]);
      assert dir + [parts[0]] + parts[1..] == dir + parts;
    }
  }

  lemma {:induction false} JoinUndoesSplit(path: string)
    ensures Joined(Components(path)) == path
  {
    if path != "" {
      JoinUndoesSplit(path[1..]);
      var rest := Components(path[1..]);
      assert path == [path[0]] + path[1..];
      if path[0] == '/' {
        assert Components(path)[1..] == rest;
      } else if |rest| > 1 {
        assert Components(path)[1..] == rest[1..];
      }
    }
  }

  /** Git's own paths land where they came from. */
  lemma NormalPathsStay(root: seq<string>, path: string)
    requires Normal(path)
    ensures Resolve(root, path) == Some(path)
  {
    WalkPlain(root, Components(path));
    JoinUndoesSplit(path);
    assert (root + Components(path))[|root|..] == Components(path);
  }

  lemma {:induction false} ComponentsFirst(part: string, rest: string)
    requires '/' !in part
    ensures Components(part + "/" + rest) == [part] + Components(rest)
  {
    if part == "" {
      assert part + "/" + rest == "/" + rest;
      assert ("/" + rest)[1..] == rest;
    } else {
      ComponentsFirst(part[1..], rest);
      assert (part + "/" + rest)[1..] == part[1..] + "/" + rest;
      assert part == [part[0]] + part[1..];
    }
  }

  /** Climbing out of the working directory is seen. */
  lemma ClimbingEscapes(root: seq<string>, path: string)
    requires Clean(root) && root != [] && Normal(path) && Components(path)[0] != root[|root| - 1]
    ensures Resolve(root, "../" + path) == None
  {
    var name := "../" + path;
    ComponentsFirst("..", path);
    assert name == ".." + "/" + path;
    assert Components(name)[1..] == Components(path);
    WalkPlain(root[..|root| - 1], Components(path));
    var target := root[..|root| - 1] + Components(path);
    assert Walk(root, Components(name)) == target;
    assert target[|root| - 1] == Components(path)[0];
  }

  // ---- through links ----

  /** The links in the working directory: where each stands, relative to it, and what it says. */
  type Links = map<string, string>

  /** How many links the system follows before it gives up. */
  const MAX_LINKS: nat := 40

  predicate IsLink(root: seq<string>, links: Links, path: seq<string>) {
    root <= path && |root| < |path| && Joined(path[|root|..]) in links
  }

  /** A place reached, and how many links may still be followed. */
  datatype Reached = Reached(path: seq<string>, budget: nat)

  /** The system's walk, component by component; none when there are too many links. No directory
      outside `root` is taken for a link. */
  function Follow(root: seq<string>, links: Links, at: seq<string>, todo: seq<string>, budget: nat): Option<Reached>
    decreases budget, |todo|
  {
    if todo == [] then Some(Reached(at, budget))
    else if todo[0] == "" || todo[0] == "." then Follow(root, links, at, todo[1..], budget)
    else if todo[0] == ".." then Follow(root, links, if at == [] then [] else at[..|at| - 1], todo[1..], budget)
    else if !IsLink(root, links, at + [todo[0]]) then Follow(root, links, at + [todo[0]], todo[1..], budget)
    else if budget == 0 then None
    else
      var target := links[Joined((at + [todo[0]])[|root|..])];
      Follow(root, links, if target != "" && target[0] == '/' then [] else at, Components(target) + todo[1..], budget - 1)
  }

  lemma {:induction false} FollowInTwo(root: seq<string>, links: Links, at: seq<string>, a: seq<string>, b: seq<string>, budget: nat)
    ensures var first := Follow(root, links, at, a, budget);
      Follow(root, links, at, a + b, budget) == if first.None? then None else Follow(root, links, first.value.path, b, first.value.budget)
    decreases budget, |a|
  {
    if a == [] {
      assert a + b == b;
    } else {
      assert (a + b)[0] == a[0] && (a + b)[1..] == a[1..] + b;
      if a[0] == "" || a[0] == "." {
        FollowInTwo(root, links, at, a[1..], b, budget);
      } else if a[0] == ".." {
        FollowInTwo(root, links, if at == [] then [] else at[..|at| - 1], a[1..], b, budget);
      } else if !IsLink(root, links, at + [a[0]]) {
        FollowInTwo(root, links, at + [a[0]], a[1..], b, budget);
      } else if budget > 0 {
        var target := links[Joined((at + [a[0]])[|root|..])];
        Reassociate(Components(target), a[1..], b);
        FollowInTwo(root, links, if target != "" && target[0] == '/' then [] else at, Components(target) + a[1..], b, budget - 1);
      }
    }
  }

  /** No step of a path is a link. */
  ghost predicate NoLinkOn(root: seq<string>, links: Links, path: seq<string>) {
    forall k :: 0 <= k <= |path| ==> !IsLink(root, links, path[..k])
  }

  lemma NoLinkOnNext(root: seq<string>, links: Links, at: seq<string>, c: string)
    requires NoLinkOn(root, links, at) && !IsLink(root, links, at + [c])
    ensures NoLinkOn(root, links, at + [c])
  {
    var next := at + [c];
    forall k | 0 <= k <= |next| ensures !IsLink(root, links, next[..k]) {
      if k <= |at| {
        assert next[..k] == at[..k];
      } else {
        assert next[..k] == next;
      }
    }
  }

  lemma NoLinkOnParent(root: seq<string>, links: Links, at: seq<string>)
    requires NoLinkOn(root, links, at)
    ensures NoLinkOn(root, links, if at == [] then [] else at[..|at| - 1])
  {
    if at != [] {
      var up := at[..|at| - 1];
      forall k | 0 <= k <= |up| ensures !IsLink(root, links, up[..k]) {
        assert up[..k] == at[..k];
      }
    }
  }

  /** The walk never ends on a link or beyond one. */
  lemma {:induction false} FollowEndsClear(root: seq<string>, links: Links, at: seq<string>, todo: seq<string>, budget: nat)
    requires NoLinkOn(root, links, at)
    ensures var end := Follow(root, links, at, todo, budget); end.Some? ==> NoLinkOn(root, links, end.value.path)
    decreases budget, |todo|
  {
    if todo != [] {
      if todo[0] == "" || todo[0] == "." {
        FollowEndsClear(root, links, at, todo[1..], budget);
      } else if todo[0] == ".." {
        NoLinkOnParent(root, links, at);
        FollowEndsClear(root, links, if at == [] then [] else at[..|at| - 1], todo[1..], budget);
      } else if !IsLink(root, links, at + [todo[0]]) {
        NoLinkOnNext(root, links, at, todo[0]);
        FollowEndsClear(root, links, at + [todo[0]], todo[1..], budget);
      } else if budget > 0 {
        var target := links[Joined((at + [todo[0]])[|root|..])];
        FollowEndsClear(root, links, if target != "" && target[0] == '/' then [] else at, Components(target) + todo[1..], budget - 1);
      }
    }
  }

  /** A plain path without links leads where it says. */
  lemma {:induction false} FollowPlain(root: seq<string>, links: Links, at: seq<string>, todo: seq<string>, budget: nat)
    requires Clean(todo) && forall k :: 0 < k <= |todo| ==> !IsLink(root, links, at + todo[..k])
    ensures Follow(root, links, at, todo, budget) == Some(Reached(at + todo, budget))
    decreases |todo|
  {
    if todo == [] {
      assert at + todo == at;
    } else {
      assert Plain(todo[0]) && todo[..1] == [todo[0]];
      forall k | 0 < k <= |todo[1..]| ensures !IsLink(root, links, at + [todo[0]] + todo[1..][..k]) {
        assert at + [todo[0]] + todo[1..][..k] == at + todo[..k + 1];
      }
      FollowPlain(root, links, at + [todo[0]], todo[1..], budget);
      assert at + [todo[0]] + todo[1..] == at + todo;
    }
  }

  /** Where a name leads: to a path of the working directory, out of it, or nowhere. */
  datatype Place = Inside(path: string) | Outside | Nowhere

  function PlaceOf(root: seq<string>, path: seq<string>): Place {
    if root <= path && |root| < |path| then Inside(Joined(path[|root|..])) else Outside
  }

  /** What opening the joined name writes to: links are followed to the end. */
  function Destination(root: seq<string>, links: Links, name: string): Place {
    match Follow(root, links, [], Walk(root, Components(name)), MAX_LINKS)
    case None => Nowhere
    case Some(end) => PlaceOf(root, end.path)
  }

  /** What `Lstat` of the joined name looks at: links are followed except the last. */
  function Where(root: seq<string>, links: Links, name: string): Place {
    var target := Walk(root, Components(name));
    if target == [] then Outside
    else
      match Follow(root, links, [], target[..|target| - 1], MAX_LINKS)
      case None => Nowhere
      case Some(end) => PlaceOf(root, end.path + [target[|target| - 1]])
  }

  lemma NothingAbove(root: seq<string>, links: Links)
    ensures NoLinkOn(root, links, [])
  {
  }

  /** Nothing is ever written in the place of a link. */
  lemma DestinationIsNoLink(root: seq<string>, links: Links, name: string)
    ensures var to := Destination(root, links, name); to.Inside? ==> to.path !in links
  {
    var target := Walk(root, Components(name));
    NothingAbove(root, links);
    FollowEndsClear(root, links, [], target, MAX_LINKS);
    var end := Follow(root, links, [], target, MAX_LINKS);
    if end.Some? {
      assert end.value.path[..|end.value.path|] == end.value.path;
    }
  }

  /** Where a name looks at something that is not a link, it also writes there. */
  lemma WhereIsDestination(root: seq<string>, links: Links, name: string)
    requires Clean(root)
    ensures var at := Where(root, links, name);
      && (at.Inside? && at.path !in links ==> Destination(root, links, name) == at)
      && (at.Outside? ==> Destination(root, links, name) == Outside)
      && (at.Nowhere? ==> Destination(root, links, name) == Nowhere)
  {
    var target := Walk(root, Components(name));
    WalkIsClean(root, Components(name));
    if target != [] {
      var front, c := target[..|target| - 1], target[|target| - 1];
      assert target == front + [c] && Plain(c);
      FollowInTwo(root, links, [], front, [c], MAX_LINKS);
      var end := Follow(root, links, [], front, MAX_LINKS);
      if end.Some? {
        var last := end.value.path + [c];
        assert [c][1..] == [];
        assert IsLink(root, links, last) ==> PlaceOf(root, last).Inside? && PlaceOf(root, last).path in links;
      }
    }
  }

  /** No link stands in the way of a path. */
  ghost predicate Unlinked(links: Links, path: string) {
    forall k :: 0 < k < |Components(path)| ==> Joined(Components(path)[..k]) !in links
  }

  /** Git's own paths are looked at where they are. */
  lemma NormalPathsAreFound(root: seq<string>, links: Links, path: string)
    requires Clean(root) && Normal(path) && Unlinked(links, path)
    ensures Where(root, links, path) == Inside(path)
  {
    var parts := Components(path);
    WalkPlain(root, parts);
    var target := root + parts;
    var front := target[..|target| - 1];
    assert target[|target| - 1] == parts[|parts| - 1];
    FrontIsPlain(root, links, path);
    assert [] + front == front && front + [parts[|parts| - 1]] == target && target[|root|..] == parts;
    JoinUndoesSplit(path);
  }

  lemma FrontIsPlain(root: seq<string>, links: Links, path: string)
    requires Clean(root) && Normal(path) && Unlinked(links, path)
    ensures var target := root + Components(path);
      Follow(root, links, [], target[..|target| - 1], MAX_LINKS) == Some(Reached([] + target[..|target| - 1], MAX_LINKS))
  {
    var parts := Components(path);
    var front := (root + parts)[..|root| + |parts| - 1];
    forall k | 0 < k <= |front| ensures !IsLink(root, links, [] + front[..k]) {
      assert [] + front[..k] == front[..k];
      if k > |root| {
        assert front[..k][|root|..] == parts[..k - |root|];
      }
    }
    FollowPlain(root, links, [], front, MAX_LINKS);
  }

  lemma {:induction false} OneComponent(part: string)
    requires '/' !in part
    ensures Components(part) == [part]
  {
    if part != "" {
      OneComponent(part[1..]);
      assert part == [part[0]] + part[1..];
    }
  }

  lemma ClimbingFollowed(root: seq<string>, links: Links, x: string, budget: nat)
    requires root != [] && Plain(x)
    ensures Follow(root, links, root, ["..", x], budget) == Some(Reached(root[..|root| - 1] + [x], budget))
  {
    var up := root[..|root| - 1];
    assert ["..", x][1..] == [x] && [x][1..] == [];
    assert !IsLink(root, links, up + [x]);
    assert Follow(root, links, up, [x], budget) == Some(Reached(up + [x], budget));
  }

  /** A link may lead out of the directory although its own name is inside. */
  lemma LinkLeadsOut(root: seq<string>, a: string, x: string)
    requires Clean(root) && root != [] && Plain(a) && '/' !in a && Plain(x) && '/' !in x
    ensures Resolve(root, a) == Some(a) && Destination(root, map[a := "../" + x], a) == Outside
  {
    var links: Links := map[a := "../" + x];
    OneComponent(a);
    OneComponent(x);
    WalkPlain(root, [a]);
    assert (root + [a])[|root|..] == [a];
    RootIsPlain(root, links);
    FollowInTwo(root, links, [], root, [a], MAX_LINKS);
    ComponentsFirst("..", x);
    assert "../" + x == ".." + "/" + x;
    assert Components("../" + x) + [a][1..] == ["..", x];
    ClimbingFollowed(root, links, x, MAX_LINKS - 1);
  }

  lemma RootIsPlain(root: seq<string>, links: Links)
    requires Clean(root)
    ensures Follow(root, links, [], root, MAX_LINKS) == Some(Reached(root, MAX_LINKS))
  {
    forall k | 0 < k <= |root| ensures !IsLink(root, links, [] + root[..k]) {
      assert [] + root[..k] == root[..k];
    }
    FollowPlain(root, links, [], root, MAX_LINKS);
    assert [] + root == root;
  }

  /** What is found inside is inside by name: links can lead out, never in from a name outside. */
  lemma InsideIsInsideByName(root: seq<string>, links: Links, name: string)
    requires Clean(root)
    ensures Where(root, links, name).Inside? ==> Resolve(root, name).Some? && root < Walk(root, Components(name))
  {
    var target := Walk(root, Components(name));
    WalkIsClean(root, Components(name));
    if target != [] && !(root < target) {
      var front := target[..|target| - 1];
      forall k | 0 < k <= |front| ensures !IsLink(root, links, [] + front[..k]) {
        assert [] + front[..k] == target[..k];
        assert root <= target[..k] ==> root < target;
      }
      FollowPlain(root, links, [], front, MAX_LINKS);
      assert [] + front + [target[|target| - 1]] == target;
    }
  }
}
