/** The two readers of `git status --porcelain -z`: the changed files reported to the blackboard, and
    the dirty paths an evacuation archives. Characters stand for bytes. */
module Porcelain {
  import opened Orders

  const NUL: char := '\0'
  const CLAUDE_MD: string := "CLAUDE.md"
  const EDITOR_PREFIX: string := ".vscode-server/"

  predicate RenameMark(c: char) {
    c == 'R' || c == 'C'
  }

  /** One entry of the status: two columns, a path, and where a rename or copy came from. */
  datatype Record = Record(x: char, y: char, path: string, source: Option<string>)

  predicate NulFree(s: string) {
    NUL !in s
  }

  /** What git prints: a source field exactly on a rename or copy. */
  predicate Legal(r: Record) {
    && r.x != NUL && r.y != NUL && r.path != "" && NulFree(r.path)
    && (r.source.Some? <==> RenameMark(r.x) || RenameMark(r.y))
    && (r.source.Some? ==> NulFree(r.source.value))
  }

  function Head(r: Record): string {
    [r.x, r.y, ' '] + r.path
  }

  function FieldsOf(r: Record): seq<string> {
    if r.source.Some? then [Head(r), r.source.value] else [Head(r)]
  }

  function Fields(rs: seq<Record>): seq<string> {
    if rs == [] then [] else FieldsOf(rs[0]) + Fields(rs[1..])
  }

  /** Fields as printed, each closed by a NUL. */
  function Terminated(fields: seq<string>): string {
    if fields == [] then "" else fields[0] + [NUL] + Terminated(fields[1..])
  }

  function Print(rs: seq<Record>): string {
    Terminated(Fields(rs))
  }

  /** `strings.Split(s, "\x00")`. */
  function Split(s: string): (fields: seq<string>)
    ensures fields != []
  {
    if s == "" then [""]
    else if s[0] == NUL then [""] + Split(s[1..])
    else
      var rest := Split(s[1..]);
      [[s[0]] + rest[0]] + rest[1..]
  }

  /** `strings.TrimSuffix(s, "\x00")`. */
  function TrimNul(s: string): string {
    if s != "" && s[|s| - 1] == NUL then s[..|s| - 1] else s
  }

  // ---- splitting what was printed ----

  lemma {:induction false} SplitFirst(f: string, rest: string)
    requires NulFree(f)
    ensures Split(f + [NUL] + rest) == [f] + Split(rest)
  {
    if f == "" {
      assert f + [NUL] + rest == [NUL] + rest;
    } else {
      SplitFirst(f[1..], rest);
      assert (f + [NUL] + rest)[1..] == f[1..] + [NUL] + rest;
      assert f == [f[0]] + f[1..];
    }
  }

  lemma {:induction false} SplitOne(f: string)
    requires NulFree(f)
    ensures Split(f) == [f]
  {
    if f != "" {
      SplitOne(f[1..]);
      assert f == [f[0]] + f[1..];
    }
  }

  lemma {:induction false} SplitTerminated(fields: seq<string>)
    requires forall i :: 0 <= i < |fields| ==> NulFree(fields[i])
    ensures Split(Terminated(fields)) == fields + [""]
  {
    if fields != [] {
      SplitTerminated(fields[1..]);
      SplitFirst(fields[0], Terminated(fields[1..]));
    }
  }

  lemma {:induction false} SplitTrimmed(fields: seq<string>)
    requires fields != [] && forall i :: 0 <= i < |fields| ==> NulFree(fields[i])
    ensures TrimNul(Terminated(fields)) != Terminated(fields) && Split(TrimNul(Terminated(fields))) == fields
  {
    var s, rest := Terminated(fields), Terminated(fields[1..]);
    if |fields| == 1 {
      assert s == fields[0] + [NUL] && TrimNul(s) == fields[0];
      SplitOne(fields[0]);
    } else {
      SplitTrimmed(fields[1..]);
      assert TrimNul(s) == fields[0] + [NUL] + TrimNul(rest);
      SplitFirst(fields[0], TrimNul(rest));
    }
  }

  lemma {:induction false} FieldsAreNulFree(rs: seq<Record>)
    requires forall i :: 0 <= i < |rs| ==> Legal(rs[i])
    ensures forall i :: 0 <= i < |Fields(rs)| ==> NulFree(Fields(rs)[i])
  {
    if rs != [] {
      assert Legal(rs[0]);
      FieldsAreNulFree(rs[1..]);
    }
  }

  // ---- the two readers, field by field ----

  predicate StatusRenames(rec: string) {
    |rec| >= 2 && (RenameMark(rec[0]) || RenameMark(rec[1]))
  }

  predicate FirstRenames(rec: string) {
    |rec| >= 1 && RenameMark(rec[0])
  }

  predicate HasPrefix(s: string, prefix: string) {
    prefix <= s
  }

  /** What is left after a record, and after the source field it is followed by. */
  function After(fields: seq<string>, skip: bool): (rest: seq<string>)
    requires fields != []
    ensures |rest| < |fields|
  {
    if skip && |fields| >= 2 then fields[2..] else fields[1..]
  }

  function ChangedOf(fields: seq<string>): seq<string>
    decreases |fields|
  {
    if fields == [] then []
    else if |fields[0]| < 4 then ChangedOf(fields[1..])
    else
      (if fields[0][3..] == CLAUDE_MD then [] else [fields[0][3..]]) + ChangedOf(After(fields, StatusRenames(fields[0])))
  }

  function DirtyOf(fields: seq<string>): seq<string>
    decreases |fields|
  {
    if fields == [] then []
    else if |fields[0]| < 4 then DirtyOf(fields[1..])
    else
      (if HasPrefix(fields[0][3..], EDITOR_PREFIX) then [] else [fields[0][3..]]) + DirtyOf(After(fields, FirstRenames(fields[0])))
  }

  /** What a loop at index `i` has still to read; a skip may have carried it past the end. */
  function Rest(fields: seq<string>, i: nat): seq<string> {
    if i < |fields| then fields[i..] else []
  }

  lemma RestAfter(fields: seq<string>, i: nat, skip: bool)
    requires i < |fields|
    ensures After(Rest(fields, i), skip) == Rest(fields, if skip then i + 2 else i + 1)
    ensures Rest(fields, i)[1..] == Rest(fields, i + 1)
  {
  }

  /** `parseChangedFiles`. */
  method ParseChangedFiles(out: string) returns (files: seq<string>)
    ensures files == SortBy(ChangedOf(Split(TrimNul(out))), AtMost)
  {
    var records := Split(TrimNul(out));
    files := [];
    var i := 0;
    while i < |records|
      invariant 0 <= i && files + ChangedOf(Rest(records, i)) == ChangedOf(records)
    {
      var rec := records[i];
      RestAfter(records, i, StatusRenames(rec));
      if |rec| < 4 {
        i := i + 1;
        continue;
      }
      var path := rec[3..];
      if RenameMark(rec[0]) || RenameMark(rec[1]) {
        i := i + 1;
      }
      i := i + 1;
      if path == CLAUDE_MD {
        continue;
      }
      Reassociate(files, [path], ChangedOf(Rest(records, i)));
      files := files + [path];
    }
    assert files + [] == files;
    files := SortBy(files, AtMost);
  }

  /** `dirtyPaths`. */
  method DirtyPaths(out: string) returns (paths: seq<string>)
    ensures paths == DirtyOf(Split(out))
  {
    var fields := Split(out);
    paths := [];
    var i := 0;
    while i < |fields|
      invariant 0 <= i && paths + DirtyOf(Rest(fields, i)) == DirtyOf(fields)
    {
      var rec := fields[i];
      RestAfter(fields, i, FirstRenames(rec));
      if |rec| < 4 {
        i := i + 1;
        continue;
      }
      if RenameMark(rec[0]) {
        i := i + 1;
      }
      var name := rec[3..];
      i := i + 1;
      if HasPrefix(name, EDITOR_PREFIX) {
        continue;
      }
      Reassociate(paths, [name], DirtyOf(Rest(fields, i)));
      paths := paths + [name];
    }
  }

  // ---- the round trips ----

  function ChangedPaths(rs: seq<Record>): seq<string> {
    if rs == [] then [] else (if rs[0].path == CLAUDE_MD then [] else [rs[0].path]) + ChangedPaths(rs[1..])
  }

  function Kept(path: string): seq<string> {
    if HasPrefix(path, EDITOR_PREFIX) then [] else [path]
  }

  function KeptPaths(rs: seq<Record>): seq<string> {
    if rs == [] then [] else Kept(rs[0].path) + KeptPaths(rs[1..])
  }

  lemma HeadParts(r: Record)
    requires Legal(r)
    ensures |Head(r)| >= 4 && Head(r)[3..] == r.path && Head(r)[0] == r.x && Head(r)[1] == r.y
    ensures StatusRenames(Head(r)) <==> r.source.Some?
    ensures FirstRenames(Head(r)) <==> RenameMark(r.x)
  {
  }

  lemma NextFields(r: Record, rest: seq<string>)
    ensures After(FieldsOf(r) + rest, r.source.Some?) == rest
    ensures (FieldsOf(r) + rest)[0] == Head(r)
  {
  }

  lemma {:induction false} ChangedOfFields(rs: seq<Record>)
    requires forall i :: 0 <= i < |rs| ==> Legal(rs[i])
    ensures ChangedOf(Fields(rs)) == ChangedPaths(rs)
  {
    if rs != [] {
      HeadParts(rs[0]);
      NextFields(rs[0], Fields(rs[1..]));
      ChangedOfFields(rs[1..]);
    }
  }

  lemma SplitOfPrinted(rs: seq<Record>)
    requires forall i :: 0 <= i < |rs| ==> Legal(rs[i])
    ensures Split(Print(rs)) == Fields(rs) + [""]
    ensures rs != [] ==> Split(TrimNul(Print(rs))) == Fields(rs)
  {
    FieldsAreNulFree(rs);
    SplitTerminated(Fields(rs));
    if rs != [] {
      assert |FieldsOf(rs[0])| > 0;
      SplitTrimmed(Fields(rs));
    }
  }

  lemma NothingToReport()
    ensures ChangedOf(Split(TrimNul(Print([])))) == []
  {
    assert ChangedOf([""]) == ChangedOf([]);
  }

  /** Printing any status and reading it back gives the sorted paths, without the platform's own
      file. */
  lemma ChangedFilesRoundTrip(rs: seq<Record>)
    requires forall i :: 0 <= i < |rs| ==> Legal(rs[i])
    ensures ChangedOf(Split(TrimNul(Print(rs)))) == ChangedPaths(rs)
  {
    if rs == [] {
      NothingToReport();
    } else {
      var fields := Split(TrimNul(Print(rs)));
      SplitOfPrinted(rs);
      ChangedOfFields(rs);
      assert fields == Fields(rs);
    }
  }

  // ---- the evacuation's reader ----

  /** The reader before it leaves the editor's files out. */
  function RawOf(fields: seq<string>): seq<string>
    decreases |fields|
  {
    if fields == [] then []
    else if |fields[0]| < 4 then RawOf(fields[1..])
    else [fields[0][3..]] + RawOf(After(fields, FirstRenames(fields[0])))
  }

  function Filtered(paths: seq<string>): seq<string> {
    if paths == [] then [] else Kept(paths[0]) + Filtered(paths[1..])
  }

  lemma {:induction false} DirtyIsFiltered(fields: seq<string>)
    ensures DirtyOf(fields) == Filtered(RawOf(fields))
    decreases |fields|
  {
    if fields != [] {
      if |fields[0]| < 4 {
        DirtyIsFiltered(fields[1..]);
      } else {
        var rest := After(fields, FirstRenames(fields[0]));
        DirtyIsFiltered(rest);
        assert ([fields[0][3..]] + RawOf(rest))[1..] == RawOf(rest);
      }
    }
  }

  /** A source of four bytes or more looks like a record. */
  predicate LooksLikeRecord(r: Record) {
    r.source.Some? && |r.source.value| >= 4
  }

  /** The source is read, not skipped: the head was itself skipped, or has no mark in its first
      column. */
  predicate SourceIsRead(r: Record, skipped: bool) {
    r.source.Some? && (skipped || !RenameMark(r.x))
  }

  /** What is read of the source, and whether it makes the reader skip the head that follows. */
  function Stray(r: Record, skipped: bool): seq<string> {
    if SourceIsRead(r, skipped) && LooksLikeRecord(r) then [r.source.value[3..]] else []
  }

  predicate Swallows(r: Record, skipped: bool) {
    SourceIsRead(r, skipped) && LooksLikeRecord(r) && RenameMark(r.source.value[0])
  }

  /** What is read of a status, in terms of its records. */
  function ReadBack(rs: seq<Record>, skipped: bool): seq<string> {
    if rs == [] then []
    else (if skipped then [] else [rs[0].path]) + (Stray(rs[0], skipped) + ReadBack(rs[1..], Swallows(rs[0], skipped)))
  }

  function Paths(rs: seq<Record>): seq<string> {
    if rs == [] then [] else [rs[0].path] + Paths(rs[1..])
  }

  ghost predicate AllLegal(rs: seq<Record>) {
    forall i :: 0 <= i < |rs| ==> Legal(rs[i])
  }

  lemma RawOfShort(fields: seq<string>)
    requires fields != [] && |fields[0]| < 4
    ensures RawOf(fields) == RawOf(fields[1..])
  {
  }

  lemma RawOfLong(f: string, rest: seq<string>)
    requires |f| >= 4 && rest != []
    ensures RawOf([f] + rest) == [f[3..]] + RawOf(if FirstRenames(f) then rest[1..] else rest)
  {
    assert ([f] + rest)[1..] == rest && ([f] + rest)[2..] == rest[1..];
  }

  /** Reading goes on behind a record that was read. */
  lemma ReadRecord(r: Record, rest: seq<string>)
    requires Legal(r) && rest != []
    ensures RawOf(FieldsOf(r) + rest) == [r.path] + (Stray(r, false) + RawOf(if Swallows(r, false) then rest[1..] else rest))
  {
    HeadParts(r);
    if r.source.None? {
      assert FieldsOf(r) + rest == [Head(r)] + rest;
      RawOfLong(Head(r), rest);
      assert Stray(r, false) + RawOf(rest) == RawOf(rest);
    } else {
      ReadRename(r, rest);
    }
  }

  lemma ReadRename(r: Record, rest: seq<string>)
    requires Legal(r) && rest != [] && r.source.Some?
    ensures RawOf(FieldsOf(r) + rest) == [r.path] + (Stray(r, false) + RawOf(if Swallows(r, false) then rest[1..] else rest))
  {
    HeadParts(r);
    var behind := [r.source.value] + rest;
    assert FieldsOf(r) + rest == [Head(r)] + behind;
    RawOfLong(Head(r), behind);
    assert behind[1..] == rest;
    if RenameMark(r.x) {
      assert Stray(r, false) + RawOf(rest) == RawOf(rest);
    } else {
      ReadSource(r, rest, false);
    }
  }

  lemma ReadSource(r: Record, rest: seq<string>, skipped: bool)
    requires r.source.Some? && rest != [] && SourceIsRead(r, skipped)
    ensures RawOf([r.source.value] + rest) == Stray(r, skipped) + RawOf(if Swallows(r, skipped) then rest[1..] else rest)
  {
    var source := r.source.value;
    if LooksLikeRecord(r) {
      RawOfLong(source, rest);
    } else {
      RawOfShort([source] + rest);
      assert ([source] + rest)[1..] == rest;
    }
  }

  /** Reading goes on behind a record whose head was skipped. */
  lemma ReadSkipped(r: Record, rest: seq<string>)
    requires rest != []
    ensures RawOf((FieldsOf(r) + rest)[1..]) == Stray(r, true) + RawOf(if Swallows(r, true) then rest[1..] else rest)
  {
    if r.source.None? {
      assert (FieldsOf(r) + rest)[1..] == rest;
    } else {
      assert (FieldsOf(r) + rest)[1..] == [r.source.value] + rest;
      ReadSource(r, rest, true);
    }
  }

  lemma {:induction false} RawOfFields(rs: seq<Record>, skipped: bool)
    requires AllLegal(rs)
    ensures var fields := Fields(rs) + [""];
      RawOf(if skipped then fields[1..] else fields) == ReadBack(rs, skipped)
  {
    var fields := Fields(rs) + [""];
    if rs == [] {
      assert fields == [""] && [""][1..] == [];
    } else {
      var rest := Fields(rs[1..]) + [""];
      assert Legal(rs[0]);
      assert fields == FieldsOf(rs[0]) + rest;
      RawOfFields(rs[1..], Swallows(rs[0], skipped));
      if skipped {
        ReadSkipped(rs[0], rest);
      } else {
        ReadRecord(rs[0], rest);
      }
    }
  }

  /** What the reader makes of any printed status, swallowed records included. */
  lemma ReadOfPrinted(rs: seq<Record>)
    requires AllLegal(rs)
    ensures RawOf(Split(Print(rs))) == ReadBack(rs, false)
    ensures DirtyOf(Split(Print(rs))) == Filtered(ReadBack(rs, false))
  {
    var fields := Split(Print(rs));
    SplitOfPrinted(rs);
    RawOfFields(rs, false);
    assert fields == Fields(rs) + [""];
    DirtyIsFiltered(fields);
  }

  // ---- when it reads what was written ----

  /** Every source that is read as a record swallows the record after it, whose path is the very tail
      that was read. */
  predicate Balanced(rs: seq<Record>, skipped: bool) {
    rs == [] ||
    (&& (Stray(rs[0], skipped) != [] ==> Swallows(rs[0], skipped) && |rs| >= 2 && Stray(rs[0], skipped) == [rs[1].path])
     && Balanced(rs[1..], Swallows(rs[0], skipped)))
  }

  lemma {:induction false} ReadBackLength(rs: seq<Record>, skipped: bool)
    ensures |ReadBack(rs, skipped)| >= if skipped && rs != [] then |rs| - 1 else |rs|
    ensures |Paths(rs)| == |rs|
  {
    if rs != [] {
      ReadBackLength(rs[1..], Swallows(rs[0], skipped));
    }
  }

  /** What should be read from here on. */
  function Due(rs: seq<Record>, skipped: bool): seq<string> {
    if skipped && rs != [] then Paths(rs[1..]) else Paths(rs)
  }

  /** Behind a head, reading is right exactly when the source is balanced by the next record. */
  lemma SourceDecides(r: Record, rest: seq<Record>, skipped: bool)
    ensures var s := Swallows(r, skipped);
      Stray(r, skipped) + ReadBack(rest, s) == Paths(rest) <==>
      (Stray(r, skipped) != [] ==> s && rest != [] && Stray(r, skipped) == [rest[0].path]) && ReadBack(rest, s) == Due(rest, s)
  {
    var s, stray := Swallows(r, skipped), Stray(r, skipped);
    ReadBackLength(rest, s);
    if stray == [] {
      assert stray + ReadBack(rest, s) == ReadBack(rest, s);
    } else {
      var read := stray + ReadBack(rest, s);
      assert read[0] == stray[0] && read[1..] == ReadBack(rest, s);
      if rest != [] {
        assert Paths(rest)[1..] == Paths(rest[1..]);
        assert Paths(rest) == [rest[0].path] + Paths(rest[1..]);
        assert read == [stray[0]] + ReadBack(rest, s);
      }
    }
  }

  lemma {:induction false} BalancedIff(rs: seq<Record>, skipped: bool)
    ensures ReadBack(rs, skipped) == Due(rs, skipped) <==> Balanced(rs, skipped)
  {
    if rs != [] {
      var s, rest := Swallows(rs[0], skipped), rs[1..];
      BalancedIff(rest, s);
      SourceDecides(rs[0], rest, skipped);
      var behind := Stray(rs[0], skipped) + ReadBack(rest, s);
      if skipped {
        assert ReadBack(rs, skipped) == behind;
      } else {
        assert ReadBack(rs, skipped)[1..] == behind && Paths(rs)[1..] == Paths(rest);
        assert [rs[0].path] + behind == [rs[0].path] + Paths(rest) <==> behind == Paths(rest);
      }
    }
  }

  /** Nothing that may be read is under the editor's directory. */
  ghost predicate NothingOfTheEditor(rs: seq<Record>) {
    forall i :: 0 <= i < |rs| ==>
      !HasPrefix(rs[i].path, EDITOR_PREFIX) && (LooksLikeRecord(rs[i]) ==> !HasPrefix(rs[i].source.value[3..], EDITOR_PREFIX))
  }

  lemma {:induction false} KeptIsFiltered(rs: seq<Record>)
    ensures KeptPaths(rs) == Filtered(Paths(rs))
  {
    if rs != [] {
      KeptIsFiltered(rs[1..]);
      assert ([rs[0].path] + Paths(rs[1..]))[1..] == Paths(rs[1..]);
    }
  }

  lemma {:induction false} NothingFiltered(paths: seq<string>)
    requires forall i :: 0 <= i < |paths| ==> !HasPrefix(paths[i], EDITOR_PREFIX)
    ensures Filtered(paths) == paths
  {
    if paths != [] {
      NothingFiltered(paths[1..]);
      assert paths == [paths[0]] + paths[1..];
    }
  }

  /** Reading back any printed status gives its paths in order, before the editor's files are left
      out, exactly when it is balanced; then the dirty paths are the paths outside the editor's
      directory. Where nothing is under that directory, balance is exact for the dirty paths too. */
  lemma DirtyPathsRoundTrip(rs: seq<Record>)
    requires AllLegal(rs)
    ensures RawOf(Split(Print(rs))) == Paths(rs) <==> Balanced(rs, false)
    ensures Balanced(rs, false) ==> DirtyOf(Split(Print(rs))) == KeptPaths(rs)
    ensures NothingOfTheEditor(rs) ==> (DirtyOf(Split(Print(rs))) == KeptPaths(rs) <==> Balanced(rs, false))
  {
    ReadOfPrinted(rs);
    BalancedIff(rs, false);
    KeptIsFiltered(rs);
    if NothingOfTheEditor(rs) {
      ReadOutsideEditor(rs, false);
      NothingFiltered(ReadBack(rs, false));
      PathsOutsideEditor(rs);
      NothingFiltered(Paths(rs));
    }
  }

  lemma {:induction false} ReadOutsideEditor(rs: seq<Record>, skipped: bool)
    requires NothingOfTheEditor(rs)
    ensures forall i :: 0 <= i < |ReadBack(rs, skipped)| ==> !HasPrefix(ReadBack(rs, skipped)[i], EDITOR_PREFIX)
  {
    if rs != [] {
      ReadOutsideEditor(rs[1..], Swallows(rs[0], skipped));
    }
  }

  lemma {:induction false} PathsOutsideEditor(rs: seq<Record>)
    requires NothingOfTheEditor(rs)
    ensures forall i :: 0 <= i < |Paths(rs)| ==> !HasPrefix(Paths(rs)[i], EDITOR_PREFIX)
  {
    if rs != [] {
      PathsOutsideEditor(rs[1..]);
    }
  }

  /** In particular whenever the rename marks are in the first column. */
  lemma FirstColumnRoundTrip(rs: seq<Record>)
    requires AllLegal(rs) && forall i :: 0 <= i < |rs| && RenameMark(rs[i].y) ==> RenameMark(rs[i].x)
    ensures DirtyOf(Split(Print(rs))) == KeptPaths(rs)
  {
    FirstColumnIsBalanced(rs);
    DirtyPathsRoundTrip(rs);
  }

  lemma {:induction false} FirstColumnIsBalanced(rs: seq<Record>)
    requires AllLegal(rs) && forall i :: 0 <= i < |rs| && RenameMark(rs[i].y) ==> RenameMark(rs[i].x)
    ensures Balanced(rs, false)
  {
    if rs != [] {
      assert Legal(rs[0]);
      FirstColumnIsBalanced(rs[1..]);
    }
  }

  /** Not so for a rename in the second column: the tail of the old name is taken for a path, and an
      old name that begins like a rename, as README.md does, swallows the record after it. */
  lemma SecondColumnRename(path: string, source: string, next: Record)
    requires path != "" && NulFree(path) && NulFree(source) && |source| >= 4 && Legal(next) && next.source.None?
    ensures var r := Record(' ', 'R', path, Some(source));
      && Legal(r)
      && RawOf(Split(Print([r, next]))) == [path, source[3..]] + if RenameMark(source[0]) then [] else [next.path]
  {
    var r := Record(' ', 'R', path, Some(source));
    ReadOfPrinted([r, next]);
    assert [r, next][1..] == [next] && [next][1..] == [];
    assert ReadBack([next], true) == [] && ReadBack([next], false) == [next.path];
    assert Stray(r, false) == [source[3..]];
  }

  // ---- which paths are read ----

  /** Whether the head of record `i` is skipped. */
  predicate SkippedAt(rs: seq<Record>, i: nat)
    requires i < |rs|
  {
    i > 0 && Swallows(rs[i - 1], SkippedAt(rs, i - 1))
  }

  /** A path is read as the path of a record that is not skipped, or as the tail of a source. */
  ghost predicate ReadAt(rs: seq<Record>, i: nat, p: string)
    requires i < |rs|
  {
    (rs[i].path == p && !SkippedAt(rs, i)) || Stray(rs[i], SkippedAt(rs, i)) == [p]
  }

  lemma {:induction false} ReadFrom(rs: seq<Record>, i: nat, p: string)
    requires i < |rs|
    ensures p in ReadBack(rs[i..], SkippedAt(rs, i)) <==> exists j :: i <= j < |rs| && ReadAt(rs, j, p)
    decreases |rs| - i
  {
    var here, skipped := rs[i..], SkippedAt(rs, i);
    assert here[1..] == rs[i + 1..] && here[0] == rs[i];
    var behind := ReadBack(rs[i + 1..], Swallows(rs[i], skipped));
    assert ReadBack(here, skipped) == (if skipped then [] else [rs[i].path]) + (Stray(rs[i], skipped) + behind);
    assert p in ReadBack(here, skipped) <==> ReadAt(rs, i, p) || p in behind;
    if i + 1 < |rs| {
      ReadFrom(rs, i + 1, p);
      assert SkippedAt(rs, i + 1) == Swallows(rs[i], skipped);
      assert p in behind <==> exists j :: i + 1 <= j < |rs| && ReadAt(rs, j, p);
    }
  }

  lemma {:induction false} FilteredMembers(paths: seq<string>, p: string)
    ensures p in Filtered(paths) <==> p in paths && !HasPrefix(p, EDITOR_PREFIX)
  {
    if paths != [] {
      FilteredMembers(paths[1..], p);
    }
  }

  /** A path is among the dirty paths of a printed status exactly when it is outside the editor's
      directory and read at some record; so a path is lost when all its records are skipped. */
  lemma DirtyPathsMembers(rs: seq<Record>, p: string)
    requires AllLegal(rs)
    ensures p in DirtyOf(Split(Print(rs))) <==> !HasPrefix(p, EDITOR_PREFIX) && exists i :: 0 <= i < |rs| && ReadAt(rs, i, p)
  {
    ReadOfPrinted(rs);
    FilteredMembers(ReadBack(rs, false), p);
    if rs != [] {
      ReadFrom(rs, 0, p);
      assert rs[0..] == rs;
    }
  }

  /** A path is to be kept exactly when some record has it and it is outside the editor's directory. */
  lemma {:induction false} KeptMembers(rs: seq<Record>, p: string)
    ensures p in KeptPaths(rs) <==> !HasPrefix(p, EDITOR_PREFIX) && exists i :: 0 <= i < |rs| && rs[i].path == p
  {
    if rs != [] {
      KeptMembers(rs[1..], p);
      assert forall i :: 0 <= i < |rs| - 1 ==> rs[1..][i] == rs[i + 1];
      if i :| 0 <= i < |rs| && rs[i].path == p {
        assert i == 0 || rs[1..][i - 1].path == p;
      }
    }
  }

  /** No path that is to be kept is lost: each is read at some record. */
  ghost predicate NothingLost(rs: seq<Record>) {
    forall i :: 0 <= i < |rs| && !HasPrefix(rs[i].path, EDITOR_PREFIX) ==> exists j :: 0 <= j < |rs| && ReadAt(rs, j, rs[i].path)
  }

  /** No name is made up: the tail of a source that is read as a record is the editor's or the path of
      some record. */
  ghost predicate NothingMadeUp(rs: seq<Record>) {
    forall i, p :: 0 <= i < |rs| && Stray(rs[i], SkippedAt(rs, i)) == [p] && !HasPrefix(p, EDITOR_PREFIX) ==>
      exists j :: 0 <= j < |rs| && rs[j].path == p
  }

  /** For every legal status, the editor's files included: exactly the paths to be kept are read, up
      to order and repetition, when none is lost and none made up. */
  lemma DirtyPathsExactly(rs: seq<Record>)
    requires AllLegal(rs)
    ensures (forall p :: p in DirtyOf(Split(Print(rs))) <==> p in KeptPaths(rs)) <==> NothingLost(rs) && NothingMadeUp(rs)
  {
    var dirty := DirtyOf(Split(Print(rs)));
    forall p ensures (p in dirty <==> !HasPrefix(p, EDITOR_PREFIX) && exists i :: 0 <= i < |rs| && ReadAt(rs, i, p))
      ensures p in KeptPaths(rs) <==> !HasPrefix(p, EDITOR_PREFIX) && exists i :: 0 <= i < |rs| && rs[i].path == p
    {
      DirtyPathsMembers(rs, p);
      KeptMembers(rs, p);
    }
    if forall p :: p in dirty <==> p in KeptPaths(rs) {
      forall i | 0 <= i < |rs| && !HasPrefix(rs[i].path, EDITOR_PREFIX) ensures exists j :: 0 <= j < |rs| && ReadAt(rs, j, rs[i].path) {
        assert rs[i].path in KeptPaths(rs);
      }
      forall i, p | 0 <= i < |rs| && Stray(rs[i], SkippedAt(rs, i)) == [p] && !HasPrefix(p, EDITOR_PREFIX)
        ensures exists j :: 0 <= j < |rs| && rs[j].path == p
      {
        assert ReadAt(rs, i, p);
        assert p in dirty;
      }
    }
    if NothingLost(rs) && NothingMadeUp(rs) {
      forall p ensures p in dirty <==> p in KeptPaths(rs) {
        if p in dirty {
          var i :| 0 <= i < |rs| && ReadAt(rs, i, p);
        }
        if p in KeptPaths(rs) {
          var i :| 0 <= i < |rs| && rs[i].path == p;
        }
      }
    }
  }

  // ---- whether anything is read ----

  /** At this record a path outside the editor's directory is read. */
  predicate ReadsOutside(rs: seq<Record>, i: nat)
    requires i < |rs|
  {
    || (!SkippedAt(rs, i) && !HasPrefix(rs[i].path, EDITOR_PREFIX))
    || (Stray(rs[i], SkippedAt(rs, i)) != [] && !HasPrefix(Stray(rs[i], SkippedAt(rs, i))[0], EDITOR_PREFIX))
  }

  lemma {:induction false} NotSkipped(rs: seq<Record>, i: nat)
    requires AllLegal(rs) && i < |rs| && forall j :: 0 <= j < |rs| && RenameMark(rs[j].y) ==> RenameMark(rs[j].x)
    ensures !SkippedAt(rs, i)
  {
    if i > 0 {
      NotSkipped(rs, i - 1);
      assert Legal(rs[i - 1]);
    }
  }

  /** Something is dirty exactly when some record reads a path outside the editor's directory; with the
      rename marks in the first column, exactly when some record has such a path. */
  lemma SomethingDirtyIff(rs: seq<Record>)
    requires AllLegal(rs)
    ensures DirtyOf(Split(Print(rs))) != [] <==> exists i :: 0 <= i < |rs| && ReadsOutside(rs, i)
    ensures (forall j :: 0 <= j < |rs| && RenameMark(rs[j].y) ==> RenameMark(rs[j].x)) ==>
              (DirtyOf(Split(Print(rs))) != [] <==> exists i :: 0 <= i < |rs| && !HasPrefix(rs[i].path, EDITOR_PREFIX))
  {
    var dirty := DirtyOf(Split(Print(rs)));
    if dirty != [] {
      DirtyPathsMembers(rs, dirty[0]);
      assert dirty[0] in dirty;
      var i :| 0 <= i < |rs| && ReadAt(rs, i, dirty[0]);
      assert ReadsOutside(rs, i);
    }
    if i :| 0 <= i < |rs| && ReadsOutside(rs, i) {
      var p := if !SkippedAt(rs, i) && !HasPrefix(rs[i].path, EDITOR_PREFIX) then rs[i].path else Stray(rs[i], SkippedAt(rs, i))[0];
      DirtyPathsMembers(rs, p);
      assert ReadAt(rs, i, p);
    }
    if forall j :: 0 <= j < |rs| && RenameMark(rs[j].y) ==> RenameMark(rs[j].x) {
      forall i | 0 <= i < |rs| ensures ReadsOutside(rs, i) <==> !HasPrefix(rs[i].path, EDITOR_PREFIX) {
        NotSkipped(rs, i);
        assert Legal(rs[i]);
      }
    }
  }

  /** For instance: behind a rename within the editor's directory that is marked in the second column,
      a change is swallowed, and nothing seems dirty. */
  lemma ChangeIsOverlooked(a: string, b: string, f: string)
    requires NulFree(EDITOR_PREFIX + a) && NulFree(EDITOR_PREFIX + b) && NulFree(f) && f != "" && !HasPrefix(f, EDITOR_PREFIX)
    ensures var rs := [Record(' ', 'R', EDITOR_PREFIX + a, Some("Rx/" + EDITOR_PREFIX + b)), Record(' ', 'M', f, None)];
      AllLegal(rs) && DirtyOf(Split(Print(rs))) == []
  {
    var rs := [Record(' ', 'R', EDITOR_PREFIX + a, Some("Rx/" + EDITOR_PREFIX + b)), Record(' ', 'M', f, None)];
    var source := rs[0].source.value;
    assert source[3..] == EDITOR_PREFIX + b && NulFree(source);
    assert (EDITOR_PREFIX + a)[..|EDITOR_PREFIX|] == EDITOR_PREFIX && (EDITOR_PREFIX + b)[..|EDITOR_PREFIX|] == EDITOR_PREFIX;
    assert Stray(rs[0], false) == [source[3..]] && Swallows(rs[0], false);
    assert !SkippedAt(rs, 0) && SkippedAt(rs, 1) && Stray(rs[1], true) == [];
    assert forall i :: 0 <= i < |rs| ==> !ReadsOutside(rs, i);
    SomethingDirtyIff(rs);
  }
}
