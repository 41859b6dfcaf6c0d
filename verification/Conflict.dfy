/** Warning a branch that another active branch is changing the same files. */
module Conflict {
  import opened Orders

  datatype Entry = Entry(branch: string, active: bool, changedFiles: seq<string>)

  /** One contested file and the branches changing it. */
  datatype Part = Part(file: string, branches: seq<string>)

  // ---- what a report has to say ----

  /** `f` is changed by `own` and by an entry of another branch. */
  predicate Contested(entries: seq<Entry>, own: Entry, f: string) {
    f in own.changedFiles && exists e :: e in entries && e.branch != own.branch && f in e.changedFiles
  }

  /** Entries of branch `x` other than `own`'s that change `f`. */
  function Elsewhere(own: Entry, f: string, x: string): Entry -> bool {
    (e: Entry) => e.branch == x && e.branch != own.branch && f in e.changedFiles
  }

  ghost predicate Increasing(s: seq<Part>) {
    forall i, j :: 0 <= i < j < |s| ==> Before(s[i].file, s[j].file)
  }

  ghost predicate Names(report: seq<Part>, f: string) {
    exists i :: 0 <= i < |report| && report[i].file == f
  }

  /** How often a branch is named for a contested file: once per entry, and once for `own`. */
  function BranchCount(entries: seq<Entry>, own: Entry, f: string, x: string): nat {
    Count(entries, Elsewhere(own, f, x)) + if x == own.branch then 1 else 0
  }

  /** The report names exactly the contested files, in order, each with the branches changing it in
      order. */
  ghost predicate IsReport(entries: seq<Entry>, own: Entry, report: seq<Part>) {
    && Increasing(report)
    && (forall f :: Names(report, f) <==> Contested(entries, own, f))
    && (forall i :: 0 <= i < |report| ==>
          && Sorted(report[i].branches, AtMost)
          && forall x :: multiset(report[i].branches)[x] == BranchCount(entries, own, report[i].file, x))
  }

  // ---- a report is determined by what the entries say ----

  lemma {:induction false} SameFiles(a: seq<Part>, b: seq<Part>)
    requires Increasing(a) && Increasing(b) && forall f :: Names(a, f) <==> Names(b, f)
    ensures |a| == |b| && forall i :: 0 <= i < |a| ==> a[i].file == b[i].file
  {
    if a == [] {
      if b != [] {
        assert Names(b, b[0].file);
      }
    } else {
      assert Names(a, a[0].file);
      LeastFile(a, b);
      forall f ensures Names(a[1..], f) <==> Names(b[1..], f) {
        NamesTail(a, f);
        NamesTail(b, f);
      }
      SameFiles(a[1..], b[1..]);
      assert forall i :: 1 <= i < |a| ==> a[i] == a[1..][i - 1];
      assert forall i :: 1 <= i < |b| ==> b[i] == b[1..][i - 1];
    }
  }

  lemma LeastFile(a: seq<Part>, b: seq<Part>)
    requires a != [] && b != [] && Increasing(a) && Increasing(b) && forall f :: Names(a, f) <==> Names(b, f)
    ensures a[0].file == b[0].file
  {
    assert Names(a, a[0].file) && Names(b, b[0].file);
    var i :| 0 <= i < |b| && b[i].file == a[0].file;
    var j :| 0 <= j < |a| && a[j].file == b[0].file;
    if i > 0 && j > 0 {
      BeforeTransitive(a[0].file, b[0].file, a[0].file);
      BeforeIrreflexive(a[0].file);
    }
  }

  lemma NamesTail(a: seq<Part>, f: string)
    requires a != [] && Increasing(a)
    ensures Names(a[1..], f) <==> Names(a, f) && f != a[0].file
  {
    BeforeIrreflexive(a[0].file);
    if Names(a[1..], f) {
      var i :| 0 <= i < |a[1..]| && a[1..][i].file == f;
      assert a[i + 1].file == f;
    }
    if Names(a, f) && f != a[0].file {
      var i :| 0 <= i < |a| && a[i].file == f;
      assert a[1..][i - 1].file == f;
    }
  }

  lemma ReportIsUnique(entries: seq<Entry>, own: Entry, a: seq<Part>, b: seq<Part>)
    requires IsReport(entries, own, a) && IsReport(entries, own, b)
    ensures a == b
  {
    forall f ensures Names(a, f) <==> Names(b, f) {
      assert Names(a, f) <==> Contested(entries, own, f);
    }
    SameFiles(a, b);
    StringOrder();
    forall i | 0 <= i < |a| ensures a[i] == b[i] {
      assert forall x :: multiset(a[i].branches)[x] == BranchCount(entries, own, a[i].file, x);
      assert forall x :: multiset(b[i].branches)[x] == BranchCount(entries, own, b[i].file, x);
      assert multiset(a[i].branches) == multiset(b[i].branches);
      SortedUnique(a[i].branches, b[i].branches, AtMost);
    }
  }

  /** What counts about an entry: its branch and which files it changes, not in what order or how
      often they are listed. */
  function Essence(e: Entry): (string, set<string>) {
    (e.branch, set f | f in e.changedFiles)
  }

  function Essences(entries: seq<Entry>): (r: seq<(string, set<string>)>)
    ensures |r| == |entries| && forall i :: 0 <= i < |r| ==> r[i] == Essence(entries[i])
  {
    seq(|entries|, i requires 0 <= i < |entries| => Essence(entries[i]))
  }

  function EssenceElsewhere(branch: string, f: string, x: string): ((string, set<string>)) -> bool {
    (e: (string, set<string>)) => e.0 == x && e.0 != branch && f in e.1
  }

  lemma CountEssences(entries: seq<Entry>, own: Entry, f: string, x: string)
    ensures Count(entries, Elsewhere(own, f, x)) == Count(Essences(entries), EssenceElsewhere(own.branch, f, x))
  {
    forall i | 0 <= i < |entries| ensures Elsewhere(own, f, x)(entries[i]) == EssenceElsewhere(own.branch, f, x)(Essences(entries)[i]) {
      assert f in entries[i].changedFiles <==> f in Essence(entries[i]).1;
    }
    CountSame(entries, Essences(entries), Elsewhere(own, f, x), EssenceElsewhere(own.branch, f, x));
  }

  lemma CountIsEssential(a: seq<Entry>, b: seq<Entry>, own: Entry, own': Entry, f: string, x: string)
    requires multiset(Essences(a)) == multiset(Essences(b)) && own.branch == own'.branch
    ensures Count(a, Elsewhere(own, f, x)) == Count(b, Elsewhere(own', f, x))
  {
    CountEssences(a, own, f, x);
    CountEssences(b, own', f, x);
    CountPermutes(Essences(a), Essences(b), EssenceElsewhere(own.branch, f, x));
  }

  /** A file is contested if some branch is counted for it. */
  lemma CountMeansContested(entries: seq<Entry>, own: Entry, f: string)
    ensures Contested(entries, own, f) <==> f in own.changedFiles && exists x :: Count(entries, Elsewhere(own, f, x)) > 0
  {
    if Contested(entries, own, f) {
      var e :| e in entries && e.branch != own.branch && f in e.changedFiles;
      CountSome(entries, Elsewhere(own, f, e.branch));
      assert Elsewhere(own, f, e.branch)(e);
      assert Count(entries, Elsewhere(own, f, e.branch)) > 0;
    }
    if x :| Count(entries, Elsewhere(own, f, x)) > 0 {
      CountSome(entries, Elsewhere(own, f, x));
    }
  }

  lemma ContestedIsEssential(a: seq<Entry>, b: seq<Entry>, own: Entry, own': Entry, f: string)
    requires multiset(Essences(a)) == multiset(Essences(b)) && Essence(own) == Essence(own')
    ensures Contested(a, own, f) <==> Contested(b, own', f)
  {
    CountMeansContested(a, own, f);
    CountMeansContested(b, own', f);
    assert f in own.changedFiles <==> f in Essence(own).1;
    assert f in own'.changedFiles <==> f in Essence(own').1;
    forall x ensures Count(a, Elsewhere(own, f, x)) == Count(b, Elsewhere(own', f, x)) {
      CountIsEssential(a, b, own, own', f, x);
    }
  }

  /** The report depends on nothing else: neither the order of the entries, nor the order in which
      the files are listed, nor repetitions among them. */
  lemma ReportIsEssential(a: seq<Entry>, b: seq<Entry>, own: Entry, own': Entry, report: seq<Part>)
    requires multiset(Essences(a)) == multiset(Essences(b)) && Essence(own) == Essence(own') && IsReport(a, own, report)
    ensures IsReport(b, own', report)
  {
    forall f ensures Names(report, f) <==> Contested(b, own', f) {
      ContestedIsEssential(a, b, own, own', f);
    }
    forall i, x | 0 <= i < |report| ensures multiset(report[i].branches)[x] == BranchCount(b, own', report[i].file, x) {
      CountIsEssential(a, b, own, own', report[i].file, x);
      assert multiset(report[i].branches)[x] == BranchCount(a, own, report[i].file, x);
    }
  }

  /** Two branches hear of each other's files alike. */
  lemma ConflictIsMutual(entries: seq<Entry>, a: Entry, b: Entry, f: string)
    requires a in entries && b in entries && a.branch != b.branch && f in a.changedFiles && f in b.changedFiles
    ensures Contested(entries, a, f) && Contested(entries, b, f)
  {
  }

  /** With no third branch, they hear of exactly the same files. */
  lemma TwoBranchesAgree(entries: seq<Entry>, a: Entry, b: Entry, f: string)
    requires a in entries && b in entries && a.branch != b.branch
    requires forall e :: e in entries ==> e == a || e == b
    ensures Contested(entries, a, f) <==> Contested(entries, b, f)
  {
  }

  // ---- computing it ----

  predicate BranchAtMost(a: Entry, b: Entry) {
    AtMost(a.branch, b.branch)
  }

  lemma BranchOrder()
    ensures Total(BranchAtMost) && Transitive(BranchAtMost)
  {
    StringOrder();
    forall x: Entry, y: Entry ensures BranchAtMost(x, y) || BranchAtMost(y, x) {
    }
    forall x: Entry, y: Entry, z: Entry | BranchAtMost(x, y) && BranchAtMost(y, z) ensures BranchAtMost(x, z) {
      assert AtMost(x.branch, z.branch);
    }
  }

  function OtherEntries(entries: seq<Entry>, own: Entry): seq<Entry> {
    if entries == [] then []
    else
      var last := entries[|entries| - 1];
      OtherEntries(entries[..|entries| - 1], own) + if last.branch != own.branch then [last] else []
  }

  /** The branches changing `f`, in the order of the entries. */
  function BranchesOf(entries: seq<Entry>, f: string): seq<string> {
    if entries == [] then []
    else
      var last := entries[|entries| - 1];
      BranchesOf(entries[..|entries| - 1], f) + if f in last.changedFiles then [last.branch] else []
  }

  lemma BranchesOfOneMore(entries: seq<Entry>, e: Entry, f: string)
    ensures BranchesOf(entries + [e], f) == BranchesOf(entries, f) + if f in e.changedFiles then [e.branch] else []
  {
    assert (entries + [e])[..|entries|] == entries;
  }

  function ChangedBy(f: string, x: string): Entry -> bool {
    (e: Entry) => e.branch == x && f in e.changedFiles
  }

  lemma {:induction false} BranchesCounted(entries: seq<Entry>, f: string, x: string)
    ensures multiset(BranchesOf(entries, f))[x] == Count(entries, ChangedBy(f, x))
  {
    if entries != [] {
      BranchesCounted(entries[..|entries| - 1], f, x);
    }
  }

  lemma {:induction false} OthersCounted(entries: seq<Entry>, own: Entry, f: string, x: string)
    ensures Count(OtherEntries(entries, own), ChangedBy(f, x)) == Count(entries, Elsewhere(own, f, x))
  {
    if entries != [] {
      var front, last := entries[..|entries| - 1], entries[|entries| - 1];
      OthersCounted(front, own, f, x);
      if last.branch != own.branch {
        CountOneMore(OtherEntries(front, own), last, ChangedBy(f, x));
      } else {
        assert OtherEntries(entries, own) == OtherEntries(front, own);
      }
    }
  }

  /** Whatever arrangement of the merged entries is used, the branches are counted right. */
  lemma MergedCounted(entries: seq<Entry>, own: Entry, merged: seq<Entry>, f: string, x: string)
    requires multiset(merged) == multiset(OtherEntries(entries, own) + [own]) && f in own.changedFiles
    ensures multiset(BranchesOf(merged, f))[x] == BranchCount(entries, own, f, x)
  {
    BranchesCounted(merged, f, x);
    CountPermutes(merged, OtherEntries(entries, own) + [own], ChangedBy(f, x));
    CountOneMore(OtherEntries(entries, own), own, ChangedBy(f, x));
    OthersCounted(entries, own, f, x);
  }

  lemma {:induction false} BranchesAreListed(entries: seq<Entry>, f: string, k: nat) returns (i: nat)
    requires k < |BranchesOf(entries, f)|
    ensures i < |entries| && entries[i].branch == BranchesOf(entries, f)[k]
  {
    var front := entries[..|entries| - 1];
    if k < |BranchesOf(front, f)| {
      i := BranchesAreListed(front, f, k);
    } else {
      i := |entries| - 1;
    }
  }

  lemma {:induction false} BranchesSorted(entries: seq<Entry>, f: string)
    requires Sorted(entries, BranchAtMost)
    ensures Sorted(BranchesOf(entries, f), AtMost)
  {
    if entries != [] {
      var front, last := entries[..|entries| - 1], entries[|entries| - 1];
      BranchesSorted(front, f);
      forall k | 0 <= k < |BranchesOf(front, f)| ensures AtMost(BranchesOf(front, f)[k], last.branch) {
        var i := BranchesAreListed(front, f, k);
        assert BranchAtMost(entries[i], last);
      }
    }
  }

  /** Counting over the merged entries, whether or not `own` changes the file. */
  lemma OwnCounted(entries: seq<Entry>, own: Entry, merged: seq<Entry>, f: string)
    requires multiset(merged) == multiset(OtherEntries(entries, own) + [own])
    ensures multiset(BranchesOf(merged, f))[own.branch] == if f in own.changedFiles then 1 else 0
  {
    var x := own.branch;
    BranchesCounted(merged, f, x);
    CountPermutes(merged, OtherEntries(entries, own) + [own], ChangedBy(f, x));
    CountOneMore(OtherEntries(entries, own), own, ChangedBy(f, x));
    OthersCounted(entries, own, f, x);
    CountSome(entries, Elsewhere(own, f, x));
  }

  /** A second element besides the one occurrence of `x` is a different one. */
  lemma AnotherElement(s: seq<string>, x: string)
    requires multiset(s)[x] == 1
    ensures |s| > 1 <==> exists y :: y != x && multiset(s)[y] > 0
  {
    assert x in s;
    var i :| 0 <= i < |s| && s[i] == x;
    TakeOutMultiset(s, i);
    var rest := s[..i] + s[i + 1..];
    if |s| > 1 {
      assert rest[0] in multiset(rest);
      assert multiset(s)[rest[0]] > 0 && rest[0] != x;
    }
    if y :| y != x && multiset(s)[y] > 0 {
      assert y in multiset(rest);
    }
  }

  lemma OtherBranch(entries: seq<Entry>, own: Entry, merged: seq<Entry>, f: string, x: string)
    requires multiset(merged) == multiset(OtherEntries(entries, own) + [own]) && f in own.changedFiles
    ensures Count(entries, Elsewhere(own, f, x)) > 0 <==> x != own.branch && multiset(BranchesOf(merged, f))[x] > 0
  {
    MergedCounted(entries, own, merged, f, x);
    CountSome(entries, Elsewhere(own, f, x));
  }

  /** The test made on the index of files finds exactly the contested ones. */
  lemma IndexFindsContested(entries: seq<Entry>, own: Entry, merged: seq<Entry>, f: string)
    requires multiset(merged) == multiset(OtherEntries(entries, own) + [own])
    ensures |BranchesOf(merged, f)| > 1 && own.branch in BranchesOf(merged, f) <==> Contested(entries, own, f)
  {
    var branches := BranchesOf(merged, f);
    OwnCounted(entries, own, merged, f);
    MemberOfMultiset(own.branch, branches);
    if f in own.changedFiles {
      CountMeansContested(entries, own, f);
      AnotherElement(branches, own.branch);
      if |branches| > 1 {
        var y :| y != own.branch && multiset(branches)[y] > 0;
        OtherBranch(entries, own, merged, f, y);
      }
      if Contested(entries, own, f) {
        var x :| Count(entries, Elsewhere(own, f, x)) > 0;
        OtherBranch(entries, own, merged, f, x);
      }
    }
  }

  function At(index: map<string, seq<string>>, f: string): seq<string> {
    if f in index then index[f] else []
  }

  /** The index of which branches change which file. */
  ghost predicate Indexed(index: map<string, seq<string>>, merged: seq<Entry>) {
    && (forall f :: At(index, f) == BranchesOf(merged, f))
    && (forall f :: f in index ==> index[f] != [])
  }

  /** The files of one entry are added to the index, once each. */
  method AddFiles(before: map<string, seq<string>>, e: Entry) returns (index: map<string, seq<string>>)
    requires forall f :: f in before ==> before[f] != []
    ensures forall f :: At(index, f) == At(before, f) + if f in e.changedFiles then [e.branch] else []
    ensures forall f :: f in index ==> index[f] != []
  {
    index := before;
    var seen: set<string> := {};
    for i := 0 to |e.changedFiles|
      invariant forall f :: At(index, f) == At(before, f) + if f in seen then [e.branch] else []
      invariant forall f :: f in index ==> index[f] != []
      invariant forall f :: f in seen <==> f in e.changedFiles[..i]
    {
      var f := e.changedFiles[i];
      if f in seen {
        continue;
      }
      seen := seen + {f};
      index := index[f := At(index, f) + [e.branch]];
    }
    assert e.changedFiles[..|e.changedFiles|] == e.changedFiles;
  }

  method IndexFiles(merged: seq<Entry>) returns (index: map<string, seq<string>>)
    ensures Indexed(index, merged)
  {
    index := map[];
    for k := 0 to |merged|
      invariant Indexed(index, merged[..k])
    {
      index := AddFiles(index, merged[k]);
      assert merged[..k + 1] == merged[..k] + [merged[k]];
      forall f ensures At(index, f) == BranchesOf(merged[..k + 1], f) {
        BranchesOfOneMore(merged[..k], merged[k], f);
      }
    }
    assert merged[..|merged|] == merged;
  }

  method FindContested(index: map<string, seq<string>>, own: Entry) returns (contested: seq<string>)
    ensures forall f :: f in contested <==> f in index && |index[f]| > 1 && own.branch in index[f]
    ensures forall i, j :: 0 <= i < j < |contested| ==> contested[i] != contested[j]
  {
    contested := [];
    var rest := index.Keys;
    while rest != {}
      invariant rest <= index.Keys
      invariant forall f :: f in contested <==> f in index && f !in rest && |index[f]| > 1 && own.branch in index[f]
      invariant forall i, j :: 0 <= i < j < |contested| ==> contested[i] != contested[j]
    {
      var f :| f in rest;
      rest := rest - {f};
      if |index[f]| > 1 && own.branch in index[f] {
        contested := contested + [f];
      }
    }
  }

  lemma DistinctWhenSorted(files: seq<string>)
    requires forall i, j :: 0 <= i < j < |files| ==> files[i] != files[j]
    ensures var s := SortBy(files, AtMost);
      (forall i, j :: 0 <= i < j < |s| ==> Before(s[i], s[j])) && forall f :: f in s <==> f in files
  {
    var s := SortBy(files, AtMost);
    StringOrder();
    SortBySorted(files, AtMost);
    forall f ensures f in s <==> f in files {
      MemberOfMultiset(f, s);
      MemberOfMultiset(f, files);
    }
    forall i, j | 0 <= i < j < |s| ensures Before(s[i], s[j]) {
      assert AtMost(s[i], s[j]);
      if s[i] == s[j] {
        AtMostOnce(files, s[i]);
        AtLeastTwice(s, i, j);
      }
    }
  }

  /** The file names and branch lists of a report, taken from the index. */
  lemma ReportFromIndex(entries: seq<Entry>, own: Entry, merged: seq<Entry>, index: map<string, seq<string>>, files: seq<string>, report: seq<Part>)
    requires multiset(merged) == multiset(OtherEntries(entries, own) + [own]) && Sorted(merged, BranchAtMost) && Indexed(index, merged)
    requires forall f :: f in files <==> f in index && |index[f]| > 1 && own.branch in index[f]
    requires forall i, j :: 0 <= i < j < |files| ==> Before(files[i], files[j])
    requires |report| == |files| && forall i :: 0 <= i < |files| ==> report[i] == Part(files[i], At(index, files[i]))
    ensures IsReport(entries, own, report)
  {
    forall f ensures Names(report, f) <==> Contested(entries, own, f) {
      IndexFindsContested(entries, own, merged, f);
      NamesAreFiles(files, report, f);
      assert At(index, f) == BranchesOf(merged, f);
    }
    forall i | 0 <= i < |report|
      ensures Sorted(report[i].branches, AtMost)
      ensures forall x :: multiset(report[i].branches)[x] == BranchCount(entries, own, report[i].file, x)
    {
      var f := files[i];
      assert f in files && At(index, f) == BranchesOf(merged, f);
      BranchesSorted(merged, f);
      IndexFindsContested(entries, own, merged, f);
      forall x ensures multiset(report[i].branches)[x] == BranchCount(entries, own, f, x) {
        MergedCounted(entries, own, merged, f, x);
      }
    }
  }

  lemma NamesAreFiles(files: seq<string>, report: seq<Part>, f: string)
    requires |report| == |files| && forall i :: 0 <= i < |files| ==> report[i].file == files[i]
    ensures Names(report, f) <==> f in files
  {
    if f in files {
      var i :| 0 <= i < |files| && files[i] == f;
      assert report[i].file == f;
    }
  }

  /** The entries to compare: the other branches' and the own one, by branch. */
  method MergeEntries(entries: seq<Entry>, own: Entry) returns (merged: seq<Entry>)
    ensures multiset(merged) == multiset(OtherEntries(entries, own) + [own]) && Sorted(merged, BranchAtMost)
  {
    merged := [];
    for k := 0 to |entries|
      invariant merged == OtherEntries(entries[..k], own)
    {
      assert entries[..k + 1][..k] == entries[..k];
      if entries[k].branch != own.branch {
        merged := merged + [entries[k]];
      }
    }
    assert entries[..|entries|] == entries;
    BranchOrder();
    SortBySorted(merged + [own], BranchAtMost);
    merged := SortBy(merged + [own], BranchAtMost);
  }

  method MakeParts(files: seq<string>, index: map<string, seq<string>>) returns (report: seq<Part>)
    ensures |report| == |files| && forall i :: 0 <= i < |files| ==> report[i] == Part(files[i], At(index, files[i]))
  {
    report := [];
    for i := 0 to |files|
      invariant |report| == i && forall j :: 0 <= j < i ==> report[j] == Part(files[j], At(index, files[j]))
    {
      report := report + [Part(files[i], At(index, files[i]))];
    }
  }

  /** The structured part of `fileConflictDetail`. */
  method ConflictReport(entries: seq<Entry>, own: Entry) returns (report: seq<Part>)
    ensures IsReport(entries, own, report)
  {
    var merged := MergeEntries(entries, own);
    var index := IndexFiles(merged);
    var contested := FindContested(index, own);
    DistinctWhenSorted(contested);
    var files := SortBy(contested, AtMost);
    report := MakeParts(files, index);
    ReportFromIndex(entries, own, merged, index, files, report);
  }

  // ---- announcing it ----

  function Join(parts: seq<string>, separator: string): string {
    if parts == [] then "" else if |parts| == 1 then parts[0] else parts[0] + separator + Join(parts[1..], separator)
  }

  /** The text of a report; `quote` is Go's quoting of a string. */
  function Detail(report: seq<Part>, quote: string -> string): (detail: string)
    ensures detail == "" <==> report == []
  {
    if report == [] then ""
    else "file conflict: " + Join(Texts(report, quote), "; ")
  }

  /** Quoting as Go does it: no quoted text is the beginning of another one. */
  ghost predicate PrefixFree(quote: string -> string) {
    forall x, y :: quote(x) <= quote(y) ==> x == y
  }

  /** Every file has branches, and no branch has a space in its name, as git demands. */
  ghost predicate PlainBranches(report: seq<Part>) {
    forall i :: 0 <= i < |report| ==> Spaceless(report[i].branches)
  }

  ghost predicate Spaceless(names: seq<string>) {
    names != [] && forall i :: 0 <= i < |names| ==> ' ' !in names[i]
  }

  /** What may come behind a list of branches: nothing, or the next part. */
  predicate PartEnd(rest: string) {
    rest == "" || "; " <= rest
  }

  /** What may come behind one branch. */
  predicate NameEnd(rest: string) {
    rest == "" || "; " <= rest || ", " <= rest
  }

  lemma SameFirstName(a: string, r: string, b: string, t: string)
    requires ' ' !in a && ' ' !in b && NameEnd(r) && NameEnd(t) && a + r == b + t
    ensures a == b && r == t
  {
    var x := a + r;
    assert x == b + t;
    if r != "" {
      assert r[1] == ' ' && x[|a| + 1] == ' ';
    }
    if t != "" {
      assert t[1] == ' ' && x[|b| + 1] == ' ';
    }
    assert x[..|a|] == a && x[|a|..] == r && x[..|b|] == b && x[|b|..] == t;
  }

  function Behind(names: seq<string>, rest: string): string
    requires names != []
  {
    (if |names| == 1 then "" else ", " + Join(names[1..], ", ")) + rest
  }

  lemma JoinFirst(names: seq<string>, rest: string)
    requires names != [] && PartEnd(rest)
    ensures Join(names, ", ") + rest == names[0] + Behind(names, rest) && NameEnd(Behind(names, rest))
  {
    if |names| == 1 {
      assert Join(names, ", ") + rest == names[0] + ("" + rest);
    } else {
      assert Join(names, ", ") + rest == names[0] + (", " + Join(names[1..], ", ") + rest);
    }
  }

  lemma {:induction false} SameNames(a: seq<string>, r: string, b: seq<string>, t: string)
    requires Spaceless(a) && Spaceless(b) && PartEnd(r) && PartEnd(t) && Join(a, ", ") + r == Join(b, ", ") + t
    ensures a == b && r == t
    decreases |a|
  {
    JoinFirst(a, r);
    JoinFirst(b, t);
    SameFirstName(a[0], Behind(a, r), b[0], Behind(b, t));
    assert |a| > 1 ==> Behind(a, r)[0] == ',';
    assert |b| > 1 ==> Behind(b, t)[0] == ',';
    if |a| > 1 && |b| > 1 {
      var x, y := Join(a[1..], ", ") + r, Join(b[1..], ", ") + t;
      assert Behind(a, r) == ", " + x && Behind(b, t) == ", " + y;
      assert (", " + x)[2..] == x && (", " + y)[2..] == y;
      SameNames(a[1..], r, b[1..], t);
      assert a == [a[0]] + a[1..] && b == [b[0]] + b[1..];
    } else if |a| == 1 && |b| == 1 {
      assert "" + r == r && "" + t == t;
    }
  }

  const CHANGED_BY: string := " is being changed by "

  function PartText(p: Part, quote: string -> string): string {
    quote(p.file) + CHANGED_BY + Join(p.branches, ", ")
  }

  function Texts(report: seq<Part>, quote: string -> string): (r: seq<string>)
    ensures |r| == |report| && forall i :: 0 <= i < |r| ==> r[i] == PartText(report[i], quote)
  {
    seq(|report|, i requires 0 <= i < |report| => PartText(report[i], quote))
  }

  lemma OneIsPrefix(x: string, u: string, y: string, v: string)
    requires x + u == y + v
    ensures x <= y || y <= x
  {
    var w := x + u;
    assert x == w[..|x|] && y == w[..|y|];
  }

  lemma SamePart(p: Part, r: string, q: Part, t: string, quote: string -> string)
    requires PrefixFree(quote) && Spaceless(p.branches) && Spaceless(q.branches) && PartEnd(r) && PartEnd(t)
    requires PartText(p, quote) + r == PartText(q, quote) + t
    ensures p == q && r == t
  {
    var x, y := quote(p.file), quote(q.file);
    var u, v := CHANGED_BY + Join(p.branches, ", ") + r, CHANGED_BY + Join(q.branches, ", ") + t;
    assert x + u == PartText(p, quote) + r && y + v == PartText(q, quote) + t;
    OneIsPrefix(x, u, y, v);
    assert u == (x + u)[|x|..] && v == (y + v)[|y|..];
    var m, n := Join(p.branches, ", ") + r, Join(q.branches, ", ") + t;
    assert u == CHANGED_BY + m && v == CHANGED_BY + n;
    assert m == u[|CHANGED_BY|..] && n == v[|CHANGED_BY|..];
    SameNames(p.branches, r, q.branches, t);
  }

  /** What comes behind the first part. */
  function Further(report: seq<Part>, quote: string -> string): (rest: string)
    requires report != []
    ensures PartEnd(rest)
  {
    if |report| == 1 then "" else "; " + Join(Texts(report[1..], quote), "; ")
  }

  lemma TextFirst(report: seq<Part>, quote: string -> string)
    requires report != []
    ensures Join(Texts(report, quote), "; ") == PartText(report[0], quote) + Further(report, quote)
  {
    if |report| > 1 {
      assert Texts(report, quote)[1..] == Texts(report[1..], quote);
      var x := PartText(report[0], quote);
      assert x + "; " + Join(Texts(report[1..], quote), "; ") == x + ("; " + Join(Texts(report[1..], quote), "; "));
    } else {
      assert PartText(report[0], quote) + "" == PartText(report[0], quote);
    }
  }

  lemma {:induction false} SameTexts(a: seq<Part>, b: seq<Part>, quote: string -> string)
    requires PrefixFree(quote) && PlainBranches(a) && PlainBranches(b) && a != [] && b != []
    requires Join(Texts(a, quote), "; ") == Join(Texts(b, quote), "; ")
    ensures a == b
    decreases |a|
  {
    SameFirstPart(a, b, quote);
    if |a| > 1 {
      SameTexts(a[1..], b[1..], quote);
      assert a == [a[0]] + a[1..] && b == [b[0]] + b[1..];
    }
  }

  lemma SameFirstPart(a: seq<Part>, b: seq<Part>, quote: string -> string)
    requires PrefixFree(quote) && PlainBranches(a) && PlainBranches(b) && a != [] && b != []
    requires Join(Texts(a, quote), "; ") == Join(Texts(b, quote), "; ")
    ensures a[0] == b[0] && (|a| == 1 <==> |b| == 1)
    ensures |a| > 1 ==> Join(Texts(a[1..], quote), "; ") == Join(Texts(b[1..], quote), "; ")
  {
    TextFirst(a, quote);
    TextFirst(b, quote);
    SamePart(a[0], Further(a, quote), b[0], Further(b, quote), quote);
    if |a| > 1 && |b| > 1 {
      SameBehindSeparator(Join(Texts(a[1..], quote), "; "), Join(Texts(b[1..], quote), "; "));
    }
  }

  lemma SameBehindSeparator(x: string, y: string)
    requires "; " + x == "; " + y
    ensures x == y
  {
    assert ("; " + x)[2..] == x && ("; " + y)[2..] == y;
  }

  /** Different reports have different texts, so a changed conflict is never taken for the one shown. */
  lemma DetailsDiffer(a: seq<Part>, b: seq<Part>, quote: string -> string)
    requires PrefixFree(quote) && PlainBranches(a) && PlainBranches(b)
    ensures Detail(a, quote) == Detail(b, quote) <==> a == b
  {
    if a != [] && b != [] && Detail(a, quote) == Detail(b, quote) {
      var x, y := Join(Texts(a, quote), "; "), Join(Texts(b, quote), "; ");
      assert x == ("file conflict: " + x)[|"file conflict: "|..] && y == ("file conflict: " + y)[|"file conflict: "|..];
      SameTexts(a, b, quote);
    }
  }

  /** What an own entry has to be for any file to be contested. */
  predicate Reporting(own: Option<Entry>) {
    own.Some? && own.value.active && own.value.changedFiles != []
  }

  ghost predicate IsDetail(entries: seq<Entry>, own: Option<Entry>, quote: string -> string, detail: string) {
    if Reporting(own) then exists report :: IsReport(entries, own.value, report) && detail == Detail(report, quote)
    else detail == ""
  }

  method FileConflictDetail(entries: seq<Entry>, own: Option<Entry>, quote: string -> string) returns (detail: string)
    ensures IsDetail(entries, own, quote, detail)
    ensures own.None? || !own.value.active || own.value.changedFiles == [] ==> detail == ""
  {
    if own.None? || !own.value.active || |own.value.changedFiles| == 0 {
      return "";
    }
    var report := ConflictReport(entries, own.value);
    detail := Detail(report, quote);
  }

  /** The same situation gives the same text, however it is listed. */
  lemma DetailIsEssential(a: seq<Entry>, b: seq<Entry>, own: Option<Entry>, own': Option<Entry>, quote: string -> string, d: string, d': string)
    requires multiset(Essences(a)) == multiset(Essences(b)) && IsDetail(a, own, quote, d) && IsDetail(b, own', quote, d')
    requires Reporting(own) == Reporting(own') && (Reporting(own) ==> Essence(own.value) == Essence(own'.value))
    ensures d == d'
  {
    if Reporting(own) {
      var r :| IsReport(a, own.value, r) && d == Detail(r, quote);
      var r' :| IsReport(b, own'.value, r') && d' == Detail(r', quote);
      ReportIsEssential(a, b, own.value, own'.value, r);
      ReportIsUnique(b, own'.value, r, r');
    }
  }

  /** The FileConflict condition: true with the conflict's text, or false. */
  datatype Condition = Overlap(message: string) | NoOverlap

  function Shown(c: Option<Condition>): string {
    if c.Some? && c.value.Overlap? then c.value.message else ""
  }

  /** What should be announced for a series of details: each one that is not blank and differs from
      the one before. */
  function Announcements(before: string, details: seq<string>): seq<string> {
    if details == [] then []
    else
      var n := |details| - 1;
      var previous := if n == 0 then before else details[n - 1];
      Announcements(before, details[..n]) + if details[n] != "" && details[n] != previous then [details[n]] else []
  }

  lemma AnnouncementsOneMore(sent: seq<string>, before: string, details: seq<string>, d: string)
    ensures var previous := if details == [] then before else details[|details| - 1];
      sent + Announcements(before, details + [d]) == sent + Announcements(before, details) + if d != "" && d != previous then [d] else []
  {
    assert (details + [d])[..|details|] == details;
  }

  /** What is shown and what has been sent after a series of passes. */
  ghost predicate Tracked(sent0: seq<string>, shown0: string, details: seq<string>, shown: string, sent: seq<string>) {
    && shown == (if details == [] then shown0 else details[|details| - 1])
    && sent == sent0 + Announcements(shown0, details)
  }

  lemma TrackOneMore(sent0: seq<string>, shown0: string, details: seq<string>, shown: string, sent: seq<string>, d: string)
    requires Tracked(sent0, shown0, details, shown, sent)
    ensures Tracked(sent0, shown0, details + [d], d, sent + if d != "" && d != shown then [d] else [])
  {
    AnnouncementsOneMore(sent0, shown0, details, d);
  }

  ghost predicate AreDetails(inputs: seq<(seq<Entry>, Option<Entry>)>, quote: string -> string, details: seq<string>) {
    |details| <= |inputs| && forall i :: 0 <= i < |details| ==> IsDetail(inputs[i].0, inputs[i].1, quote, details[i])
  }

  lemma OneMoreDetail(inputs: seq<(seq<Entry>, Option<Entry>)>, quote: string -> string, details: seq<string>, d: string)
    requires |details| < |inputs| && AreDetails(inputs, quote, details)
    requires IsDetail(inputs[|details|].0, inputs[|details|].1, quote, d)
    ensures AreDetails(inputs, quote, details + [d])
  {
  }

  class ConflictWatch {
    const quote: string -> string
    var condition: Option<Condition>
    var warnings: seq<string>

    constructor (quote: string -> string)
      ensures this.quote == quote && condition == None && warnings == []
    {
      this.quote, condition, warnings := quote, None, [];
    }

    /** The status update; it may fail, before or after taking effect. */
    method WriteCondition(c: Condition) returns (ok: bool)
      modifies `condition
      ensures ok ==> condition == Some(c)
      ensures condition == Some(c) || condition == old(condition)
    {
      var lost: bool, unanswered: bool := *, *;
      if lost {
        return false;
      }
      condition := Some(c);
      ok := !unanswered;
    }

    /** `reconcileFileConflicts`: afterwards the condition shows the conflict, and it has been
        announced if it is not the one shown before. A pass that fails announces nothing. */
    method ReconcileFileConflicts(entries: seq<Entry>, own: Option<Entry>) returns (ok: bool, ghost detail: string)
      modifies `condition, `warnings
      ensures IsDetail(entries, own, quote, detail)
      ensures ok ==> Shown(condition) == detail
      ensures warnings == old(warnings) + if ok && detail != "" && detail != Shown(old(condition)) then [detail] else []
      ensures Shown(condition) == detail || condition == old(condition)
    {
      var text := FileConflictDetail(entries, own, quote);
      detail := text;
      if text == "" {
        if condition.None? || condition.value.NoOverlap? {
          return true, detail;
        }
        ok := WriteCondition(NoOverlap);
        return;
      }
      if condition == Some(Overlap(text)) {
        return true, detail;
      }
      ok := WriteCondition(Overlap(text));
      if ok {
        warnings := warnings + [text];
      }
    }

    /** A series of passes none of which fails announces exactly each non-blank conflict that differs
        from the one the pass before found. */
    method Watch(inputs: seq<(seq<Entry>, Option<Entry>)>) returns (ok: bool, ghost details: seq<string>)
      modifies `condition, `warnings
      ensures ok ==> |details| == |inputs| && AreDetails(inputs, quote, details)
      ensures ok ==> warnings == old(warnings) + Announcements(Shown(old(condition)), details)
    {
      details, ok := [], true;
      for k := 0 to |inputs|
        invariant |details| == k && ok && AreDetails(inputs, quote, details)
        invariant Tracked(old(warnings), Shown(old(condition)), details, Shown(condition), warnings)
      {
        ghost var detail, shown, sent := "", Shown(condition), warnings;
        ok, detail := ReconcileFileConflicts(inputs[k].0, inputs[k].1);
        if !ok {
          return;
        }
        OneMoreDetail(inputs, quote, details, detail);
        TrackOneMore(old(warnings), Shown(old(condition)), details, shown, sent, detail);
        details := details + [detail];
      }
    }
  }
}
