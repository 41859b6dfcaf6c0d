/** DNS label derivation: the controller's `sanitizeDNSLabel`, the gateway's copy of it,
    `DeriveResourceName`, and the host names built on top. */
module Naming {
  import opened Orders

  const LABEL_MAX: nat := 63
  const PREVIEW_SUFFIX: string := "-preview"
  const REPORT_SUFFIX: string := "-report"

  predicate Alnum(c: char) {
    'a' <= c <= 'z' || '0' <= c <= '9'
  }

  predicate LabelChar(c: char) {
    Alnum(c) || c == '-'
  }

  /** A host label in the sense of section 2.1 of RFC 1123, within the 63-octet limit of
      section 2.3.4 of RFC 1035. */
  predicate ValidLabel(s: string) {
    && 0 < |s| <= LABEL_MAX
    && Alnum(s[0])
    && Alnum(s[|s| - 1])
    && forall i :: 0 <= i < |s| ==> LabelChar(s[i])
  }

  predicate NoDoubleDash(s: string) {
    forall i :: 0 <= i < |s| - 1 ==> !(s[i] == '-' && s[i + 1] == '-')
  }

  /** `unicode.ToLower` as far as it can matter here: the Latin capitals and the two other runes
      whose lower case is ASCII. Every other rune is outside the label alphabet before and after. */
  function LowerChar(c: char): char {
    if 'A' <= c <= 'Z' then (c as int - 'A' as int + 'a' as int) as char
    else if c == '\U{0130}' then 'i'
    else if c == '\U{212A}' then 'k'
    else c
  }

  function Lower(s: string): string {
    seq(|s|, i requires 0 <= i < |s| => LowerChar(s[i]))
  }

  function SkipRun(s: string, bad: char -> bool): (r: string)
    ensures |r| <= |s|
    ensures r != "" ==> !bad(r[0])
    decreases |s|
  {
    if s == "" || !bad(s[0]) then s else SkipRun(s[1..], bad)
  }

  /** `regexp.ReplaceAllString(s, "-")` for a class repeated with `+`: every maximal run of
      characters of the class becomes a single dash. */
  function ReplaceRuns(s: string, bad: char -> bool): string
    decreases |s|
  {
    if s == "" then ""
    else if bad(s[0]) then "-" + ReplaceRuns(SkipRun(s[1..], bad), bad)
    else [s[0]] + ReplaceRuns(s[1..], bad)
  }

  function TrimLeft(s: string): string {
    if s != "" && s[0] == '-' then TrimLeft(s[1..]) else s
  }

  function TrimRight(s: string): string {
    if s != "" && s[|s| - 1] == '-' then TrimRight(s[..|s| - 1]) else s
  }

  function Trim(s: string): string {
    TrimRight(TrimLeft(s))
  }

  function Collapsed(s: string): string {
    ReplaceRuns(ReplaceRuns(Lower(s), c => !LabelChar(c)), c => c == '-')
  }

  /** `truncateDNSLabel`; a negative `max` counts as zero. */
  function Truncate(s: string, max: int): string {
    var m := if max < 0 then 0 else max;
    TrimRight(if |s| > m then s[..m] else s)
  }

  /** The controller's `sanitizeDNSLabel`. */
  function Sanitize(s: string): string {
    Truncate(Trim(Collapsed(s)), LABEL_MAX)
  }

  /** The gateway's `sanitizeDNSLabel`: written separately, cut only when too long. */
  function GatewaySanitize(s: string): string {
    var trimmed := Trim(Collapsed(s));
    if |trimmed| > 63 then TrimRight(trimmed[..63]) else trimmed
  }

  /** `DeriveResourceName`; `digest` is the eight hexadecimal characters of the branch's hash. */
  function DeriveResourceName(branch: string, digest: string, taken: string -> bool): Option<string> {
    var sanitized := Sanitize(branch);
    var base := if sanitized == "" then "ws" else sanitized;
    if !taken(base) then Some(base)
    else
      var suffix := "-" + digest;
      var candidate := Truncate(base, LABEL_MAX - |suffix|) + suffix;
      if taken(candidate) then None else Some(candidate)
  }

  function HostLabel(base: string, suffix: string): string {
    Truncate(base, LABEL_MAX - |suffix|) + suffix
  }

  predicate Digest(s: string) {
    |s| == 8 && forall i :: 0 <= i < |s| ==> Alnum(s[i])
  }

  /** The letters and digits of a string, in order: what normalizing must not reorder or lose. */
  function Letters(s: string): string {
    if s == "" then "" else (if Alnum(s[0]) then [s[0]] else "") + Letters(s[1..])
  }

  // ---- the passes one by one ----

  predicate AllLabelChars(s: string) {
    forall i :: 0 <= i < |s| ==> LabelChar(s[i])
  }

  predicate NormalForm(s: string) {
    s == "" || (ValidLabel(s) && NoDoubleDash(s))
  }

  lemma {:induction false} SkipRunLetters(s: string, bad: char -> bool)
    requires forall c :: bad(c) ==> !Alnum(c)
    ensures Letters(SkipRun(s, bad)) == Letters(s)
  {
    if s != "" && bad(s[0]) {
      SkipRunLetters(s[1..], bad);
    }
  }

  lemma {:induction false} SkipRunSuffix(s: string, bad: char -> bool, i: nat)
    requires i < |SkipRun(s, bad)|
    ensures SkipRun(s, bad)[i] in s
  {
    if s != "" && bad(s[0]) {
      SkipRunSuffix(s[1..], bad, i);
    }
  }

  lemma {:induction false} ReplaceRunsLetters(s: string, bad: char -> bool)
    requires forall c :: bad(c) ==> !Alnum(c)
    ensures Letters(ReplaceRuns(s, bad)) == Letters(s)
    decreases |s|
  {
    if s != "" {
      if bad(s[0]) {
        var rest := SkipRun(s[1..], bad);
        ReplaceRunsLetters(rest, bad);
        SkipRunLetters(s[1..], bad);
        assert ("-" + ReplaceRuns(rest, bad))[1..] == ReplaceRuns(rest, bad);
      } else {
        ReplaceRunsLetters(s[1..], bad);
        assert ([s[0]] + ReplaceRuns(s[1..], bad))[1..] == ReplaceRuns(s[1..], bad);
      }
    }
  }

  lemma {:induction false} ReplaceRunsAlphabet(s: string)
    ensures AllLabelChars(ReplaceRuns(s, c => !LabelChar(c)))
    decreases |s|
  {
    var bad := (c: char) => !LabelChar(c);
    if s != "" {
      if bad(s[0]) {
        ReplaceRunsAlphabet(SkipRun(s[1..], bad));
      } else {
        ReplaceRunsAlphabet(s[1..]);
      }
    }
  }

  lemma {:induction false} CollapseRuns(s: string)
    requires AllLabelChars(s)
    ensures var r := ReplaceRuns(s, c => c == '-');
            AllLabelChars(r) && NoDoubleDash(r) && (r != "" ==> s != "" && r[0] == s[0])
    decreases |s|
  {
    var dash := (c: char) => c == '-';
    if s != "" {
      if s[0] == '-' {
        var rest := SkipRun(s[1..], dash);
        forall i | 0 <= i < |rest| ensures LabelChar(rest[i]) {
          SkipRunSuffix(s[1..], dash, i);
        }
        CollapseRuns(rest);
      } else {
        CollapseRuns(s[1..]);
      }
    }
  }

  lemma {:induction false} TrimLeftShape(s: string)
    requires AllLabelChars(s) && NoDoubleDash(s)
    ensures var r := TrimLeft(s);
            AllLabelChars(r) && NoDoubleDash(r) && (r != "" ==> Alnum(r[0])) && |r| <= |s| && Letters(r) == Letters(s)
  {
    if s != "" && s[0] == '-' {
      forall i | 0 <= i < |s[1..]| - 1 ensures !(s[1..][i] == '-' && s[1..][i + 1] == '-') {
        assert s[1..][i] == s[i + 1] && s[1..][i + 1] == s[i + 2];
      }
      TrimLeftShape(s[1..]);
    }
  }

  lemma {:induction false} LettersAppend(a: string, b: string)
    ensures Letters(a + b) == Letters(a) + Letters(b)
  {
    if a == "" {
      assert a + b == b;
    } else {
      LettersAppend(a[1..], b);
      assert (a + b)[1..] == a[1..] + b && (a + b)[0] == a[0];
      Reassociate(if Alnum(a[0]) then [a[0]] else "", Letters(a[1..]), Letters(b));
    }
  }

  lemma {:induction false} TrimRightShape(s: string)
    requires AllLabelChars(s) && NoDoubleDash(s) && (s != "" ==> Alnum(s[0]))
    ensures var r := TrimRight(s);
            (r == "" || (Alnum(r[0]) && Alnum(r[|r| - 1]))) && AllLabelChars(r) && NoDoubleDash(r)
            && r <= s && |s| - |r| <= 1 && Letters(r) == Letters(s)
  {
    if s != "" && s[|s| - 1] == '-' {
      var t := s[..|s| - 1];
      assert s == t + "-";
      LettersAppend(t, "-");
      assert Letters("-") == "";
      assert t != "" && t[|t| - 1] == s[|s| - 2];
      assert TrimRight(t) == t;
    }
  }

  lemma TruncateShape(s: string, max: nat)
    requires AllLabelChars(s) && NoDoubleDash(s) && (s != "" ==> Alnum(s[0]))
    ensures var r := Truncate(s, max);
            && r <= s && |r| <= max
            && (r == "" || (Alnum(r[0]) && Alnum(r[|r| - 1]))) && AllLabelChars(r) && NoDoubleDash(r)
            && (max > 0 && s != "" ==> r != "")
            && (|s| <= max && (s == "" || Alnum(s[|s| - 1])) ==> r == s)
  {
    var cut := if |s| > max then s[..max] else s;
    TrimRightShape(cut);
  }

  lemma CollapsedShape(s: string)
    ensures AllLabelChars(Collapsed(s)) && NoDoubleDash(Collapsed(s))
    ensures Letters(Collapsed(s)) == Letters(Lower(s))
  {
    var once := ReplaceRuns(Lower(s), c => !LabelChar(c));
    ReplaceRunsAlphabet(Lower(s));
    CollapseRuns(once);
    ReplaceRunsLetters(Lower(s), c => !LabelChar(c));
    ReplaceRunsLetters(once, c => c == '-');
  }

  lemma {:induction false} LettersPrefix(a: string, b: string)
    requires a <= b
    ensures Letters(a) <= Letters(b)
  {
    assert b == a + b[|a|..];
    LettersAppend(a, b[|a|..]);
  }

  // ---- what normalizing guarantees ----

  /** Every branch normalizes to the empty string or to a valid label without double dashes, and
      the letters and digits of the branch survive in order, losing at most a tail. */
  lemma SanitizeNormalizes(s: string)
    ensures NormalForm(Sanitize(s))
    ensures Letters(Sanitize(s)) <= Letters(Lower(s))
    ensures |Letters(Lower(s))| > 0 <==> Sanitize(s) != ""
    ensures |Trim(Collapsed(s))| <= LABEL_MAX ==> Letters(Sanitize(s)) == Letters(Lower(s))
  {
    CollapsedShape(s);
    var left := TrimLeft(Collapsed(s));
    TrimLeftShape(Collapsed(s));
    TrimRightShape(left);
    var trimmed := Trim(Collapsed(s));
    TruncateShape(trimmed, LABEL_MAX);
    LettersPrefix(Sanitize(s), trimmed);
    if trimmed != "" {
      assert trimmed == [trimmed[0]] + trimmed[1..];
    }
  }

  /** The normal forms are exactly the fixed points, so normalizing twice changes nothing. */
  lemma SanitizeFixedPoints(s: string)
    ensures Sanitize(s) == s <==> NormalForm(s)
    ensures Sanitize(Sanitize(s)) == Sanitize(s)
  {
    SanitizeNormalizes(s);
    if NormalForm(s) {
      NormalFormIsFixed(s);
    }
    NormalFormIsFixed(Sanitize(s));
  }

  lemma {:induction false} ReplaceRunsFixed(s: string, bad: char -> bool)
    requires forall i :: 0 <= i < |s| && bad(s[i]) ==> s[i] == '-'
    requires forall i :: 0 <= i < |s| - 1 ==> !(bad(s[i]) && bad(s[i + 1]))
    ensures ReplaceRuns(s, bad) == s
    decreases |s|
  {
    if s != "" {
      var t := s[1..];
      forall i | 0 <= i < |t| - 1 ensures !(bad(t[i]) && bad(t[i + 1])) {
        assert t[i] == s[i + 1] && t[i + 1] == s[i + 2];
      }
      ReplaceRunsFixed(t, bad);
      if bad(s[0]) && t != "" {
        assert t[0] == s[1] && !bad(t[0]);
      }
      assert s == [s[0]] + t;
    }
  }

  lemma NormalFormIsFixed(s: string)
    requires NormalForm(s)
    ensures Sanitize(s) == s
  {
    CollapsedFixed(s);
  }

  lemma CollapsedFixed(s: string)
    requires NormalForm(s)
    ensures Collapsed(s) == s
  {
    assert Lower(s) == s;
    ReplaceRunsFixed(s, c => !LabelChar(c));
    ReplaceRunsFixed(s, c => c == '-');
  }

  /** The two separately written sanitizers agree on every input. */
  lemma SanitizersAgree(s: string)
    ensures GatewaySanitize(s) == Sanitize(s)
  {
    CollapsedShape(s);
    TrimLeftShape(Collapsed(s));
    TrimRightShape(TrimLeft(Collapsed(s)));
    TruncateShape(Trim(Collapsed(s)), LABEL_MAX);
  }

  /** A derived name is a valid label in normal form that nobody holds; derivation fails exactly when both the plain
      and the hashed candidate are held, and the plain one is preferred. */
  lemma DerivedNameIsFreeAndValid(branch: string, digest: string, taken: string -> bool)
    requires Digest(digest)
    ensures var base := if Sanitize(branch) == "" then "ws" else Sanitize(branch);
            match DeriveResourceName(branch, digest, taken)
            case Some(name) =>
              && ValidLabel(name) && NormalForm(name) && !taken(name) && (name == base <==> !taken(base))
              && (name == base || name == HostLabel(base, "-" + digest))
            case None => taken(base) && taken(HostLabel(base, "-" + digest))
  {
    var base := if Sanitize(branch) == "" then "ws" else Sanitize(branch);
    BaseIsNormal(branch);
    HostLabelIsValid(base, "-" + digest);
    TruncateShape(base, LABEL_MAX - |"-" + digest|);
    assert HostLabel(base, "-" + digest)[|HostLabel(base, "-" + digest)| - |digest|..] == digest;
  }

  lemma BaseIsNormal(branch: string)
    ensures var base := if Sanitize(branch) == "" then "ws" else Sanitize(branch);
      NormalForm(base) && ValidLabel(base)
  {
    SanitizeNormalizes(branch);
  }

  /** A suffix leaves room for itself, so the labelled host stays valid. */
  lemma HostLabelIsValid(base: string, suffix: string)
    requires NormalForm(base) && base != ""
    requires 0 < |suffix| < LABEL_MAX && AllLabelChars(suffix) && Alnum(suffix[|suffix| - 1])
    ensures ValidLabel(HostLabel(base, suffix))
    ensures |base| + |suffix| <= LABEL_MAX ==> HostLabel(base, suffix) == base + suffix
    ensures |base| + |suffix| > LABEL_MAX ==>
              var n := if base[62 - |suffix|] == '-' then 62 - |suffix| else 63 - |suffix|;
              HostLabel(base, suffix) == base[..n] + suffix
  {
    TruncateShape(base, LABEL_MAX - |suffix|);
    if |base| + |suffix| > LABEL_MAX {
      CutOnce(base, LABEL_MAX - |suffix|);
    }
  }

  /** At most one character is lost to a dash at the cut. */
  lemma CutOnce(s: string, m: nat)
    requires NormalForm(s) && 0 < m < |s|
    ensures Truncate(s, m) == if s[m - 1] == '-' then s[..m - 1] else s[..m]
  {
    var cut := s[..m];
    assert cut[m - 1] == s[m - 1];
    if s[m - 1] == '-' {
      assert cut[..m - 1] == s[..m - 1];
      assert m > 1 && s[m - 2] != '-' && cut[..m - 1][m - 2] == s[m - 2];
      assert TrimRight(cut[..m - 1]) == cut[..m - 1];
    }
  }

  /** What a suffix leaves of a name. */
  function Stem(name: string, suffix: string): string {
    Truncate(name, LABEL_MAX - |suffix|)
  }

  /** Two names get one host exactly when they agree on what the suffix leaves of them. */
  lemma HostsCollideIff(a: string, b: string, suffix: string)
    ensures HostLabel(a, suffix) == HostLabel(b, suffix) <==> Stem(a, suffix) == Stem(b, suffix)
  {
    var x, y := Stem(a, suffix), Stem(b, suffix);
    if x + suffix == y + suffix {
      assert x == (x + suffix)[..|x|] == (y + suffix)[..|y|] == y;
    }
  }

  /** The preview and report hosts of all names: valid labels, never one for the other, and shared
      by two names exactly when these agree on their first 55 or 56 bytes less trailing dashes; up
      to 55 bytes that means never. */
  lemma HostsAreInjective(a: string, b: string)
    requires NormalForm(a) && a != "" && NormalForm(b) && b != ""
    ensures ValidLabel(HostLabel(a, PREVIEW_SUFFIX)) && ValidLabel(HostLabel(a, REPORT_SUFFIX))
    ensures HostLabel(a, PREVIEW_SUFFIX) == HostLabel(b, PREVIEW_SUFFIX) <==> Stem(a, PREVIEW_SUFFIX) == Stem(b, PREVIEW_SUFFIX)
    ensures HostLabel(a, REPORT_SUFFIX) == HostLabel(b, REPORT_SUFFIX) <==> Stem(a, REPORT_SUFFIX) == Stem(b, REPORT_SUFFIX)
    ensures HostLabel(a, PREVIEW_SUFFIX) != HostLabel(b, REPORT_SUFFIX)
    ensures |a| <= 55 && |b| <= 55 ==>
              && (HostLabel(a, PREVIEW_SUFFIX) == HostLabel(b, PREVIEW_SUFFIX) <==> a == b)
              && (HostLabel(a, REPORT_SUFFIX) == HostLabel(b, REPORT_SUFFIX) <==> a == b)
  {
    HostLabelIsValid(a, PREVIEW_SUFFIX);
    HostLabelIsValid(b, PREVIEW_SUFFIX);
    HostLabelIsValid(a, REPORT_SUFFIX);
    HostLabelIsValid(b, REPORT_SUFFIX);
    HostsCollideIff(a, b, PREVIEW_SUFFIX);
    HostsCollideIff(a, b, REPORT_SUFFIX);
    if |a| <= 55 && |b| <= 55 {
      ShortStem(a, PREVIEW_SUFFIX);
      ShortStem(b, PREVIEW_SUFFIX);
      ShortStem(a, REPORT_SUFFIX);
      ShortStem(b, REPORT_SUFFIX);
    }
    var p, r := HostLabel(a, PREVIEW_SUFFIX), HostLabel(b, REPORT_SUFFIX);
    assert p[|p| - 1] == 'w' && r[|r| - 1] == 't';
  }

  lemma ShortStem(name: string, suffix: string)
    requires NormalForm(name) && name != "" && |name| + |suffix| <= LABEL_MAX
    ensures Stem(name, suffix) == name
  {
  }

  /** The session host is the bare name, and there the separation stops: one workspace's session
      host is another one's preview or report host exactly when its name is what the suffix leaves
      of that name, plus the suffix. */
  lemma SessionHostCollision(session: string, other: string, suffix: string)
    requires NormalForm(other) && other != "" && (suffix == PREVIEW_SUFFIX || suffix == REPORT_SUFFIX)
    ensures session == HostLabel(other, suffix) <==>
              && |suffix| < |session| <= LABEL_MAX && session[|session| - |suffix|..] == suffix
              && session[..|session| - |suffix|] == Stem(other, suffix)
    ensures |other| <= 55 ==> (session == HostLabel(other, suffix) <==> session == other + suffix)
  {
    HostLabelIsValid(other, suffix);
    TruncateShape(other, LABEL_MAX - |suffix|);
    if |suffix| < |session| && session[|session| - |suffix|..] == suffix {
      assert session == session[..|session| - |suffix|] + suffix;
    }
    if |other| <= 55 {
      ShortStem(other, suffix);
    }
  }

  lemma {:induction false} ReplaceRunsAcross(a: string, c: char, b: string, bad: char -> bool)
    requires forall i :: 0 <= i < |a| ==> !bad(a[i])
    requires forall i :: 0 <= i < |b| ==> !bad(b[i])
    requires bad(c)
    ensures ReplaceRuns(a + [c] + b, bad) == a + "-" + b
  {
    if a == "" {
      assert a + [c] + b == [c] + b && ([c] + b)[1..] == b;
      ReplaceRunsFixed(b, bad);
      assert SkipRun(b, bad) == b;
    } else {
      assert (a + [c] + b)[1..] == a[1..] + [c] + b;
      ReplaceRunsAcross(a[1..], c, b, bad);
      assert a + "-" + b == [a[0]] + (a[1..] + "-" + b);
    }
  }

  /** A whole family meets in that collision: branch `x/preview` gets the very name that the
      preview host of branch `x` already uses. */
  lemma SessionHostCollides(x: string)
    requires NormalForm(x) && x != "" && |x| <= 55
    ensures Sanitize(x + "/preview") == HostLabel(Sanitize(x), PREVIEW_SUFFIX)
  {
    var branch, name := x + "/" + "preview", x + "-" + "preview";
    assert branch == x + "/preview" && name == x + PREVIEW_SUFFIX;
    assert Lower(branch) == branch;
    ReplaceRunsAcross(x, '/', "preview", c => !LabelChar(c));
    forall i | 0 <= i < |name| - 1 ensures !(name[i] == '-' && name[i + 1] == '-') {
      assert i < |x| ==> name[i] == x[i];
      assert i + 1 < |x| ==> name[i + 1] == x[i + 1];
    }
    assert ValidLabel(name);
    NormalFormIsFixed(x);
    NormalFormIsFixed(name);
    assert ReplaceRuns(Lower(name), c => !LabelChar(c)) == name by {
      assert Lower(name) == name;
      ReplaceRunsFixed(name, c => !LabelChar(c));
    }
    assert Collapsed(branch) == Collapsed(name);
    HostLabelIsValid(x, PREVIEW_SUFFIX);
  }
}
