/** The certificate bundle handed to Claude Code: line endings, trimming, and the merge itself. */
module CaBundle {
  import opened Common
  import opened Text

  // ---- Line endings ----

  /** Every CR LF becomes LF, from left to right. */
  function ReplaceCrLf(s: string): string {
    if s == [] then []
    else if |s| >= 2 && s[0] == '\r' && s[1] == '\n' then ['\n'] + ReplaceCrLf(s[2..])
    else [s[0]] + ReplaceCrLf(s[1..])
  }

  function ReplaceCr(s: string): string {
    if s == [] then [] else [if s[0] == '\r' then '\n' else s[0]] + ReplaceCr(s[1..])
  }

  function Canonical(s: string): string {
    ReplaceCr(ReplaceCrLf(s))
  }

  /** One pass over the text: CR LF, a lone CR and LF are each one line end. */
  function LineEnds(s: string): string {
    if s == [] then []
    else if s[0] != '\r' then [s[0]] + LineEnds(s[1..])
    else ['\n'] + LineEnds(if |s| >= 2 && s[1] == '\n' then s[2..] else s[1..])
  }

  lemma {:induction false} CanonicalIsOnePass(s: string)
    ensures Canonical(s) == LineEnds(s)
  {
    if s != [] {
      if |s| >= 2 && s[0] == '\r' && s[1] == '\n' {
        CanonicalIsOnePass(s[2..]);
        assert (['\n'] + ReplaceCrLf(s[2..]))[1..] == ReplaceCrLf(s[2..]);
      } else {
        CanonicalIsOnePass(s[1..]);
        assert ([s[0]] + ReplaceCrLf(s[1..]))[1..] == ReplaceCrLf(s[1..]);
      }
    }
  }

  lemma {:induction false} LineEndsLeavesNoCr(s: string)
    ensures '\r' !in LineEnds(s)
    ensures Blank(LineEnds(s)) <==> Blank(s)
    decreases |s|
  {
    if s != [] {
      var n := if s[0] == '\r' && |s| >= 2 && s[1] == '\n' then 2 else 1;
      LineEndsLeavesNoCr(s[n..]);
      assert s == s[..n] + s[n..];
      assert forall c :: c in s[..n] ==> c == s[0] || c == '\n';
      BlankConcat(s[..n], s[n..]);
      BlankConcat([LineEnds(s)[0]], LineEnds(s[n..]));
    }
  }

  lemma BlankConcat(a: string, b: string)
    ensures Blank(a + b) <==> Blank(a) && Blank(b)
  {
    assert forall c :: c in a ==> c in a + b;
    assert forall c :: c in b ==> c in a + b;
  }

  lemma {:induction false} LineEndsFixed(s: string)
    requires '\r' !in s
    ensures LineEnds(s) == s
  {
    if s != [] {
      assert s[0] in s;
      assert forall c :: c in s[1..] ==> c in s;
      LineEndsFixed(s[1..]);
    }
  }

  lemma CanonicalFixed(s: string)
    requires '\r' !in s
    ensures Canonical(s) == s
  {
    CanonicalIsOnePass(s);
    LineEndsFixed(s);
  }

  // ---- Normal form ----

  /** The trimmed canonical text: what a certificate or bundle is, up to line ends and outer white space. */
  function Core(s: string): string {
    Trim(Canonical(s))
  }

  function Normalized(s: string): string {
    Core(s) + "\n"
  }

  predicate Occurs(s: string, part: string, i: nat) {
    i + |part| <= |s| && s[i..i + |part|] == part
  }

  ghost predicate Contains(s: string, part: string) {
    exists i: nat :: Occurs(s, part, i)
  }

  /** `str::contains` tries every position. */
  method Search(s: string, part: string) returns (found: bool)
    ensures found <==> Contains(s, part)
  {
    if |part| > |s| {
      return false;
    }
    for i := 0 to |s| - |part| + 1
      invariant forall j: nat :: j < i ==> !Occurs(s, part, j)
    {
      if s[i..i + |part|] == part {
        assert Occurs(s, part, i);
        return true;
      }
    }
    found := false;
  }

  lemma CoreFacts(s: string)
    ensures '\r' !in Core(s) && Trimmed(Core(s))
    ensures Core(s) == [] <==> Blank(s)
  {
    CanonicalIsOnePass(s);
    LineEndsLeavesNoCr(s);
    var lead, tail := TrimParts(Canonical(s));
    assert forall c :: c in Core(s) ==> c in Canonical(s);
  }

  lemma NewlineIsBlank()
    ensures Blank("\n") && Blank("\n\n") && Blank("")
  {
  }

  /** Text wrapped in line ends has the wrapped text as its core. */
  lemma CoreOfWrapped(lead: string, s: string, tail: string)
    requires Trimmed(s) && '\r' !in s && Blank(lead) && Blank(tail) && '\r' !in lead && '\r' !in tail
    ensures Core(lead + s + tail) == s
  {
    CanonicalFixed(lead + s + tail);
    TrimWrapped(lead, s, tail);
  }

  lemma CoreOfNormalized(s: string)
    ensures Core(Normalized(s)) == Core(s)
    ensures Normalized(Normalized(s)) == Normalized(s)
    ensures Trim(Normalized(s)) == Core(s)
  {
    CoreFacts(s);
    NewlineIsBlank();
    CoreOfWrapped("", Core(s), "\n");
    TrimWrapped("", Core(s), "\n");
    assert "" + Core(s) + "\n" == Normalized(s);
  }

  // ---- Containment ----

  lemma ContainsInner(lead: string, s: string, tail: string, part: string)
    requires Contains(s, part)
    ensures Contains(lead + s + tail, part)
  {
    var i: nat :| Occurs(s, part, i);
    var all := lead + s + tail;
    assert all[|lead| + i..|lead| + i + |part|] == s[i..i + |part|];
    assert Occurs(all, part, |lead| + i);
  }

  lemma ContainsPart(lead: string, s: string, tail: string)
    ensures Contains(lead + s + tail, s)
  {
    assert Occurs(lead + s + tail, s, |lead|);
  }

  /** A trimmed text found inside white-space padding is found without the padding. */
  lemma ContainsTrimmed(lead: string, s: string, tail: string, part: string)
    requires Blank(lead) && Blank(tail) && Trimmed(part) && Contains(lead + s + tail, part)
    ensures Contains(s, part)
  {
    var all := lead + s + tail;
    var i: nat :| Occurs(all, part, i);
    if part == [] {
      assert Occurs(s, part, 0);
    } else {
      assert forall k :: 0 <= k < |lead| ==> all[k] == lead[k] && lead[k] in lead;
      assert forall k :: |lead| + |s| <= k < |all| ==> all[k] == tail[k - |lead| - |s|] && all[k] in tail;
      assert all[i] == part[0] && all[i + |part| - 1] == Last(part);
      assert |lead| <= i && i + |part| <= |lead| + |s|;
      var k := i - |lead|;
      assert s[k..k + |part|] == all[i..i + |part|];
      assert Occurs(s, part, k);
    }
  }

  /** The source's test on a bundle and a certificate, both as read from disk. */
  ghost predicate HasCertificate(bundle: string, certificate: string) {
    Contains(Canonical(bundle), Trim(Normalized(certificate)))
  }

  lemma HasCertificateMeans(bundle: string, certificate: string)
    ensures HasCertificate(bundle, certificate) <==> Contains(Core(bundle), Core(certificate))
  {
    CoreOfNormalized(certificate);
    CoreFacts(certificate);
    var lead, tail := TrimParts(Canonical(bundle));
    if HasCertificate(bundle, certificate) {
      ContainsTrimmed(lead, Core(bundle), tail, Core(certificate));
    }
    if Contains(Core(bundle), Core(certificate)) {
      ContainsInner(lead, Core(bundle), tail, Core(certificate));
    }
  }

  // ---- Merge ----

  ghost function Merged(previous: string, root: string): string {
    if HasCertificate(previous, root) then Normalized(previous)
    else Normalized(previous) + "\n" + Normalized(root)
  }

  method Merge(previous: string, root: string) returns (bundle: string)
    ensures bundle == Merged(previous, root)
  {
    var found := Search(Canonical(previous), Trim(Normalized(root)));
    bundle := if found then Normalized(previous) else Normalized(previous) + "\n" + Normalized(root);
  }

  /** The output always contains the root certificate, and everything the previous bundle had. */
  lemma MergedContainsBoth(previous: string, root: string)
    ensures Contains(Merged(previous, root), Core(root))
    ensures Contains(Merged(previous, root), Core(previous))
    ensures Core(previous) <= Merged(previous, root)
  {
    HasCertificateMeans(previous, root);
    if HasCertificate(previous, root) {
      ContainsInner("", Core(previous), "\n", Core(root));
      assert "" + Core(previous) + "\n" == Merged(previous, root);
    } else {
      ContainsPart(Normalized(previous) + "\n", Core(root), "\n");
      assert Merged(previous, root) == Normalized(previous) + "\n" + Core(root) + "\n";
    }
    ContainsPart("", Core(previous), Merged(previous, root)[|Core(previous)|..]);
    assert Merged(previous, root) == "" + Core(previous) + Merged(previous, root)[|Core(previous)|..];
  }

  lemma MergedHasCertificate(previous: string, root: string)
    ensures HasCertificate(Merged(previous, root), root)
  {
    MergedContainsBoth(previous, root);
    CoreFacts(previous);
    CoreFacts(root);
    CoreOfNormalized(root);
    CanonicalFixed(Merged(previous, root));
  }

  /** Re-merging keeps the trimmed text: a first merge can only have left blank lines in front. */
  lemma CoreOfMerged(previous: string, root: string)
    ensures Core(Merged(previous, root)) ==
            if HasCertificate(previous, root) then Core(previous)
            else if Blank(previous) then Core(root)
            else Core(previous) + "\n\n" + Core(root)
  {
    hide HasCertificate, Contains, Core, Blank, Trimmed;
    if HasCertificate(previous, root) {
      CoreOfNormalized(previous);
    } else if Blank(previous) {
      CoreOfBlankMerge(previous, root);
    } else {
      CoreOfAppended(previous, root);
    }
  }

  lemma CoreOfBlankMerge(previous: string, root: string)
    requires Blank(previous)
    ensures Core(Normalized(previous) + "\n" + Normalized(root)) == Core(root)
  {
    CoreFacts(previous);
    CoreFacts(root);
    NewlineIsBlank();
    CoreOfWrapped("\n\n", Core(root), "\n");
    assert "\n\n" + Core(root) + "\n" == Normalized(previous) + "\n" + Normalized(root);
  }

  lemma CoreOfAppended(previous: string, root: string)
    requires !Blank(previous) && !HasCertificate(previous, root)
    ensures Core(Normalized(previous) + "\n" + Normalized(root)) == Core(previous) + "\n\n" + Core(root)
  {
    hide HasCertificate, Core, Blank;
    CoreFacts(previous);
    CoreFacts(root);
    NewlineIsBlank();
    AbsentIsNotBlank(previous, root);
    var both := Core(previous) + "\n\n" + Core(root);
    assert Last(both) == Last(Core(root)) && both[0] == Core(previous)[0];
    CoreOfWrapped("", both, "\n");
    assert "" + both + "\n" == Normalized(previous) + "\n" + Normalized(root);
  }

  lemma AbsentIsNotBlank(previous: string, root: string)
    requires !HasCertificate(previous, root)
    ensures !Blank(root)
  {
    HasCertificateMeans(previous, root);
    CoreFacts(root);
    assert Occurs(Core(previous), [], 0);
  }

  /**
   * Merging again changes nothing, except that a blank previous bundle with a real certificate
   * needs a second merge; the third never changes anything.
   */
  lemma MergeReachesFixedPoint(previous: string, root: string)
    ensures var once := Merged(previous, root); var twice := Merged(once, root);
            && (twice == once <==> !(Blank(previous) && !Blank(root)))
            && Merged(twice, root) == twice
  {
    hide Core, Contains, Canonical, Trimmed;
    var once := Merged(previous, root);
    var twice := Merged(once, root);
    MergedHasCertificate(previous, root);
    MergedHasCertificate(once, root);
    CoreOfMerged(previous, root);
    CoreOfMerged(once, root);
    assert Merged(twice, root) == Core(twice) + "\n" == Core(once) + "\n" == twice;
    CoreFacts(previous);
    CoreFacts(root);
    if HasCertificate(previous, root) {
      if Blank(previous) && !Blank(root) {
        BlankHasNothing(previous, root);
        assert false;
      }
    } else if Blank(previous) {
      assert |once| == |Core(root)| + 3 && |twice| == |Core(root)| + 1;
      AbsentIsNotBlank(previous, root);
    } else {
      assert twice == Core(previous) + "\n\n" + Core(root) + "\n";
      assert once == Core(previous) + "\n" + "\n" + (Core(root) + "\n");
    }
  }

  lemma BlankHasNothing(previous: string, root: string)
    requires Blank(previous) && !Blank(root)
    ensures !HasCertificate(previous, root)
  {
    HasCertificateMeans(previous, root);
    CoreFacts(previous);
    CoreFacts(root);
  }
}
