/** The project and version that the scanner registers for an image, and the ones
    that the arbiter later reads out of a pod's image name. */
module ImageNames {

  /** `sep` stands in `s` at position `i`. */
  predicate At(s: string, sep: string, i: nat) {
    i + |sep| <= |s| && s[i..i + |sep|] == sep
  }

  ghost predicate Free(s: string, sep: string) {
    forall i: nat :: !At(s, sep, i)
  }

  /** The first position from `i` on where `sep` stands, or the length of `s`. */
  function Index(s: string, sep: string, i: nat): nat
    requires i <= |s|
    decreases |s| - i
  {
    if At(s, sep, i) || i == |s| then i else Index(s, sep, i + 1)
  }

  /** Go's strings.Split for a non-empty separator. */
  function Split(s: string, sep: string): (parts: seq<string>)
    requires sep != ""
    ensures parts != []
    decreases |s|
  {
    var i := Index(s, sep, 0);
    IndexFinds(s, sep, 0);
    if i == |s| then [s] else [s[..i]] + Split(s[i + |sep|..], sep)
  }

  lemma {:induction false} IndexFinds(s: string, sep: string, i: nat)
    requires i <= |s| && sep != ""
    ensures i <= Index(s, sep, i) <= |s|
    ensures Index(s, sep, i) < |s| ==> At(s, sep, Index(s, sep, i))
    ensures forall k | i <= k < Index(s, sep, i) :: !At(s, sep, k)
    decreases |s| - i
  {
    if !At(s, sep, i) && i < |s| {
      IndexFinds(s, sep, i + 1);
    }
  }

  function Join(parts: seq<string>, sep: string): string
    requires parts != []
  {
    if |parts| == 1 then parts[0] else parts[0] + sep + Join(parts[1..], sep)
  }

  lemma PrefixFree(s: string, sep: string, i: nat)
    requires i <= |s| && forall k | 0 <= k < i :: !At(s, sep, k)
    requires sep != ""
    ensures Free(s[..i], sep)
  {
    forall k: nat ensures !At(s[..i], sep, k) {
      if k + |sep| <= i {
        assert s[..i][k..k + |sep|] == s[k..k + |sep|];
        assert !At(s, sep, k);
      }
    }
  }

  ghost predicate AllFree(parts: seq<string>, sep: string) {
    forall k | 0 <= k < |parts| :: Free(parts[k], sep)
  }

  lemma FreeCons(first: string, rest: seq<string>, sep: string)
    requires Free(first, sep) && AllFree(rest, sep)
    ensures AllFree([first] + rest, sep)
  {
  }

  lemma SplitsOff(s: string, sep: string)
    requires sep != "" && Index(s, sep, 0) < |s|
    ensures var i := Index(s, sep, 0);
            && i + |sep| <= |s| && Free(s[..i], sep)
            && var rest := s[i + |sep|..];
               && s == s[..i] + sep + rest
               && Split(s, sep) == [s[..i]] + Split(rest, sep)
               && Join(Split(s, sep), sep) == s[..i] + sep + Join(Split(rest, sep), sep)
  {
    var i := Index(s, sep, 0);
    IndexFinds(s, sep, 0);
    PrefixFree(s, sep, i);
    assert Split(s, sep)[1..] == Split(s[i + |sep|..], sep);
  }

  lemma SplitsWhole(s: string, sep: string)
    requires sep != "" && Index(s, sep, 0) >= |s|
    ensures Split(s, sep) == [s] && Free(s, sep)
  {
    IndexFinds(s, sep, 0);
    PrefixFree(s, sep, |s|);
    assert s[..|s|] == s;
  }

  /** What Split is for: the parts joined give the string back and none of them
      holds the separator. */
  lemma {:induction false} SplitJoins(s: string, sep: string)
    requires sep != ""
    ensures Join(Split(s, sep), sep) == s && AllFree(Split(s, sep), sep)
    decreases |s|
  {
    hide At, Free, Index, Split;
    var i := Index(s, sep, 0);
    if i < |s| {
      SplitsOff(s, sep);
      var rest := s[i + |sep|..];
      SplitJoins(rest, sep);
      FreeCons(s[..i], Split(rest, sep), sep);
    } else {
      SplitsWhole(s, sep);
    }
  }

  /** No proper beginning of `sep` is also an ending of it: occurrences cannot
      overlap. */
  ghost predicate Unbordered(sep: string) {
    forall k | 0 < k < |sep| :: sep[k..] != sep[..|sep| - k]
  }

  lemma SeparatorsUnbordered()
    ensures Unbordered("://") && Unbordered("@sha256:")
  {
    var a, b := "://", "@sha256:";
    forall k | 0 < k < |a| ensures a[k..] != a[..|a| - k] {
      assert a[k..][0] == a[k];
    }
    forall k | 0 < k < |b| ensures b[k..] != b[..|b| - k] {
      assert b[k..][0] == b[k];
    }
  }

  /** An occurrence that begins before the separator lies before it or overlaps it. */
  lemma OccurrenceBefore(a: string, sep: string, b: string, k: nat)
    requires k < |a|
    ensures At(a + sep + b, sep, k) ==>
              At(a, sep, k) || (var d := |a| - k; 0 < d < |sep| && sep[d..] == sep[..|sep| - d])
  {
    var s := a + sep + b;
    if At(s, sep, k) && k + |sep| <= |a| {
      assert s[k..k + |sep|] == a[k..k + |sep|];
    } else if At(s, sep, k) {
      var d := |a| - k;
      assert s[k..k + |sep|][d..] == s[|a|..k + |sep|] == sep[..|sep| - d];
    }
  }

  /** Up to the first separator a string splits at it, wherever the boundary lies. */
  lemma SplitAt(a: string, sep: string, b: string)
    requires sep != "" && Unbordered(sep) && Free(a, sep)
    ensures Split(a + sep + b, sep) == [a] + Split(b, sep)
  {
    var s := a + sep + b;
    forall k | 0 <= k < |a| ensures !At(s, sep, k) {
      OccurrenceBefore(a, sep, b, k);
    }
    assert At(s, sep, |a|);
    IndexIs(s, sep, 0, |a|);
    assert s[..|a|] == a;
    assert s[|a| + |sep|..] == b;
  }

  lemma {:induction false} IndexIs(s: string, sep: string, i: nat, n: nat)
    requires i <= n <= |s| && (At(s, sep, n) || n == |s|)
    requires forall k | i <= k < n :: !At(s, sep, k)
    ensures Index(s, sep, i) == n
    decreases n - i
  {
    if i < n {
      IndexIs(s, sep, i + 1, n);
    }
  }

  lemma SplitFree(s: string, sep: string)
    requires sep != ""
    ensures |Split(s, sep)| == 1 <==> Free(s, sep)
    ensures Free(s, sep) ==> Split(s, sep) == [s]
  {
    IndexFinds(s, sep, 0);
    if Free(s, sep) {
      assert !At(s, sep, Index(s, sep, 0));
    } else {
      var k: nat :| At(s, sep, k);
      assert Index(s, sep, 0) < |s|;
    }
  }

  // ---- the two readers ----

  datatype Named = Named(project: string, version: string) | BadName | BadPullSpec | Panics

  const SCHEME := "://"
  const DIGEST := "@sha256:"
  const PREFIX := 10

  /** The scanner: takes the two parts around the first digest mark, and panics if
      there is none or the second is short. */
  function ScannerName(tagged: string): Named {
    var parts := Split(tagged, DIGEST);
    if |parts| < 2 || |parts[1]| < PREFIX then Panics else Named(parts[0], parts[1][..PREFIX])
  }

  /** The arbiter, for the image name in a pod's status. */
  function ArbiterName(imageName: string): Named {
    var components := Split(imageName, SCHEME);
    if |components| != 2 then BadName
    else
      var parts := Split(components[1], DIGEST);
      if |parts| != 2 then BadPullSpec
      else if |parts[1]| < PREFIX then Panics
      else Named(parts[0], parts[1][..PREFIX])
  }

  /** For every image reference, however odd: the arbiter reads back what the
      scanner registered exactly when the reference holds no scheme mark, one
      digest mark and a long enough digest. */
  lemma ArbiterReadsScannerIff(scheme: string, ref: string)
    requires Free(scheme, SCHEME)
    ensures ArbiterName(scheme + SCHEME + ref).Named? <==>
            Free(ref, SCHEME) && |Split(ref, DIGEST)| == 2 && ScannerName(ref).Named?
    ensures ArbiterName(scheme + SCHEME + ref).Named? ==> ArbiterName(scheme + SCHEME + ref) == ScannerName(ref)
  {
    SeparatorsUnbordered();
    SplitAt(scheme, SCHEME, ref);
    SplitFree(ref, SCHEME);
  }

  lemma NoSchemeMark(name: string, hex: string)
    requires Free(name, SCHEME) && Free(hex, SCHEME)
    ensures Free(name + DIGEST + hex, SCHEME) <==> !("//" <= hex)
  {
    var s := name + DIGEST + hex;
    var n, m := |name|, |name| + |DIGEST|;
    if "//" <= hex {
      assert s[m - 1] == ':' && s[m] == hex[0] == '/' && s[m + 1] == hex[1] == '/';
      assert s[m - 1..m + 2] == SCHEME;
      assert At(s, SCHEME, m - 1);
    } else {
      forall k: nat ensures !At(s, SCHEME, k) {
        if At(s, SCHEME, k) {
          assert s[k] == s[k..k + 3][0] == ':' && s[k + 1] == s[k..k + 3][1] == '/' && s[k + 2] == s[k..k + 3][2] == '/';
          MarkPosition(name, hex, k);
        }
      }
    }
  }

  /** A scheme mark in `name@sha256:hex` would lie in the name, in the digest, or
      across the colon. */
  lemma MarkPosition(name: string, hex: string, k: nat)
    requires var s := name + DIGEST + hex; k + 3 <= |s| && s[k] == ':' && s[k + 1] == '/' && s[k + 2] == '/'
    ensures At(name, SCHEME, k) || (k >= |name| + |DIGEST| && At(hex, SCHEME, k - |name| - |DIGEST|)) || "//" <= hex
  {
    var s := name + DIGEST + hex;
    var n, m := |name|, |name| + |DIGEST|;
    assert forall i | n <= i < m :: s[i] == DIGEST[i - n];
    assert k < n ==> s[n] == '@';
    if k + 3 <= n {
      assert name[k..k + 3] == SCHEME;
    } else if k >= m {
      assert hex[k - m..k - m + 3] == SCHEME;
    } else if k + 1 == m {
      assert hex[0] == '/' && hex[1] == '/';
    }
  }

  /** A name and a digest free of both marks, under a scheme free of its own: the
      two agree if and only if the digest does not begin with two slashes. With
      them the colon of the digest mark completes a second scheme mark, and the
      arbiter refuses the name. */
  lemma NamesAgreeIff(scheme: string, name: string, hex: string)
    requires Free(scheme, SCHEME) && Free(name, SCHEME) && Free(hex, SCHEME)
    requires Free(name, DIGEST) && Free(hex, DIGEST) && |hex| >= PREFIX
    ensures ScannerName(name + DIGEST + hex) == Named(name, hex[..PREFIX])
    ensures ArbiterName(scheme + SCHEME + (name + DIGEST + hex)) == ScannerName(name + DIGEST + hex) <==> !("//" <= hex)
  {
    SeparatorsUnbordered();
    SplitAt(name, DIGEST, hex);
    SplitFree(hex, DIGEST);
    NoSchemeMark(name, hex);
    ArbiterReadsScannerIff(scheme, name + DIGEST + hex);
  }

  /** Such a digest, though no SHA-256 in hexadecimal has one. */
  lemma NamesDisagree()
    ensures Free("docker-pullable", SCHEME) && Free("nginx", SCHEME) && Free("//12345678", SCHEME)
    ensures Free("nginx", DIGEST) && Free("//12345678", DIGEST)
    ensures ArbiterName("docker-pullable" + SCHEME + ("nginx" + DIGEST + "//12345678")) != ScannerName("nginx" + DIGEST + "//12345678")
  {
    NoColon("docker-pullable");
    NoColon("nginx");
    NoColon("//12345678");
    NamesAgreeIff("docker-pullable", "nginx", "//12345678");
  }

  lemma NoColon(s: string)
    requires ':' !in s
    ensures Free(s, SCHEME) && Free(s, DIGEST)
  {
    forall k: nat ensures !At(s, SCHEME, k) && !At(s, DIGEST, k) {
      if k + |SCHEME| <= |s| {
        assert s[k..k + |SCHEME|][0] == s[k] != ':';
      }
      if k + |DIGEST| <= |s| {
        assert s[k..k + |DIGEST|][7] == s[k + 7] != ':';
      }
    }
  }

  // ---- every answer, case by case ----

  lemma SplitNeverEmpty(s: string, sep: string)
    requires sep != ""
    ensures |Split(s, sep)| >= 1
  {
  }

  /** What the scanner makes of a reference: it needs one digest mark, ten characters
      after it, and reads no further than a second mark. */
  lemma ScannerReads(name: string, hex: string, rest: string)
    requires Free(name, "@sha256:") && Free(hex, "@sha256:")
    ensures ScannerName(name) == Panics
    ensures ScannerName(name + "@sha256:" + hex) == if |hex| < 10 then Panics else Named(name, hex[..10])
    ensures ScannerName(name + "@sha256:" + (hex + "@sha256:" + rest)) == if |hex| < 10 then Panics else Named(name, hex[..10])
  {
    SeparatorsUnbordered();
    SplitFree(name, DIGEST);
    SplitFree(hex, DIGEST);
    SplitAt(name, DIGEST, hex);
    SplitAt(hex, DIGEST, rest);
    SplitAt(name, DIGEST, hex + DIGEST + rest);
  }

  /** What the arbiter makes of a pod's image name: it wants exactly one scheme mark
      in all and one digest mark after it, tells the two faults apart, and panics on
      a digest of fewer than ten characters. */
  lemma ArbiterReads(scheme: string, name: string, hex: string, rest: string)
    requires Free(scheme, "://") && Free(name, "@sha256:") && Free(hex, "@sha256:")
    ensures ArbiterName(scheme) == BadName
    ensures !Free(rest, "://") ==> ArbiterName(scheme + "://" + rest) == BadName
    ensures Free(name, "://") ==> ArbiterName(scheme + "://" + name) == BadPullSpec
    ensures Free(name + "@sha256:" + hex, "://") ==>
              ArbiterName(scheme + "://" + (name + "@sha256:" + hex)) == if |hex| < 10 then Panics else Named(name, hex[..10])
    ensures Free(name + "@sha256:" + (hex + "@sha256:" + rest), "://") ==>
              ArbiterName(scheme + "://" + (name + "@sha256:" + (hex + "@sha256:" + rest))) == BadPullSpec
  {
    SplitFree(scheme, SCHEME);
    AfterScheme(scheme, rest);
    AfterScheme(scheme, name);
    AfterScheme(scheme, name + DIGEST + hex);
    AfterScheme(scheme, name + DIGEST + (hex + DIGEST + rest));
    SeparatorsUnbordered();
    SplitFree(name, DIGEST);
    SplitFree(hex, DIGEST);
    SplitAt(name, DIGEST, hex);
    SplitAt(hex, DIGEST, rest);
    SplitAt(name, DIGEST, hex + DIGEST + rest);
    SplitNeverEmpty(rest, DIGEST);
  }

  lemma AfterScheme(scheme: string, path: string)
    requires Free(scheme, SCHEME)
    ensures Free(path, SCHEME) ==> Split(scheme + SCHEME + path, SCHEME) == [scheme, path]
    ensures !Free(path, SCHEME) ==> |Split(scheme + SCHEME + path, SCHEME)| > 2
  {
    SeparatorsUnbordered();
    SplitAt(scheme, SCHEME, path);
    SplitFree(path, SCHEME);
    SplitNeverEmpty(path, SCHEME);
  }
}
