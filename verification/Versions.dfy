/** Version precedence in `electron/appUpdater.ts`, and its agreement with item 11 of Semantic
    Versioning 2.0.0. */
module Versions {
  import opened Common

  datatype Identifier = Numeric(n: nat) | Word(word: string)

  /** A parsed version; build metadata plays no part. */
  datatype Version = Version(major: nat, minor: nat, patch: nat, prerelease: seq<Identifier>)

  function Core(v: Version, i: nat): nat {
    if i == 0 then v.major else if i == 1 then v.minor else v.patch
  }

  // ---- As the program compares ----

  /** The sign of a comparison of identifiers that differ. */
  function CompareIdentifiers(x: Identifier, y: Identifier): int {
    if x == y then 0
    else if x.Numeric? && y.Numeric? then x.n - y.n
    else if x.Numeric? then -1
    else if y.Numeric? then 1
    else CompareStrings(x.word, y.word)
  }

  function ComparePrerelease(a: seq<Identifier>, b: seq<Identifier>): int {
    if a == [] then if b == [] then 0 else -1
    else if b == [] then 1
    else
      var first := CompareIdentifiers(a[0], b[0]);
      if first != 0 then first else ComparePrerelease(a[1..], b[1..])
  }

  function CompareParsed(a: Version, b: Version): int {
    if a.major != b.major then a.major - b.major
    else if a.minor != b.minor then a.minor - b.minor
    else if a.patch != b.patch then a.patch - b.patch
    else if a.prerelease == [] || b.prerelease == [] then |b.prerelease| - |a.prerelease|
    else ComparePrerelease(a.prerelease, b.prerelease)
  }

  /** A version that could not be read is below every other. */
  function Compare(a: Option<Version>, b: Option<Version>): int {
    if a == None || b == None then (if a.Some? then 1 else if b.Some? then -1 else 0)
    else CompareParsed(a.value, b.value)
  }

  method CompareVersions(left: Option<Version>, right: Option<Version>) returns (r: int)
    ensures r == Compare(left, right)
  {
    if left == None || right == None {
      return if left.Some? then 1 else if right.Some? then -1 else 0;
    }
    var a, b := left.value, right.value;
    for index := 0 to 3
      invariant forall i :: 0 <= i < index ==> Core(a, i) == Core(b, i)
    {
      assert 1 <= index ==> Core(a, 0) == Core(b, 0);
      assert 2 <= index ==> Core(a, 1) == Core(b, 1);
      if Core(a, index) != Core(b, index) {
        return Core(a, index) - Core(b, index);
      }
    }
    assert Core(a, 0) == Core(b, 0) && Core(a, 1) == Core(b, 1) && Core(a, 2) == Core(b, 2);
    if a.prerelease == [] || b.prerelease == [] {
      return |b.prerelease| - |a.prerelease|;
    }
    var index := 0;
    while index < |a.prerelease| || index < |b.prerelease|
      invariant index <= |a.prerelease| && index <= |b.prerelease|
      invariant ComparePrerelease(a.prerelease, b.prerelease)
             == ComparePrerelease(a.prerelease[index..], b.prerelease[index..])
      decreases |a.prerelease| - index
    {
      if index == |a.prerelease| { return -1; }
      if index == |b.prerelease| { return 1; }
      var x, y := a.prerelease[index], b.prerelease[index];
      if x != y {
        WordsDiffer(x, y);
        if x.Numeric? && y.Numeric? { return x.n - y.n; }
        if x.Numeric? { return -1; }
        if y.Numeric? { return 1; }
        return if CompareStrings(x.word, y.word) < 0 then -1 else 1;
      }
      index := index + 1;
    }
    return 0;
  }

  lemma WordsDiffer(x: Identifier, y: Identifier)
    ensures CompareIdentifiers(x, y) == 0 <==> x == y
    ensures CompareIdentifiers(x, y) < 0 <==> CompareIdentifiers(y, x) > 0
  {
    if x.Word? && y.Word? {
      StringsAntisymmetric(x.word, y.word);
    }
  }

  // ---- As the standard compares ----

  /** ASCII order: the first difference decides, and a proper prefix comes first. */
  ghost predicate Lexically(s: string, t: string) {
    exists k :: 0 <= k <= |s| && k <= |t| && s[..k] == t[..k] && WordBreaks(s, t, k)
  }

  predicate WordBreaks(s: string, t: string, k: nat)
    requires k <= |s| && k <= |t|
  {
    (k == |s| && k < |t|) || (k < |s| && k < |t| && s[k] < t[k])
  }

  ghost predicate IdentifierPrecedes(x: Identifier, y: Identifier) {
    match (x, y)
    case (Numeric(m), Numeric(n)) => m < n
    case (Numeric(_), Word(_)) => true
    case (Word(_), Numeric(_)) => false
    case (Word(s), Word(t)) => Lexically(s, t)
  }

  ghost predicate Breaks(a: seq<Identifier>, b: seq<Identifier>, k: nat)
    requires k <= |a| && k <= |b|
  {
    (k == |a| && k < |b|) || (k < |a| && k < |b| && IdentifierPrecedes(a[k], b[k]))
  }

  /** Item 11.4: the first identifiers that differ decide; a larger set comes after a smaller one it
      starts with. */
  ghost predicate PrereleasePrecedes(a: seq<Identifier>, b: seq<Identifier>) {
    exists k :: 0 <= k <= |a| && k <= |b| && a[..k] == b[..k] && Breaks(a, b, k)
  }

  /** Item 11: major, minor and patch decide from left to right; a pre-release comes before the version
      it leads to. */
  ghost predicate Precedes(a: Version, b: Version) {
    || a.major < b.major
    || (a.major == b.major && a.minor < b.minor)
    || (a.major == b.major && a.minor == b.minor && a.patch < b.patch)
    || (a.major == b.major && a.minor == b.minor && a.patch == b.patch && a.prerelease != []
        && (b.prerelease == [] || PrereleasePrecedes(a.prerelease, b.prerelease)))
  }

  lemma SamePrefix<T>(s: seq<T>, t: seq<T>, k: nat)
    requires 0 < k <= |s| && k <= |t| && s[..k] == t[..k]
    ensures s[0] == t[0]
  {
    assert s[..k][0] == s[0] && t[..k][0] == t[0];
  }

  lemma {:induction false} WordsAgree(s: string, t: string)
    ensures CompareStrings(s, t) < 0 <==> Lexically(s, t)
    decreases |s|
  {
    if s == [] || t == [] || s[0] != t[0] {
      if Lexically(s, t) {
        var k :| 0 <= k <= |s| && k <= |t| && s[..k] == t[..k] && WordBreaks(s, t, k);
        if k > 0 { SamePrefix(s, t, k); }
      } else {
        assert s[..0] == t[..0];
        assert !WordBreaks(s, t, 0);
      }
    } else {
      WordsAgree(s[1..], t[1..]);
      if Lexically(s[1..], t[1..]) {
        var k :| 0 <= k <= |s[1..]| && k <= |t[1..]| && s[1..][..k] == t[1..][..k] && WordBreaks(s[1..], t[1..], k);
        assert s[..k + 1] == [s[0]] + s[1..][..k] && t[..k + 1] == [t[0]] + t[1..][..k];
        assert WordBreaks(s, t, k + 1);
      }
      if Lexically(s, t) {
        var k :| 0 <= k <= |s| && k <= |t| && s[..k] == t[..k] && WordBreaks(s, t, k);
        assert s[1..][..k - 1] == s[..k][1..] && t[1..][..k - 1] == t[..k][1..];
        assert WordBreaks(s[1..], t[1..], k - 1);
      }
    }
  }

  lemma IdentifiersAgree(x: Identifier, y: Identifier)
    ensures CompareIdentifiers(x, y) < 0 <==> IdentifierPrecedes(x, y)
  {
    if x.Word? && y.Word? {
      WordsAgree(x.word, y.word);
      StringsAntisymmetric(x.word, y.word);
    }
  }

  lemma {:induction false} PrereleasesAgree(a: seq<Identifier>, b: seq<Identifier>)
    ensures ComparePrerelease(a, b) < 0 <==> PrereleasePrecedes(a, b)
    decreases |a|
  {
    if a == [] || b == [] || CompareIdentifiers(a[0], b[0]) != 0 {
      FirstDecides(a, b);
    } else {
      WordsDiffer(a[0], b[0]);
      PrereleasesAgree(a[1..], b[1..]);
      FirstIsSkipped(a, b);
    }
  }

  lemma FirstDecides(a: seq<Identifier>, b: seq<Identifier>)
    requires a == [] || b == [] || CompareIdentifiers(a[0], b[0]) != 0
    ensures ComparePrerelease(a, b) < 0 <==> PrereleasePrecedes(a, b)
  {
    if a != [] && b != [] {
      WordsDiffer(a[0], b[0]);
      IdentifiersAgree(a[0], b[0]);
    }
    assert a[..0] == b[..0];
    assert Breaks(a, b, 0) <==> ComparePrerelease(a, b) < 0;
    if PrereleasePrecedes(a, b) {
      var k :| 0 <= k <= |a| && k <= |b| && a[..k] == b[..k] && Breaks(a, b, k);
      if k > 0 { SamePrefix(a, b, k); }
    }
  }

  lemma FirstIsSkipped(a: seq<Identifier>, b: seq<Identifier>)
    requires a != [] && b != [] && a[0] == b[0]
    ensures PrereleasePrecedes(a, b) <==> PrereleasePrecedes(a[1..], b[1..])
  {
    var x, y := a[1..], b[1..];
    if PrereleasePrecedes(x, y) {
      var k :| 0 <= k <= |x| && k <= |y| && x[..k] == y[..k] && Breaks(x, y, k);
      assert a[..k + 1] == [a[0]] + x[..k] && b[..k + 1] == [b[0]] + y[..k];
      assert Breaks(a, b, k + 1);
    }
    if PrereleasePrecedes(a, b) {
      var k :| 0 <= k <= |a| && k <= |b| && a[..k] == b[..k] && Breaks(a, b, k);
      SelfNotBefore(a[0]);
      assert x[..k - 1] == a[..k][1..] && y[..k - 1] == b[..k][1..];
      assert Breaks(x, y, k - 1);
    }
  }

  lemma SelfNotBefore(x: Identifier)
    ensures !IdentifierPrecedes(x, x)
  {
    IdentifiersAgree(x, x);
  }

  // ---- A total order ----

  lemma {:induction false} PrereleaseAntisymmetric(a: seq<Identifier>, b: seq<Identifier>)
    ensures ComparePrerelease(a, b) < 0 <==> ComparePrerelease(b, a) > 0
    ensures ComparePrerelease(a, b) == 0 <==> a == b
    decreases |a|
  {
    if a != [] && b != [] {
      WordsDiffer(a[0], b[0]);
      WordsDiffer(b[0], a[0]);
      if a[0] == b[0] {
        PrereleaseAntisymmetric(a[1..], b[1..]);
        assert a == [a[0]] + a[1..] && b == [b[0]] + b[1..];
      }
    }
  }

  lemma IdentifiersTransitive(x: Identifier, y: Identifier, z: Identifier)
    requires CompareIdentifiers(x, y) <= 0 && CompareIdentifiers(y, z) <= 0
    ensures CompareIdentifiers(x, z) <= 0
    ensures CompareIdentifiers(x, z) == 0 ==> x == y == z
  {
    if x.Word? && y.Word? && z.Word? {
      StringsAntisymmetric(x.word, x.word);
      StringsAntisymmetric(z.word, z.word);
      StringsTransitive(x.word, y.word, z.word);
      StringsAntisymmetric(x.word, y.word);
      StringsAntisymmetric(y.word, z.word);
      StringsAntisymmetric(x.word, z.word);
    }
  }

  lemma {:induction false} PrereleaseTransitive(a: seq<Identifier>, b: seq<Identifier>, c: seq<Identifier>)
    requires ComparePrerelease(a, b) <= 0 && ComparePrerelease(b, c) <= 0
    ensures ComparePrerelease(a, c) <= 0
    decreases |a|
  {
    if a != [] && b != [] && c != [] {
      IdentifiersTransitive(a[0], b[0], c[0]);
      if CompareIdentifiers(a[0], c[0]) == 0 {
        PrereleaseTransitive(a[1..], b[1..], c[1..]);
      }
    }
  }

  lemma ParsedTransitive(a: Version, b: Version, c: Version)
    requires CompareParsed(a, b) <= 0 && CompareParsed(b, c) <= 0
    ensures CompareParsed(a, c) <= 0
  {
    if a.prerelease != [] && b.prerelease != [] && c.prerelease != [] {
      if ComparePrerelease(a.prerelease, b.prerelease) <= 0 && ComparePrerelease(b.prerelease, c.prerelease) <= 0 {
        PrereleaseTransitive(a.prerelease, b.prerelease, c.prerelease);
      }
    }
  }

  lemma ParsedAntisymmetric(a: Version, b: Version)
    ensures CompareParsed(a, b) < 0 <==> CompareParsed(b, a) > 0
    ensures CompareParsed(a, b) == 0 <==> a == b
  {
    PrereleaseAntisymmetric(a.prerelease, b.prerelease);
    PrereleaseAntisymmetric(b.prerelease, a.prerelease);
  }

  /** The comparison is a total order with unreadable versions lowest, so a sort or a maximum by it
      means something. */
  lemma CompareIsAnOrder(a: Option<Version>, b: Option<Version>, c: Option<Version>)
    ensures Compare(a, b) < 0 <==> Compare(b, a) > 0
    ensures Compare(a, b) == 0 <==> a == b
    ensures Compare(a, b) <= 0 && Compare(b, c) <= 0 ==> Compare(a, c) <= 0
    ensures Compare(None, b) <= 0
  {
    if a.Some? && b.Some? {
      ParsedAntisymmetric(a.value, b.value);
      if c.Some? && Compare(a, b) <= 0 && Compare(b, c) <= 0 {
        ParsedTransitive(a.value, b.value, c.value);
      }
    }
  }

  /** The comparison is the standard's precedence. */
  lemma CompareIsPrecedence(a: Version, b: Version)
    ensures CompareParsed(a, b) < 0 <==> Precedes(a, b)
    ensures CompareParsed(a, b) > 0 <==> Precedes(b, a)
  {
    ParsedAntisymmetric(a, b);
    ParsedAntisymmetric(b, a);
    PrereleasesAgree(a.prerelease, b.prerelease);
    PrereleasesAgree(b.prerelease, a.prerelease);
  }
}
