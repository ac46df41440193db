/**
 * The part of Gradle's version handling that the cross-version bucket provider relies on:
 * reading a version string such as "4.10.3" and comparing two versions.
 *
 * A version is its major number and the non-empty list of the numbers that follow it.
 * Versions are compared by major number first and then lexicographically on the rest.
 */
module GradleVersion {
  import opened Wrappers

  datatype Version = Version(major: nat, rest: seq<nat>)

  predicate IsDigit(c: char) { '0' <= c <= '9' }

  predicate IsDigits(s: string) { forall k :: 0 <= k < |s| ==> IsDigit(s[k]) }

  function DigitValue(c: char): nat
    requires IsDigit(c)
  {
    (c as int - '0' as int) as nat
  }

  function DigitChar(d: nat): (c: char)
    requires d < 10
    ensures IsDigit(c) && DigitValue(c) == d
  {
    ('0' as int + d) as char
  }

  /** The decimal value of a string of ASCII digits; leading zeros are allowed. */
  function DigitsValue(s: string): nat
    requires IsDigits(s)
  {
    if s == [] then 0 else DigitsValue(s[..|s| - 1]) * 10 + DigitValue(s[|s| - 1])
  }

  /** The decimal text of n, without leading zeros, as Kotlin's `Int.toString` writes it. */
  function DecimalString(n: nat): (s: string)
    ensures s != [] && IsDigits(s)
  {
    if n < 10 then [DigitChar(n)] else DecimalString(n / 10) + [DigitChar(n % 10)]
  }

  /** Writing a number in decimal and reading it back gives the number. */
  lemma {:induction false} DecimalRoundTrip(n: nat)
    ensures DigitsValue(DecimalString(n)) == n
  {
    var s := DecimalString(n);
    if n >= 10 {
      DecimalRoundTrip(n / 10);
      assert s[..|s| - 1] == DecimalString(n / 10);
    }
  }

  /** The pieces joined back together with a '.' between each two. */
  function JoinWithDots(parts: seq<string>): string
    requires parts != []
  {
    if |parts| == 1 then parts[0] else parts[0] + "." + JoinWithDots(parts[1..])
  }

  /** The pieces of s between the '.' characters, in order. */
  function SplitOnDots(s: string): (parts: seq<string>)
    ensures |parts| >= 1
  {
    if s == [] then [""]
    else
      var tail := SplitOnDots(s[1..]);
      if s[0] == '.' then [""] + tail else [[s[0]] + tail[0]] + tail[1..]
  }

  /** The pieces of s contain no '.', and joining them with dots gives s back. */
  lemma {:induction false} SplitJoinsBack(s: string)
    ensures forall k :: 0 <= k < |SplitOnDots(s)| ==> '.' !in SplitOnDots(s)[k]
    ensures JoinWithDots(SplitOnDots(s)) == s
  {
    if s != [] {
      var tail := SplitOnDots(s[1..]);
      SplitJoinsBack(s[1..]);
      if s[0] == '.' {
        assert ([""] + tail)[1..] == tail;
      } else {
        var parts := [[s[0]] + tail[0]] + tail[1..];
        assert parts[1..] == tail[1..];
        assert |tail| > 1 ==> JoinWithDots(tail) == tail[0] + "." + JoinWithDots(tail[1..]);
        assert s == [s[0]] + s[1..];
      }
    }
  }

  /** Splitting a dot-free head followed by t extends the first piece of t's split. */
  lemma {:induction false} SplitDotFreeHead(p: string, t: string)
    requires '.' !in p
    ensures SplitOnDots(p + t) == [p + SplitOnDots(t)[0]] + SplitOnDots(t)[1..]
  {
    if p == [] {
      assert p + t == t && p + SplitOnDots(t)[0] == SplitOnDots(t)[0];
      assert SplitOnDots(t) == [SplitOnDots(t)[0]] + SplitOnDots(t)[1..];
    } else {
      assert (p + t)[0] == p[0] && (p + t)[1..] == p[1..] + t;
      SplitDotFreeHead(p[1..], t);
      assert [p[0]] + (p[1..] + SplitOnDots(t)[0]) == p + SplitOnDots(t)[0];
    }
  }

  /** Splitting dot-free pieces joined with dots gives the pieces back. */
  lemma {:induction false} SplitJoin(parts: seq<string>)
    requires parts != [] && forall k :: 0 <= k < |parts| ==> '.' !in parts[k]
    ensures SplitOnDots(JoinWithDots(parts)) == parts
  {
    if |parts| == 1 {
      SplitDotFreeHead(parts[0], "");
      assert parts[0] + "" == parts[0];
    } else {
      var rest := JoinWithDots(parts[1..]);
      SplitJoin(parts[1..]);
      assert SplitOnDots("." + rest) == [""] + SplitOnDots(rest) by {
        assert ("." + rest)[1..] == rest;
      }
      assert parts[0] + "." + rest == parts[0] + ("." + rest);
      SplitDotFreeHead(parts[0], "." + rest);
      assert parts[0] + "" == parts[0];
    }
  }

  /** The text of a Gradle version: two or more pieces, each a non-empty string of digits. */
  predicate IsVersionText(parts: seq<string>)
  {
    |parts| >= 2 && forall k :: 0 <= k < |parts| ==> parts[k] != [] && IsDigits(parts[k])
  }

  /** The version a version text writes: its first piece's value, then the others' values in order. */
  function VersionOf(parts: seq<string>): (v: Version)
    requires IsVersionText(parts)
    ensures |v.rest| == |parts| - 1
  {
    Version(DigitsValue(parts[0]), seq(|parts| - 1, k requires 0 <= k < |parts| - 1 => DigitsValue(parts[k + 1])))
  }

  /**
   * Reads a Gradle version string made of at least two dot-separated decimal numbers.
   * Anything else is rejected, as GradleVersion.version rejects it with an exception.
   */
  function Parse(s: string): (r: Option<Version>)
    ensures r.Some? ==> |r.value.rest| >= 1
    ensures r.Some? <==> IsVersionText(SplitOnDots(s))
  {
    var parts := SplitOnDots(s);
    if IsVersionText(parts) then Some(VersionOf(parts)) else None
  }

  /**
   * Writing a version text out with dots and reading it back gives the version: the major is
   * the value of the first piece and the rest are the values of the others, in order.
   */
  lemma ParseJoin(parts: seq<string>)
    requires IsVersionText(parts)
    ensures Parse(JoinWithDots(parts)) == Some(VersionOf(parts))
  {
    forall k | 0 <= k < |parts| ensures '.' !in parts[k] {
      assert forall i :: 0 <= i < |parts[k]| ==> parts[k][i] != '.';
    }
    SplitJoin(parts);
  }

  /** A string reads as a version exactly when it is some version text joined with dots. */
  lemma ParseAccepts(s: string)
    ensures Parse(s).Some? <==> exists parts :: IsVersionText(parts) && JoinWithDots(parts) == s
  {
    SplitJoinsBack(s);
    if exists parts :: IsVersionText(parts) && JoinWithDots(parts) == s {
      var parts :| IsVersionText(parts) && JoinWithDots(parts) == s;
      ParseJoin(parts);
    }
  }

  /** "<digits>.0" reads back as the version <digits>.0. */
  lemma MajorDotZero(d: string)
    requires d != [] && IsDigits(d)
    ensures Parse(d + ".0") == Some(Version(DigitsValue(d), [0]))
  {
    var parts := [d, "0"];
    assert JoinWithDots(parts) == d + ".0" by {
      assert parts[1..] == ["0"];
    }
    assert DigitsValue("0") == 0 by { assert "0"[..0] == ""; }
    ParseJoin(parts);
    assert VersionOf(parts).rest == [0];
  }

  /** Lexicographic order on number lists, a proper prefix coming first. */
  predicate RestLe(a: seq<nat>, b: seq<nat>)
  {
    a == [] || (b != [] && (a[0] < b[0] || (a[0] == b[0] && RestLe(a[1..], b[1..]))))
  }

  /**
   * The `<=` the window check applies to two versions: by major number, then lexicographically
   * on the numbers that follow.
   */
  predicate Le(a: Version, b: Version)
  {
    a.major < b.major || (a.major == b.major && RestLe(a.rest, b.rest))
  }

  /** The `<` the window check applies: at or below and not equal. */
  predicate Lt(a: Version, b: Version)
  {
    Le(a, b) && a != b
  }

  /** The version M.0 is at or below every version whose major number is at least M. */
  lemma MajorFloor(m: nat, v: Version)
    requires |v.rest| >= 1
    ensures Le(Version(m, [0]), v) <==> m <= v.major
  {
    if m == v.major {
      assert RestLe([0][1..], v.rest[1..]);
    }
  }

  /** A version lies strictly below M.0 exactly when its major number is below M. */
  lemma MajorCeiling(m: nat, v: Version)
    requires |v.rest| >= 1
    ensures Lt(v, Version(m, [0])) <==> v.major < m
  {
    if v.major == m && Le(v, Version(m, [0])) {
      assert [0][1..] == [];
      assert v.rest[0] == 0 && RestLe(v.rest[1..], []);
      assert v.rest == [0];
    }
  }

  /** The versions from M.0 up to but excluding (N+1).0 are exactly those with major M to N. */
  lemma MajorWindow(m: nat, n: nat, v: Version)
    requires |v.rest| >= 1
    ensures (Le(Version(m, [0]), v) && Lt(v, Version(n + 1, [0]))) == (m <= v.major <= n)
  {
    MajorFloor(m, v);
    MajorCeiling(n + 1, v);
  }

  lemma {:induction false} RestLeTotal(a: seq<nat>, b: seq<nat>)
    ensures RestLe(a, b) || RestLe(b, a)
  {
    if a != [] && b != [] && a[0] == b[0] {
      RestLeTotal(a[1..], b[1..]);
    }
  }

  lemma {:induction false} RestLeAntisymmetric(a: seq<nat>, b: seq<nat>)
    requires RestLe(a, b) && RestLe(b, a)
    ensures a == b
  {
    if a != [] {
      RestLeAntisymmetric(a[1..], b[1..]);
      assert a == [a[0]] + a[1..] && b == [b[0]] + b[1..];
    }
  }

  lemma {:induction false} RestLeTransitive(a: seq<nat>, b: seq<nat>, c: seq<nat>)
    requires RestLe(a, b) && RestLe(b, c)
    ensures RestLe(a, c)
  {
    if a != [] && a[0] == b[0] && b[0] == c[0] {
      RestLeTransitive(a[1..], b[1..], c[1..]);
    }
  }

  /** `Le` is a total order on versions, and `Lt` is its strict part: a < b exactly when not b <= a. */
  lemma LeTotalOrder(a: Version, b: Version, c: Version)
    ensures Le(a, a)
    ensures Le(a, b) || Le(b, a)
    ensures Le(a, b) && Le(b, a) ==> a == b
    ensures Le(a, b) && Le(b, c) ==> Le(a, c)
    ensures Lt(a, b) <==> !Le(b, a)
  {
    RestLeTotal(a.rest, a.rest);
    RestLeTotal(a.rest, b.rest);
    if Le(a, b) && Le(b, a) {
      RestLeAntisymmetric(a.rest, b.rest);
    }
    if Le(a, b) && Le(b, c) && a.major == b.major == c.major {
      RestLeTransitive(a.rest, b.rest, c.rest);
    }
  }
}
