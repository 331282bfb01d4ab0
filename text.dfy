/** The two Python text built-ins the builder relies on: `str.join` and the
    decimal rendering of a non-negative integer inside an f-string. */
module Text {

  /** `sep.join(parts)`: the parts in order, with `sep` between neighbours. */
  function Join(sep: string, parts: seq<string>): string
    decreases |parts|
  {
    if |parts| == 0 then ""
    else if |parts| == 1 then parts[0]
    else parts[0] + sep + Join(sep, parts[1..])
  }

  /** Python's `t in s` for strings: `t` occurs in `s` as a contiguous run. */
  ghost predicate Contains(s: string, t: string) {
    exists i :: 0 <= i <= |s| && t <= s[i..]
  }

  lemma ContainsPrefix(s: string, t: string)
    requires t <= s
    ensures Contains(s, t)
  {
    assert s[0..] == s;
  }

  lemma ContainsSuffix(s: string, k: nat)
    requires k <= |s|
    ensures Contains(s, s[k..])
  {
  }

  /** Containment is transitive. */
  lemma ContainsTransitive(s: string, t: string, u: string)
    requires Contains(s, t) && Contains(t, u)
    ensures Contains(s, u)
  {
    var i :| 0 <= i <= |s| && t <= s[i..];
    var j :| 0 <= j <= |t| && u <= t[j..];
    assert i + j <= |s|;
    forall k | 0 <= k < |u|
      ensures u[k] == s[i + j..][k]
    {
      assert u[k] == t[j + k];
      assert t[j + k] == s[i..][j + k];
    }
    assert u <= s[i + j..];
  }

  /** Joining never drops text: every part stays visible in the result. */
  lemma {:induction false} JoinContainsPart(sep: string, parts: seq<string>, k: nat)
    requires k < |parts|
    ensures Contains(Join(sep, parts), parts[k])
    decreases |parts|
  {
    var j := Join(sep, parts);
    if |parts| == 1 {
      ContainsPrefix(j, parts[k]);
    } else if k == 0 {
      assert j == parts[0] + (sep + Join(sep, parts[1..]));
      ContainsPrefix(j, parts[0]);
    } else {
      var rest := Join(sep, parts[1..]);
      JoinContainsPart(sep, parts[1..], k - 1);
      assert j[|parts[0]| + |sep|..] == rest;
      ContainsSuffix(j, |parts[0]| + |sep|);
      ContainsTransitive(j, rest, parts[k]);
    }
  }

  /** A join starts with its first part, and is exactly that part when there is only one. */
  lemma JoinFirst(sep: string, first: string, rest: seq<string>)
    ensures Join(sep, [first] + rest) == if rest == [] then first else first + sep + Join(sep, rest)
  {
    assert ([first] + rest)[1..] == rest;
  }

  /** Each part preceded by `sep`, all concatenated. */
  function Prefixed(sep: string, parts: seq<string>): string
    decreases |parts|
  {
    if parts == [] then "" else sep + parts[0] + Prefixed(sep, parts[1..])
  }

  lemma {:induction false} PrefixedAppend(sep: string, a: seq<string>, b: seq<string>)
    ensures Prefixed(sep, a + b) == Prefixed(sep, a) + Prefixed(sep, b)
    decreases |a|
  {
    if a == [] {
      assert a + b == b;
    } else {
      assert (a + b)[1..] == a[1..] + b;
      PrefixedAppend(sep, a[1..], b);
    }
  }

  /** A join is its first part followed by every later part with `sep` in front. */
  lemma {:induction false} JoinIsPrefixed(sep: string, first: string, rest: seq<string>)
    ensures Join(sep, [first] + rest) == first + Prefixed(sep, rest)
    decreases |rest|
  {
    JoinFirst(sep, first, rest);
    if rest != [] {
      JoinIsPrefixed(sep, rest[0], rest[1..]);
      assert [rest[0]] + rest[1..] == rest;
    }
  }

  /** Joining a first part and four groups of later parts. */
  lemma JoinGroups(sep: string, first: string, a: seq<string>, b: seq<string>, c: seq<string>, d: seq<string>)
    ensures Join(sep, [first] + (a + b + c + d))
         == first + Prefixed(sep, a) + Prefixed(sep, b) + Prefixed(sep, c) + Prefixed(sep, d)
  {
    JoinIsPrefixed(sep, first, a + b + c + d);
    PrefixedAppend(sep, a + b + c, d);
    PrefixedAppend(sep, a + b, c);
    PrefixedAppend(sep, a, b);
    var pa, pb, pc, pd := Prefixed(sep, a), Prefixed(sep, b), Prefixed(sep, c), Prefixed(sep, d);
    Associative(first, (pa + pb) + pc, pd);
    Associative(first, pa + pb, pc);
    Associative(first, pa, pb);
  }

  lemma Associative(x: string, y: string, z: string)
    ensures x + (y + z) == x + y + z
  {
  }

  /** `Prefixed` of at most one part. */
  lemma PrefixedOne(sep: string, x: string)
    ensures Prefixed(sep, []) == "" && Prefixed(sep, [x]) == sep + x
  {
    assert [x][1..] == [];
  }

  /** A join of at least one part starts with the first part. */
  lemma JoinStartsWithFirst(sep: string, parts: seq<string>)
    ensures parts != [] ==> parts[0] <= Join(sep, parts)
  {
    if parts != [] {
      JoinFirst(sep, parts[0], parts[1..]);
      assert [parts[0]] + parts[1..] == parts;
    }
  }

  /** With a non-empty separator, a join is empty only for no parts or a single empty part. */
  lemma JoinEmpty(sep: string, parts: seq<string>)
    requires sep != ""
    ensures Join(sep, parts) == "" <==> parts == [] || parts == [""]
  {
    if |parts| == 1 {
      assert parts == [parts[0]];
    }
  }

  function DigitChar(d: nat): (c: char)
    requires d < 10
  {
    (('0' as int) + d) as char
  }

  predicate IsDigit(c: char) {
    '0' <= c <= '9'
  }

  function DigitValue(c: char): (d: nat)
    requires IsDigit(c)
  {
    (c as int) - ('0' as int)
  }

  /** `f"{n}"` for a non-negative integer: its decimal digits, most significant first. */
  function NatToString(n: nat): string
    decreases n
  {
    if n < 10 then [DigitChar(n)] else NatToString(n / 10) + [DigitChar(n % 10)]
  }

  /** The value of a string of decimal digits (Python's `int(s)` on such a string). */
  function DigitsValue(s: string): int
    requires forall k :: 0 <= k < |s| ==> IsDigit(s[k])
    decreases |s|
  {
    if s == [] then 0 else DigitsValue(s[..|s| - 1]) * 10 + DigitValue(s[|s| - 1])
  }

  /** The rendering is a non-empty string of digits with no leading zero that reads back as `n`. */
  lemma {:induction false} NatToStringRoundTrip(n: nat)
    ensures var s := NatToString(n);
      && |s| > 0
      && (forall k :: 0 <= k < |s| ==> IsDigit(s[k]))
      && (s[0] == '0' <==> n == 0)
      && DigitsValue(s) == n
    decreases n
  {
    var s := NatToString(n);
    if n >= 10 {
      var p := NatToString(n / 10);
      NatToStringRoundTrip(n / 10);
      assert s == p + [DigitChar(n % 10)];
      assert s[..|s| - 1] == p;
    }
  }
}
