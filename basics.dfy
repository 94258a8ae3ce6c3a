/** Small value types and helpers shared by the report and sync models:
    an Option type, ascending enumeration of a finite set of integer ids,
    and the few string operations the modelled PHP uses (implode, strpos,
    decimal rendering of ids). */
module Basics {

  datatype Option<+T> = None | Some(value: T)

  datatype Result<+T, +E> = Ok(value: T) | Err(error: E)

  // ---------------------------------------------------------------------
  // Dates. Timestamps are opaque, ordered integers (seconds); time zones
  // are not modelled, so a day starts at a multiple of DaySeconds.
  // ---------------------------------------------------------------------

  const DaySeconds: int := 86400

  /** A `$days` argument: PHP `false` (no horizon) or an integer. */
  datatype Days = NoLimit | Days(n: int)

  /** `date( 'Y-m-d 00:00:00', t )` read back as a timestamp. */
  function StartOfDay(t: int): (d: int)
    ensures d <= t < d + DaySeconds
    ensures d % DaySeconds == 0
  {
    t - t % DaySeconds
  }

  /** `date( 'Y-m-d 00:00:00', time() - ( DAY_IN_SECONDS * $days ) )`. */
  function Horizon(now: int, n: int): int
  {
    StartOfDay(now - DaySeconds * n)
  }

  function Min(a: int, b: int): int
  {
    if a <= b then a else b
  }

  lemma MulMonotone(a: int, b: int, c: nat)
    requires a <= b
    ensures a * c <= b * c
  {
    assert b * c - a * c == (b - a) * c;
  }

  /** The offset of page `page` (counted from 1) of `perPage` items. */
  function PageOffset(page: int, perPage: nat): (offset: nat)
    requires page >= 1
    ensures offset == (page - 1) * perPage
  {
    MulMonotone(0, page - 1, perPage);
    (page - 1) * perPage
  }

  // ---------------------------------------------------------------------
  // Ordered enumeration of id sets (the effect of `ORDER BY id ASC`).
  // ---------------------------------------------------------------------

  /** A set with no members is the empty set. */
  lemma EmptyByMembers(s: set<int>)
    ensures (forall y :: y !in s) ==> s == {}
  {
    if forall y :: y !in s {
      assert forall y :: y in s <==> y in {};
    }
  }

  lemma HasElement(s: set<int>)
    requires s != {}
    ensures exists y :: y in s
  {
    EmptyByMembers(s);
  }

  lemma HasMinimum(s: set<int>)
    requires s != {}
    ensures exists m :: m in s && forall x :: x in s ==> m <= x
    decreases |s|
  {
    HasElement(s);
    var y :| y in s;
    var rest := s - {y};
    if rest == {} {
      assert s == {y};
      assert forall x :: x in s ==> y <= x;
    } else {
      HasMinimum(rest);
      var m :| m in rest && forall x :: x in rest ==> m <= x;
      var w := if y < m then y else m;
      forall x | x in s
        ensures w <= x
      {
        if x != y {
          assert x in rest;
        }
      }
    }
  }

  /** The least element of a non-empty set. */
  function MinOf(s: set<int>): (m: int)
    requires s != {}
    ensures m in s
    ensures forall x :: x in s ==> m <= x
  {
    HasMinimum(s);
    var m :| m in s && forall x :: x in s ==> m <= x;
    m
  }

  predicate StrictlyAscending(r: seq<int>)
  {
    forall i, j :: 0 <= i < j < |r| ==> r[i] < r[j]
  }

  /** The members of `s` in ascending order, each exactly once. */
  function Ascending(s: set<int>): (r: seq<int>)
    ensures |r| == |s|
    ensures forall i :: 0 <= i < |r| ==> r[i] in s
    ensures forall x :: x in s ==> x in r
    ensures StrictlyAscending(r)
    decreases |s|
  {
    if s == {} then []
    else
      var m := MinOf(s);
      [m] + Ascending(s - {m})
  }

  /** The members of a sequence, as a set. */
  function Elements(s: seq<int>): set<int>
  {
    set x | x in s
  }

  lemma ElementsSnoc(s: seq<int>, x: int)
    ensures Elements(s + [x]) == Elements(s) + {x}
  {
    assert forall y :: y in s + [x] <==> y in s || y == x;
  }

  /** An ascending sequence has no repeats: the set of a prefix has the prefix's length. */
  lemma {:induction false} AscendingPrefixCard(r: seq<int>, k: nat)
    requires StrictlyAscending(r)
    requires k <= |r|
    ensures |Elements(r[..k])| == k
  {
    if k > 0 {
      AscendingPrefixCard(r, k - 1);
      assert r[..k] == r[..k - 1] + [r[k - 1]];
      ElementsSnoc(r[..k - 1], r[k - 1]);
      assert r[k - 1] !in Elements(r[..k - 1]);
    }
  }

  // ---------------------------------------------------------------------
  // Strings.
  // ---------------------------------------------------------------------

  /** PHP `implode( sep, parts )`. */
  function JoinWith(parts: seq<string>, sep: string): string
  {
    if |parts| == 0 then ""
    else if |parts| == 1 then parts[0]
    else parts[0] + sep + JoinWith(parts[1..], sep)
  }

  /** `false !== strpos( s, sub )`: `sub` occurs in `s` at some offset. */
  predicate Contains(s: string, sub: string)
  {
    sub <= s || (|s| > 0 && Contains(s[1..], sub))
  }

  /** PHP truthiness of a string: only "" and "0" are falsy. */
  predicate PhpTruthy(s: string)
  {
    s != "" && s != "0"
  }

  function DigitChar(d: nat): char
    requires d < 10
  {
    "0123456789"[d]
  }

  /** Decimal rendering of a non-negative integer, as PHP's string conversion. */
  function NatToString(n: nat): (s: string)
    ensures |s| >= 1
    ensures n == 0 <==> s == "0"
    decreases n
  {
    if n < 10 then [DigitChar(n)] else NatToString(n / 10) + [DigitChar(n % 10)]
  }

  function IntToString(n: int): string
  {
    if n < 0 then "-" + NatToString(-n) else NatToString(n)
  }
}
