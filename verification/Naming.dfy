// Artifact names: `<table><token><suffix>`, with a fixed-width token that
// starts with the run's start time in base 36.
module Naming {
  import opened Rows

  const TOKEN_LEN: nat := 16

  // ------------------------------------------------------------------
  // Base 36. A token spells its start time with these digits, the most
  // significant first.

  /** `0` to `9`, then `a` to `z`. */
  function Digit(v: nat): (c: char)
    requires v < 36
    ensures c as int == if v < 10 then 48 + v else 87 + v
  {
    if v < 10 then (48 + v) as char else (87 + v) as char
  }

  predicate Numeral(ds: seq<nat>) {
    forall i :: 0 <= i < |ds| ==> ds[i] < 36
  }

  function Spelling(ds: seq<nat>): (s: string)
    requires Numeral(ds)
    ensures |s| == |ds| && forall i :: 0 <= i < |ds| ==> s[i] == Digit(ds[i])
  {
    seq(|ds|, i requires 0 <= i < |ds| => Digit(ds[i]))
  }

  function Pow36(w: nat): (p: nat)
    ensures p > 0
  {
    if w == 0 then 1 else 36 * Pow36(w - 1)
  }

  function Value(ds: seq<nat>): (n: nat)
    requires Numeral(ds)
  {
    if ds == [] then 0 else ds[0] * Pow36(|ds| - 1) + Value(ds[1..])
  }

  lemma Times(a: nat, b: nat, p: nat)
    requires a <= b
    ensures a * p <= b * p
  {
  }

  lemma {:induction false} ValueBound(ds: seq<nat>)
    requires Numeral(ds)
    ensures Value(ds) < Pow36(|ds|)
  {
    if ds != [] {
      ValueBound(ds[1..]);
      Times(ds[0], 35, Pow36(|ds| - 1));
    }
  }

  lemma Regroup(rest: nat, p: nat)
    ensures rest * p == (rest / 36) * (36 * p) + (rest % 36) * p
  {
    calc {
      rest * p;
      (36 * (rest / 36) + rest % 36) * p;
      (36 * (rest / 36)) * p + (rest % 36) * p;
      (rest / 36) * (36 * p) + (rest % 36) * p;
    }
  }

  lemma Remainder(n: nat, q: nat, p: nat, r: nat)
    requires p > 0 && n == q * p + r && r < p
    ensures n % p == r
  {
    if n / p < q {
      Times(n / p + 1, q, p);
    } else {
      Times(q + 1, if n / p > q then n / p else q + 1, p);
    }
  }

  /** `ds` are the last `i` digits of `n`, and `rest` is what is left of it. */
  predicate Peeled(n: nat, rest: nat, i: nat, ds: seq<nat>) {
    |ds| == i && Numeral(ds) && n == rest * Pow36(i) + Value(ds)
  }

  lemma NextDigit(n: nat, rest: nat, i: nat, ds: seq<nat>)
    requires Peeled(n, rest, i, ds)
    ensures Peeled(n, rest / 36, i + 1, [rest % 36] + ds)
  {
    Regroup(rest, Pow36(i));
    assert ([rest % 36] + ds)[1..] == ds;
  }

  lemma LastDigits(n: nat, rest: nat, i: nat, ds: seq<nat>)
    requires Peeled(n, rest, i, ds)
    ensures Value(ds) == n % Pow36(i)
  {
    ValueBound(ds);
    Remainder(n, rest, Pow36(i), Value(ds));
  }

  /** The digits of a token's start time, from the least significant up. */
  method Base36(n: nat, width: nat) returns (ds: seq<nat>)
    ensures |ds| == width && Numeral(ds) && Value(ds) == n % Pow36(width)
  {
    ds := [];
    var rest := n;
    var i := 0;
    while i < width
      invariant i <= width && Peeled(n, rest, i, ds)
    {
      NextDigit(n, rest, i, ds);
      ds, rest, i := [rest % 36] + ds, rest / 36, i + 1;
    }
    LastDigits(n, rest, width, ds);
  }

  /** Alphabetical order of two strings of one length. */
  predicate Before(a: string, b: string)
    requires |a| == |b|
  {
    a != [] && (a[0] < b[0] || (a[0] == b[0] && Before(a[1..], b[1..])))
  }

  /** Names of one table sort by their runs' start times: equal-width spelling
      keeps order, and so tells any two times apart. */
  lemma {:induction false} SpellingKeepsOrder(a: seq<nat>, b: seq<nat>)
    requires |a| == |b| && Numeral(a) && Numeral(b)
    ensures Before(Spelling(a), Spelling(b)) <==> Value(a) < Value(b)
  {
    if a != [] {
      var p := Pow36(|a| - 1);
      assert Spelling(a)[1..] == Spelling(a[1..]) && Spelling(b)[1..] == Spelling(b[1..]);
      SpellingKeepsOrder(a[1..], b[1..]);
      ValueBound(a[1..]);
      ValueBound(b[1..]);
      HeadDecides(a[0], b[0], p, Value(a[1..]), Value(b[1..]));
    }
  }

  lemma HeadDecides(x: nat, y: nat, p: nat, v: nat, w: nat)
    requires v < p && w < p
    ensures x < y ==> x * p + v < y * p + w
    ensures x > y ==> x * p + v > y * p + w
  {
    if x < y {
      Times(x + 1, y, p);
    } else if y < x {
      Times(y + 1, x, p);
    }
  }

  // ------------------------------------------------------------------
  // Whose artifact a name is.

  predicate EndsWith(s: string, suffix: string) {
    |suffix| <= |s| && s[|s| - |suffix|..] == suffix
  }

  predicate StartsWith(s: string, head: string) {
    |head| <= |s| && s[..|head|] == head
  }

  function Minted(table: string, token: string, suffix: string): string {
    table + token + suffix
  }

  /** The name is exactly `table`'s: anchored at both ends and by length. */
  predicate Anchored(name: string, table: string, suffix: string) {
    EndsWith(name, suffix) && |name| == |table| + TOKEN_LEN + |suffix| && StartsWith(name, table)
  }

  /** The names of `table`'s artifacts, as listed. */
  function Kept(names: seq<string>, table: string, suffix: string): seq<string> {
    if names == [] then []
    else
      var k := Kept(names[..|names| - 1], table, suffix);
      if Anchored(names[|names| - 1], table, suffix) then k + [names[|names| - 1]] else k
  }

  /** Alphabetical order of names of any lengths. */
  predicate AtMost(a: string, b: string) {
    a == [] || (b != [] && (a[0] < b[0] || (a[0] == b[0] && AtMost(a[1..], b[1..]))))
  }

  lemma {:induction false} AtMostTotal(a: string, b: string)
    ensures AtMost(a, b) || AtMost(b, a)
  {
    if a != [] && b != [] && a[0] == b[0] {
      AtMostTotal(a[1..], b[1..]);
    }
  }

  /** The alphabet's order: a prefix first, or the smaller character where the
      two first differ. */
  lemma {:induction false} AtMostIs(a: string, b: string)
    ensures AtMost(a, b) <==> a <= b || exists i :: 0 <= i < |a| && i < |b| && a[..i] == b[..i] && a[i] < b[i]
  {
    if a != [] && b != [] {
      forall i | 0 < i < |a| && i < |b| && a[..i] == b[..i]
        ensures a[0] == b[0]
      {
        assert a[..i][0] == b[..i][0];
      }
      if a[0] == b[0] {
        AtMostIs(a[1..], b[1..]);
        if i :| 0 <= i < |a| && i < |b| && a[..i] == b[..i] && a[i] < b[i] {
          assert a[1..][..i - 1] == a[..i][1..] && b[1..][..i - 1] == b[..i][1..];
        }
        if i :| 0 <= i < |a[1..]| && i < |b[1..]| && a[1..][..i] == b[1..][..i] && a[1..][i] < b[1..][i] {
          assert a[..i + 1] == [a[0]] + a[1..][..i] && b[..i + 1] == [b[0]] + b[1..][..i];
        }
        assert a <= b <==> a[1..] <= b[1..];
      } else {
        assert a[0] < b[0] ==> a[..0] == b[..0];
      }
    }
  }

  predicate Sorted(s: seq<string>) {
    forall i :: 0 <= i < |s| - 1 ==> AtMost(s[i], s[i + 1])
  }

  lemma SplicedSorted(s: seq<string>, i: nat, n: string)
    requires Sorted(s) && i <= |s| && (i > 0 ==> AtMost(s[i - 1], n)) && (i < |s| ==> AtMost(n, s[i]))
    ensures Sorted(s[..i] + [n] + s[i..])
  {
    var r := s[..i] + [n] + s[i..];
    forall j | 0 <= j < |r| - 1
      ensures AtMost(r[j], r[j + 1])
    {
      if j + 1 < i {
        assert AtMost(s[j], s[j + 1]);
      } else if j > i {
        assert AtMost(s[j - 1], s[j - 1 + 1]);
      }
    }
  }

  lemma SplicedContents(s: seq<string>, i: nat, n: string)
    requires i <= |s|
    ensures multiset(s[..i] + [n] + s[i..]) == multiset(s) + multiset{n}
  {
    assert s == s[..i] + s[i..];
  }

  /** One more name at its place in a sorted list. */
  method InsertSorted(s: seq<string>, n: string) returns (r: seq<string>)
    requires Sorted(s)
    ensures Sorted(r) && multiset(r) == multiset(s) + multiset{n}
  {
    var i := |s|;
    while i > 0 && !AtMost(s[i - 1], n)
      invariant 0 <= i <= |s|
      invariant i < |s| ==> AtMost(n, s[i])
    {
      AtMostTotal(s[i - 1], n);
      i := i - 1;
    }
    SplicedSorted(s, i, n);
    SplicedContents(s, i, n);
    r := s[..i] + [n] + s[i..];
  }

  /** The artifacts among `names` that belong to `table`, in order. */
  method Mine(names: seq<string>, table: string, suffix: string) returns (out: seq<string>)
    ensures Sorted(out) && multiset(out) == multiset(Kept(names, table, suffix))
  {
    out := [];
    var i := 0;
    while i < |names|
      invariant 0 <= i <= |names| && Sorted(out)
      invariant multiset(out) == multiset(Kept(names[..i], table, suffix))
    {
      assert names[..i + 1][..i] == names[..i];
      if Anchored(names[i], table, suffix) {
        out := InsertSorted(out, names[i]);
      }
      i := i + 1;
    }
    assert names[..i] == names;
  }

  lemma {:induction false} KeptIs(names: seq<string>, table: string, suffix: string, n: string)
    ensures multiset(Kept(names, table, suffix))[n] == if Anchored(n, table, suffix) then multiset(names)[n] else 0
  {
    if names != [] {
      var p, last := names[..|names| - 1], names[|names| - 1];
      assert names == p + [last];
      KeptIs(p, table, suffix, n);
    }
  }

  /** An artifact is selected for a table exactly when it was minted for it,
      even where one table's name is a prefix of the other's. */
  lemma MineIsExact(a: string, b: string, token: string, suffix: string)
    requires |token| == TOKEN_LEN
    ensures Anchored(Minted(a, token, suffix), b, suffix) <==> a == b
  {
    var n := Minted(a, token, suffix);
    assert n[|n| - |suffix|..] == suffix;
    assert n[..|a|] == a;
  }

  const LOCK_SUFFIX: string := "__apitap_lock"
  const STAGING_SUFFIX: string := "__apitap_staging"

  /** The 16 characters before the suffix. */
  function TokenOf(name: string): (r: Result<string>) {
    var cut := if EndsWith(name, LOCK_SUFFIX) then |LOCK_SUFFIX| else |STAGING_SUFFIX|;
    if !EndsWith(name, LOCK_SUFFIX) && !EndsWith(name, STAGING_SUFFIX) then Err("not a lock or staging artifact")
    else
      var head := name[..|name| - cut];
      Ok(if |head| < TOKEN_LEN then head else head[|head| - TOKEN_LEN..])
  }

  lemma LastOf(n: string, suffix: string)
    requires suffix != []
    ensures EndsWith(n, suffix) ==> n[|n| - 1] == suffix[|suffix| - 1]
  {
    if EndsWith(n, suffix) {
      assert n[|n| - |suffix|..][|suffix| - 1] == n[|n| - 1];
    }
  }

  lemma TokenInverts(table: string, token: string, suffix: string)
    requires |token| == 16 && (suffix == LOCK_SUFFIX || suffix == STAGING_SUFFIX)
    ensures TokenOf(Minted(table, token, suffix)) == Ok(token)
  {
    var n := Minted(table, token, suffix);
    assert n[|n| - |suffix|..] == suffix;
    LastOf(n, suffix);
    LastOf(n, LOCK_SUFFIX);
    assert n[..|n| - |suffix|] == table + token;
    assert (table + token)[|table|..] == token;
  }
}
