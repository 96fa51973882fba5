/** Shared vocabulary of the model: optional values, and the string and number
    helpers that stand in for the JavaScript built-ins the engine relies on
    (`includes`, `startsWith`, `split`, `join`, `toLowerCase`, `slice`,
    `Math.min`/`Math.max`/`Math.round`, `new Set(...)`). */
module Common {

  /** An optional value; `None` plays the part of `undefined`. */
  datatype Option<+T> = None | Some(value: T)

  /** The outcome of an operation that can throw: the value, or the message of
      the error it throws. */
  datatype Result<+T> = Ok(value: T) | Failure(error: string)

  // ---------------------------------------------------------------------------
  // JavaScript truthiness
  // ---------------------------------------------------------------------------

  /** `if (x)` on an optional string field: present and not the empty string. */
  predicate Truthy(o: Option<string>) {
    o.Some? && o.value != ""
  }

  // ---------------------------------------------------------------------------
  // Substrings
  // ---------------------------------------------------------------------------

  /** `sub` occurs in `s` starting at offset `i`. */
  predicate OccursAt(s: string, sub: string, i: int) {
    0 <= i && i + |sub| <= |s| && s[i..i + |sub|] == sub
  }

  /** `s.includes(sub)`: `sub` occurs somewhere in `s`. */
  predicate Contains(s: string, sub: string) {
    exists i | 0 <= i <= |s| :: OccursAt(s, sub, i)
  }

  /** `s.startsWith(prefix)`. */
  predicate StartsWith(s: string, prefix: string) {
    |prefix| <= |s| && s[..|prefix|] == prefix
  }

  /** Character-by-character comparison of `sub[j..]` against `s` at offset `i`.
      Together with `ContainsFrom` it is a computable form of `Contains` that the
      verifier can evaluate on literal strings. */
  predicate MatchesAt(s: string, sub: string, i: nat, j: nat)
    decreases |sub| - j
  {
    j >= |sub| || (i + j < |s| && s[i + j] == sub[j] && MatchesAt(s, sub, i, j + 1))
  }

  /** Some window of `s` starting at offset `i` or later equals `sub`. */
  predicate ContainsFrom(s: string, sub: string, i: nat)
    decreases |s| - i
  {
    MatchesAt(s, sub, i, 0) || (i < |s| && ContainsFrom(s, sub, i + 1))
  }

  lemma {:induction false} MatchesAtWindow(s: string, sub: string, i: nat, j: nat)
    requires j < |sub|
    ensures MatchesAt(s, sub, i, j) <==>
              i + |sub| <= |s| && s[i + j..i + |sub|] == sub[j..]
    decreases |sub| - j
  {
    if j + 1 < |sub| {
      MatchesAtWindow(s, sub, i, j + 1);
      if i + |sub| <= |s| {
        assert s[i + j..i + |sub|] == [s[i + j]] + s[i + j + 1..i + |sub|];
        assert sub[j..] == [sub[j]] + sub[j + 1..];
      }
    } else {
      if i + |sub| <= |s| {
        assert s[i + j..i + |sub|] == [s[i + j]];
        assert sub[j..] == [sub[j]];
      }
    }
  }

  /** The computable search agrees with `OccursAt` at offset `i` or later. */
  lemma {:induction false} ContainsFromIff(s: string, sub: string, i: nat)
    requires i <= |s|
    ensures ContainsFrom(s, sub, i) <==> exists k :: i <= k && OccursAt(s, sub, k)
    decreases |s| - i
  {
    if |sub| > 0 {
      MatchesAtWindow(s, sub, i, 0);
      assert sub[0..] == sub;
      if MatchesAt(s, sub, i, 0) {
        assert OccursAt(s, sub, i);
      }
    } else {
      assert OccursAt(s, sub, i);
    }
    if i < |s| {
      ContainsFromIff(s, sub, i + 1);
      if exists k :: i <= k && OccursAt(s, sub, k) {
        var k :| i <= k && OccursAt(s, sub, k);
        if k > i {
          assert i + 1 <= k;
        }
      }
    } else if exists k :: i <= k && OccursAt(s, sub, k) {
      var k :| i <= k && OccursAt(s, sub, k);
      assert k == i;
    }
  }

  /** `ContainsFrom(s, sub, 0)` is `s.includes(sub)`. */
  lemma ContainsByEvaluation(s: string, sub: string)
    ensures Contains(s, sub) <==> ContainsFrom(s, sub, 0)
  {
    ContainsFromIff(s, sub, 0);
  }

  /** A string spelt from `alphabet` cannot contain a string with a character
      outside it (`sub[k]` here). */
  lemma NotContainsForeignChar(s: string, sub: string, k: nat, alphabet: set<char>)
    requires forall j | 0 <= j < |s| :: s[j] in alphabet
    requires k < |sub| && sub[k] !in alphabet
    ensures !Contains(s, sub)
  {
    forall i | 0 <= i <= |s| ensures !OccursAt(s, sub, i) {
      if i + |sub| <= |s| {
        assert s[i..i + |sub|][k] == s[i + k];
      }
    }
  }

  /** A string whose adjacent pairs all lie in `pairs` cannot contain a string
      with an adjacent pair (`sub[k]`, `sub[k + 1]`) outside it. */
  lemma NotContainsForeignPair(s: string, sub: string, k: nat, pairs: set<(char, char)>)
    requires forall j | 0 <= j < |s| - 1 :: (s[j], s[j + 1]) in pairs
    requires k + 1 < |sub| && (sub[k], sub[k + 1]) !in pairs
    ensures !Contains(s, sub)
  {
    forall i | 0 <= i <= |s| ensures !OccursAt(s, sub, i) {
      if i + |sub| <= |s| {
        assert s[i..i + |sub|][k] == s[i + k];
        assert s[i..i + |sub|][k + 1] == s[i + k + 1];
      }
    }
  }

  /** Lifts `NotContainsForeignChar` to a list: `idx[i]` locates a foreign
      character in `ks[i]`. */
  lemma NoneContained(s: string, ks: seq<string>, idx: seq<nat>, alphabet: set<char>)
    requires forall j | 0 <= j < |s| :: s[j] in alphabet
    requires |idx| == |ks|
    requires forall i | 0 <= i < |ks| :: idx[i] < |ks[i]| && ks[i][idx[i]] !in alphabet
    ensures forall k | k in ks :: !Contains(s, k)
  {
    forall k | k in ks ensures !Contains(s, k) {
      var i :| 0 <= i < |ks| && ks[i] == k;
      NotContainsForeignChar(s, k, idx[i], alphabet);
    }
  }

  // ---------------------------------------------------------------------------
  // Lower-casing (ASCII only)
  // ---------------------------------------------------------------------------

  function LowerChar(c: char): char {
    if 'A' <= c <= 'Z' then (c as int + 32) as char else c
  }

  /** `s.toLowerCase()`, restricted to the ASCII letters. */
  function Lower(s: string): (r: string)
    ensures |r| == |s|
  {
    seq(|s|, i requires 0 <= i < |s| => LowerChar(s[i]))
  }

  // ---------------------------------------------------------------------------
  // split / join
  // ---------------------------------------------------------------------------

  /** `s.split(sep)` for a one-character separator: never empty, and
      `"".split(sep) == [""]`. */
  function Split(s: string, sep: char): (parts: seq<string>)
    ensures |parts| > 0
    ensures forall p :: p in parts ==> sep !in p
    decreases |s|
  {
    if s == [] then [""]
    else if s[0] == sep then [""] + Split(s[1..], sep)
    else
      var rest := Split(s[1..], sep);
      [[s[0]] + rest[0]] + rest[1..]
  }

  /** `parts.join(sep)`. */
  function Join(parts: seq<string>, sep: char): string
    decreases |parts|
  {
    if parts == [] then ""
    else if |parts| == 1 then parts[0]
    else parts[0] + [sep] + Join(parts[1..], sep)
  }

  lemma {:induction false} JoinSplit(s: string, sep: char)
    ensures Join(Split(s, sep), sep) == s
    decreases |s|
  {
    if s == [] {
    } else if s[0] == sep {
      JoinSplit(s[1..], sep);
      assert s == [sep] + s[1..];
    } else {
      JoinSplit(s[1..], sep);
      var rest := Split(s[1..], sep);
      assert Split(s, sep) == [[s[0]] + rest[0]] + rest[1..];
      if |rest| == 1 {
        assert s == [s[0]] + s[1..];
      } else {
        assert Join(rest, sep) == rest[0] + [sep] + Join(rest[1..], sep);
        assert ([[s[0]] + rest[0]] + rest[1..])[1..] == rest[1..];
        assert s == [s[0]] + s[1..];
      }
    }
  }

  lemma {:induction false} SplitJoin(parts: seq<string>, sep: char)
    requires |parts| > 0
    requires forall p :: p in parts ==> sep !in p
    ensures Split(Join(parts, sep), sep) == parts
    decreases |parts|, |parts[0]|
  {
    var head := parts[0];
    if |head| == 0 {
      if |parts| == 1 {
      } else {
        SplitJoin(parts[1..], sep);
        assert Join(parts, sep) == [sep] + Join(parts[1..], sep);
        assert ([sep] + Join(parts[1..], sep))[1..] == Join(parts[1..], sep);
        assert parts == [""] + parts[1..];
      }
    } else {
      var shorter := [head[1..]] + parts[1..];
      DropFirstChar(parts, sep);
      SplitJoin(shorter, sep);
      assert ([head[0]] + Join(shorter, sep))[1..] == Join(shorter, sep);
      assert head == [head[0]] + head[1..];
      assert parts == [head] + parts[1..];
    }
  }

  /** Moving the first character of the first part out of the join keeps the
      parts free of the separator. */
  lemma DropFirstChar(parts: seq<string>, sep: char)
    requires |parts| > 0 && |parts[0]| > 0
    requires forall p :: p in parts ==> sep !in p
    ensures parts[0][0] != sep
    ensures forall p :: p in [parts[0][1..]] + parts[1..] ==> sep !in p
    ensures Join(parts, sep) == [parts[0][0]] + Join([parts[0][1..]] + parts[1..], sep)
  {
    var head := parts[0];
    assert head in parts;
    assert head[0] in head;
    var shorter := [head[1..]] + parts[1..];
    forall p | p in shorter ensures sep !in p {
      if p == head[1..] {
        assert forall c :: c in head[1..] ==> c in head;
      } else {
        assert p in parts[1..];
      }
    }
    assert head == [head[0]] + head[1..];
    assert shorter[0] == head[1..] && shorter[1..] == parts[1..];
  }

  /** `s.split(sep).pop()`: the text after the last separator. */
  function LastSegment(s: string, sep: char): (r: string)
    ensures sep !in r
  {
    var parts := Split(s, sep);
    parts[|parts| - 1]
  }

  /** How the last segment of `s` relates to that of `s[1..]`: the same one,
      unless the first character joins a separator-free rest. */
  lemma LastSegmentCons(s: string, sep: char)
    requires s != []
    ensures s[0] == sep || |Split(s[1..], sep)| > 1 ==> LastSegment(s, sep) == LastSegment(s[1..], sep)
    ensures s[0] != sep && |Split(s[1..], sep)| == 1 ==> LastSegment(s, sep) == [s[0]] + LastSegment(s[1..], sep)
  {
    var rest := Split(s[1..], sep);
    if s[0] == sep {
      assert Split(s, sep) == [""] + rest;
    } else {
      assert Split(s, sep) == [[s[0]] + rest[0]] + rest[1..];
    }
  }

  /** A string that splits into one part is its own last segment. */
  lemma SingleSegmentIsWhole(s: string, sep: char)
    requires |Split(s, sep)| == 1
    ensures LastSegment(s, sep) == s
  {
    JoinSplit(s, sep);
  }

  /** The last segment is the tail of `s` after its last separator: a suffix
      of `s`, and all of `s` when `s` has no separator. */
  lemma {:induction false} LastSegmentIsSuffix(s: string, sep: char)
    ensures |LastSegment(s, sep)| <= |s|
    ensures s[|s| - |LastSegment(s, sep)|..] == LastSegment(s, sep)
    ensures sep !in s ==> LastSegment(s, sep) == s
    decreases |s|
  {
    if s != [] {
      var t := s[1..];
      LastSegmentIsSuffix(t, sep);
      LastSegmentCons(s, sep);
      var last := LastSegment(t, sep);
      if s[0] != sep && |Split(t, sep)| == 1 {
        SingleSegmentIsWhole(t, sep);
        assert LastSegment(s, sep) == s by { assert s == [s[0]] + t; }
        assert s[0..] == s;
      } else {
        assert LastSegment(s, sep) == last;
        assert s[|s| - |last|..] == t[|t| - |last|..];
      }
    }
    if sep !in s {
      WholeWithoutSeparator(s, sep);
    }
  }

  lemma WholeWithoutSeparator(s: string, sep: char)
    requires sep !in s
    ensures LastSegment(s, sep) == s
  {
    SplitWithoutSeparator(s, sep);
  }

  lemma {:induction false} SplitWithoutSeparator(s: string, sep: char)
    requires sep !in s
    ensures Split(s, sep) == [s]
    decreases |s|
  {
    if s != [] {
      assert sep !in s[1..] by {
        forall c | c in s[1..] ensures c != sep { assert c in s; }
      }
      SplitWithoutSeparator(s[1..], sep);
      assert s == [s[0]] + s[1..];
    }
  }

  /** `s.split(sep).slice(0, 2).join(sep)`: the first two segments. */
  function FirstTwoSegments(s: string, sep: char): string {
    var parts := Split(s, sep);
    Join(parts[..if |parts| < 2 then |parts| else 2], sep)
  }

  /** `s.slice(0, n)` for a non-negative `n`. */
  function Prefix<T>(s: seq<T>, n: nat): (r: seq<T>)
    ensures |r| == if n < |s| then n else |s|
  {
    if n < |s| then s[..n] else s
  }

  // ---------------------------------------------------------------------------
  // Numbers
  // ---------------------------------------------------------------------------

  /** The decimal digit of `d`. */
  function Digit(d: nat): (c: char)
    requires d < 10
    ensures '0' <= c <= '9'
  {
    ('0' as int + d) as char
  }

  /** `${n}` for a non-negative integer: decimal, no leading zeros. */
  function Decimal(n: nat): (s: string)
    ensures |s| > 0
    ensures forall i | 0 <= i < |s| :: '0' <= s[i] <= '9'
    ensures s[0] == '0' ==> n == 0
  {
    if n < 10 then [Digit(n)] else Decimal(n / 10) + [Digit(n % 10)]
  }

  /** Reading a string of decimal digits back. */
  function ParseDecimal(s: string): nat
    requires forall i | 0 <= i < |s| :: '0' <= s[i] <= '9'
  {
    if s == [] then 0
    else ParseDecimal(s[..|s| - 1]) * 10 + (s[|s| - 1] as int - '0' as int)
  }

  lemma {:induction false} ParseDecimalInverts(n: nat)
    ensures ParseDecimal(Decimal(n)) == n
  {
    if n >= 10 {
      ParseDecimalInverts(n / 10);
      var s := Decimal(n);
      assert s[..|s| - 1] == Decimal(n / 10);
    }
  }

  /** `Math.max(lo, Math.min(hi, x))` on integers. */
  function ClampInt(x: int, lo: int, hi: int): (r: int)
    requires lo <= hi
    ensures lo <= r <= hi
    ensures lo <= x <= hi ==> r == x
  {
    if x < lo then lo else if x > hi then hi else x
  }

  /** `Math.max(lo, Math.min(hi, x))` on numbers. */
  function ClampReal(x: real, lo: real, hi: real): (r: real)
    requires lo <= hi
    ensures lo <= r <= hi
    ensures lo <= x <= hi ==> r == x
  {
    if x < lo then lo else if x > hi then hi else x
  }

  function MinReal(a: real, b: real): real { if a <= b then a else b }

  function MaxReal(a: real, b: real): real { if a >= b then a else b }

  function MaxNat(a: nat, b: nat): nat { if a >= b then a else b }

  function MinNat(a: nat, b: nat): nat { if a <= b then a else b }

  function Abs(x: int): nat { if x < 0 then -x else x }

  function AbsReal(x: real): real { if x < 0.0 then -x else x }

  /** `Math.round(x)`: the nearest integer, halves rounded up. */
  function Round(x: real): (r: int)
    ensures x - 0.5 < r as real <= x + 0.5
  {
    (x + 0.5).Floor
  }

  lemma RoundMonotone(x: real, y: real)
    requires x <= y
    ensures Round(x) <= Round(y)
  {
  }

  lemma RoundBounds(x: real, lo: int, hi: int)
    requires lo as real <= x <= hi as real
    ensures lo <= Round(x) <= hi
  {
  }

  /** A count over a bigger count is a fraction in [0, 1]. */
  lemma FractionInUnit(a: real, b: real)
    requires 0.0 <= a <= b && b > 0.0
    ensures 0.0 <= a / b <= 1.0
  {
  }

  // ---------------------------------------------------------------------------
  // Sums over lists
  // ---------------------------------------------------------------------------

  /** The sum of `f` over the elements of `s`. */
  function SumBy<T>(s: seq<T>, f: T -> int): int
    decreases |s|
  {
    if s == [] then 0 else f(s[0]) + SumBy(s[1..], f)
  }

  /** A sum of equal terms is the count times the term. */
  lemma {:induction false} SumByConstant<T>(s: seq<T>, f: T -> int, c: int)
    requires forall i | 0 <= i < |s| :: f(s[i]) == c
    ensures SumBy(s, f) == |s| * c
    decreases |s|
  {
    if s != [] {
      SumByConstant(s[1..], f, c);
    }
  }

  lemma {:induction false} SumByAppend<T>(a: seq<T>, b: seq<T>, f: T -> int)
    ensures SumBy(a + b, f) == SumBy(a, f) + SumBy(b, f)
    decreases |a|
  {
    if a == [] {
      assert a + b == b;
    } else {
      assert (a + b)[1..] == a[1..] + b;
      SumByAppend(a[1..], b, f);
    }
  }

  /** A sum depends on the list only as a bag: reordering changes nothing. */
  lemma {:induction false} SumByPermutation<T>(a: seq<T>, b: seq<T>, f: T -> int)
    requires multiset(a) == multiset(b)
    ensures SumBy(a, f) == SumBy(b, f)
    decreases |a|
  {
    if a == [] {
      assert |b| == |multiset(b)| == 0;
    } else {
      var x := a[0];
      assert x in multiset(b);
      var j :| 0 <= j < |b| && b[j] == x;
      var left, right := b[..j], b[j + 1..];
      assert b == left + ([x] + right);
      SumByAppend(left, [x] + right, f);
      SumByAppend(left, right, f);
      assert ([x] + right)[1..] == right;
      assert a == [x] + a[1..];
      assert multiset(a[1..]) == multiset(left + right) by {
        calc {
          multiset(a[1..]);
          multiset(a) - multiset{x};
          multiset(b) - multiset{x};
          multiset(left) + multiset(right);
        }
      }
      SumByPermutation(a[1..], left + right, f);
    }
  }

  // ---------------------------------------------------------------------------
  // JavaScript `Set` of a list
  // ---------------------------------------------------------------------------

  predicate Distinct<T(==)>(s: seq<T>) {
    forall i, j :: 0 <= i < j < |s| ==> s[i] != s[j]
  }

  /** `[...new Set(s)]`: the first occurrence of every element, in order. */
  function Dedup<T(==,!new)>(s: seq<T>): (d: seq<T>)
    ensures Distinct(d)
    ensures forall x :: x in d <==> x in s
    ensures |d| <= |s|
    decreases |s|
  {
    if s == [] then []
    else
      var d := Dedup(s[..|s| - 1]);
      assert forall x :: x in s <==> x in s[..|s| - 1] || x == s[|s| - 1];
      if s[|s| - 1] in d then d else d + [s[|s| - 1]]
  }

  /** The number of elements of `xs` that also occur in `ys`
      (`xs.filter(x => ys.includes(x)).length`). */
  function CountIn<T(==)>(xs: seq<T>, ys: seq<T>): (n: nat)
    ensures n <= |xs|
    decreases |xs|
  {
    if xs == [] then 0
    else (if xs[0] in ys then 1 else 0) + CountIn(xs[1..], ys)
  }

  lemma {:induction false} CountInSelf<T>(xs: seq<T>, ys: seq<T>)
    requires forall x :: x in xs ==> x in ys
    ensures CountIn(xs, ys) == |xs|
    decreases |xs|
  {
    if xs != [] {
      assert forall x :: x in xs[1..] ==> x in xs;
      CountInSelf(xs[1..], ys);
    }
  }

  lemma {:induction false} CountInDisjoint<T>(xs: seq<T>, ys: seq<T>)
    requires forall x :: x in xs ==> x !in ys
    ensures CountIn(xs, ys) == 0
    decreases |xs|
  {
    if xs != [] {
      assert forall x :: x in xs[1..] ==> x in xs;
      CountInDisjoint(xs[1..], ys);
    }
  }

  /** The set of a list's elements. */
  ghost function Elems<T>(s: seq<T>): set<T> {
    set x | x in s
  }

  lemma ElemsCons<T>(xs: seq<T>)
    requires xs != []
    ensures Elems(xs) == {xs[0]} + Elems(xs[1..])
  {
    assert forall x :: x in xs <==> x == xs[0] || x in xs[1..];
  }

  /** Dropping the head of a list without repeats leaves a list without
      repeats that lacks the head. */
  lemma DistinctTail<T>(xs: seq<T>)
    requires Distinct(xs) && xs != []
    ensures Distinct(xs[1..])
    ensures xs[0] !in xs[1..]
  {
    var rest := xs[1..];
    forall i, j | 0 <= i < j < |rest| ensures rest[i] != rest[j] {
      assert rest[i] == xs[i + 1] && rest[j] == xs[j + 1];
    }
    forall j | 0 <= j < |rest| ensures rest[j] != xs[0] {
      assert rest[j] == xs[j + 1];
    }
  }

  /** For a list without repeats, the count of its elements in `ys` is the
      size of the intersection of the two element sets. */
  lemma {:induction false} CountInIntersection<T>(xs: seq<T>, ys: seq<T>)
    requires Distinct(xs)
    ensures CountIn(xs, ys) == |Elems(xs) * Elems(ys)|
    decreases |xs|
  {
    if xs == [] {
      assert Elems(xs) == {};
    } else {
      DistinctTail(xs);
      CountInIntersection(xs[1..], ys);
      ElemsCons(xs);
      var tail, other := Elems(xs[1..]), Elems(ys);
      assert xs[0] !in tail;
      if xs[0] in ys {
        assert xs[0] in other;
        assert Elems(xs) * other == {xs[0]} + tail * other;
      } else {
        assert xs[0] !in other;
        assert Elems(xs) * other == tail * other;
      }
    }
  }

  /** Between two lists without repeats, the count of shared elements does
      not depend on which list is counted. */
  lemma CountInSymmetric<T>(xs: seq<T>, ys: seq<T>)
    requires Distinct(xs) && Distinct(ys)
    ensures CountIn(xs, ys) == CountIn(ys, xs)
  {
    CountInIntersection(xs, ys);
    CountInIntersection(ys, xs);
    assert Elems(xs) * Elems(ys) == Elems(ys) * Elems(xs);
  }
}
