/** The JavaScript built-ins the application's logic leans on, stated as Dafny
    functions: optional values and truthiness, the string methods `startsWith`,
    `endsWith`, `includes`, `toLowerCase`, `trim`, `slice`, `split` and `join`,
    number-to-string conversion, and the array methods `filter` and indexed
    replacement that the hooks use to produce new lists. */
module Js {

  /** A value that may be missing (`undefined` or `null` in the source). */
  datatype Option<+T> = None | Some(value: T) {
    function GetOr(default: T): T {
      match this
      case Some(v) => v
      case None => default
    }
  }

  /** JavaScript truthiness of an optional string: present and non-empty. */
  predicate Truthy(s: Option<string>) {
    s.Some? && s.value != ""
  }

  /** `a || b` on optional strings. */
  function OrElse(a: Option<string>, b: Option<string>): (r: Option<string>)
    ensures Truthy(a) ==> r == a
    ensures !Truthy(a) ==> r == b
  {
    if Truthy(a) then a else b
  }

  // ---------------------------------------------------------------------------
  // Strings

  predicate StartsWith(s: string, prefix: string) {
    |prefix| <= |s| && s[..|prefix|] == prefix
  }

  predicate EndsWith(s: string, suffix: string) {
    |suffix| <= |s| && s[|s| - |suffix|..] == suffix
  }

  /** `s.includes(p)`. */
  predicate Includes(s: string, p: string)
    decreases |s|
  {
    StartsWith(s, p) || (|s| > 0 && Includes(s[1..], p))
  }

  /** `p` occurs in `s` starting at offset `i`. */
  ghost predicate OccursAt(s: string, p: string, i: int) {
    0 <= i <= |s| - |p| && s[i..i + |p|] == p
  }

  /** `includes` holds exactly when `p` occurs at some offset of `s`. */
  lemma {:induction false} IncludesAt(s: string, p: string)
    ensures Includes(s, p) <==> exists i :: OccursAt(s, p, i)
    decreases |s|
  {
    if StartsWith(s, p) {
      assert OccursAt(s, p, 0);
    } else if |s| > 0 {
      IncludesAt(s[1..], p);
      if Includes(s[1..], p) {
        var i :| OccursAt(s[1..], p, i);
        assert s[1..][i..i + |p|] == s[i + 1..i + 1 + |p|];
        assert OccursAt(s, p, i + 1);
      }
      if exists i :: OccursAt(s, p, i) {
        var i :| OccursAt(s, p, i);
        assert i != 0;
        assert s[1..][i - 1..i - 1 + |p|] == s[i..i + |p|];
        assert OccursAt(s[1..], p, i - 1);
      }
    } else {
      assert forall i :: !OccursAt(s, p, i);
    }
  }

  function LowerChar(c: char): char {
    if 'A' <= c <= 'Z' then (c as int + 32) as char else c
  }

  /** `toLowerCase`, on the ASCII letters. */
  function ToLower(s: string): (r: string)
    ensures |r| == |s|
    ensures forall i :: 0 <= i < |s| ==> r[i] == LowerChar(s[i])
  {
    seq(|s|, i requires 0 <= i < |s| => LowerChar(s[i]))
  }

  lemma ToLowerIdempotent(s: string)
    ensures ToLower(ToLower(s)) == ToLower(s)
  {
  }

  /** The characters `trim` removes at either end of a string. */
  predicate IsSpace(c: char) {
    c == ' ' || c == '\t' || c == '\n' || c == '\r' || c == '\U{0B}' || c == '\U{0C}'
    || c == '\U{A0}' || c == '\U{FEFF}' || c == '\U{2028}' || c == '\U{2029}'
  }

  /** `!s.trim()`: the string is empty after trimming. */
  predicate IsBlank(s: string) {
    forall i :: 0 <= i < |s| ==> IsSpace(s[i])
  }

  /** The index that `slice` uses for an argument `k` on a string of length `len`:
      a negative argument counts from the end, and both ends are clamped. */
  function SliceIndex(k: int, len: nat): (r: nat)
    ensures r <= len
    ensures 0 <= k <= len ==> r == k
  {
    if k < 0 then (if len + k < 0 then 0 else len + k) else if k > len then len else k
  }

  /** `s.slice(0, k) + ins + s.slice(k)`. */
  function SpliceAt(s: string, k: int, ins: string): (r: string)
    ensures |r| == |s| + |ins|
    ensures r[..SliceIndex(k, |s|)] == s[..SliceIndex(k, |s|)]
    ensures r[SliceIndex(k, |s|)..SliceIndex(k, |s|) + |ins|] == ins
    ensures r[SliceIndex(k, |s|) + |ins|..] == s[SliceIndex(k, |s|)..]
  {
    var c := SliceIndex(k, |s|);
    s[..c] + ins + s[c..]
  }

  /** `a.join(sep)`. */
  function Join(a: seq<string>, sep: string): string
    decreases |a|
  {
    if |a| == 0 then "" else if |a| == 1 then a[0] else Join(a[..|a| - 1], sep) + sep + a[|a| - 1]
  }

  /** The string concatenation of every element (`join("")`). */
  function Concat(a: seq<string>): string
    decreases |a|
  {
    if a == [] then "" else Concat(a[..|a| - 1]) + a[|a| - 1]
  }

  lemma {:induction false} ConcatAppend(a: seq<string>, b: seq<string>)
    ensures Concat(a + b) == Concat(a) + Concat(b)
    decreases |b|
  {
    if b == [] {
      assert a + b == a;
    } else {
      var b' := b[..|b| - 1];
      assert (a + b)[..|a + b| - 1] == a + b';
      ConcatAppend(a, b');
    }
  }

  /** The index of the first occurrence of `c` in `s`. */
  function IndexOf(s: string, c: char): (r: nat)
    requires c in s
    ensures r < |s| && s[r] == c && c !in s[..r]
  {
    if s[0] == c then 0 else IndexOf(s[1..], c) + 1
  }

  /** `s.split(c)` for a one-character separator. */
  function Split(s: string, c: char): (r: seq<string>)
    ensures |r| >= 1
    ensures c !in s ==> r == [s]
    ensures c in s ==> r[0] == s[..IndexOf(s, c)]
    ensures forall k :: 0 <= k < |r| ==> c !in r[k]
    decreases |s|
  {
    if c in s then
      var i := IndexOf(s, c);
      [s[..i]] + Split(s[i + 1..], c)
    else
      [s]
  }

  /** `s.split(c)[k]`, which is `undefined` when there are fewer fields. */
  function SplitField(s: string, c: char, k: nat): Option<string> {
    var fields := Split(s, c);
    if k < |fields| then Some(fields[k]) else None
  }

  /** The second field exists exactly when the separator occurs, and it is the text
      after the first separator up to the next one (or to the end). */
  lemma SecondField(s: string, c: char)
    ensures SplitField(s, c, 1).Some? <==> c in s
    ensures c in s ==> var i := IndexOf(s, c);
      var rest := s[i + 1..];
      SplitField(s, c, 1) == Some(if c in rest then rest[..IndexOf(rest, c)] else rest)
  {
    if c in s {
      var i := IndexOf(s, c);
      assert Split(s, c) == [s[..i]] + Split(s[i + 1..], c);
    }
  }

  function DigitChar(d: nat): char
    requires d < 10
  {
    "0123456789"[d]
  }

  /** The decimal text of a natural number, as `String(n)` gives it. */
  function NatToString(n: nat): (r: string)
    ensures |r| >= 1
    decreases n
  {
    if n < 10 then [DigitChar(n)] else NatToString(n / 10) + [DigitChar(n % 10)]
  }

  // ---------------------------------------------------------------------------
  // Lists

  /** `a` occurs in `b` in order, possibly with other elements in between. */
  ghost predicate IsSubseq<T>(a: seq<T>, b: seq<T>)
    decreases |b|
  {
    a == [] || (b != [] && ((a[0] == b[0] && IsSubseq(a[1..], b[1..])) || IsSubseq(a, b[1..])))
  }

  lemma {:induction false} SubseqRefl<T>(a: seq<T>)
    ensures IsSubseq(a, a)
    decreases |a|
  {
    if a != [] {
      SubseqRefl(a[1..]);
    }
  }

  lemma {:induction false} SubseqAppend<T>(a: seq<T>, b: seq<T>, x: T)
    requires IsSubseq(a, b)
    ensures IsSubseq(a, b + [x]) && IsSubseq(a + [x], b + [x])
    decreases |b|
  {
    if a == [] {
      SubseqRefl([x]);
      SubseqInTail([x], b, [x]);
      assert a + [x] == [x];
    } else if b != [] {
      assert (b + [x])[1..] == b[1..] + [x];
      if a[0] == b[0] && IsSubseq(a[1..], b[1..]) {
        SubseqAppend(a[1..], b[1..], x);
        assert (a + [x])[1..] == a[1..] + [x];
      } else {
        SubseqAppend(a, b[1..], x);
      }
    }
  }

  lemma {:induction false} SubseqInTail<T>(a: seq<T>, b: seq<T>, c: seq<T>)
    requires IsSubseq(a, c)
    ensures IsSubseq(a, b + c)
    decreases |b|
  {
    if b == [] {
      assert b + c == c;
    } else {
      assert (b + c)[1..] == b[1..] + c;
      SubseqInTail(a, b[1..], c);
    }
  }

  /** Inserting anything anywhere keeps a subsequence a subsequence. */
  lemma {:induction false} SubseqInsert<T>(a: seq<T>, b: seq<T>, k: nat, ins: seq<T>)
    requires IsSubseq(a, b) && k <= |b|
    ensures IsSubseq(a, b[..k] + ins + b[k..])
    decreases |b|
  {
    if k == 0 {
      assert b[..k] + ins + b[k..] == ins + b;
      SubseqInTail(a, ins, b);
    } else if a == [] {
    } else {
      var r := b[..k] + ins + b[k..];
      assert r[0] == b[0];
      assert r[1..] == b[1..][..k - 1] + ins + b[1..][k - 1..];
      if a[0] == b[0] && IsSubseq(a[1..], b[1..]) {
        SubseqInsert(a[1..], b[1..], k - 1, ins);
      } else {
        SubseqInsert(a, b[1..], k - 1, ins);
      }
    }
  }

  /** `s.filter(f)`: the elements satisfying `f`, in their original order. */
  function Filter<T>(s: seq<T>, f: T -> bool): (r: seq<T>)
    ensures |r| <= |s|
    ensures forall x :: x in r ==> x in s && f(x)
    ensures forall x :: x in s && f(x) ==> x in r
    decreases |s|
  {
    if s == [] then []
    else
      var init := s[..|s| - 1];
      assert forall x :: x in s ==> x in init || x == s[|s| - 1];
      Filter(init, f) + (if f(s[|s| - 1]) then [s[|s| - 1]] else [])
  }

  /** Filtering keeps every element satisfying `f` as often as it occurs, and no
      other element. */
  lemma {:induction false} FilterMultiset<T>(s: seq<T>, f: T -> bool)
    ensures forall x :: x in s ==> multiset(Filter(s, f))[x] == if f(x) then multiset(s)[x] else 0
    decreases |s|
  {
    if s != [] {
      var init, last := s[..|s| - 1], s[|s| - 1];
      FilterMultiset(init, f);
      assert s == init + [last];
      forall x | x in s ensures multiset(Filter(s, f))[x] == if f(x) then multiset(s)[x] else 0 {
        if x !in init {
          assert multiset(init)[x] == 0;
          assert x !in Filter(init, f);
        }
      }
    }
  }

  lemma {:induction false} FilterIsSubseq<T>(s: seq<T>, f: T -> bool)
    ensures IsSubseq(Filter(s, f), s)
    decreases |s|
  {
    if s == [] {
    } else {
      var init, last := s[..|s| - 1], s[|s| - 1];
      FilterIsSubseq(init, f);
      assert init + [last] == s;
      SubseqAppend(Filter(init, f), init, last);
      assert Filter(s, f) == Filter(init, f) + (if f(last) then [last] else []);
      if !f(last) {
        assert Filter(s, f) == Filter(init, f);
      }
    }
  }

  lemma FilterSnoc<T>(s: seq<T>, x: T, f: T -> bool)
    ensures Filter(s + [x], f) == Filter(s, f) + (if f(x) then [x] else [])
  {
    assert (s + [x])[..|s|] == s;
  }

  lemma FilterNone<T>(s: seq<T>, f: T -> bool)
    requires forall x :: x in s ==> !f(x)
    ensures Filter(s, f) == []
  {
  }

  lemma FilterAppend<T>(a: seq<T>, b: seq<T>, f: T -> bool)
    ensures Filter(a + b, f) == Filter(a, f) + Filter(b, f)
    decreases |b|
  {
    if b == [] {
      assert a + b == a;
    } else {
      assert (a + b)[..|a + b| - 1] == a + b[..|b| - 1];
      FilterAppend(a, b[..|b| - 1], f);
    }
  }

  /** `s.map(f)`. */
  function Map<T, U>(s: seq<T>, f: T -> U): (r: seq<U>)
    ensures |r| == |s|
    ensures forall i :: 0 <= i < |s| ==> r[i] == f(s[i])
  {
    seq(|s|, i requires 0 <= i < |s| => f(s[i]))
  }

  lemma MapSnoc<T, U>(s: seq<T>, x: T, f: T -> U)
    ensures Map(s + [x], f) == Map(s, f) + [f(x)]
  {
  }

  /** `s.filter((_, i) => i !== k)`: drops the element at index `k`, if there is one. */
  function RemoveIndex<T>(s: seq<T>, k: int): (r: seq<T>)
    ensures 0 <= k < |s| ==> r == s[..k] + s[k + 1..]
    ensures !(0 <= k < |s|) ==> r == s
    decreases |s|
  {
    if s == [] then []
    else
      var rest := RemoveIndex(s[1..], k - 1);
      assert 0 < k < |s| ==> s[1..][..k - 1] + s[1..][k..] == s[1..k] + s[k + 1..];
      (if k == 0 then [] else [s[0]]) + rest
  }

  /** `s.map((x, i) => i === k ? v : x)`: replaces the element at index `k`, if there is one. */
  function ReplaceAt<T>(s: seq<T>, k: int, v: T): (r: seq<T>)
    ensures |r| == |s|
    ensures forall i :: 0 <= i < |s| ==> r[i] == (if i == k then v else s[i])
  {
    seq(|s|, i requires 0 <= i < |s| => if i == k then v else s[i])
  }
}
