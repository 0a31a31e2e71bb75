/** The conversion between vectors of C strings and vectors of Fortran strings, in one buffer. Every element of
    the C vector takes `elemLen` characters, the last of them for the terminator. */
module StringVector {

  const NUL: char := '\0'
  const BLANK: char := ' '

  // ----- strings

  /** Characters before the first terminator. */
  function BeforeNul(x: seq<char>): (s: seq<char>)
    ensures |s| <= |x| && NUL !in s
    ensures forall m | 0 <= m < |s| :: s[m] == x[m]
    ensures |s| < |x| ==> x[|s|] == NUL
  {
    if x == [] || x[0] == NUL then [] else [x[0]] + BeforeNul(x[1..])
  }

  /** The C string in an element; its last character is never part of it. */
  function CString(x: seq<char>): seq<char>
    requires x != []
  {
    BeforeNul(x[..|x| - 1])
  }

  /** Being the characters before the first terminator determines the string. */
  lemma CStringIs(x: seq<char>, s: seq<char>)
    requires |s| < |x| && NUL !in s && forall m | 0 <= m < |s| :: s[m] == x[m]
    requires |s| == |x| - 1 || x[|s|] == NUL
    ensures CString(x) == s
  {
    assert |CString(x)| == |s|;
  }

  /** The Fortran string of an element: padded with blanks. */
  function Field(x: seq<char>): (f: seq<char>)
    requires x != []
    ensures |f| == |x| - 1
    ensures forall m | 0 <= m < |f| :: f[m] == if m < |CString(x)| then CString(x)[m] else BLANK
  {
    var s := CString(x);
    seq(|x| - 1, m requires 0 <= m < |x| - 1 => if m < |s| then s[m] else BLANK)
  }

  /** How much is left of `s` without its trailing `t`s. */
  function KeptLength(s: seq<char>, t: char): (k: nat)
    ensures k <= |s| && (forall m | k <= m < |s| :: s[m] == t) && (k > 0 ==> s[k - 1] != t)
  {
    if s == [] || s[|s| - 1] != t then |s| else KeptLength(s[..|s| - 1], t)
  }

  function Strip(s: seq<char>, t: char): seq<char> { s[..KeptLength(s, t)] }

  lemma KeptLengthIs(s: seq<char>, t: char, k: nat)
    requires k <= |s| && (forall m | k <= m < |s| :: s[m] == t) && (k > 0 ==> s[k - 1] != t)
    ensures KeptLength(s, t) == k
  {
    assert k > 0 ==> s[k - 1] != t;
    assert KeptLength(s, t) > 0 ==> s[KeptLength(s, t) - 1] != t;
  }

  /** An element after `kill_trailingn` up to its last character. */
  function Killed(x: seq<char>, t: char): (y: seq<char>)
    requires x != []
    ensures |y| == |x| && y[KeptLength(x[..|x| - 1], t)] == NUL
    ensures forall m | 0 <= m < |x| && m != KeptLength(x[..|x| - 1], t) :: y[m] == x[m]
  {
    x[KeptLength(x[..|x| - 1], t) := NUL]
  }

  lemma FieldKept(x: seq<char>)
    requires x != []
    ensures KeptLength(Field(x), BLANK) == KeptLength(CString(x), BLANK)
  {
    KeptLengthIs(Field(x), BLANK, KeptLength(CString(x), BLANK));
  }

  /** One element, there and back: its string without trailing blanks. */
  lemma ElementRoundTrip(x: seq<char>)
    requires x != []
    ensures CString(Killed(Field(x) + [NUL], BLANK)) == Strip(CString(x), BLANK)
  {
    var x' := Field(x) + [NUL];
    FieldKept(x);
    assert x'[..|x'| - 1] == Field(x);
    CStringIs(Killed(x', BLANK), Strip(CString(x), BLANK));
  }

  // ----- vectors

  predicate AllLong(xs: seq<seq<char>>, width: nat) {
    forall i | 0 <= i < |xs| :: |xs[i]| == width
  }

  /** Where element `i` starts. */
  function Start(width: nat, i: nat): nat {
    if i == 0 then 0 else Start(width, i - 1) + width
  }

  lemma {:induction false} StartIsProduct(width: nat, i: nat)
    ensures Start(width, i) == i * width
  {
    if i > 0 {
      StartIsProduct(width, i - 1);
    }
  }

  lemma {:induction false} StartsApart(width: nat, i: nat, j: nat)
    requires i < j
    ensures Start(width, i) + width <= Start(width, j)
  {
    if i < j - 1 {
      StartsApart(width, i, j - 1);
    }
  }

  /** The buffer holds `s` from position `from` on. */
  predicate HoldsAt(b: seq<char>, from: int, s: seq<char>) {
    0 <= from && from + |s| <= |b| && forall m | from <= m < from + |s| :: b[m] == s[m - from]
  }

  /** Element `i` of the vector that starts at `base` is in the buffer. */
  predicate ElementAt(b: seq<char>, base: int, width: nat, xs: seq<seq<char>>, i: nat)
    requires i < |xs|
  {
    HoldsAt(b, base + Start(width, i), xs[i])
  }

  /** From `base` on, the buffer holds the elements of `xs` one after the other. */
  predicate HoldsVector(b: seq<char>, base: int, width: nat, xs: seq<seq<char>>) {
    AllLong(xs, width) && forall i: nat | i < |xs| :: ElementAt(b, base, width, xs, i)
  }

  /** The two contents agree outside `[lo, hi)`. */
  predicate SameOutside(b: seq<char>, c: seq<char>, lo: int, hi: int) {
    |b| == |c| && forall m | 0 <= m < |b| && !(lo <= m < hi) :: b[m] == c[m]
  }

  lemma SameOutsideBoth(b: seq<char>, c: seq<char>, d: seq<char>, lo: int, mid: int, hi: int)
    requires SameOutside(b, c, mid, hi) && SameOutside(c, d, lo, mid) && lo <= mid <= hi
    ensures SameOutside(b, d, lo, hi)
  {
  }

  /** Any part of a buffer with the right length is such a vector. */
  lemma {:induction false} AnyBufferIsVector(b: seq<char>, base: nat, n: nat, width: nat) returns (xs: seq<seq<char>>)
    requires base + Start(width, n) <= |b|
    ensures |xs| == n && HoldsVector(b, base, width, xs)
    decreases n
  {
    if n == 0 {
      xs := [];
    } else {
      var before := AnyBufferIsVector(b, base, n - 1, width);
      var last := b[base + Start(width, n - 1)..base + Start(width, n)];
      xs := before + [last];
      forall i: nat | i < n ensures ElementAt(b, base, width, xs, i) {
        assert i < n - 1 ==> ElementAt(b, base, width, before, i);
      }
    }
  }

  lemma ElementKept(b: seq<char>, c: seq<char>, lo: int, hi: int, base: int, width: nat, xs: seq<seq<char>>, i: nat)
    requires i < |xs| && |xs[i]| == width && ElementAt(b, base, width, xs, i) && SameOutside(b, c, lo, hi)
    requires base + Start(width, i) + width <= lo || hi <= base + Start(width, i)
    ensures ElementAt(c, base, width, xs, i)
  {
  }

  function Fields(xs: seq<seq<char>>): (fs: seq<seq<char>>)
    requires forall i | 0 <= i < |xs| :: xs[i] != []
    ensures |fs| == |xs| && forall i | 0 <= i < |xs| :: fs[i] == Field(xs[i])
  {
    seq(|xs|, i requires 0 <= i < |xs| => Field(xs[i]))
  }

  function Terminated(fs: seq<seq<char>>): (xs: seq<seq<char>>)
    ensures |xs| == |fs| && forall i | 0 <= i < |fs| :: xs[i] == fs[i] + [NUL]
  {
    seq(|fs|, i requires 0 <= i < |fs| => fs[i] + [NUL])
  }

  function AllKilled(xs: seq<seq<char>>, t: char): (ys: seq<seq<char>>)
    requires forall i | 0 <= i < |xs| :: xs[i] != []
    ensures |ys| == |xs| && forall i | 0 <= i < |xs| :: ys[i] == Killed(xs[i], t)
  {
    seq(|xs|, i requires 0 <= i < |xs| => Killed(xs[i], t))
  }

  // ----- packing

  /** Packs the element `x` at `r` into the field at `w`. The write index never passes the read index. */
  method PackElement(a: array<char>, elemLen: nat, w: nat, r: nat, ghost x: seq<char>)
    requires elemLen > 0 && w <= r && |x| == elemLen && HoldsAt(a[..], r, x)
    modifies a
    ensures HoldsAt(a[..], w, Field(x)) && SameOutside(old(a[..]), a[..], w, w + elemLen - 1)
  {
    var j := 1;
    while j < elemLen && a[r + j - 1] != NUL
      invariant 1 <= j <= elemLen
      invariant forall m | w <= m < w + j - 1 :: a[m] == x[m - w]
      invariant NUL !in x[..j - 1]
      invariant forall m | r + j - 1 <= m < r + elemLen :: a[m] == x[m - r]
      invariant forall m | 0 <= m < a.Length && !(w <= m < w + j - 1) :: a[m] == old(a[m])
    {
      assert a[r + j - 1] == x[j - 1];
      a[w + j - 1] := a[r + j - 1];
      assert x[..j] == x[..j - 1] + [x[j - 1]];
      j := j + 1;
    }
    ghost var k := j - 1;
    assert k < elemLen - 1 ==> a[r + k] == x[k];
    CStringIs(x, x[..k]);
    while j < elemLen
      invariant k + 1 <= j <= elemLen
      invariant forall m | w <= m < w + j - 1 :: a[m] == if m < w + k then x[m - w] else BLANK
      invariant forall m | 0 <= m < a.Length && !(w <= m < w + j - 1) :: a[m] == old(a[m])
    {
      a[w + j - 1] := BLANK;
      j := j + 1;
    }
  }

  /** The first `i` elements of a vector are packed, the others as they were. */
  predicate Packed(b: seq<char>, elemLen: nat, width: nat, xs: seq<seq<char>>, fs: seq<seq<char>>, i: nat) {
    && |fs| == |xs| && elemLen == width + 1 && AllLong(xs, elemLen) && AllLong(fs, width)
    && (forall l: nat | l < |xs| && l < i :: ElementAt(b, 0, width, fs, l))
    && (forall l: nat | i <= l < |xs| :: ElementAt(b, 0, elemLen, xs, l))
  }

  lemma PackedNext(b: seq<char>, c: seq<char>, elemLen: nat, width: nat, xs: seq<seq<char>>, fs: seq<seq<char>>, i: nat)
    requires Packed(b, elemLen, width, xs, fs, i) && i < |xs|
    requires HoldsAt(c, Start(width, i), fs[i]) && SameOutside(b, c, Start(width, i), Start(width, i) + width)
    ensures Packed(c, elemLen, width, xs, fs, i + 1)
  {
    forall l: nat | l < i ensures ElementAt(c, 0, width, fs, l) {
      StartsApart(width, l, i);
      ElementKept(b, c, Start(width, i), Start(width, i) + width, 0, width, fs, l);
    }
    forall l: nat | i < l < |xs| ensures ElementAt(c, 0, elemLen, xs, l) {
      StartsApart(elemLen, i, l);
      StartDifference(width, i);
      ElementKept(b, c, Start(width, i), Start(width, i) + width, 0, elemLen, xs, l);
    }
    assert ElementAt(c, 0, width, fs, i);
  }

  /** Packs element `i`, the first one not yet packed. */
  method PackNext(a: array<char>, elemLen: nat, w: nat, r: nat, ghost i: nat, ghost xs: seq<seq<char>>,
                  ghost fs: seq<seq<char>>)
    requires elemLen > 0 && i < |xs| && AllLong(xs, elemLen) && fs == Fields(xs)
    requires r == Start(elemLen, i) && w == Start(elemLen - 1, i) && w <= r
    requires Packed(a[..], elemLen, elemLen - 1, xs, fs, i)
    modifies a
    ensures Packed(a[..], elemLen, elemLen - 1, xs, fs, i + 1)
    ensures SameOutside(old(a[..]), a[..], w, w + elemLen - 1)
  {
    ghost var b := a[..];
    assert ElementAt(b, 0, elemLen, xs, i);
    PackElement(a, elemLen, w, r, xs[i]);
    PackedNext(b, a[..], elemLen, elemLen - 1, xs, fs, i);
  }

  /** `c2fstrv` with both vectors in the same buffer. */
  method C2fstrv(a: array<char>, elemLen: nat, sizeofcstr: nat, ghost xs: seq<seq<char>>) returns (start: int)
    requires elemLen > 0 && |xs| == sizeofcstr / elemLen && HoldsVector(a[..], 0, elemLen, xs)
    modifies a
    ensures HoldsVector(a[..], 0, elemLen - 1, Fields(xs))
    ensures SameOutside(old(a[..]), a[..], 0, Start(elemLen - 1, |xs|))
    ensures start == Start(elemLen, |xs|) - sizeofcstr
  {
    var n := sizeofcstr / elemLen;
    var w, r, i := 0, 0, 0;
    while i < n
      invariant i <= n && r == Start(elemLen, i) && w == Start(elemLen - 1, i) && w + i == r
      invariant Packed(a[..], elemLen, elemLen - 1, xs, Fields(xs), i)
      invariant SameOutside(old(a[..]), a[..], 0, w)
    {
      PackNext(a, elemLen, w, r, i, xs, Fields(xs));
      w := w + elemLen - 1;
      r := r + elemLen;
      i := i + 1;
    }
    start := w - sizeofcstr + n;
  }

  // ----- unpacking

  /** Moves the field `f` that ends at `r` to the element that ends at `w`, behind a terminator. The write
      index never falls below the read index. */
  method UnpackElement(a: array<char>, elemLen: nat, w: nat, r: nat, ghost f: seq<char>)
    requires elemLen > 0 && elemLen - 1 <= r < w <= a.Length && elemLen <= w
    requires |f| == elemLen - 1 && HoldsAt(a[..], r - (elemLen - 1), f)
    modifies a
    ensures HoldsAt(a[..], w - elemLen, f + [NUL]) && SameOutside(old(a[..]), a[..], w - elemLen, w)
  {
    a[w - 1] := NUL;
    var j := 1;
    while j < elemLen
      invariant 1 <= j <= elemLen && a[w - 1] == NUL
      invariant forall m | w - j <= m < w - 1 :: a[m] == f[m - (w - elemLen)]
      invariant forall m | r - (elemLen - 1) <= m < r - (j - 1) :: a[m] == f[m - (r - (elemLen - 1))]
      invariant forall m | 0 <= m < a.Length && !(w - j <= m < w) :: a[m] == old(a[m])
    {
      a[w - 1 - j] := a[r - j];
      j := j + 1;
    }
  }

  /** The elements from `i` on are unpacked, the others still fields. */
  predicate Unpacked(b: seq<char>, base: int, elemLen: nat, width: nat, fs: seq<seq<char>>, xs: seq<seq<char>>,
      i: nat) {
    && |fs| == |xs| && elemLen == width + 1 && AllLong(xs, elemLen) && AllLong(fs, width)
    && (forall l: nat | l < |xs| && l < i :: ElementAt(b, base, width, fs, l))
    && (forall l: nat | i <= l < |xs| :: ElementAt(b, base, elemLen, xs, l))
  }

  lemma UnpackedNext(b: seq<char>, c: seq<char>, base: int, elemLen: nat, width: nat, fs: seq<seq<char>>,
                     xs: seq<seq<char>>, i: nat)
    requires Unpacked(b, base, elemLen, width, fs, xs, i + 1) && i < |xs|
    requires HoldsAt(c, base + Start(elemLen, i), xs[i])
    requires SameOutside(b, c, base + Start(elemLen, i), base + Start(elemLen, i) + elemLen)
    ensures Unpacked(c, base, elemLen, width, fs, xs, i)
  {
    var lo := base + Start(elemLen, i);
    forall l: nat | l < i ensures ElementAt(c, base, width, fs, l) {
      StartsApart(width, l, i);
      StartDifference(width, i);
      ElementKept(b, c, lo, lo + elemLen, base, width, fs, l);
    }
    forall l: nat | i < l < |xs| ensures ElementAt(c, base, elemLen, xs, l) {
      StartsApart(elemLen, i, l);
      ElementKept(b, c, lo, lo + elemLen, base, elemLen, xs, l);
    }
    assert ElementAt(c, base, elemLen, xs, i);
  }

  /** Unpacks element `k`, the last one still packed. */
  method UnpackNext(a: array<char>, elemLen: nat, w: int, r: int, ghost base: int, ghost fs: seq<seq<char>>,
                    ghost xs: seq<seq<char>>, ghost k: nat, ghost was: seq<char>, ghost end: int)
    requires elemLen > 0 && k < |fs| && xs == Terminated(fs) && r + k + 1 == w <= end <= a.Length
    requires w == base + Start(elemLen, k + 1) && r == base + Start(elemLen - 1, k + 1)
    requires Unpacked(a[..], base, elemLen, elemLen - 1, fs, xs, k + 1) && SameOutside(was, a[..], w, end)
    modifies a
    ensures Unpacked(a[..], base, elemLen, elemLen - 1, fs, xs, k) && SameOutside(was, a[..], w - elemLen, end)
  {
    ghost var b := a[..];
    assert ElementAt(b, base, elemLen - 1, fs, k);
    UnpackElement(a, elemLen, w, r, fs[k]);
    UnpackedNext(b, a[..], base, elemLen, elemLen - 1, fs, xs, k);
    SameOutsideBoth(was, b, a[..], w - elemLen, w, end);
  }

  /** `f2cstrv` with both vectors in the same buffer, from position `at`, which may lie before it: the fields fill the
      end of their own space. */
  method F2cstrv(a: array<char>, at: int, elemLen: nat, sizeofcstr: nat, ghost fs: seq<seq<char>>)
    returns (start: int)
    requires elemLen > 0 && |fs| == sizeofcstr / elemLen && at + sizeofcstr <= a.Length
    requires HoldsVector(a[..], at + sizeofcstr - Start(elemLen, |fs|), elemLen - 1, fs)
    modifies a
    ensures HoldsVector(a[..], start, elemLen, Terminated(fs))
    ensures start == at + sizeofcstr - Start(elemLen, |fs|)
    ensures SameOutside(old(a[..]), a[..], start, at + sizeofcstr)
  {
    ghost var was := a[..];
    var n := sizeofcstr / elemLen;
    ghost var base, end := at + sizeofcstr - Start(elemLen, n), at + sizeofcstr;
    StartDifference(elemLen - 1, n);
    var w, r, i := at + sizeofcstr, at + sizeofcstr - n, 0;
    while i < n
      invariant i <= n && r + n - i == w <= end
      invariant w == base + Start(elemLen, n - i) && r == base + Start(elemLen - 1, n - i)
      invariant Unpacked(a[..], base, elemLen, elemLen - 1, fs, Terminated(fs), n - i)
      invariant SameOutside(was, a[..], w, end)
    {
      UnpackNext(a, elemLen, w, r, base, fs, Terminated(fs), n - i - 1, was, end);
      w := w - elemLen;
      r := r - (elemLen - 1);
      i := i + 1;
    }
    start := w;
  }

  /** Elements are one longer than fields. */
  lemma {:induction false} StartDifference(width: nat, i: nat)
    ensures Start(width + 1, i) == Start(width, i) + i
  {
    if i > 0 {
      StartDifference(width, i - 1);
    }
  }

  // ----- killing trailing characters

  /** `kill_trailingn(s, t, e)`: the terminator goes behind the last character before `e` that is not a `t`;
      nothing happens when `e` is before `s`. */
  method KillTrailing(a: array<char>, s: nat, t: char, e: int)
    requires s <= e ==> e < a.Length
    modifies a
    ensures a[..] == if s <= e then old(a[..])[s + KeptLength(old(a[s..e]), t) := NUL] else old(a[..])
  {
    if e == s {
      a[e] := NUL;
    } else if e > s {
      ghost var x := a[s..e];
      var e' := e - 1;
      while a[e'] == t && e' > s
        invariant s <= e' < e
        invariant forall m | e' - s < m < e - s :: x[m] == t
      {
        assert x[e' - s] == t;
        e' := e' - 1;
      }
      assert a[e'] == x[e' - s];
      var end := if a[e'] == t then e' else e' + 1;
      KeptLengthIs(x, t, end - s);
      a[end] := NUL;
    }
  }

  /** The elements before `i` have lost their trailing `t`s. */
  predicate KilledBefore(b: seq<char>, width: nat, xs: seq<seq<char>>, ys: seq<seq<char>>, i: nat) {
    && |ys| == |xs| && AllLong(xs, width) && AllLong(ys, width)
    && (forall l: nat | l < |xs| && l < i :: ElementAt(b, 0, width, ys, l))
    && (forall l: nat | i <= l < |xs| :: ElementAt(b, 0, width, xs, l))
  }

  lemma KilledNext(b: seq<char>, c: seq<char>, width: nat, xs: seq<seq<char>>, ys: seq<seq<char>>, i: nat)
    requires KilledBefore(b, width, xs, ys, i) && i < |xs|
    requires HoldsAt(c, Start(width, i), ys[i]) && SameOutside(b, c, Start(width, i), Start(width, i) + width)
    ensures KilledBefore(c, width, xs, ys, i + 1)
  {
    var lo := Start(width, i);
    forall l: nat | l < i ensures ElementAt(c, 0, width, ys, l) {
      StartsApart(width, l, i);
      ElementKept(b, c, lo, lo + width, 0, width, ys, l);
    }
    forall l: nat | i < l < |xs| ensures ElementAt(c, 0, width, xs, l) {
      StartsApart(width, i, l);
      ElementKept(b, c, lo, lo + width, 0, width, xs, l);
    }
    assert ElementAt(c, 0, width, ys, i);
  }

  lemma KilledInPlace(b: seq<char>, c: seq<char>, s: nat, x: seq<char>, t: char)
    requires x != [] && HoldsAt(b, s, x)
    requires c == b[s + KeptLength(b[s..s + |x| - 1], t) := NUL]
    ensures HoldsAt(c, s, Killed(x, t)) && SameOutside(b, c, s, s + |x|)
  {
    assert b[s..s + |x| - 1] == x[..|x| - 1];
  }

  lemma ElementBounds(elemLen: nat, i: nat)
    requires elemLen > 0
    ensures elemLen * i == Start(elemLen, i) && elemLen * (i + 1) - 1 == Start(elemLen, i) + elemLen - 1
  {
    StartIsProduct(elemLen, i);
    StartIsProduct(elemLen, i + 1);
  }

  method KillNext(a: array<char>, s: nat, t: char, e: int, ghost elemLen: nat, ghost i: nat, ghost xs: seq<seq<char>>)
    requires s == Start(elemLen, i) && e == s + elemLen - 1
    requires elemLen > 0 && i < |xs| && AllLong(xs, elemLen) && KilledBefore(a[..], elemLen, xs, AllKilled(xs, t), i)
    modifies a
    ensures KilledBefore(a[..], elemLen, xs, AllKilled(xs, t), i + 1)
    ensures SameOutside(old(a[..]), a[..], Start(elemLen, i), Start(elemLen, i + 1))
  {
    ghost var b := a[..];
    assert ElementAt(b, 0, elemLen, xs, i);
    KillTrailing(a, s, t, e);
    KilledInPlace(b, a[..], s, xs[i], t);
    KilledNext(b, a[..], elemLen, xs, AllKilled(xs, t), i);
  }

  /** `vkill_trailing` on the vector at the start of the buffer. */
  method VkillTrailing(a: array<char>, elemLen: nat, sizeofcstr: nat, t: char, ghost xs: seq<seq<char>>)
    requires elemLen > 0 && |xs| == sizeofcstr / elemLen && HoldsVector(a[..], 0, elemLen, xs)
    modifies a
    ensures HoldsVector(a[..], 0, elemLen, AllKilled(xs, t))
    ensures SameOutside(old(a[..]), a[..], 0, Start(elemLen, |xs|))
  {
    var i := 0;
    while i < sizeofcstr / elemLen
      invariant i <= |xs| && KilledBefore(a[..], elemLen, xs, AllKilled(xs, t), i)
      invariant SameOutside(old(a[..]), a[..], 0, Start(elemLen, i))
    {
      ElementBounds(elemLen, i);
      KillNext(a, elemLen * i, t, elemLen * (i + 1) - 1, elemLen, i, xs);
      i := i + 1;
    }
  }

  // ----- there and back

  /** Packing, unpacking from the position that packing returns, and killing the trailing blanks, all in one buffer of
      any size, gives back every string without its trailing blanks, and touches nothing behind the vector. */
  method RoundTrip(a: array<char>, elemLen: nat, sizeofcstr: nat, ghost xs: seq<seq<char>>)
    returns (ghost ys: seq<seq<char>>)
    requires elemLen > 0 && |xs| == sizeofcstr / elemLen && HoldsVector(a[..], 0, elemLen, xs)
    modifies a
    ensures |ys| == |xs| && HoldsVector(a[..], 0, elemLen, ys)
    ensures forall i | 0 <= i < |xs| :: CString(ys[i]) == Strip(CString(xs[i]), BLANK)
    ensures SameOutside(old(a[..]), a[..], 0, Start(elemLen, |xs|))
  {
    ghost var b := a[..];
    VectorFits(b, elemLen, xs);
    var packed := C2fstrv(a, elemLen, sizeofcstr, xs);
    assert SameOutside(b, a[..], 0, Start(elemLen, |xs|));
    var unpacked := F2cstrv(a, packed, elemLen, sizeofcstr, Fields(xs));
    VkillTrailing(a, elemLen, sizeofcstr, BLANK, Terminated(Fields(xs)));
    ys := AllKilled(Terminated(Fields(xs)), BLANK);
    forall i | 0 <= i < |xs| ensures CString(ys[i]) == Strip(CString(xs[i]), BLANK) {
      ElementRoundTrip(xs[i]);
    }
  }

  lemma VectorFits(b: seq<char>, elemLen: nat, xs: seq<seq<char>>)
    requires elemLen > 0 && HoldsVector(b, 0, elemLen, xs)
    ensures Start(elemLen - 1, |xs|) <= Start(elemLen, |xs|) <= |b|
  {
    StartDifference(elemLen - 1, |xs|);
    if |xs| > 0 {
      assert ElementAt(b, 0, elemLen, xs, |xs| - 1);
    }
  }

  /** What packing returns is the position it was given exactly when the size is a multiple of the element length. */
  lemma OriginalExactly(elemLen: nat, sizeofcstr: nat)
    requires elemLen > 0
    ensures Start(elemLen, sizeofcstr / elemLen) - sizeofcstr == 0 <==> sizeofcstr % elemLen == 0
  {
    StartIsProduct(elemLen, sizeofcstr / elemLen);
  }
}
