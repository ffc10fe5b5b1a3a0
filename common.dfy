/** Shared vocabulary of the model: the Python exceptions the scripts can raise,
    a failure-compatible Result, 3D points over exact reals, and the handful of
    Python string operations (str(n), zfill, endswith, split, slicing) the
    scripts rely on. */
module Common {

  /** The Python exception a script would raise; the model stops there. */
  datatype PyError =
    | IndexError       // a list or string index out of range, or pop() of an empty list
    | ValueError       // float()/int() of text that is not a number, range() with step 0
    | ZeroDivisionError
    | KeyError
    | NameError        // a variable read before any branch assigned it
    | TypeError        // float(None)
    | AttributeError   // None.split
    | OSError          // a file or directory that cannot be opened or listed
    | RuntimeError     // bpy.data.images.load of a file Blender cannot read

  datatype Result<+T> = Ok(value: T) | Err(error: PyError) {
    predicate IsFailure() { Err? }

    function PropagateFailure<U>(): Result<U>
      requires Err?
    {
      Err(error)
    }

    function Extract(): T
      requires Ok?
    {
      value
    }
  }

  datatype Option<+T> = None | Some(value: T)

  /** A point or vector in Blender's space. */
  datatype Vec3 = Vec3(x: real, y: real, z: real) {
    function Add(o: Vec3): Vec3 { Vec3(x + o.x, y + o.y, z + o.z) }
    function Sub(o: Vec3): Vec3 { Vec3(x - o.x, y - o.y, z - o.z) }
  }

  const Origin := Vec3(0.0, 0.0, 0.0)

  /** A start value with k increments added one at a time, as a loop adds a
      step to a running float (an axis offset, an angle, a spin height). */
  function Advance(start: real, inc: real, k: nat): real
  {
    if k == 0 then start else Advance(start, inc, k - 1) + inc
  }

  /** Over exact reals the accumulated value is start + k * inc. */
  lemma {:induction false} AdvanceLinear(start: real, inc: real, k: nat)
    ensures Advance(start, inc, k) == start + (k as real) * inc
  {
    if k > 0 {
      AdvanceLinear(start, inc, k - 1);
    }
  }

  /** Mesh data handed to the host: vertices and faces as vertex indices. */
  datatype Mesh = Mesh(verts: seq<Vec3>, faces: seq<seq<int>>)

  /** Decimal digit character of 0..9. */
  function DigitChar(d: nat): (c: char)
    requires d < 10
    ensures '0' <= c <= '9' && c as int - '0' as int == d
  {
    ('0' as int + d) as char
  }

  /** Python's str(n) for a non-negative integer. */
  function NatToString(n: nat): (s: string)
    ensures |s| >= 1
  {
    if n < 10 then [DigitChar(n)] else NatToString(n / 10) + [DigitChar(n % 10)]
  }

  predicate AllDigits(s: string)
  {
    forall i :: 0 <= i < |s| ==> '0' <= s[i] <= '9'
  }

  /** str(n) consists of decimal digits only, and is one digit below ten. */
  lemma {:induction false} NatToStringDigits(n: nat)
    ensures AllDigits(NatToString(n))
    ensures n < 10 <==> |NatToString(n)| == 1
  {
    if n >= 10 {
      NatToStringDigits(n / 10);
    }
  }

  /** int(s) for a string of decimal digits; leading zeros add nothing. */
  function DigitsValue(s: string): nat
    requires AllDigits(s)
  {
    if s == [] then 0 else DigitsValue(s[..|s| - 1]) * 10 + (s[|s| - 1] as int - '0' as int)
  }

  /** int(str(n)) == n. */
  lemma {:induction false} NatToStringValue(n: nat)
    ensures AllDigits(NatToString(n)) && DigitsValue(NatToString(n)) == n
  {
    NatToStringDigits(n);
    var s := NatToString(n);
    if n >= 10 {
      NatToStringValue(n / 10);
      assert s[..|s| - 1] == NatToString(n / 10);
    }
  }

  /** Leading zeros (what zfill adds) do not change the value. */
  lemma {:induction false} LeadingZerosValue(k: nat, s: string)
    requires AllDigits(s)
    ensures AllDigits(Repeat('0', k) + s) && DigitsValue(Repeat('0', k) + s) == DigitsValue(s)
    decreases |s|, k
  {
    var t := Repeat('0', k) + s;
    if s == [] {
      assert t == Repeat('0', k);
      if k > 0 {
        assert t[..|t| - 1] == Repeat('0', k - 1) + [];
        LeadingZerosValue(k - 1, []);
      }
    } else {
      var init := s[..|s| - 1];
      assert t[..|t| - 1] == Repeat('0', k) + init;
      LeadingZerosValue(k, init);
    }
  }

  /** int(str(n).zfill(width)) == n. */
  lemma ZFillValue(n: nat, width: int)
    ensures AllDigits(ZFill(NatToString(n), width)) && DigitsValue(ZFill(NatToString(n), width)) == n
  {
    NatToStringValue(n);
    var s := NatToString(n);
    if width > |s| {
      LeadingZerosValue(width - |s|, s);
      assert ZFill(s, width) == Repeat('0', width - |s|) + s;
    } else {
      assert ZFill(s, width) == s;
    }
  }

  /** Python's str(n) for any integer. */
  function IntToString(n: int): string
  {
    if n < 0 then "-" + NatToString(-n) else NatToString(n)
  }

  function Repeat(c: char, n: nat): (s: string)
    ensures |s| == n
    ensures forall i :: 0 <= i < n ==> s[i] == c
  {
    if n == 0 then [] else [c] + Repeat(c, n - 1)
  }

  /** Python's s.zfill(width) for a string of digits (no sign). */
  function ZFill(s: string, width: int): (r: string)
    ensures |r| == if width > |s| then width else |s|
  {
    if width > |s| then Repeat('0', width - |s|) + s else s
  }

  /** zfill keeps s as the suffix and pads with zeros in front. */
  lemma ZFillSpec(s: string, width: int)
    ensures var r := ZFill(s, width);
      && r[|r| - |s|..] == s
      && forall i :: 0 <= i < |r| - |s| ==> r[i] == '0'
  {
  }

  /** Python's '%04d' % n: the sign counts towards the width of 4. */
  function Pad4(n: int): string
  {
    if n < 0 then "-" + ZFill(NatToString(-n), 3) else ZFill(NatToString(n), 4)
  }

  predicate StartsWith(s: string, prefix: string)
  {
    |prefix| <= |s| && s[..|prefix|] == prefix
  }

  predicate EndsWith(s: string, suffix: string)
  {
    |suffix| <= |s| && s[|s| - |suffix|..] == suffix
  }

  /** Python's s.split(sep) for a one-character separator: always at least one
      field, and no field contains the separator. */
  function Split(s: string, sep: char): (fields: seq<string>)
    ensures |fields| >= 1
    ensures forall k :: 0 <= k < |fields| ==> sep !in fields[k]
    decreases |s|
  {
    if s == [] then [""]
    else
      var rest := Split(s[1..], sep);
      if s[0] == sep then [""] + rest
      else [[s[0]] + rest[0]] + rest[1..]
  }

  lemma {:induction false} SplitNoSep(s: string, sep: char)
    requires sep !in s
    ensures Split(s, sep) == [s]
    decreases |s|
  {
    if s != [] {
      SplitNoSep(s[1..], sep);
      assert [s[0]] + s[1..] == s;
    }
  }

  lemma {:induction false} SplitAppend(a: string, sep: char, b: string)
    requires sep !in a
    ensures Split(a + [sep] + b, sep) == [a] + Split(b, sep)
    decreases |a|
  {
    if a == [] {
      assert a + [sep] + b == [sep] + b;
      assert ([sep] + b)[1..] == b;
    } else {
      assert (a + [sep] + b)[1..] == a[1..] + [sep] + b;
      SplitAppend(a[1..], sep, b);
      assert [a[0]] + a[1..] == a;
    }
  }

  /** Python's index normalisation: index k is valid for a length n sequence
      when -n <= k < n, negative indices counting from the end. */
  predicate PyIndexOk(k: int, n: nat) { -(n as int) <= k < n }

  function PyIndex(k: int, n: nat): (i: nat)
    requires PyIndexOk(k, n)
    ensures i < n
  {
    if k < 0 then k + n else k
  }

  /** Bound of a Python slice s[a:b] (step 1) for a sequence of length n. */
  function SliceBound(k: int, n: nat): (b: nat)
    ensures b <= n
    ensures 0 <= k <= n ==> b == k
  {
    if k < 0 then (if k + n < 0 then 0 else k + n) else if k > n then n else k
  }

  /** Python's s[a:b]: out-of-range bounds are clamped, negative bounds count
      from the end, and an empty slice results when the bounds cross. */
  function PySlice<T>(s: seq<T>, a: int, b: int): (r: seq<T>)
    ensures 0 <= a <= b <= |s| ==> r == s[a..b]
    ensures |r| <= |s|
  {
    var lo := SliceBound(a, |s|);
    var hi := SliceBound(b, |s|);
    if lo < hi then s[lo..hi] else []
  }

  /** Python's s[-n:]: the last n characters, or all of s when it is shorter. */
  function LastChars(s: string, n: nat): (r: string)
    ensures |r| == if |s| < n then |s| else n
  {
    if |s| < n then s else s[|s| - n..]
  }

  /** Index of the last occurrence of c in s, or -1. */
  function RFind(s: string, c: char): (i: int)
    ensures -1 <= i < |s|
    ensures i >= 0 ==> s[i] == c
    ensures forall j :: i < j < |s| ==> s[j] != c
  {
    if s == [] then -1
    else if s[|s| - 1] == c then |s| - 1
    else RFind(s[..|s| - 1], c)
  }
}
