/** Small value types and string helpers shared by the whole model:
    the C++ engine's `std::string`s become `seq<char>`, a null pointer or a
    missing map entry becomes `Option`, and an exception becomes `Result`. */
module Common {

  type String = seq<char>

  /** The largest value of a 32-bit `int` (INT_MAX). */
  const IntMax: int := 0x7fff_ffff
  /** The smallest value of a 32-bit `int` (INT_MIN). */
  const IntMin: int := -0x8000_0000

  datatype Option<+T> = None | Some(value: T)

  datatype Result<+T, +E> = Ok(value: T) | Err(error: E)

  /** `p` occurs in `s` starting at index `i`. */
  predicate OccursAt(s: String, p: String, i: int)
  {
    0 <= i && i + |p| <= |s| && s[i..i + |p|] == p
  }

  predicate StartsWith(s: String, p: String)
  {
    OccursAt(s, p, 0)
  }

  predicate EndsWith(s: String, p: String)
  {
    |p| <= |s| && OccursAt(s, p, |s| - |p|)
  }

  /** `std::string::find(p, from)`: the first index at or after `from` where
      `p` occurs, or `None` (npos). */
  function Find(s: String, p: String, from: nat): (r: Option<nat>)
    requires from <= |s|
    decreases |s| - from
    ensures r.Some? ==> from <= r.value && OccursAt(s, p, r.value)
    ensures r.Some? ==> forall j :: from <= j < r.value ==> !OccursAt(s, p, j)
    ensures r.None? ==> forall j :: from <= j ==> !OccursAt(s, p, j)
  {
    if OccursAt(s, p, from) then Some(from)
    else if from == |s| then None
    else Find(s, p, from + 1)
  }

  /** `p` occurs somewhere in `s`. */
  predicate Contains(s: String, p: String)
  {
    Find(s, p, 0).Some?
  }

  /** `std::string::find(c)` for a single character. */
  function FindChar(s: String, c: char): (r: Option<nat>)
    ensures r.Some? ==> r.value < |s| && s[r.value] == c
    ensures r.Some? ==> forall j :: 0 <= j < r.value ==> s[j] != c
    ensures r.None? ==> forall j :: 0 <= j < |s| ==> s[j] != c
  {
    if s == [] then None
    else if s[0] == c then Some(0)
    else match FindChar(s[1..], c)
      case None => None
      case Some(k) => Some(k + 1)
  }

  /** `std::string::rfind(c)`: the last index of `c` in `s`. */
  function FindLastChar(s: String, c: char): (r: Option<nat>)
    ensures r.Some? ==> r.value < |s| && s[r.value] == c
  {
    if s == [] then None
    else if s[|s| - 1] == c then Some(|s| - 1)
    else FindLastChar(s[..|s| - 1], c)
  }

  /** An occurrence with none after it is the one `rfind` finds. */
  lemma {:induction false} FindLastCharAt(s: String, c: char, k: nat)
    requires k < |s| && s[k] == c
    requires forall j :: k < j < |s| ==> s[j] != c
    ensures FindLastChar(s, c) == Some(k)
    decreases |s|
  {
    if k < |s| - 1 {
      FindLastCharAt(s[..|s| - 1], c, k);
    }
  }

  /** `rfind` finds the last occurrence, and `npos` means there is none. */
  lemma {:induction false} FindLastCharIsLast(s: String, c: char)
    ensures FindLastChar(s, c).Some? ==> forall j :: FindLastChar(s, c).value < j < |s| ==> s[j] != c
    ensures FindLastChar(s, c).None? ==> forall j :: 0 <= j < |s| ==> s[j] != c
    decreases |s|
  {
    if s != [] && s[|s| - 1] != c {
      FindLastCharIsLast(s[..|s| - 1], c);
    }
  }

  /** The first value bound to `key` in an ordered list of name/value pairs. */
  function Lookup<V>(pairs: seq<(String, V)>, key: String): (r: Option<V>)
    ensures r.Some? ==> exists i :: 0 <= i < |pairs| && pairs[i] == (key, r.value)
    ensures r.None? ==> forall i :: 0 <= i < |pairs| ==> pairs[i].0 != key
  {
    if pairs == [] then None
    else if pairs[0].0 == key then Some(pairs[0].1)
    else Lookup(pairs[1..], key)
  }

  /** Looking a key up in two lists laid end to end finds it in the first
      when it is there, else in the second. */
  lemma {:induction false} LookupAppend<V>(a: seq<(String, V)>, b: seq<(String, V)>, key: String)
    ensures Lookup(a + b, key) == if Lookup(a, key).Some? then Lookup(a, key) else Lookup(b, key)
  {
    if a == [] {
      assert a + b == b;
    } else {
      assert (a + b)[0] == a[0] && (a + b)[1..] == a[1..] + b;
      LookupAppend(a[1..], b, key);
    }
  }

  /** C++ integer division by a positive divisor, which truncates toward
      zero (Dafny's `/` is Euclidean and differs for a negative dividend). */
  function CDiv(a: int, b: int): (r: int)
    requires b > 0
    ensures a >= 0 ==> r == a / b && 0 <= r <= a
    ensures a < 0 ==> a <= r <= 0
  {
    DivBounds(if a >= 0 then a else -a, b);
    if a >= 0 then a / b else -((-a) / b)
  }

  lemma MulGe(b: int, q: int)
    requires b >= 1 && q >= 0
    ensures b * q >= q
  {
  }

  lemma DivBounds(a: int, b: int)
    requires a >= 0 && b > 0
    ensures 0 <= a / b <= a
  {
    assert a == b * (a / b) + a % b && 0 <= a % b < b;
    MulGe(b, a / b);
  }

  /** Concatenation is associative (a hint the solver often needs). */
  lemma AppendAssoc<T>(a: seq<T>, b: seq<T>, c: seq<T>)
    ensures a + (b + c) == (a + b) + c
  {
  }

  function Max(a: int, b: int): int { if a < b then b else a }
  function Min(a: int, b: int): int { if a < b then a else b }

  /** `std::string`'s `operator<`: lexicographic by character. */
  predicate Less(a: String, b: String)
  {
    if a == [] then b != []
    else if b == [] then false
    else if a[0] != b[0] then a[0] < b[0]
    else Less(a[1..], b[1..])
  }

  lemma LessIrreflexive(a: String)
    ensures !Less(a, a)
  {
  }

  lemma LessTransitive(a: String, b: String, c: String)
    requires Less(a, b) && Less(b, c)
    ensures Less(a, c)
  {
    if a != [] && b != [] && c != [] && a[0] == b[0] && b[0] == c[0] {
      LessTransitive(a[1..], b[1..], c[1..]);
    }
  }

  lemma LessTotal(a: String, b: String)
    ensures a == b || Less(a, b) || Less(b, a)
  {
    if a != [] && b != [] && a[0] == b[0] {
      LessTotal(a[1..], b[1..]);
      if a[1..] == b[1..] {
        assert a == [a[0]] + a[1..] && b == [b[0]] + b[1..];
      }
    }
  }

  /** `static_cast<Uint8>` of an `int`: modulo 256. */
  function ToByte(v: int): (r: int)
    ensures 0 <= r < 256
    ensures (r - v) % 256 == 0
  {
    v % 256
  }

  /** `static_cast<int>` of a float: truncation toward zero. */
  function Truncate(x: real): (r: int)
    ensures x >= 0.0 ==> r == x.Floor
    ensures x < 0.0 ==> r == -((-x).Floor)
    ensures x >= 0.0 ==> r >= 0 && r as real <= x < r as real + 1.0
    ensures x < 0.0 ==> r <= 0 && r as real - 1.0 < x <= r as real
  {
    if x >= 0.0 then x.Floor else -((-x).Floor)
  }
}
