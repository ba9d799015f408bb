/** String conversions and the name/id tables of the engine's enumerations
    (tsc/src/core/property_helper.cpp). */
module PropertyHelper {
  import opened Common
  import opened GameTypes

  /* ---------------------------------------------------------------------
     string_replace_all
     --------------------------------------------------------------------- */

  /** Every non-overlapping occurrence of `search`, scanning left to right,
      replaced by `format`; scanning resumes after the replaced occurrence, so
      the inserted text is never scanned again. */
  function ReplaceAll(s: String, search: String, format: String): String
    requires |search| > 0
    decreases |s|
  {
    if OccursAt(s, search, 0) then format + ReplaceAll(s[|search|..], search, format)
    else if s == [] then []
    else [s[0]] + ReplaceAll(s[1..], search, format)
  }

  /** Dropping the first character shifts every occurrence by one. */
  lemma OccursAtTail(s: String, p: String, j: int)
    requires s != [] && 0 <= j
    ensures OccursAt(s[1..], p, j) <==> OccursAt(s, p, j + 1)
  {
    if j + |p| <= |s| - 1 {
      assert s[1..][j..j + |p|] == s[j + 1..j + 1 + |p|];
    }
  }

  /** Occurrences in a suffix are the occurrences in the whole string, shifted. */
  lemma OccursAtSuffix(s: String, p: String, k: nat, j: int)
    requires k <= |s| && 0 <= j
    ensures OccursAt(s[k..], p, j) <==> OccursAt(s, p, k + j)
  {
    if j + |p| <= |s| - k {
      assert s[k..][j..j + |p|] == s[k + j..k + j + |p|];
    }
  }

  /** When `search` does not start before index `k`, the first `k` characters
      are copied unchanged. */
  lemma {:induction false} ReplaceAllSkip(s: String, search: String, format: String, k: nat)
    requires |search| > 0 && k <= |s|
    requires forall j :: 0 <= j < k ==> !OccursAt(s, search, j)
    ensures ReplaceAll(s, search, format) == s[..k] + ReplaceAll(s[k..], search, format)
  {
    if k == 0 {
      assert s[..0] == [] && s[0..] == s;
    } else {
      assert !OccursAt(s, search, 0);
      assert ReplaceAll(s, search, format) == [s[0]] + ReplaceAll(s[1..], search, format);
      forall j | 0 <= j < k - 1 ensures !OccursAt(s[1..], search, j) {
        OccursAtTail(s, search, j);
      }
      ReplaceAllSkip(s[1..], search, format, k - 1);
      assert s[1..][k - 1..] == s[k..];
      assert [s[0]] + s[1..][..k - 1] == s[..k];
    }
  }

  /** A string that does not contain `search` is left unchanged. */
  lemma ReplaceAllAbsent(s: String, search: String, format: String)
    requires |search| > 0
    requires forall j :: !OccursAt(s, search, j)
    ensures ReplaceAll(s, search, format) == s
  {
    ReplaceAllSkip(s, search, format, |s|);
    assert s[|s|..] == [];
    assert !OccursAt([], search, 0);
  }

  /** `string_replace_all`: the loop over `find(search, pos)` that resumes at
      `pos + format.length()`. The source's callers always pass a non-empty
      `search`; with an empty one and an empty `format` the loop never ends. */
  method StringReplaceAll(str: String, search: String, format: String) returns (r: String)
    requires |search| > 0
    ensures r == ReplaceAll(str, search, format)
  {
    r := str;
    var pos: nat := 0;
    while true
      invariant pos <= |r|
      invariant r[..pos] + ReplaceAll(r[pos..], search, format) == ReplaceAll(str, search, format)
      decreases |r| - pos
    {
      var found := Find(r, search, pos);
      if found.None? {
        FindNoneStep(r, search, format, pos);
        break;
      }
      var p := found.value;
      FindSomeStep(r, search, format, pos, p);
      var next := r[..p] + format + r[p + |search|..];
      assert next[..p + |format|] == r[..p] + format;
      assert next[p + |format|..] == r[p + |search|..];
      r, pos := next, p + |format|;
    }
  }

  /** The loop's exit: no occurrence after `pos` means the rest is copied. */
  lemma FindNoneStep(r: String, search: String, format: String, pos: nat)
    requires |search| > 0 && pos <= |r|
    requires forall j :: pos <= j ==> !OccursAt(r, search, j)
    ensures r[..pos] + ReplaceAll(r[pos..], search, format) == r
  {
    forall j | 0 <= j ensures !OccursAt(r[pos..], search, j) {
      OccursAtSuffix(r, search, pos, j);
    }
    ReplaceAllAbsent(r[pos..], search, format);
    assert r[..pos] + r[pos..] == r;
  }

  /** Scanning from `pos` copies the characters before the next occurrence. */
  lemma SkipToOccurrence(r: String, search: String, format: String, pos: nat, p: nat)
    requires |search| > 0 && pos <= p <= |r|
    requires forall j :: pos <= j < p ==> !OccursAt(r, search, j)
    ensures ReplaceAll(r[pos..], search, format) == r[pos..p] + ReplaceAll(r[p..], search, format)
  {
    var tail := r[pos..];
    forall j | 0 <= j < p - pos ensures !OccursAt(tail, search, j) {
      OccursAtSuffix(r, search, pos, j);
    }
    ReplaceAllSkip(tail, search, format, p - pos);
    assert tail[p - pos..] == r[p..];
    assert tail[..p - pos] == r[pos..p];
  }

  /** An occurrence at `p` is replaced and scanning resumes after it. */
  lemma ReplaceAtOccurrence(r: String, search: String, format: String, p: nat)
    requires |search| > 0 && OccursAt(r, search, p)
    ensures ReplaceAll(r[p..], search, format) == format + ReplaceAll(r[p + |search|..], search, format)
  {
    OccursAtSuffix(r, search, p, 0);
    assert r[p..][|search|..] == r[p + |search|..];
  }

  /** The loop's step: replacing the first occurrence at or after `pos`. */
  lemma FindSomeStep(r: String, search: String, format: String, pos: nat, p: nat)
    requires |search| > 0 && pos <= p
    requires OccursAt(r, search, p)
    requires forall j :: pos <= j < p ==> !OccursAt(r, search, j)
    ensures r[..pos] + ReplaceAll(r[pos..], search, format)
            == (r[..p] + format) + ReplaceAll(r[p + |search|..], search, format)
  {
    SkipToOccurrence(r, search, format, pos, p);
    ReplaceAtOccurrence(r, search, format, p);
    var rest := ReplaceAll(r[p + |search|..], search, format);
    AppendAssoc(r[..pos], r[pos..p], format + rest);
    AppendAssoc(r[..pos] + r[pos..p], format, rest);
    assert r[..pos] + r[pos..p] == r[..p];
  }

  /* ---------------------------------------------------------------------
     xml_string_to_string
     --------------------------------------------------------------------- */

  const LineBreakTag: String := "<br/>"

  /** Replacing the first "<br/>" by a newline leaves no earlier start of a
      "<br/>", because a newline cannot be part of one. */
  lemma NoTagBeforeNewline(s: String, p: nat, t: String)
    requires OccursAt(s, LineBreakTag, p)
    requires forall j :: 0 <= j < p ==> !OccursAt(s, LineBreakTag, j)
    requires t == s[..p] + "\n" + s[p + 5..]
    ensures forall j :: 0 <= j < p + 1 ==> !OccursAt(t, LineBreakTag, j)
  {
    forall j | 0 <= j < p + 1 ensures !OccursAt(t, LineBreakTag, j) {
      if j + 5 <= p {
        assert t[j..j + 5] == s[j..j + 5];
        assert !OccursAt(s, LineBreakTag, j);
      } else if j + 5 <= |t| {
        assert t[j..j + 5][p - j] == '\n';
      }
    }
  }

  /** `xml_string_to_string`: repeatedly replaces the first "<br/>" by a
      newline until none is left. */
  method XmlStringToString(str: String) returns (r: String)
    ensures r == ReplaceAll(str, LineBreakTag, "\n")
    ensures !Contains(r, LineBreakTag)
  {
    r := str;
    while true
      invariant ReplaceAll(r, LineBreakTag, "\n") == ReplaceAll(str, LineBreakTag, "\n")
      decreases |r|
    {
      var found := Find(r, LineBreakTag, 0);
      if found.None? {
        FindNoneStep(r, LineBreakTag, "\n", 0);
        assert r[..0] == [] && r[0..] == r;
        return;
      }
      var p := found.value;
      var next := r[..p] + "\n" + r[p + 5..];
      FirstTagReplaced(r, p, next);
      r := next;
    }
  }

  /** Replacing the first "<br/>" does not change what the full replacement
      produces. */
  lemma FirstTagReplaced(r: String, p: nat, next: String)
    requires OccursAt(r, LineBreakTag, p)
    requires forall j :: 0 <= j < p ==> !OccursAt(r, LineBreakTag, j)
    requires next == r[..p] + "\n" + r[p + 5..]
    ensures ReplaceAll(next, LineBreakTag, "\n") == ReplaceAll(r, LineBreakTag, "\n")
  {
    FindSomeStep(r, LineBreakTag, "\n", 0, p);
    assert r[..0] == [] && r[0..] == r;
    NoTagBeforeNewline(r, p, next);
    ReplaceAllSkip(next, LineBreakTag, "\n", p + 1);
    assert next[..p + 1] == r[..p] + "\n";
    assert next[p + 1..] == r[p + 5..];
  }

  /* ---------------------------------------------------------------------
     string_trim_from_end, bool_to_string, string_to_bool
     --------------------------------------------------------------------- */

  /** `string_trim_from_end`: the longest prefix that does not end in `c`. */
  function TrimFromEnd(s: String, c: char): (r: String)
    ensures |r| <= |s| && r == s[..|r|]
    ensures forall i :: |r| <= i < |s| ==> s[i] == c
    ensures r == [] || r[|r| - 1] != c
  {
    if s == [] then []
    else if s[|s| - 1] == c then TrimFromEnd(s[..|s| - 1], c)
    else s
  }

  function BoolToString(b: bool): String
  {
    if b then "1" else "0"
  }

  /** `string_to_bool`: only "0" is false. */
  function StringToBool(s: String): bool
  {
    s != "0"
  }

  lemma BoolStringRoundTrip(b: bool)
    ensures StringToBool(BoolToString(b)) == b
  {
  }

  /* ---------------------------------------------------------------------
     string_to_int (istringstream >> int) and string_to_version_number
     --------------------------------------------------------------------- */

  predicate IsDigit(c: char) { '0' <= c <= '9' }

  predicate IsSpace(c: char)
  {
    c == ' ' || c == '\t' || c == '\n' || c == '\r' || c == '\U{0b}' || c == '\U{0c}'
  }

  function SkipSpace(s: String): (r: String)
    ensures |r| <= |s| && r == s[|s| - |r|..]
    ensures r == [] || !IsSpace(r[0])
  {
    if s != [] && IsSpace(s[0]) then SkipSpace(s[1..]) else s
  }

  /** The maximal run of digits at the start of `s`. */
  function LeadingDigits(s: String): (r: String)
    ensures |r| <= |s| && r == s[..|r|]
    ensures forall i :: 0 <= i < |r| ==> IsDigit(r[i])
    ensures |r| == |s| || !IsDigit(s[|r|])
  {
    if s != [] && IsDigit(s[0]) then [s[0]] + LeadingDigits(s[1..]) else []
  }

  function DigitValue(c: char): nat
    requires IsDigit(c)
  {
    (c as int) - ('0' as int)
  }

  /** The number a string of decimal digits denotes. */
  function DigitsValue(d: String): nat
    requires forall i :: 0 <= i < |d| ==> IsDigit(d[i])
  {
    if d == [] then 0 else DigitsValue(d[..|d| - 1]) * 10 + DigitValue(d[|d| - 1])
  }

  /** The sign `istringstream >> std::dec` reads into an integer after
      leading white space: true for a minus. */
  function ReadNegative(s: String): bool
  {
    var t := SkipSpace(s);
    t != [] && t[0] == '-'
  }

  /** The run of digits `istringstream >> std::dec` reads into an integer,
      after leading white space and an optional sign. */
  function ReadDigits(s: String): (r: String)
    ensures forall i :: 0 <= i < |r| ==> IsDigit(r[i])
  {
    var t := SkipSpace(s);
    LeadingDigits(if t != [] && (t[0] == '-' || t[0] == '+') then t[1..] else t)
  }

  /** `istringstream >> std::dec` into a signed integer type whose range is
      [lo, hi]: without any digit the result is 0, and a value out of range
      saturates at the nearer bound. */
  function ParseIntIn(s: String, lo: int, hi: int): (r: int)
    requires lo <= 0 <= hi
    ensures lo <= r <= hi
  {
    var t := SkipSpace(s);
    var negative := t != [] && t[0] == '-';
    var body := if t != [] && (t[0] == '-' || t[0] == '+') then t[1..] else t;
    var digits := LeadingDigits(body);
    if digits == [] then 0
    else
      var v: int := if negative then 0 - DigitsValue(digits) else DigitsValue(digits);
      if v > hi then hi else if v < lo then lo else v
  }

  /** `string_to_int` */
  function StringToInt(s: String): (r: int)
    ensures IntMin <= r <= IntMax
  {
    ParseIntIn(s, IntMin, IntMax)
  }

  const Int64Max: int := 0x7fff_ffff_ffff_ffff
  const Int64Min: int := -0x8000_0000_0000_0000
  const UInt64Modulus: int := 0x1_0000_0000_0000_0000

  /** `string_to_long` (a `long` is 64 bits wide). */
  function StringToLong(s: String): (r: int)
    ensures Int64Min <= r <= Int64Max
  {
    ParseIntIn(s, Int64Min, Int64Max)
  }

  /** `istringstream >> std::dec` into `uint64_t`: without any digit the
      result is 0, digits beyond the range saturate at the maximum whatever
      the sign, and otherwise a minus sign negates modulo 2^64. */
  function ParseUInt64(s: String): (r: int)
    ensures 0 <= r < UInt64Modulus
  {
    var digits := ReadDigits(s);
    if digits == [] then 0
    else if DigitsValue(digits) >= UInt64Modulus then UInt64Modulus - 1
    else if ReadNegative(s) && DigitsValue(digits) > 0 then UInt64Modulus - DigitsValue(digits)
    else DigitsValue(digits)
  }

  /** `string_to_int64`, which despite its name returns a `uint64_t`. */
  function StringToInt64(s: String): (r: int)
    ensures 0 <= r < UInt64Modulus
  {
    ParseUInt64(s)
  }

  /** A `uint64_t` stored into a signed 64-bit `time_t`: values above the
      signed range wrap round by 2^64. */
  function ToInt64(u: int): (r: int)
    requires 0 <= u < UInt64Modulus
    ensures Int64Min <= r <= Int64Max
    ensures (r - u) % UInt64Modulus == 0
  {
    if u > Int64Max then u - UInt64Modulus else u
  }

  /** A time stamp read with `string_to_int64` into a `time_t`. */
  function StringToTime(s: String): (r: int)
    ensures Int64Min <= r <= Int64Max
  {
    ToInt64(StringToInt64(s))
  }

  function DigitChar(n: nat): (c: char)
    requires n < 10
    ensures IsDigit(c) && DigitValue(c) == n
  {
    ('0' as int + n) as char
  }

  /** The decimal text of a natural number (`int_to_string` for n >= 0). */
  function NatToString(n: nat): (r: String)
    ensures |r| > 0
    ensures forall i :: 0 <= i < |r| ==> IsDigit(r[i])
  {
    if n < 10 then [DigitChar(n)] else NatToString(n / 10) + [DigitChar(n % 10)]
  }

  /** `int_to_string`: the digits of a negative number follow a minus sign. */
  function IntToString(i: int): (r: String)
    ensures |r| > 0
    ensures i >= 0 ==> r == NatToString(i)
    ensures i < 0 ==> r[0] == '-'
  {
    if i < 0 then "-" + NatToString(-i) else NatToString(i)
  }

  lemma {:induction false} NatToStringValue(n: nat)
    ensures DigitsValue(NatToString(n)) == n
  {
    if n >= 10 {
      var r := NatToString(n);
      assert r[..|r| - 1] == NatToString(n / 10);
      NatToStringValue(n / 10);
    }
  }

  /** Reading back the decimal text of a non-negative `int` gives the number. */
  lemma StringToIntOfNat(n: nat)
    requires n <= IntMax
    ensures StringToInt(NatToString(n)) == n
  {
    var r := NatToString(n);
    assert !IsSpace(r[0]);
    assert SkipSpace(r) == r;
    assert LeadingDigits(r) == r by {
      DigitRunIsWhole(r);
    }
    NatToStringValue(n);
  }

  /** Reading back the decimal text of any `int` gives the number. */
  lemma StringToIntOfInt(i: int)
    requires IntMin <= i <= IntMax
    ensures StringToInt(IntToString(i)) == i
  {
    if i >= 0 {
      StringToIntOfNat(i);
    } else {
      var r := IntToString(i);
      var d := NatToString(-i);
      assert r == "-" + d && r[1..] == d;
      assert !IsSpace(r[0]);
      assert SkipSpace(r) == r;
      assert LeadingDigits(d) == d by {
        DigitRunIsWhole(d);
      }
      NatToStringValue(-i);
    }
  }

  /** The decimal text of any number reads as its sign and the digits of its
      magnitude. */
  lemma ReadOfIntToString(i: int)
    ensures ReadNegative(IntToString(i)) == (i < 0)
    ensures ReadDigits(IntToString(i)) == NatToString(if i < 0 then -i else i)
    ensures DigitsValue(NatToString(if i < 0 then -i else i)) == (if i < 0 then -i else i)
  {
    var r := IntToString(i);
    var d := NatToString(if i < 0 then -i else i);
    assert !IsSpace(r[0]);
    assert SkipSpace(r) == r;
    if i < 0 {
      assert r == "-" + d && r[1..] == d;
    } else {
      assert r == d && r[0] != '-' && r[0] != '+';
    }
    DigitRunIsWhole(d);
    NatToStringValue(if i < 0 then -i else i);
  }

  /** Every `time_t` written as decimal text reads back as itself through
      `string_to_int64`: a negative one wraps twice, on reading and on
      storing. */
  lemma StringToTimeOfInt(i: int)
    requires Int64Min <= i <= Int64Max
    ensures StringToTime(IntToString(i)) == i
  {
    ReadOfIntToString(i);
  }

  /** Every `uint64_t` written as decimal text reads back as itself. */
  lemma StringToInt64OfNat(n: nat)
    requires n < UInt64Modulus
    ensures StringToInt64(NatToString(n)) == n
  {
    ReadOfIntToString(n);
  }

  /** Text beyond the signed range wraps on storing into `time_t`: one past
      the largest time reads as the smallest, one below the smallest as the
      largest, and -1 stays -1. */
  lemma StringToTimeWraps()
    ensures StringToTime(NatToString(Int64Max + 1)) == Int64Min
    ensures StringToTime(IntToString(Int64Min - 1)) == Int64Max
    ensures StringToInt64(IntToString(-1)) == UInt64Modulus - 1
  {
    ReadOfIntToString(Int64Max + 1);
    ReadOfIntToString(Int64Min - 1);
    ReadOfIntToString(-1);
  }

  lemma {:induction false} DigitRunIsWhole(d: String)
    requires forall i :: 0 <= i < |d| ==> IsDigit(d[i])
    ensures LeadingDigits(d) == d
  {
    if d != [] {
      DigitRunIsWhole(d[1..]);
    }
  }

  const UIntModulus: int := 0x1_0000_0000

  /** Conversion of an `int` to `unsigned int`. */
  function ToUInt(v: int): (r: nat)
    ensures r < UIntModulus
    ensures 0 <= v < UIntModulus ==> r == v
  {
    v % UIntModulus
  }

  /** `string_to_version_number`: "X.Y.Z" denotes X*10000 + Y*100 + Z as an
      `unsigned int` (hence the final reduction modulo 2^32). */
  function StringToVersionNumber(s: String): (r: nat)
    ensures r < UIntModulus
  {
    ToUInt(VersionValue(s))
  }

  /** The version number before the reduction to `unsigned int`. */
  function VersionValue(s: String): int
  {
    if s == [] then 0
    else match FindChar(s, '.')
      case None => StringToInt(s) * 10000
      case Some(pos) => Scaled(s[..pos], 10000) + MinorAndPatch(s[pos + 1..])
  }

  /** A version component times its weight; an empty component counts 0. */
  function Scaled(t: String, weight: int): int
  {
    if t != [] then StringToInt(t) * weight else 0
  }

  /** The minor*100 + patch part of a version string, given the text after the
      first '.'. */
  function MinorAndPatch(rest: String): int
  {
    match FindChar(rest, '.')
    case None => StringToInt(rest) * 100
    case Some(pos) => Scaled(rest[..pos], 100) + Scaled(rest[pos + 1..], 1)
  }

  predicate NoDot(a: String)
  {
    forall i :: 0 <= i < |a| ==> a[i] != '.'
  }

  lemma {:induction false} FindCharAfterPrefix(a: String, b: String, c: char)
    requires forall i :: 0 <= i < |a| ==> a[i] != c
    ensures FindChar(a + b, c) == (match FindChar(b, c) case None => None case Some(k) => Some(|a| + k))
  {
    if a != [] {
      assert (a + b)[0] == a[0] != c;
      assert (a + b)[1..] == a[1..] + b;
      FindCharAfterPrefix(a[1..], b, c);
    } else {
      assert a + b == b;
    }
  }

  /** In "A" + "." + ..., with A dot-free, the first '.' follows A. */
  lemma FirstDotAfter(a: String, t: String)
    requires NoDot(a) && t != [] && t[0] == '.'
    ensures FindChar(a + t, '.') == Some(|a|)
    ensures (a + t)[..|a|] == a && (a + t)[|a| + 1..] == t[1..]
  {
    FindCharAfterPrefix(a, t, '.');
  }

  /** Splitting at the first '.': "A.rest" with a dot-free, non-empty A. */
  lemma VersionNumberSplit(a: String, rest: String)
    requires NoDot(a) && a != []
    ensures VersionValue(a + "." + rest) == StringToInt(a) * 10000 + MinorAndPatch(rest)
  {
    var t := "." + rest;
    FirstDotAfter(a, t);
    assert t[1..] == rest;
    AppendAssoc(a, ".", rest);
  }

  /** The minor and patch part of "B.C" for a dot-free, non-empty B. */
  lemma MinorAndPatchOfParts(b: String, c: String)
    requires NoDot(b) && b != []
    ensures MinorAndPatch(b + "." + c) == StringToInt(b) * 100 + (if c != [] then StringToInt(c) else 0)
  {
    FirstDotAfter(b, "." + c);
    assert b + "." + c == b + ("." + c);
    assert ("." + c)[1..] == c;
  }

  /** The version number is the version value reduced to `unsigned int`. */
  lemma VersionNumberOfValue(s: String, v: int, w: int)
    requires VersionValue(s) == v && v == w
    ensures StringToVersionNumber(s) == ToUInt(w)
  {
  }

  /** The version value of "A.B.C" for dot-free, non-empty A and B. */
  lemma VersionValueOfParts(a: String, b: String, c: String)
    requires NoDot(a) && NoDot(b) && a != [] && b != []
    ensures VersionValue(a + "." + b + "." + c) == StringToInt(a) * 10000 + (StringToInt(b) * 100 + Scaled(c, 1))
  {
    var rest := b + "." + c;
    VersionNumberSplit(a, rest);
    MinorAndPatchOfParts(b, c);
    assert a + "." + rest == a + "." + b + "." + c by {
      AppendAssoc(a + ".", b + ".", c);
      AppendAssoc(a + ".", b, ".");
    }
  }

  /** The version number of "A.B" for dot-free, non-empty A. */
  lemma VersionNumberOfTwoParts(a: String, b: String)
    requires NoDot(a) && NoDot(b) && a != []
    ensures StringToVersionNumber(a + "." + b) == ToUInt(StringToInt(a) * 10000 + StringToInt(b) * 100)
  {
    VersionNumberSplit(a, b);
    assert FindChar(b, '.') == None;
  }

  lemma DigitsNoDot(n: nat)
    ensures NoDot(NatToString(n))
  {
    var r := NatToString(n);
    forall i | 0 <= i < |r| ensures r[i] != '.' {
      assert IsDigit(r[i]);
    }
  }

  /** "X.Y.Z" round-trips with TSC_VERSION_NUM(X, Y, Z). */
  lemma VersionNumberOfThreeParts(x: nat, y: nat, z: nat)
    requires x <= IntMax && y <= IntMax && z <= IntMax
    requires VersionNum(x, y, z) < UIntModulus
    ensures StringToVersionNumber(NatToString(x) + "." + NatToString(y) + "." + NatToString(z))
            == VersionNum(x, y, z)
  {
    DigitsNoDot(x);
    DigitsNoDot(y);
    VersionValueOfParts(NatToString(x), NatToString(y), NatToString(z));
    StringToIntOfNat(x);
    StringToIntOfNat(y);
    StringToIntOfNat(z);
    VersionNumberOfValue(NatToString(x) + "." + NatToString(y) + "." + NatToString(z),
                         x * 10000 + (y * 100 + Scaled(NatToString(z), 1)), VersionNum(x, y, z));
  }

  /** "X.Y" gives X*10000 + Y*100, "X" gives X*10000 and "" gives 0. */
  lemma VersionNumberOfShortForms(x: nat, y: nat)
    requires x <= IntMax && y <= IntMax
    requires VersionNum(x, y, 0) < UIntModulus
    ensures StringToVersionNumber(NatToString(x) + "." + NatToString(y)) == VersionNum(x, y, 0)
    ensures StringToVersionNumber(NatToString(x)) == VersionNum(x, 0, 0)
    ensures StringToVersionNumber("") == 0
  {
    DigitsNoDot(x);
    DigitsNoDot(y);
    VersionNumberOfTwoParts(NatToString(x), NatToString(y));
    StringToIntOfNat(x);
    StringToIntOfNat(y);
    assert FindChar(NatToString(x), '.') == None;
  }

  /* ---------------------------------------------------------------------
     Directions
     --------------------------------------------------------------------- */

  /** `Get_Opposite_Direction`. */
  function OppositeDirection(d: Direction): Direction
  {
    match d
    case DirUp => DirDown
    case DirDown => DirUp
    case DirLeft => DirRight
    case DirRight => DirLeft
    case DirHorizontal => DirVertical
    case DirVertical => DirHorizontal
    case _ => DirUndefined
  }

  /** The opposite is an involution on the six directions that have one and
      maps every other direction to DIR_UNDEFINED. */
  lemma OppositeDirectionInvolution(d: Direction)
    ensures d in {DirLeft, DirRight, DirUp, DirDown, DirHorizontal, DirVertical} ==>
              OppositeDirection(OppositeDirection(d)) == d && OppositeDirection(d) != d
    ensures d !in {DirLeft, DirRight, DirUp, DirDown, DirHorizontal, DirVertical} ==>
              OppositeDirection(d) == DirUndefined
  {
  }

  function DirectionName(d: Direction): String
  {
    match d
    case DirUndefined => "undefined"
    case DirLeft => "left"
    case DirRight => "right"
    case DirUp => "up"
    case DirDown => "down"
    case DirTopLeft => "top_left"
    case DirTopRight => "top_right"
    case DirBottomLeft => "bottom_left"
    case DirBottomRight => "bottom_right"
    case DirLeftTop => "left_top"
    case DirLeftBottom => "left_bottom"
    case DirRightTop => "right_top"
    case DirRightBottom => "right_bottom"
    case DirHorizontal => "horizontal"
    case DirVertical => "vertical"
    case DirAll => "all"
    case DirFirst => "first"
    case DirLast => "last"
  }

  /** `Get_Direction_Id`: a name of the table gives its direction, any other
      string DIR_UNDEFINED. */
  function DirectionId(s: String): (d: Direction)
    ensures (exists e :: DirectionName(e) == s) ==> DirectionName(d) == s
    ensures (forall e :: DirectionName(e) != s) ==> d == DirUndefined
  {
    if s == "undefined" then DirUndefined
    else if s == "left" then DirLeft
    else if s == "right" then DirRight
    else if s == "up" then DirUp
    else if s == "down" then DirDown
    else if s == "top_left" then DirTopLeft
    else if s == "top_right" then DirTopRight
    else if s == "bottom_left" then DirBottomLeft
    else if s == "bottom_right" then DirBottomRight
    else if s == "left_top" then DirLeftTop
    else if s == "left_bottom" then DirLeftBottom
    else if s == "right_top" then DirRightTop
    else if s == "right_bottom" then DirRightBottom
    else if s == "horizontal" then DirHorizontal
    else if s == "vertical" then DirVertical
    else if s == "all" then DirAll
    else if s == "first" then DirFirst
    else if s == "last" then DirLast
    else DirUndefined
  }

  lemma DirectionNameRoundTrip(d: Direction)
    ensures DirectionId(DirectionName(d)) == d
  {
  }

  /* ---------------------------------------------------------------------
     Massivity, ground, land type and colour tables
     --------------------------------------------------------------------- */

  function MassiveTypeName(m: MassiveType): String
  {
    match m
    case MassPassive => "passive"
    case MassMassive => "massive"
    case MassHalfmassive => "halfmassive"
    case MassClimbable => "climbable"
    case MassFrontPassive => "front_passive"
  }

  /** `Get_Massive_Type_Id`: unknown strings give MASS_PASSIVE. */
  function MassiveTypeId(s: String): (m: MassiveType)
    ensures (exists e :: MassiveTypeName(e) == s) ==> MassiveTypeName(m) == s
    ensures (forall e :: MassiveTypeName(e) != s) ==> m == MassPassive
  {
    if s == "passive" then MassPassive
    else if s == "front_passive" then MassFrontPassive
    else if s == "massive" then MassMassive
    else if s == "halfmassive" then MassHalfmassive
    else if s == "climbable" then MassClimbable
    else MassPassive
  }

  lemma MassiveTypeNameRoundTrip(m: MassiveType)
    ensures MassiveTypeId(MassiveTypeName(m)) == m
  {
  }

  function GroundTypeName(g: GroundType): String
  {
    match g
    case GroundNormal => "normal"
    case GroundEarth => "earth"
    case GroundIce => "ice"
    case GroundSand => "sand"
    case GroundStone => "stone"
    case GroundPlastic => "plastic"
  }

  /** `Get_Ground_Type_Id`: unknown strings give GROUND_NORMAL. */
  function GroundTypeId(s: String): (g: GroundType)
    ensures (exists e :: GroundTypeName(e) == s) ==> GroundTypeName(g) == s
    ensures (forall e :: GroundTypeName(e) != s) ==> g == GroundNormal
  {
    if s == "normal" then GroundNormal
    else if s == "earth" then GroundEarth
    else if s == "ice" then GroundIce
    else if s == "sand" then GroundSand
    else if s == "stone" then GroundStone
    else if s == "plastic" then GroundPlastic
    else GroundNormal
  }

  lemma GroundTypeNameRoundTrip(g: GroundType)
    ensures GroundTypeId(GroundTypeName(g)) == g
  {
  }

  function LevelLandTypeName(t: LevelLandType): String
  {
    match t
    case LltUndefined => "undefined"
    case LltGreen => "green"
    case LltJungle => "jungle"
    case LltIce => "ice"
    case LltSnow => "snow"
    case LltWater => "water"
    case LltCandy => "candy"
    case LltDesert => "desert"
    case LltSand => "sand"
    case LltCastle => "castle"
    case LltUnderground => "underground"
    case LltCrystal => "crystal"
    case LltGhost => "ghost"
    case LltMushroom => "mushroom"
    case LltSky => "sky"
    case LltPlastic => "plastic"
  }

  /** `Get_Level_Land_Type_Id`: unknown strings give LLT_UNDEFINED. */
  function LevelLandTypeId(s: String): (t: LevelLandType)
    ensures (exists e :: LevelLandTypeName(e) == s) ==> LevelLandTypeName(t) == s
    ensures (forall e :: LevelLandTypeName(e) != s) ==> t == LltUndefined
  {
    if s == "undefined" then LltUndefined
    else if s == "green" then LltGreen
    else if s == "jungle" then LltJungle
    else if s == "ice" then LltIce
    else if s == "snow" then LltSnow
    else if s == "water" then LltWater
    else if s == "candy" then LltCandy
    else if s == "desert" then LltDesert
    else if s == "sand" then LltSand
    else if s == "castle" then LltCastle
    else if s == "underground" then LltUnderground
    else if s == "crystal" then LltCrystal
    else if s == "ghost" then LltGhost
    else if s == "mushroom" then LltMushroom
    else if s == "sky" then LltSky
    else if s == "plastic" then LltPlastic
    else LltUndefined
  }

  lemma LevelLandTypeNameRoundTrip(t: LevelLandType)
    ensures LevelLandTypeId(LevelLandTypeName(t)) == t
  {
  }

  function ColorName(c: DefaultColor): String
  {
    match c
    case ColDefault => "default"
    case ColWhite => "white"
    case ColBlack => "black"
    case ColRed => "red"
    case ColOrange => "orange"
    case ColYellow => "yellow"
    case ColGreen => "green"
    case ColBlue => "blue"
    case ColBrown => "brown"
    case ColGrey => "grey"
    case ColViolet => "violet"
  }

  /** `Get_Color_Id`: "default" has no branch of its own and, like every
      unknown string, falls through to COL_DEFAULT. */
  function ColorId(s: String): (c: DefaultColor)
    ensures (exists e :: ColorName(e) == s) ==> ColorName(c) == s
    ensures (forall e :: ColorName(e) != s) ==> c == ColDefault
  {
    if s == "white" then ColWhite
    else if s == "black" then ColBlack
    else if s == "red" then ColRed
    else if s == "orange" then ColOrange
    else if s == "yellow" then ColYellow
    else if s == "green" then ColGreen
    else if s == "blue" then ColBlue
    else if s == "brown" then ColBrown
    else if s == "grey" then ColGrey
    else if s == "violet" then ColViolet
    else ColDefault
  }

  lemma ColorNameRoundTrip(c: DefaultColor)
    ensures ColorId(ColorName(c)) == c
  {
  }

  /* ---------------------------------------------------------------------
     Get_Difficulty_Name
     --------------------------------------------------------------------- */

  /** The difficulty bands in increasing order. */
  const DifficultyNames: seq<String> := ["Undefined", "Easy-Peasy", "Very Easy", "Easy",
    "Easy-Medium", "Medium", "Medium-Hard", "Hard", "Very Hard", "Extreme", "Nightmare", "Ultimate"]

  /** The band a `uint8_t` difficulty falls in. */
  function DifficultyBand(d: nat): (b: nat)
    requires d < 256
    ensures b < |DifficultyNames|
  {
    if d == 0 then 0
    else if d < 90 then d / 10 + 1
    else if d < 95 then 10
    else 11
  }

  /** `Get_Difficulty_Name`. */
  function DifficultyName(d: nat): String
    requires d < 256
  {
    DifficultyNames[DifficultyBand(d)]
  }

  /** The naming is a monotone banding: a higher difficulty never gets an
      earlier band, 0 is "Undefined", 1-9 "Easy-Peasy", 90-94 "Nightmare" and
      95 and above "Ultimate". */
  lemma DifficultyBanding(d1: nat, d2: nat)
    requires d1 <= d2 < 256
    ensures DifficultyBand(d1) <= DifficultyBand(d2)
    ensures DifficultyName(d1) == "Undefined" <==> d1 == 0
    ensures DifficultyName(d1) == "Easy-Peasy" <==> 1 <= d1 <= 9
    ensures DifficultyName(d1) == "Nightmare" <==> 90 <= d1 <= 94
    ensures DifficultyName(d1) == "Ultimate" <==> d1 >= 95
  {
  }
}
