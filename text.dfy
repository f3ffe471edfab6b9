/** The string operations the components rely on: JavaScript's
    `String.prototype.trim`, `Array.prototype.join`, the decimal rendering of
    a count, and the "first last" name line both list containers build. */
module Text {
  import opened Wrappers

  /** The characters `trim` removes: ECMAScript's WhiteSpace (tab, vertical
      tab, form feed, space, no-break space, the Unicode space separators and
      the byte-order mark) and LineTerminator (LF, CR, U+2028, U+2029). */
  predicate IsWhitespace(c: char) {
    || c == '\t' || c == '\n' || c == '\U{000B}' || c == '\U{000C}' || c == '\r'
    || c == ' ' || c == '\U{00A0}' || c == '\U{1680}'
    || ('\U{2000}' <= c <= '\U{200A}')
    || c == '\U{2028}' || c == '\U{2029}' || c == '\U{202F}' || c == '\U{205F}'
    || c == '\U{3000}' || c == '\U{FEFF}'
  }

  /** Every character of `s` is whitespace (this includes the empty string). */
  predicate IsBlank(s: string) {
    forall i :: 0 <= i < |s| ==> IsWhitespace(s[i])
  }

  /** `s` neither starts nor ends with whitespace. */
  predicate IsTrimmed(s: string) {
    s == [] || (!IsWhitespace(s[0]) && !IsWhitespace(s[|s| - 1]))
  }

  /** `s` without its leading whitespace. */
  function TrimStart(s: string): (r: string)
    ensures |r| <= |s|
  {
    if s != [] && IsWhitespace(s[0]) then TrimStart(s[1..]) else s
  }

  /** `s` without its trailing whitespace. */
  function TrimEnd(s: string): (r: string)
    ensures |r| <= |s|
  {
    if s != [] && IsWhitespace(s[|s| - 1]) then TrimEnd(s[..|s| - 1]) else s
  }

  /** TrimStart keeps a suffix of `s`, drops only whitespace, and keeps no
      leading whitespace. */
  lemma {:induction false} TrimStartShape(s: string)
    ensures |TrimStart(s)| <= |s| && TrimStart(s) == s[|s| - |TrimStart(s)|..]
    ensures IsBlank(s[..|s| - |TrimStart(s)|])
    ensures TrimStart(s) != [] ==> !IsWhitespace(TrimStart(s)[0])
  {
    if s != [] && IsWhitespace(s[0]) {
      TrimStartShape(s[1..]);
      var k := |s| - |TrimStart(s)|;
      var rest := s[1..][..k - 1];
      assert IsBlank(rest);
      forall i | 0 <= i < k ensures IsWhitespace(s[..k][i]) {
        if i == 0 {
          assert s[..k][0] == s[0];
        } else {
          assert s[..k][i] == rest[i - 1];
          assert IsWhitespace(rest[i - 1]);
        }
      }
    }
  }

  /** TrimEnd keeps a prefix of `s`, drops only whitespace, and keeps no
      trailing whitespace. */
  lemma {:induction false} TrimEndShape(s: string)
    ensures |TrimEnd(s)| <= |s| && TrimEnd(s) == s[..|TrimEnd(s)|]
    ensures IsBlank(s[|TrimEnd(s)|..])
    ensures TrimEnd(s) != [] ==> !IsWhitespace(TrimEnd(s)[|TrimEnd(s)| - 1])
  {
    if s != [] && IsWhitespace(s[|s| - 1]) {
      var u := s[..|s| - 1];
      TrimEndShape(u);
      var k := |TrimEnd(s)|;
      forall j | 0 <= j < |s| - k ensures IsWhitespace(s[k..][j]) {
        if j < |s| - 1 - k {
          assert s[k..][j] == u[k..][j];
        }
      }
    }
  }

  /** JavaScript's `s.trim()`: a piece of `s` with no whitespace at either
      end. */
  function Trim(s: string): (r: string)
    ensures |r| <= |s|
    ensures IsTrimmed(r)
    // `r` is the slice of `s` left once its leading and trailing whitespace
    // are cut off, and only whitespace is cut off
    ensures var i := |s| - |TrimStart(s)|;
            i + |r| <= |s| && r == s[i..i + |r|] &&
            IsBlank(s[..i]) && IsBlank(s[i + |r|..])
  {
    var t := TrimStart(s);
    TrimStartShape(s);
    TrimEndShape(t);
    var r := TrimEnd(t);
    var i := |s| - |t|;
    assert r == s[i..i + |r|] by {
      assert t == s[i..];
      assert r == t[..|r|];
    }
    assert s[i + |r|..] == t[|r|..];
    r
  }

  /** `trim` gives the empty string exactly for blank input, so `!s.trim()`
      is JavaScript's test for a blank field. */
  lemma {:induction false} TrimEmptyIffBlank(s: string)
    ensures Trim(s) == [] <==> IsBlank(s)
  {
    var t := TrimStart(s);
    TrimStartShape(s);
    TrimEndShape(t);
    if Trim(s) == [] {
      assert IsBlank(t[0..]);
      assert t == [] && s[..|s|] == s;
    }
  }

  /** A string already without outer whitespace is left as it is. */
  lemma TrimKeepsTrimmed(s: string)
    requires IsTrimmed(s)
    ensures Trim(s) == s
  {
  }

  /** Trimming twice is trimming once. */
  lemma TrimIdempotent(s: string)
    ensures Trim(Trim(s)) == Trim(s)
  {
    TrimKeepsTrimmed(Trim(s));
  }

  /** The name line `${first ?? ''} ${last ?? ''}`.trim() that the lease and
      tenant mappers both build from a tenant's optional name parts. */
  function JoinedName(first: Option<string>, last: Option<string>): (r: string)
    ensures IsTrimmed(r)
  {
    Trim(first.GetOr("") + " " + last.GetOr(""))
  }

  /** The name line is empty exactly when both parts are missing or blank. */
  lemma {:induction false} JoinedNameEmptyIff(first: Option<string>, last: Option<string>)
    ensures JoinedName(first, last) == [] <==>
            IsBlank(first.GetOr("")) && IsBlank(last.GetOr(""))
  {
    var f, l := first.GetOr(""), last.GetOr("");
    var s := f + " " + l;
    TrimEmptyIffBlank(s);
    if IsBlank(s) {
      forall i | 0 <= i < |f| ensures IsWhitespace(f[i]) { assert s[i] == f[i]; }
      forall i | 0 <= i < |l| ensures IsWhitespace(l[i]) { assert s[|f| + 1 + i] == l[i]; }
    }
    if IsBlank(f) && IsBlank(l) {
      forall i | 0 <= i < |s| ensures IsWhitespace(s[i]) {
        if i < |f| {
          assert s[i] == f[i];
        } else if i > |f| {
          assert s[i] == l[i - |f| - 1];
        }
      }
    }
  }

  /** Sum of the lengths of `parts`. */
  function TotalLength(parts: seq<string>): (n: nat) {
    if parts == [] then 0 else |parts[0]| + TotalLength(parts[1..])
  }

  /** JavaScript's `parts.join(sep)`. */
  function Join(parts: seq<string>, sep: string): (r: string)
    ensures parts != [] ==> |parts[0]| <= |r| && r[..|parts[0]|] == parts[0]
  {
    if |parts| == 0 then ""
    else if |parts| == 1 then parts[0]
    else parts[0] + sep + Join(parts[1..], sep)
  }

  /** A join holds every part and one separator between each two neighbours. */
  lemma {:induction false} JoinLength(parts: seq<string>, sep: string)
    ensures |Join(parts, sep)| ==
            TotalLength(parts) + (if parts == [] then 0 else (|parts| - 1) * |sep|)
  {
    if |parts| > 1 {
      JoinLength(parts[1..], sep);
    } else if |parts| == 1 {
      assert TotalLength(parts) == |parts[0]| + TotalLength(parts[1..]);
    }
  }

  /** Where the `i`-th part starts in a join: after the parts before it and
      one separator for each of them. */
  function JoinOffset(parts: seq<string>, sep: string, i: nat): (n: nat)
    requires i <= |parts|
  {
    TotalLength(parts[..i]) + i * |sep|
  }

  /** A slice of `a + b` that lies wholly in `b` is that slice of `b`. */
  lemma SliceOfAppend(a: string, b: string, lo: nat, hi: nat)
    requires lo <= hi <= |b|
    ensures (a + b)[|a| + lo..|a| + hi] == b[lo..hi]
  {
    assert forall k :: 0 <= k < hi - lo ==> (a + b)[|a| + lo..|a| + hi][k] == b[lo..hi][k];
  }

  /** Past the first part, offsets in a join are the offsets in the join of
      the rest, shifted by the first part and one separator. */
  lemma JoinOffsetStep(parts: seq<string>, sep: string, i: nat)
    requires 0 < i <= |parts|
    ensures JoinOffset(parts, sep, i) == |parts[0]| + |sep| + JoinOffset(parts[1..], sep, i - 1)
  {
    assert parts[..i][0] == parts[0] && parts[..i][1..] == parts[1..][..i - 1];
    assert i * |sep| == |sep| + (i - 1) * |sep|;
  }

  /** A join of two or more parts is the first part, the separator and the
      join of the rest. */
  lemma JoinStep(parts: seq<string>, sep: string)
    requires |parts| > 1
    ensures Join(parts, sep) == (parts[0] + sep) + Join(parts[1..], sep)
  {
  }

  /** What a join holds: the `i`-th part at its offset. */
  lemma {:induction false} JoinPart(parts: seq<string>, sep: string, i: nat)
    requires i < |parts|
    ensures JoinOffset(parts, sep, i) + |parts[i]| <= |Join(parts, sep)|
    ensures Join(parts, sep)[JoinOffset(parts, sep, i)..JoinOffset(parts, sep, i) + |parts[i]|] == parts[i]
    decreases i
  {
    var p := parts[0];
    if |parts| == 1 {
      assert parts[..0] == [];
    } else if i == 0 {
      assert parts[..0] == [];
    } else {
      var rest := parts[1..];
      JoinStep(parts, sep);
      JoinPart(rest, sep, i - 1);
      JoinOffsetStep(parts, sep, i);
      var o := JoinOffset(rest, sep, i - 1);
      assert rest[i - 1] == parts[i];
      SliceOfAppend(p + sep, Join(rest, sep), o, o + |parts[i]|);
    }
  }

  /** A slice of `a + b` that lies wholly in `a` is that slice of `a`. */
  lemma SliceOfPrefix(a: string, b: string, lo: nat, hi: nat)
    requires lo <= hi <= |a|
    ensures (a + b)[lo..hi] == a[lo..hi]
  {
    assert forall k :: 0 <= k < hi - lo ==> (a + b)[lo..hi][k] == a[lo..hi][k];
  }

  /** In `p + sep + tail`, the separator sits right after `p`. */
  lemma SeparatorAfterFirst(p: string, sep: string, tail: string)
    ensures ((p + sep) + tail)[|p|..|p| + |sep|] == sep
  {
    SliceOfPrefix(p + sep, tail, |p|, |p| + |sep|);
    SliceOfAppend(p, sep, 0, |sep|);
    assert sep[0..|sep|] == sep;
  }

  /** What a join holds: right after every part but the last, the
      separator. */
  lemma {:induction false} JoinSeparator(parts: seq<string>, sep: string, i: nat)
    requires i < |parts| - 1
    ensures JoinOffset(parts, sep, i) + |parts[i]| + |sep| <= |Join(parts, sep)|
    ensures Join(parts, sep)[JoinOffset(parts, sep, i) + |parts[i]|..JoinOffset(parts, sep, i) + |parts[i]| + |sep|] == sep
    decreases i
  {
    var p := parts[0];
    var rest := parts[1..];
    var tail := Join(rest, sep);
    JoinStep(parts, sep);
    if i == 0 {
      assert parts[..0] == [];
      SeparatorAfterFirst(p, sep, tail);
    } else {
      JoinSeparator(rest, sep, i - 1);
      JoinOffsetStep(parts, sep, i);
      var e := JoinOffset(rest, sep, i - 1) + |parts[i]|;
      assert rest[i - 1] == parts[i];
      SliceOfAppend(p + sep, tail, e, e + |sep|);
    }
  }

  predicate IsDigit(c: char) {
    '0' <= c <= '9'
  }

  predicate IsDigits(s: string) {
    forall i :: 0 <= i < |s| ==> IsDigit(s[i])
  }

  function DigitChar(d: nat): (c: char)
    requires d < 10
    ensures IsDigit(c)
  {
    ('0' as int + d) as char
  }

  /** How JavaScript renders a non-negative integer in text: its decimal
      digits, most significant first, with no leading zero except for 0
      itself. */
  function DecimalString(n: nat): (r: string)
    ensures r != [] && IsDigits(r)
    ensures r[0] == '0' <==> n == 0
    ensures |r| == 1 || r[0] != '0'
  {
    if n < 10 then [DigitChar(n)] else DecimalString(n / 10) + [DigitChar(n % 10)]
  }

  /** The number a string of decimal digits denotes. */
  function DecimalValue(s: string): (n: nat)
    requires IsDigits(s)
  {
    if s == [] then 0
    else DecimalValue(s[..|s| - 1]) * 10 + (s[|s| - 1] as int - '0' as int)
  }

  /** Reading back a rendered count gives the count. */
  lemma {:induction false} DecimalRoundTrip(n: nat)
    ensures DecimalValue(DecimalString(n)) == n
  {
    var s := DecimalString(n);
    if n >= 10 {
      DecimalRoundTrip(n / 10);
      assert s[..|s| - 1] == DecimalString(n / 10);
    } else {
      assert s[..|s| - 1] == [];
    }
  }

  /** A non-empty run of digits with no leading zero (other than "0"
      itself) is the rendering of the number it denotes: the rendering is
      the only one of its kind. */
  lemma {:induction false} DecimalUnique(s: string)
    requires s != [] && IsDigits(s)
    requires |s| == 1 || s[0] != '0'
    ensures s == DecimalString(DecimalValue(s))
  {
    var n := DecimalValue(s);
    var last := s[|s| - 1];
    assert DigitChar(last as int - '0' as int) == last;
    if |s| > 1 {
      var p := s[..|s| - 1];
      assert p[0] == s[0];
      DecimalUnique(p);
      assert n / 10 == DecimalValue(p) && n % 10 == last as int - '0' as int;
      assert n >= 10;
      assert s == p + [last];
    }
  }

  /** The longest run of decimal digits at the start of `s`. */
  function LeadingDigits(s: string): (r: string)
    ensures IsDigits(r) && |r| <= |s| && r == s[..|r|]
    ensures |r| == |s| || !IsDigit(s[|r|])
  {
    if s != [] && IsDigit(s[0]) then [s[0]] + LeadingDigits(s[1..]) else []
  }

  /** Digits followed by something that does not start with a digit lead
      with exactly those digits. */
  lemma {:induction false} LeadingDigitsOf(digits: string, rest: string)
    requires IsDigits(digits)
    requires rest != [] && !IsDigit(rest[0])
    ensures LeadingDigits(digits + rest) == digits
  {
    if digits == [] {
      assert digits + rest == rest;
    } else {
      LeadingDigitsOf(digits[1..], rest);
      assert (digits + rest)[1..] == digits[1..] + rest;
    }
  }

  /** A count rendered at position `k` of `s` and followed by a character
      that is not a digit reads back, from `k`, as that count. */
  lemma ReadsBackAt(s: string, k: nat, n: nat)
    requires k + |DecimalString(n)| < |s|
    requires s[k..k + |DecimalString(n)|] == DecimalString(n)
    requires !IsDigit(s[k + |DecimalString(n)|])
    ensures DecimalValue(LeadingDigits(s[k..])) == n
  {
    var d := DecimalString(n);
    assert s[k..] == d + s[k + |d|..];
    LeadingDigitsOf(d, s[k + |d|..]);
    DecimalRoundTrip(n);
  }
}
