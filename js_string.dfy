/**
 * The JavaScript string built-ins the core relies on: `String.prototype.trim`,
 * `split` on a one-character class, and the decimal rendering of a whole number
 * inside a template literal.
 */
module JsString {

  /** The characters `trim` strips: ECMAScript WhiteSpace and LineTerminator code points. */
  predicate IsWhitespace(c: char) {
    || c == '\t' || c == '\n' || c == '\U{000B}' || c == '\U{000C}' || c == '\r' || c == ' '
    || c == '\U{00A0}' || c == '\U{1680}' || ('\U{2000}' <= c <= '\U{200A}')
    || c == '\U{2028}' || c == '\U{2029}' || c == '\U{202F}' || c == '\U{205F}'
    || c == '\U{3000}' || c == '\U{FEFF}'
  }

  /** Drops leading whitespace. */
  function TrimStart(s: string): (r: string)
    ensures |r| <= |s|
    ensures r == [] || !IsWhitespace(r[0])
  {
    if |s| > 0 && IsWhitespace(s[0]) then TrimStart(s[1..]) else s
  }

  /** The result of `TrimStart` is a suffix, and only whitespace was dropped. */
  lemma {:induction false} TrimStartDrops(s: string)
    ensures var r := TrimStart(s);
            && r == s[|s| - |r|..]
            && forall k :: 0 <= k < |s| - |r| ==> IsWhitespace(s[k])
  {
    if |s| > 0 && IsWhitespace(s[0]) {
      TrimStartDrops(s[1..]);
      var r := TrimStart(s);
      assert forall k :: 1 <= k < |s| - |r| ==> s[k] == s[1..][k - 1];
    }
  }

  /** Drops trailing whitespace. */
  function TrimEnd(s: string): (r: string)
    ensures |r| <= |s|
    ensures r == [] || !IsWhitespace(r[|r| - 1])
  {
    if |s| > 0 && IsWhitespace(s[|s| - 1]) then TrimEnd(s[..|s| - 1]) else s
  }

  /** The result of `TrimEnd` is a prefix, and only whitespace was dropped. */
  lemma {:induction false} TrimEndDrops(s: string)
    ensures var r := TrimEnd(s);
            && r == s[..|r|]
            && forall k :: |r| <= k < |s| ==> IsWhitespace(s[k])
  {
    if |s| > 0 && IsWhitespace(s[|s| - 1]) {
      TrimEndDrops(s[..|s| - 1]);
      var r := TrimEnd(s);
      assert forall k :: |r| <= k < |s| - 1 ==> s[k] == s[..|s| - 1][k];
    }
  }

  /** `s.trim()`: neither end of the result is whitespace. */
  function Trim(s: string): (r: string)
    ensures |r| <= |s|
    ensures r == [] || (!IsWhitespace(r[0]) && !IsWhitespace(r[|r| - 1]))
  {
    var t := TrimStart(s);
    TrimEndDrops(t);
    TrimEnd(t)
  }

  /**
   * The trim is the slice of `s` left after the leading and the trailing
   * whitespace: everything dropped is whitespace.
   */
  lemma TrimSlice(s: string)
    ensures var a, r := |s| - |TrimStart(s)|, Trim(s);
            && a + |r| <= |s| && r == s[a..a + |r|]
            && (forall k :: 0 <= k < a ==> IsWhitespace(s[k]))
            && (forall k :: a + |r| <= k < |s| ==> IsWhitespace(s[k]))
  {
    var t := TrimStart(s);
    TrimStartDrops(s);
    TrimEndDrops(t);
    var r := TrimEnd(t);
    var a := |s| - |t|;
    forall k | a + |r| <= k < |s| ensures IsWhitespace(s[k]) {
      assert s[k] == t[k - a];
    }
  }

  /** Trimming a trimmed string changes nothing. */
  lemma TrimIdempotent(s: string)
    ensures Trim(Trim(s)) == Trim(s)
  {
  }

  /** A string with no whitespace at either end is its own trim. */
  lemma TrimFixedPoint(s: string)
    requires s == [] || (!IsWhitespace(s[0]) && !IsWhitespace(s[|s| - 1]))
    ensures Trim(s) == s
  {
  }

  /** The characters of the class `[•\-\n]` that the list extraction splits on. */
  predicate IsListSeparator(c: char) {
    c == '\U{2022}' || c == '-' || c == '\n'
  }

  /** `s.split(/[•\-\n]/)`: the pieces between separators; always at least one piece. */
  function SplitOnSeparators(s: string): (r: seq<string>)
    ensures |r| >= 1
    ensures forall k :: 0 <= k < |r| ==> forall i :: 0 <= i < |r[k]| ==> !IsListSeparator(r[k][i])
  {
    if |s| == 0 then [""]
    else if IsListSeparator(s[0]) then [""] + SplitOnSeparators(s[1..])
    else
      var rest := SplitOnSeparators(s[1..]);
      [[s[0]] + rest[0]] + rest[1..]
  }

  /** The separator characters of `s`, in order. */
  function Separators(s: string): (r: string)
    ensures forall c :: c in r ==> IsListSeparator(c)
  {
    if |s| == 0 then []
    else if IsListSeparator(s[0]) then [s[0]] + Separators(s[1..])
    else Separators(s[1..])
  }

  /** Puts the pieces back together with `seps[k]` between piece `k` and piece `k + 1`. */
  function Interleave(pieces: seq<string>, seps: string): string
    requires |pieces| == |seps| + 1
    decreases |seps|
  {
    if |seps| == 0 then pieces[0]
    else pieces[0] + [seps[0]] + Interleave(pieces[1..], seps[1..])
  }

  lemma InterleaveConsFirst(c: char, pieces: seq<string>, seps: string)
    requires |pieces| == |seps| + 1
    ensures Interleave([[c] + pieces[0]] + pieces[1..], seps) == [c] + Interleave(pieces, seps)
  {
  }

  /** Splitting loses nothing: the pieces and the separators rebuild the input. */
  lemma {:induction false} SplitRoundTrip(s: string)
    ensures |SplitOnSeparators(s)| == |Separators(s)| + 1
    ensures Interleave(SplitOnSeparators(s), Separators(s)) == s
  {
    if |s| == 0 {
    } else if IsListSeparator(s[0]) {
      SplitRoundTrip(s[1..]);
      var rest := SplitOnSeparators(s[1..]);
      assert ([""] + rest)[1..] == rest;
      assert s == [s[0]] + s[1..];
    } else {
      SplitRoundTrip(s[1..]);
      var rest := SplitOnSeparators(s[1..]);
      InterleaveConsFirst(s[0], rest, Separators(s[1..]));
      assert s == [s[0]] + s[1..];
    }
  }

  function DigitChar(d: nat): (c: char)
    requires d < 10
    ensures '0' <= c <= '9'
  {
    ('0' as int + d) as char
  }

  predicate IsDigits(s: string) {
    forall k :: 0 <= k < |s| ==> '0' <= s[k] <= '9'
  }

  /** `${n}` for a whole number: its decimal digits, without leading zeros. */
  function NatToString(n: nat): (r: string)
    ensures |r| >= 1 && IsDigits(r)
    ensures r[0] == '0' ==> n == 0
  {
    if n < 10 then [DigitChar(n)] else NatToString(n / 10) + [DigitChar(n % 10)]
  }

  /** Reads a string of decimal digits back as a number. */
  function ParseDecimal(s: string): nat
    requires IsDigits(s)
  {
    if s == [] then 0
    else
      ParseDecimal(s[..|s| - 1]) * 10 + (s[|s| - 1] as int - '0' as int)
  }

  /** The rendering of a whole number is read back as that number. */
  lemma {:induction false} DecimalRoundTrip(n: nat)
    ensures ParseDecimal(NatToString(n)) == n
  {
    if n >= 10 {
      DecimalRoundTrip(n / 10);
      var r := NatToString(n);
      assert r[..|r| - 1] == NatToString(n / 10);
    }
  }

  /** String concatenation of several pieces, as `+` or a template literal joins them. */
  function Concat(parts: seq<string>): string {
    if parts == [] then [] else parts[0] + Concat(parts[1..])
  }

  /** Joining two lists of pieces is joining their two joins. */
  lemma {:induction false} ConcatSplit(a: seq<string>, b: seq<string>)
    ensures Concat(a + b) == Concat(a) + Concat(b)
  {
    if a == [] {
      assert a + b == b;
    } else {
      assert (a + b)[1..] == a[1..] + b;
      ConcatSplit(a[1..], b);
    }
  }

  /** `x` stands in `r` from offset `i` on. */
  predicate Occurs(r: string, i: nat, x: string) {
    i + |x| <= |r| && r[i..i + |x|] == x
  }

  lemma OccursShift(a: string, b: string, j: nat, x: string)
    requires Occurs(b, j, x)
    ensures Occurs(a + b, |a| + j, x)
  {
  }

  /** In a join, each piece stands right after the join of the pieces before it. */
  lemma {:induction false} ConcatOccurs(parts: seq<string>, i: nat)
    requires i < |parts|
    ensures Occurs(Concat(parts), |Concat(parts[..i])|, parts[i])
  {
    if i == 0 {
      assert parts[..0] == [];
      assert Concat(parts)[..|parts[0]|] == parts[0];
    } else {
      ConcatOccurs(parts[1..], i - 1);
      assert parts[1..][..i - 1] == parts[1..i];
      assert parts[..i][1..] == parts[1..i];
      OccursShift(parts[0], Concat(parts[1..]), |Concat(parts[1..i])|, parts[i]);
    }
  }
}
