/** String helpers the component relies on: JavaScript's `String.prototype.trim`,
    `Array.prototype.join` on a one-character separator, and a reference splitter
    that reads a joined string back into its parts. */
module Text {

  /** The characters JavaScript's trim() removes: the WhiteSpace and LineTerminator
      code points of ECMAScript (sections 12.2 and 12.3 of ECMA-262), with the
      Unicode space separators (category Zs) written out. */
  predicate IsWhitespace(c: char) {
    || c == '\t' || c == '\U{000B}' || c == '\U{000C}' || c == ' '
    || c == '\U{00A0}' || c == '\U{FEFF}'
    || c == '\n' || c == '\r' || c == '\U{2028}' || c == '\U{2029}'
    || c == '\U{1680}' || ('\U{2000}' <= c <= '\U{200A}')
    || c == '\U{202F}' || c == '\U{205F}' || c == '\U{3000}'
  }

  predicate AllWhitespace(s: string) {
    forall i :: 0 <= i < |s| ==> IsWhitespace(s[i])
  }

  /** Where the leading whitespace of `s`, scanned from `i`, ends: everything
      from `i` up to the result is whitespace, and the character there, if
      any, is not. */
  function LeadEnd(s: string, i: nat): (k: nat)
    requires i <= |s|
    ensures i <= k <= |s|
    ensures forall j :: i <= j < k ==> IsWhitespace(s[j])
    ensures k < |s| ==> !IsWhitespace(s[k])
    decreases |s| - i
  {
    if i < |s| && IsWhitespace(s[i]) then LeadEnd(s, i + 1) else i
  }

  /** Where the trailing whitespace of `s[..k]` starts, scanning back no
      further than `lo`: everything from the result up to `k` is whitespace,
      and the character before it, if past `lo`, is not. */
  function TailStart(s: string, lo: nat, k: nat): (m: nat)
    requires lo <= k <= |s|
    ensures lo <= m <= k
    ensures forall j :: m <= j < k ==> IsWhitespace(s[j])
    ensures m > lo ==> !IsWhitespace(s[m - 1])
    decreases k
  {
    if k > lo && IsWhitespace(s[k - 1]) then TailStart(s, lo, k - 1) else k
  }

  /** `r` is the run of `s` that starts at `a`, with only whitespace before
      and after it. */
  predicate WhitespaceAround(s: string, a: int, r: string) {
    && 0 <= a && a + |r| <= |s|
    && (forall i :: 0 <= i < |r| ==> r[i] == s[a + i])
    && (forall i :: 0 <= i < a ==> IsWhitespace(s[i]))
    && (forall i :: a + |r| <= i < |s| ==> IsWhitespace(s[i]))
  }

  /** JavaScript `s.trim()`: the part of `s` left after dropping whitespace
      at both ends. It yields the empty string exactly when every character
      of `s` is whitespace; otherwise it is a run of `s` with only whitespace
      before and after it, starting and ending with other characters. */
  function Trim(s: string): (r: string)
    ensures r == [] <==> AllWhitespace(s)
    ensures r != [] ==> !IsWhitespace(r[0]) && !IsWhitespace(r[|r| - 1])
    ensures exists a :: WhitespaceAround(s, a, r)
  {
    var a := LeadEnd(s, 0);
    var b := TailStart(s, a, |s|);
    assert WhitespaceAround(s, a, s[a..b]);
    s[a..b]
  }

  /** The number of times `c` occurs in `s`. */
  function Occurrences(s: string, c: char): nat {
    if s == [] then 0
    else (if s[0] == c then 1 else 0) + Occurrences(s[1..], c)
  }

  /** The number of times `c` occurs in all of `parts` together. */
  function OccurrencesIn(parts: seq<string>, c: char): nat {
    if parts == [] then 0 else Occurrences(parts[0], c) + OccurrencesIn(parts[1..], c)
  }

  /** Counting occurrences distributes over concatenation. */
  lemma {:induction false} OccurrencesConcat(a: string, b: string, c: char)
    ensures Occurrences(a + b, c) == Occurrences(a, c) + Occurrences(b, c)
  {
    if a != [] {
      assert (a + b)[1..] == a[1..] + b;
      OccurrencesConcat(a[1..], b, c);
    } else {
      assert a + b == b;
    }
  }

  /** JavaScript `parts.join(sep)` for a one-character separator: empty for no
      parts, and a single part unchanged. */
  function Join(parts: seq<string>, sep: char): (r: string)
    ensures parts == [] ==> r == []
    ensures |parts| == 1 ==> r == parts[0]
  {
    if |parts| == 0 then []
    else if |parts| == 1 then parts[0]
    else parts[0] + [sep] + Join(parts[1..], sep)
  }

  /** A joined text starts with the first part and ends with the last. */
  lemma {:induction false} JoinEnds(parts: seq<string>, sep: char)
    requires parts != []
    ensures var r, last := Join(parts, sep), parts[|parts| - 1];
      && parts[0] <= r
      && |last| <= |r| && r[|r| - |last|..] == last
  {
    if |parts| > 1 {
      JoinEnds(parts[1..], sep);
      var rest := Join(parts[1..], sep);
      var r := parts[0] + [sep] + rest;
      assert r[|r| - |rest|..] == rest;
    }
  }

  /** Join adds exactly one separator between each two neighbouring parts:
      the joined text holds `|parts| - 1` more separators than the parts do. */
  lemma {:induction false} JoinOccurrences(parts: seq<string>, sep: char)
    requires parts != []
    ensures Occurrences(Join(parts, sep), sep) == |parts| - 1 + OccurrencesIn(parts, sep)
  {
    if |parts| > 1 {
      JoinOccurrences(parts[1..], sep);
      var rest := Join(parts[1..], sep);
      OccurrencesConcat(parts[0] + [sep], rest, sep);
      OccurrencesConcat(parts[0], [sep], sep);
      assert Occurrences([sep], sep) == 1 by { assert [sep][1..] == []; }
    } else {
      assert parts[1..] == [];
    }
  }

  /** Reads a joined string back into its parts (as a spreadsheet reads pasted
      text). There is always one more part than there are separators, and no
      part contains the separator. */
  function Split(s: string, sep: char): (r: seq<string>)
    ensures |r| == Occurrences(s, sep) + 1
    ensures forall k :: 0 <= k < |r| ==> sep !in r[k]
  {
    if s == [] then [[]]
    else if s[0] == sep then [[]] + Split(s[1..], sep)
    else
      var rest := Split(s[1..], sep);
      [[s[0]] + rest[0]] + rest[1..]
  }

  /** A part free of the separator, followed by the separator, splits off as
      the first part. */
  lemma {:induction false} SplitAfterPart(p: string, t: string, sep: char)
    requires sep !in p
    ensures Split(p + [sep] + t, sep) == [p] + Split(t, sep)
  {
    if p == [] {
      assert p + [sep] + t == [sep] + t;
      assert ([sep] + t)[1..] == t;
    } else {
      var s := p + [sep] + t;
      assert s[0] == p[0] && s[1..] == p[1..] + [sep] + t;
      SplitAfterPart(p[1..], t, sep);
      assert [p[0]] + p[1..] == p;
    }
  }

  /** A string free of the separator splits into itself alone. */
  lemma {:induction false} SplitFree(p: string, sep: char)
    requires sep !in p
    ensures Split(p, sep) == [p]
  {
    if p != [] {
      SplitFree(p[1..], sep);
      assert [p[0]] + p[1..] == p;
    }
  }

  /** Round trip: splitting what Join produced gives back the parts, provided
      there is at least one part and no part contains the separator. */
  lemma {:induction false} SplitJoin(parts: seq<string>, sep: char)
    requires |parts| >= 1
    requires forall k :: 0 <= k < |parts| ==> sep !in parts[k]
    ensures Split(Join(parts, sep), sep) == parts
  {
    if |parts| == 1 {
      SplitFree(parts[0], sep);
    } else {
      SplitJoin(parts[1..], sep);
      SplitAfterPart(parts[0], Join(parts[1..], sep), sep);
      assert [parts[0]] + parts[1..] == parts;
    }
  }

  /** A character other than the separator that occurs in no part does not
      occur in the joined string either. */
  lemma {:induction false} JoinExcludes(parts: seq<string>, sep: char, c: char)
    requires c != sep
    requires forall k :: 0 <= k < |parts| ==> c !in parts[k]
    ensures c !in Join(parts, sep)
  {
    if |parts| > 1 {
      JoinExcludes(parts[1..], sep, c);
      assert Join(parts, sep) == parts[0] + [sep] + Join(parts[1..], sep);
    }
  }

  predicate IsDigit(c: char) {
    '0' <= c <= '9'
  }

  /** The number a string of decimal digits denotes. */
  function DigitsValue(s: string): int
    requires forall i :: 0 <= i < |s| ==> IsDigit(s[i])
  {
    if s == [] then 0
    else DigitsValue(s[..|s| - 1]) * 10 + (s[|s| - 1] as int - '0' as int)
  }

  /** Decimal notation of a natural number, as JavaScript writes a
      non-negative integer below 10^21 when it becomes text (larger ones take
      exponent form): digits only, reading back as `n`, with no leading zero. */
  function Decimal(n: nat): (r: string)
    ensures r != []
    ensures forall i :: 0 <= i < |r| ==> IsDigit(r[i])
    ensures DigitsValue(r) == n
    ensures r[0] == '0' ==> r == "0"
  {
    var last := ('0' as int + n % 10) as char;
    if n < 10 then [last]
    else
      var r := Decimal(n / 10) + [last];
      assert r[..|r| - 1] == Decimal(n / 10);
      r
  }
}
