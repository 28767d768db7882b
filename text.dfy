/** The JavaScript string operations the handler relies on (`split`, `trim`,
    the decimal rendering of a number in a template literal), written out on
    `string`. */
module Text {

  /** The characters `String.prototype.trim` removes: the WhiteSpace and
      LineTerminator code points of ECMAScript (section 12.2 and 12.3 of
      ECMA-262). */
  predicate IsWhitespace(c: char)
  {
    c == '\t' || c == '\n' || c == '\U{000B}' || c == '\U{000C}' || c == '\r' || c == ' '
    || c == '\U{00A0}' || c == '\U{1680}' || ('\U{2000}' <= c <= '\U{200A}')
    || c == '\U{2028}' || c == '\U{2029}' || c == '\U{202F}' || c == '\U{205F}'
    || c == '\U{3000}' || c == '\U{FEFF}'
  }

  predicate AllWhitespace(s: string)
  {
    forall i :: 0 <= i < |s| ==> IsWhitespace(s[i])
  }

  /** `s.split(sep)` for a one-character separator: the maximal separator-free
      pieces, in order; an empty string splits into one empty piece. */
  function Split(s: string, sep: char): (pieces: seq<string>)
    ensures |pieces| >= 1
    ensures forall i :: 0 <= i < |pieces| ==> sep !in pieces[i]
  {
    if s == [] then [""]
    else
      var rest := Split(s[1..], sep);
      if s[0] == sep then [""] + rest
      else [[s[0]] + rest[0]] + rest[1..]
  }

  /** `pieces.join(sep)`: the partner of Split. */
  function Join(pieces: seq<string>, sep: char): string
  {
    if pieces == [] then ""
    else if |pieces| == 1 then pieces[0]
    else pieces[0] + [sep] + Join(pieces[1..], sep)
  }

  lemma JoinCons(c: char, p: string, tail: seq<string>, sep: char)
    ensures Join([[c] + p] + tail, sep) == [c] + Join([p] + tail, sep)
  {
    if tail != [] {
      assert ([[c] + p] + tail)[1..] == tail;
      assert ([p] + tail)[1..] == tail;
    }
  }

  /** Joining the pieces of a split restores the string. */
  lemma {:induction false} JoinSplit(s: string, sep: char)
    ensures Join(Split(s, sep), sep) == s
  {
    if s != [] {
      var rest := Split(s[1..], sep);
      JoinSplit(s[1..], sep);
      if s[0] == sep {
        assert ([""] + rest)[1..] == rest;
      } else {
        JoinCons(s[0], rest[0], rest[1..], sep);
        assert [rest[0]] + rest[1..] == rest;
      }
    }
  }

  /** Splitting the join of separator-free pieces gives the pieces back. */
  lemma {:induction false} SplitJoin(pieces: seq<string>, sep: char)
    requires pieces != []
    requires forall i :: 0 <= i < |pieces| ==> sep !in pieces[i]
    ensures Split(Join(pieces, sep), sep) == pieces
    decreases |Join(pieces, sep)|
  {
    var p := pieces[0];
    var tail := pieces[1..];
    if p == [] {
      if tail != [] {
        assert Join(pieces, sep) == [sep] + Join(tail, sep);
        assert (([sep] + Join(tail, sep)))[1..] == Join(tail, sep);
        SplitJoin(tail, sep);
        assert pieces == [""] + tail;
      }
    } else {
      var c := p[0];
      assert p == [c] + p[1..];
      assert pieces == [[c] + p[1..]] + tail;
      JoinCons(c, p[1..], tail, sep);
      var rest := [p[1..]] + tail;
      assert Join(pieces, sep) == [c] + Join(rest, sep);
      assert ([c] + Join(rest, sep))[1..] == Join(rest, sep);
      assert sep !in p[1..] by { assert forall x :: x in p[1..] ==> x in p; }
      SplitJoin(rest, sep);
      assert rest[1..] == tail;
    }
  }

  /** The number of whitespace characters `s` starts with. */
  function LeadingWhitespace(s: string): (n: nat)
    ensures n <= |s|
    ensures forall k :: 0 <= k < n ==> IsWhitespace(s[k])
    ensures n == |s| || !IsWhitespace(s[n])
  {
    if s != [] && IsWhitespace(s[0]) then
      var n := 1 + LeadingWhitespace(s[1..]);
      assert forall k :: 1 <= k < n ==> s[k] == s[1..][k - 1];
      n
    else 0
  }

  /** The number of whitespace characters `s` ends with. */
  function TrailingWhitespace(s: string): (n: nat)
    ensures n <= |s|
    ensures forall k :: |s| - n <= k < |s| ==> IsWhitespace(s[k])
    ensures n == |s| || !IsWhitespace(s[|s| - n - 1])
  {
    if s != [] && IsWhitespace(s[|s| - 1]) then
      1 + TrailingWhitespace(s[..|s| - 1])
    else 0
  }

  /** `s.trimStart()` */
  function TrimStart(s: string): string
  {
    s[LeadingWhitespace(s)..]
  }

  /** `s.trimEnd()` */
  function TrimEnd(s: string): string
  {
    s[..|s| - TrailingWhitespace(s)]
  }

  /** `s.trim()`: the middle of `s` between its leading and trailing
      whitespace, which neither starts nor ends with whitespace. */
  function Trim(s: string): (r: string)
    ensures |r| <= |s|
    ensures r == [] || (!IsWhitespace(r[0]) && !IsWhitespace(r[|r| - 1]))
  {
    var t := TrimStart(s);
    var r := TrimEnd(t);
    assert r != [] ==> r[0] == t[0] == s[LeadingWhitespace(s)];
    r
  }

  /** Trimming a string with no whitespace at either end changes nothing. */
  lemma TrimClean(s: string)
    requires s == [] || (!IsWhitespace(s[0]) && !IsWhitespace(s[|s| - 1]))
    ensures Trim(s) == s
  {
    assert TrimStart(s) == s;
  }

  /** Trimming a string of whitespace alone leaves nothing. */
  lemma TrimBlank(s: string)
    requires AllWhitespace(s)
    ensures Trim(s) == ""
  {
    assert LeadingWhitespace(s) == |s|;
  }

  /** Splitting a string of separators and whitespace alone yields pieces of
      whitespace alone. */
  lemma {:induction false} SplitBlank(s: string, sep: char)
    requires forall k :: 0 <= k < |s| ==> s[k] == sep || IsWhitespace(s[k])
    ensures forall i :: 0 <= i < |Split(s, sep)| ==> AllWhitespace(Split(s, sep)[i])
  {
    if s != [] {
      SplitBlank(s[1..], sep);
      var rest := Split(s[1..], sep);
      if s[0] != sep {
        assert forall i :: 1 <= i < |Split(s, sep)| ==> Split(s, sep)[i] == rest[i];
        assert Split(s, sep)[0] == [s[0]] + rest[0];
      } else {
        assert forall i :: 1 <= i < |Split(s, sep)| ==> Split(s, sep)[i] == rest[i - 1];
      }
    }
  }

  /** Trimming removes only whitespace: `s` is `Trim(s)` with whitespace
      before and after it, the leading part being what `trimStart`
      removes. */
  lemma TrimOnlyRemovesWhitespace(s: string)
    ensures var i := LeadingWhitespace(s);
            i + |Trim(s)| <= |s| && s[i..i + |Trim(s)|] == Trim(s) &&
            (forall k :: 0 <= k < i ==> IsWhitespace(s[k])) &&
            (forall k :: i + |Trim(s)| <= k < |s| ==> IsWhitespace(s[k]))
  {
    var i := LeadingWhitespace(s);
    var t := s[i..];
    var n := |t| - TrailingWhitespace(t);
    assert Trim(s) == t[..n];
    SliceOfSuffix(s, i, n);
    WhitespaceTailOfSuffix(s, i, n);
  }

  lemma SliceOfSuffix(s: string, i: nat, n: nat)
    requires i + n <= |s|
    ensures s[i..][..n] == s[i..i + n]
  {
  }

  lemma WhitespaceTailOfSuffix(s: string, i: nat, n: nat)
    requires i + n <= |s|
    requires forall k :: n <= k < |s[i..]| ==> IsWhitespace(s[i..][k])
    ensures forall k :: i + n <= k < |s| ==> IsWhitespace(s[k])
  {
    forall k | i + n <= k < |s| ensures IsWhitespace(s[k]) {
      assert s[k] == s[i..][k - i];
    }
  }

  /** Trimming introduces no character. */
  lemma TrimKeepsOut(s: string, c: char)
    requires c !in s
    ensures c !in Trim(s)
  {
    TrimOnlyRemovesWhitespace(s);
    var i := LeadingWhitespace(s);
    assert forall x :: x in s[i..i + |Trim(s)|] ==> x in s;
  }

  function DigitChar(d: nat): (c: char)
    requires d < 10
    ensures '0' <= c <= '9'
    ensures DigitValue(c) == d
  {
    ('0' as int + d) as char
  }

  /** The value of a decimal digit. */
  function DigitValue(c: char): nat
  {
    if '0' <= c <= '9' then c as int - '0' as int else 0
  }

  /** The decimal rendering of a non-negative integer in a template literal
      (`${Date.now()}`): at least one digit, only digits, no leading zero. */
  function Decimal(n: nat): (r: string)
    ensures r != []
    ensures forall i :: 0 <= i < |r| ==> '0' <= r[i] <= '9'
    ensures |r| > 1 ==> r[0] != '0'
  {
    if n < 10 then [DigitChar(n)] else Decimal(n / 10) + [DigitChar(n % 10)]
  }

  /** A run of decimal digits read back as the number it denotes: the
      partner of Decimal. */
  function DecimalValue(s: string): nat
  {
    if s == [] then 0 else 10 * DecimalValue(s[..|s| - 1]) + DigitValue(s[|s| - 1])
  }

  /** Reading the rendering of `n` back gives `n`. */
  lemma {:induction false} DecimalRoundTrip(n: nat)
    ensures DecimalValue(Decimal(n)) == n
  {
    if n >= 10 {
      DecimalRoundTrip(n / 10);
      var r := Decimal(n);
      assert r[..|r| - 1] == Decimal(n / 10);
    }
  }

  /** Distinct numbers render as distinct strings. */
  lemma DecimalInjective(a: nat, b: nat)
    ensures Decimal(a) == Decimal(b) <==> a == b
  {
    DecimalRoundTrip(a);
    DecimalRoundTrip(b);
  }
}
