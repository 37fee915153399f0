/**
 * String helpers the font parser relies on: Python's `str.split(sep)`,
 * its inverse `sep.join(...)`, `str.replace('_', ' ')` and reading a
 * decimal digit string as a natural number.
 */
module Text {
  import opened Wrappers

  /** Inverse of Split: the segments glued back together with `sep` between them. */
  function Join(segments: seq<string>, sep: char): string
    requires |segments| >= 1
    decreases |segments|
  {
    if |segments| == 1 then segments[0]
    else segments[0] + [sep] + Join(segments[1..], sep)
  }

  /**
   * Python's `s.split(sep)` for a one-character separator: there is always
   * at least one segment, no segment holds the separator, and joining the
   * segments back gives `s` again.  Empty segments are kept ("a::b" has three).
   */
  function Split(s: string, sep: char): (segments: seq<string>)
    ensures |segments| >= 1
    ensures forall k :: 0 <= k < |segments| ==> sep !in segments[k]
    ensures Join(segments, sep) == s
    decreases |s|
  {
    if s == [] then [[]]
    else
      var rest := Split(s[1..], sep);
      if s[0] == sep then [[]] + rest
      else [[s[0]] + rest[0]] + rest[1..]
  }

  /** One step of Split: the first character either starts a new segment or joins the first one. */
  lemma SplitCons(c: char, s: string, sep: char)
    ensures Split([c] + s, sep) ==
      if c == sep then [[]] + Split(s, sep) else [[c] + Split(s, sep)[0]] + Split(s, sep)[1..]
  {
    assert ([c] + s)[0] == c && ([c] + s)[1..] == s;
  }

  /** Splitting a join of separator-free segments gives the segments back. */
  lemma {:induction false} SplitJoin(segments: seq<string>, sep: char)
    requires |segments| >= 1
    requires forall k :: 0 <= k < |segments| ==> sep !in segments[k]
    ensures Split(Join(segments, sep), sep) == segments
    decreases |segments|, |segments[0]|
  {
    var head := segments[0];
    if |segments| == 1 {
      if head != [] {
        SplitJoin([head[1..]], sep);
        SplitCons(head[0], head[1..], sep);
        assert [head[0]] + head[1..] == head;
      }
    } else if head == [] {
      var tail := Join(segments[1..], sep);
      SplitJoin(segments[1..], sep);
      assert Join(segments, sep) == [sep] + tail;
      SplitCons(sep, tail, sep);
      assert [[]] + segments[1..] == segments;
    } else {
      var shorter := [head[1..]] + segments[1..];
      assert shorter[0] == head[1..] && shorter[1..] == segments[1..];
      var joined := Join(shorter, sep);
      assert Join(segments, sep) == [head[0]] + joined;
      SplitJoin(shorter, sep);
      SplitCons(head[0], joined, sep);
      assert [head[0]] + head[1..] == head;
      assert [[head[0]] + head[1..]] + segments[1..] == segments;
    }
  }

  /**
   * The first segment of `s.split(sep)` is the part of `s` before the first
   * separator: a prefix of `s` holding no separator, followed in `s` either
   * by the separator or by nothing.
   */
  lemma {:induction false} FirstSegment(s: string, sep: char)
    ensures var first := Split(s, sep)[0];
      first <= s && sep !in first && (|first| < |s| ==> s[|first|] == sep)
    decreases |s|
  {
    if s != [] && s[0] != sep {
      FirstSegment(s[1..], sep);
    }
  }

  /** Python's `s.replace('_', ' ')`: every underscore becomes a space, nothing else moves. */
  function UnderscoresToSpaces(s: string): (r: string)
    ensures |r| == |s|
    ensures forall k :: 0 <= k < |s| ==> r[k] == if s[k] == '_' then ' ' else s[k]
    ensures '_' !in r
  {
    if s == [] then []
    else [if s[0] == '_' then ' ' else s[0]] + UnderscoresToSpaces(s[1..])
  }

  predicate IsDigit(c: char) { '0' <= c <= '9' }

  predicate IsDigits(s: string) { s != [] && forall k :: 0 <= k < |s| ==> IsDigit(s[k]) }

  /** The value of a string of decimal digits, most significant first. */
  function DigitsValue(s: string): nat
    requires forall k :: 0 <= k < |s| ==> IsDigit(s[k])
    decreases |s|
  {
    if s == [] then 0
    else
      assert IsDigit(s[|s| - 1]);
      DigitsValue(s[..|s| - 1]) * 10 + (s[|s| - 1] as int - '0' as int)
  }

  /** Reads a non-empty decimal digit string; anything else is not a number. */
  function ParseNat(s: string): (r: Option<nat>)
    ensures r.Some? <==> IsDigits(s)
  {
    if IsDigits(s) then Some(DigitsValue(s)) else None
  }

  /** The shortest decimal spelling of `n`. */
  function ShowNat(n: nat): (s: string)
    ensures IsDigits(s)
    decreases n
  {
    var digit := ['0' + (n % 10) as char];
    if n < 10 then digit else ShowNat(n / 10) + digit
  }

  /** Reading back the spelling of `n` gives `n`. */
  lemma {:induction false} ParseShowNat(n: nat)
    ensures ParseNat(ShowNat(n)) == Some(n)
    decreases n
  {
    var s := ShowNat(n);
    assert s[|s| - 1] as int - '0' as int == n % 10;
    if n >= 10 {
      ParseShowNat(n / 10);
      assert s[..|s| - 1] == ShowNat(n / 10);
      assert DigitsValue(s) == (n / 10) * 10 + n % 10;
    } else {
      assert s[..|s| - 1] == [];
      assert DigitsValue(s) == n;
    }
  }

  /** A digit string that does not start with `0` has a positive value. */
  lemma {:induction false} DigitsValuePositive(s: string)
    requires IsDigits(s) && s[0] != '0'
    ensures DigitsValue(s) > 0
    decreases |s|
  {
    if |s| > 1 {
      var init := s[..|s| - 1];
      assert init[0] == s[0];
      DigitsValuePositive(init);
    } else {
      assert s[..0] == [];
    }
  }

  /** A canonical digit string (no leading `0` unless it is `0` itself) is the spelling of its value. */
  lemma {:induction false} ShowParseNat(s: string)
    requires IsDigits(s) && (|s| == 1 || s[0] != '0')
    ensures ShowNat(ParseNat(s).value) == s
    decreases |s|
  {
    var n := DigitsValue(s);
    var init, c := s[..|s| - 1], s[|s| - 1];
    var d := c as int - '0' as int;
    assert 0 <= d < 10;
    if |s| == 1 {
      assert init == [];
      assert DigitsValue(init) == 0;
      assert n == d;
      assert ShowNat(n) == ['0' + (n % 10) as char];
      assert s == [c];
    } else {
      assert init[0] == s[0];
      DigitsValuePositive(init);
      ShowParseNat(init);
      var v := DigitsValue(init);
      assert n == v * 10 + d;
      assert n / 10 == v && n % 10 == d;
      assert ShowNat(n) == ShowNat(v) + ['0' + d as char];
      assert s == init + [c];
    }
  }

  /** A leading `0` does not change the value: `h014` reads as 14. */
  lemma {:induction false} LeadingZero(s: string)
    requires forall k :: 0 <= k < |s| ==> IsDigit(s[k])
    ensures DigitsValue(['0'] + s) == DigitsValue(s)
    ensures IsDigits(s) ==> ParseNat(['0'] + s) == ParseNat(s)
    decreases |s|
  {
    var t := ['0'] + s;
    if s == [] {
      assert t[..0] == [];
    } else {
      LeadingZero(s[..|s| - 1]);
      assert t[..|t| - 1] == ['0'] + s[..|s| - 1];
      assert t[|t| - 1] == s[|s| - 1];
    }
  }
}
