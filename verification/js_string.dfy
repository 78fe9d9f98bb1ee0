/**
 * The JavaScript string operations the adapter relies on:
 * `String.prototype.split(",")` and `String.prototype.trim()`.
 */
module JsString {

  /** The characters `trim` and `parseFloat` skip: ECMAScript WhiteSpace (tab, vertical tab,
      form feed, space, no-break space, the byte order mark and the Unicode space separators
      U+1680, U+2000 to U+200A, U+202F, U+205F and U+3000) and LineTerminator (line feed,
      carriage return, line and paragraph separator). */
  predicate IsJsWhitespace(c: char)
  {
    if c <= ' ' then c == ' ' || '\t' <= c <= '\r'
    else if c < '\U{00A0}' then false
    else
      || c == '\U{00A0}' || c == '\U{1680}' || ('\U{2000}' <= c <= '\U{200A}')
      || c == '\U{2028}' || c == '\U{2029}' || c == '\U{202F}' || c == '\U{205F}'
      || c == '\U{3000}' || c == '\U{FEFF}'
  }

  lemma AppendIsAssociative<T>(a: seq<T>, b: seq<T>, c: seq<T>)
    ensures (a + b) + c == a + (b + c)
  {
  }

  lemma PrefixOfAppend<T>(a: seq<T>, b: seq<T>)
    ensures a <= a + b
  {
    assert (a + b)[..|a|] == a;
  }

  /** Number of occurrences of `c` in `s`. */
  function CountOf(s: string, c: char): nat
  {
    if |s| == 0 then 0 else (if s[0] == c then 1 else 0) + CountOf(s[1..], c)
  }

  /** `pieces.join(",")`. */
  function JoinWithComma(pieces: seq<string>): string
  {
    if |pieces| == 0 then ""
    else if |pieces| == 1 then pieces[0]
    else pieces[0] + "," + JoinWithComma(pieces[1..])
  }

  /** `s.split(",")`: the maximal comma-free pieces, which joined with commas give `s` back. */
  function SplitOnComma(s: string): (pieces: seq<string>)
    ensures |pieces| == CountOf(s, ',') + 1
    ensures forall k :: 0 <= k < |pieces| ==> ',' !in pieces[k]
    ensures JoinWithComma(pieces) == s
  {
    if |s| == 0 then [""]
    else
      var rest := SplitOnComma(s[1..]);
      if s[0] == ',' then
        assert ([""] + rest)[1..] == rest;
        [""] + rest
      else
        var first := [s[0]] + rest[0];
        assert ([first] + rest[1..])[1..] == rest[1..];
        assert s == [s[0]] + s[1..];
        [first] + rest[1..]
  }

  /** `split(",")` of a string that starts with `c`: a comma starts a new piece, any other
      character is prepended to the first piece of the rest. */
  lemma SplitCons(c: char, t: string)
    ensures SplitOnComma([c] + t) ==
      if c == ',' then [""] + SplitOnComma(t)
      else [[c] + SplitOnComma(t)[0]] + SplitOnComma(t)[1..]
  {
    assert ([c] + t)[1..] == t;
  }

  /** The piece before the first comma comes first, and the rest is split after it. */
  lemma {:induction false} SplitAtFirstComma(x: string, y: string)
    requires ',' !in x
    ensures SplitOnComma(x + [','] + y) == [x] + SplitOnComma(y)
    decreases |x|
  {
    if |x| == 0 {
      assert x + [','] + y == [','] + y;
      SplitCons(',', y);
    } else {
      var t := x[1..] + [','] + y;
      assert x + [','] + y == [x[0]] + t;
      SplitCons(x[0], t);
      SplitAtFirstComma(x[1..], y);
      assert [x[0]] + x[1..] == x;
    }
  }

  /** A string without commas is a single piece. */
  lemma {:induction false} SplitWithoutComma(x: string)
    requires ',' !in x
    ensures SplitOnComma(x) == [x]
    decreases |x|
  {
    if |x| > 0 {
      assert x == [x[0]] + x[1..];
      SplitCons(x[0], x[1..]);
      SplitWithoutComma(x[1..]);
    }
  }

  /** `s.trimStart()`: drops exactly the leading whitespace. */
  function TrimStart(s: string): (r: string)
    ensures |r| <= |s| && r == s[|s| - |r|..]
    ensures forall k :: 0 <= k < |s| - |r| ==> IsJsWhitespace(s[k])
    ensures |r| > 0 ==> !IsJsWhitespace(r[0])
  {
    if |s| > 0 && IsJsWhitespace(s[0]) then TrimStart(s[1..]) else s
  }

  /** `s.trimEnd()`: drops exactly the trailing whitespace. */
  function TrimEnd(s: string): (r: string)
    ensures |r| <= |s| && r == s[..|r|]
    ensures forall k :: |r| <= k < |s| ==> IsJsWhitespace(s[k])
    ensures |r| > 0 ==> !IsJsWhitespace(r[|r| - 1])
  {
    if |s| > 0 && IsJsWhitespace(s[|s| - 1]) then TrimEnd(s[..|s| - 1]) else s
  }

  /** `s.trim()`. */
  function Trim(s: string): string
  {
    TrimEnd(TrimStart(s))
  }

  /** A prefix of a suffix of `s` is a slice of `s`. */
  lemma PrefixOfSuffix<T>(s: seq<T>, lo: nat, t: seq<T>, r: seq<T>)
    requires lo <= |s| && t == s[lo..] && |r| <= |t| && r == t[..|r|]
    ensures lo + |r| <= |s| && r == s[lo..lo + |r|]
    ensures forall k :: lo <= k < |s| ==> s[k] == t[k - lo]
  {
  }

  /** `trim` keeps the contiguous middle `s[lo..hi]` left after dropping exactly the
      whitespace at both ends, so neither end of the result is whitespace. */
  lemma TrimKeepsMiddle(s: string) returns (lo: nat, hi: nat)
    ensures lo <= hi <= |s| && Trim(s) == s[lo..hi]
    ensures forall j :: 0 <= j < lo ==> IsJsWhitespace(s[j])
    ensures forall j :: hi <= j < |s| ==> IsJsWhitespace(s[j])
    ensures lo < hi ==> !IsJsWhitespace(s[lo]) && !IsJsWhitespace(s[hi - 1])
  {
    var t := TrimStart(s);
    lo := |s| - |t|;
    var r := TrimEnd(t);
    hi := lo + |r|;
    PrefixOfSuffix(s, lo, t, r);
    assert |r| > 0 ==> r[0] == t[0];
  }

  /** Trimming a comma-free piece leaves a comma-free string with no whitespace at either end. */
  lemma TrimmedPiece(piece: string)
    requires ',' !in piece
    ensures ',' !in Trim(piece)
    ensures |Trim(piece)| > 0 ==> !IsJsWhitespace(Trim(piece)[0]) && !IsJsWhitespace(Trim(piece)[|Trim(piece)| - 1])
  {
    var lo, hi := TrimKeepsMiddle(piece);
    var r := Trim(piece);
    forall c | c in r ensures c != ',' {
      var m :| 0 <= m < |r| && r[m] == c;
      assert c == piece[lo + m];
    }
  }

  /** A single character that is not whitespace trims to itself. */
  lemma TrimOfLetter(x: string)
    requires |x| == 1 && !IsJsWhitespace(x[0])
    ensures Trim(x) == x
  {
    assert TrimStart(x) == x;
  }

  /** A character with whitespace on both sides trims to that character alone. */
  lemma TrimOfPaddedLetter(x: string)
    requires |x| == 3 && IsJsWhitespace(x[0]) && !IsJsWhitespace(x[1]) && IsJsWhitespace(x[2])
    ensures Trim(x) == x[1..2]
  {
    var t := x[1..];
    assert TrimStart(t) == t;
    assert TrimStart(x) == t;
    assert t[..1] == x[1..2];
    assert TrimEnd(t[..1]) == t[..1];
  }

  /** `trim` is idempotent. */
  lemma TrimIdempotent(s: string)
    ensures Trim(Trim(s)) == Trim(s)
  {
    var r := Trim(s);
    assert TrimStart(r) == r;
    assert TrimEnd(r) == r;
  }
}
