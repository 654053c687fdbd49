// The JavaScript string primitives the formatter relies on: the whitespace class
// used by `String.prototype.trim` and by the regular-expression escape `\s`, the
// line terminators that the regular-expression `.` refuses to match, `trim`, and
// `split('\n')` together with its inverse `join('\n')`.

module JsString {

  /** ECMAScript LineTerminator: LF, CR, LINE SEPARATOR, PARAGRAPH SEPARATOR. */
  predicate IsLineTerminator(c: char) {
    c == '\n' || c == '\r' || c == '\U{2028}' || c == '\U{2029}'
  }

  /**
   * ECMAScript WhiteSpace (TAB, VT, FF, ZWNBSP and every Unicode space separator)
   * together with LineTerminator: the set that `trim` strips and `\s` matches.
   */
  predicate IsWhitespace(c: char) {
    c == '\t' || c == '\U{000B}' || c == '\U{000C}' || c == ' ' || c == '\U{00A0}'
    || c == '\U{FEFF}' || c == '\U{1680}' || ('\U{2000}' <= c <= '\U{200A}')
    || c == '\U{202F}' || c == '\U{205F}' || c == '\U{3000}'
    || IsLineTerminator(c)
  }

  /** The regular-expression class `\d`: the ASCII digits only. */
  predicate IsDigit(c: char) {
    '0' <= c <= '9'
  }

  predicate AllWhitespace(s: string) {
    forall i :: 0 <= i < |s| ==> IsWhitespace(s[i])
  }

  /** Drops the leading whitespace: the result is the longest suffix not starting with whitespace. */
  function TrimStart(s: string): (r: string)
    ensures |r| <= |s| && r == s[|s| - |r|..]
    ensures AllWhitespace(s[..|s| - |r|])
    ensures r != [] ==> !IsWhitespace(r[0])
  {
    if s == [] then s
    else if IsWhitespace(s[0]) then
      var r := TrimStart(s[1..]);
      var k := |s| - |r|;
      forall i | 0 <= i < k
        ensures IsWhitespace(s[..k][i])
      {
        if i > 0 {
          assert s[..k][i] == s[1..][..k - 1][i - 1];
        }
      }
      r
    else s
  }

  /** Drops the trailing whitespace: the result is the longest prefix not ending in whitespace. */
  function TrimEnd(s: string): (r: string)
    ensures |r| <= |s| && r == s[..|r|]
    ensures AllWhitespace(s[|r|..])
    ensures r != [] ==> !IsWhitespace(r[|r| - 1])
  {
    if s == [] then s
    else if IsWhitespace(s[|s| - 1]) then
      var r := TrimEnd(s[..|s| - 1]);
      forall i | 0 <= i < |s| - |r|
        ensures IsWhitespace(s[|r|..][i])
      {
        if i < |s| - 1 - |r| {
          assert s[|r|..][i] == s[..|s| - 1][|r|..][i];
        }
      }
      r
    else s
  }

  /** `r` occurs in `s` starting at offset `k`. */
  predicate IsSliceAt(s: string, r: string, k: nat) {
    k + |r| <= |s| && r == s[k..k + |r|]
  }

  /**
   * `String.prototype.trim`: a contiguous slice of `s` with every whitespace
   * character removed from both ends. It is empty exactly when `s` is all whitespace.
   */
  function Trim(s: string): (r: string)
    ensures r != [] ==> !IsWhitespace(r[0]) && !IsWhitespace(r[|r| - 1])
    ensures r == [] <==> AllWhitespace(s)
  {
    var t := TrimStart(s);
    var r := TrimEnd(t);
    assert r == [] ==> t == [] && forall i :: 0 <= i < |s| ==> IsWhitespace(s[i]);
    r
  }

  /** A prefix of a suffix of `s`, with whitespace dropped on both sides, is a slice of `s` between whitespace. */
  lemma SliceWitness(s: string, t: string, r: string)
    requires |t| <= |s| && t == s[|s| - |t|..] && AllWhitespace(s[..|s| - |t|])
    requires |r| <= |t| && r == t[..|r|] && AllWhitespace(t[|r|..])
    ensures exists k: nat :: IsSliceAt(s, r, k) && AllWhitespace(s[..k]) && AllWhitespace(s[k + |r|..])
  {
    var k := |s| - |t|;
    assert s[k + |r|..] == t[|r|..];
    assert IsSliceAt(s, r, k);
  }

  /**
   * The trimmed string is a contiguous slice of the original, and what lies
   * before and after it is all whitespace.
   */
  lemma TrimIsSlice(s: string)
    ensures exists k: nat :: IsSliceAt(s, Trim(s), k) && AllWhitespace(s[..k]) && AllWhitespace(s[k + |Trim(s)|..])
  {
    SliceWitness(s, TrimStart(s), Trim(s));
  }

  /** Trimming leaves a string that has no whitespace at either end unchanged. */
  lemma TrimUnchanged(s: string)
    requires s != [] && !IsWhitespace(s[0]) && !IsWhitespace(s[|s| - 1])
    ensures Trim(s) == s
  {
    assert TrimStart(s) == s;
    assert TrimEnd(s) == s;
  }

  /**
   * `s.split('\n')`: the maximal newline-free pieces of `s`, in order. There is
   * always at least one piece (the empty string splits into one empty piece).
   */
  function Split(s: string): (r: seq<string>)
    ensures |r| >= 1
    ensures forall i :: 0 <= i < |r| ==> '\n' !in r[i]
  {
    if s == [] then [[]]
    else
      var rest := Split(s[1..]);
      if s[0] == '\n' then [[]] + rest
      else [[s[0]] + rest[0]] + rest[1..]
  }

  /** `lines.join('\n')`, the inverse of `Split`. */
  function Join(lines: seq<string>): (r: string)
    requires |lines| >= 1
    ensures |r| >= |lines| - 1
  {
    if |lines| == 1 then lines[0] else lines[0] + "\n" + Join(lines[1..])
  }

  /** Joining the pieces back with newlines gives the original text. */
  lemma {:induction false} JoinSplit(s: string)
    ensures Join(Split(s)) == s
  {
    if s != [] {
      var rest := Split(s[1..]);
      JoinSplit(s[1..]);
      if s[0] == '\n' {
        assert Split(s)[1..] == rest;
      } else {
        var r := Split(s);
        assert r[0] == [s[0]] + rest[0];
        if |rest| == 1 {
          assert s == [s[0]] + rest[0];
        } else {
          assert r[1..] == rest[1..];
          assert Join(rest) == rest[0] + "\n" + Join(rest[1..]);
          assert s == [s[0]] + s[1..];
        }
      }
    }
  }

  /** Splitting a newline-free prefix glued to `t` only extends the first piece of `t`. */
  lemma {:induction false} SplitNewlineFreePrefix(a: string, t: string)
    requires '\n' !in a
    ensures Split(a + t) == [a + Split(t)[0]] + Split(t)[1..]
  {
    if a != [] {
      var s := a + t;
      var rest := Split(a[1..] + t);
      assert s[0] == a[0] && s[1..] == a[1..] + t;
      SplitNewlineFreePrefix(a[1..], t);
      assert [a[0]] + (a[1..] + Split(t)[0]) == a + Split(t)[0] by {
        assert a == [a[0]] + a[1..];
      }
    } else {
      assert a + t == t;
      assert [] + Split(t)[0] == Split(t)[0];
      assert Split(t) == [Split(t)[0]] + Split(t)[1..];
    }
  }

  /** Splitting newline-free lines joined with newlines gives back those lines. */
  lemma {:induction false} SplitJoin(lines: seq<string>)
    requires |lines| >= 1
    requires forall i :: 0 <= i < |lines| ==> '\n' !in lines[i]
    ensures Split(Join(lines)) == lines
  {
    if |lines| == 1 {
      SplitNewlineFreePrefix(lines[0], []);
      assert lines[0] + [] == lines[0];
    } else {
      SplitJoin(lines[1..]);
      var t := "\n" + Join(lines[1..]);
      SplitNewlineFreePrefix(lines[0], t);
      assert Join(lines) == lines[0] + t;
      assert t != [] && t[0] == '\n' && t[1..] == Join(lines[1..]);
      assert Split(t) == [[]] + lines[1..];
      assert lines[0] + [] == lines[0];
      assert lines == [lines[0]] + lines[1..];
    }
  }
}
