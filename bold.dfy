// The bold pre-pass of the response formatter: a global replacement of the
// pattern `\*\*(.*?)\*\*` by a `<strong>` element around the captured text.
//
// The replacement is modelled as the left-to-right scan the regular-expression
// engine performs. At each position the pattern matches when the text there
// starts with `**` and a closing `**` can be reached: the lazy group takes the
// shortest span, and because `.` matches no line terminator the span may not
// contain one. A match is replaced and the scan resumes after the closing `**`;
// otherwise the character is copied and the scan moves one position on.

module Bold {
  import opened Types
  import opened JsString

  const StrongOpen := "<strong class=\"font-semibold\">"
  const StrongClose := "</strong>"

  /** The replacement text `<strong class="font-semibold">$1</strong>`; it adds no line break. */
  function Strong(x: string): (r: string)
    ensures |r| > 1
    ensures '\n' in r <==> '\n' in x
  {
    assert '\n' !in StrongOpen && '\n' !in StrongClose;
    StrongOpen + x + StrongClose
  }

  /** A `**` delimiter starts at position `j` of `s`. */
  predicate DelimiterAt(s: string, j: int) {
    0 <= j && j + 2 <= |s| && s[j] == '*' && s[j + 1] == '*'
  }

  predicate HasDelimiter(s: string) {
    exists j :: 0 <= j < |s| && DelimiterAt(s, j)
  }

  /** No character of `s[from..to]` is a line terminator, so `.*` can span it. */
  predicate SingleLine(s: string, from: int, to: int)
    requires 0 <= from <= to <= |s|
  {
    forall i :: from <= i < to ==> !IsLineTerminator(s[i])
  }

  /**
   * Where the lazy group `(.*?)` that starts at `k` ends: the first delimiter at
   * or after `k`, provided no line terminator comes before it; otherwise there is
   * no closing delimiter on this line and the match fails.
   */
  function FindClose(s: string, k: nat): (r: Option<nat>)
    requires k <= |s|
    decreases |s| - k
    ensures r.Some? ==> k <= r.value && DelimiterAt(s, r.value) && SingleLine(s, k, r.value)
    ensures r.Some? ==> forall j :: k <= j < r.value ==> !DelimiterAt(s, j)
    ensures r.None? ==> forall j :: k <= j && DelimiterAt(s, j) ==> !SingleLine(s, k, j)
  {
    if DelimiterAt(s, k) then Some(k)
    else if k < |s| && !IsLineTerminator(s[k]) then FindClose(s, k + 1)
    else None
  }

  /** What one step of the scan emits and how many characters it consumes. */
  datatype ScanResult = ScanResult(out: string, consumed: nat)

  /**
   * One step of the scan at the start of a non-empty `s`: a delimiter that has a
   * closing delimiter on its line is replaced, together with the text up to and
   * including the closing delimiter, by a strong element; any other character is copied.
   */
  function ScanStep(s: string): (r: ScanResult)
    requires s != []
    ensures 1 <= r.consumed <= |s|
    ensures r.consumed == 1 <==> r.out == [s[0]]
    ensures r.consumed > 1 ==> 4 <= r.consumed && DelimiterAt(s, 0) && DelimiterAt(s, r.consumed - 2)
    ensures r.consumed > 1 ==> r.out == Strong(s[2..r.consumed - 2])
    ensures r.consumed > 1 <==> DelimiterAt(s, 0) && exists j :: 2 <= j && DelimiterAt(s, j) && SingleLine(s, 2, j)
    ensures r.consumed > 1 ==>
              SingleLine(s, 2, r.consumed - 2) && forall i :: 2 <= i < r.consumed - 2 ==> !DelimiterAt(s, i)
    ensures '\n' in r.out ==> '\n' in s[..r.consumed]
  {
    if DelimiterAt(s, 0) && FindClose(s, 2).Some? then
      var j := FindClose(s, 2).value;
      assert s[2..j] == s[..j + 2][2..j];
      ScanResult(Strong(s[2..j]), j + 2)
    else
      ScanResult([s[0]], 1)
  }

  // The global replacement of `\*\*(.*?)\*\*` by `<strong class="font-semibold">$1</strong>`.
  function Embolden(s: string): (r: string)
    decreases |s|
    ensures !HasDelimiter(s) ==> r == s
    ensures '\n' !in s ==> '\n' !in r
  {
    if s == [] then []
    else
      var step := ScanStep(s);
      assert !HasDelimiter(s) ==> step.consumed == 1 && !HasDelimiter(s[1..]) by {
        if !HasDelimiter(s) {
          forall j | 0 <= j < |s| - 1 && DelimiterAt(s[1..], j)
            ensures DelimiterAt(s, j + 1)
          {
          }
        }
      }
      assert '\n' !in s ==> '\n' !in s[..step.consumed] && '\n' !in s[step.consumed..];
      step.out + Embolden(s[step.consumed..])
  }

  /** A first character other than a star is copied as it is. */
  lemma CopiedHead(s: string)
    requires s != [] && s[0] != '*'
    ensures Embolden(s) == [s[0]] + Embolden(s[1..])
  {
    assert !DelimiterAt(s, 0);
  }

  /** Text without a star passes through, and the scan resumes right after it. */
  lemma {:induction false} StarFreePrefix(a: string, b: string)
    requires '*' !in a
    ensures Embolden(a + b) == a + Embolden(b)
  {
    if a != [] {
      var s := a + b;
      assert s[0] == a[0] && s[1..] == a[1..] + b;
      CopiedHead(s);
      StarFreePrefix(a[1..], b);
      assert a == [a[0]] + a[1..];
    } else {
      assert a + b == b;
    }
  }

  /** A `**x**` pair on one line, with no star inside, becomes one strong element. */
  lemma PairedDelimiters(x: string, b: string)
    requires '*' !in x
    requires forall i :: 0 <= i < |x| ==> !IsLineTerminator(x[i])
    ensures Embolden("**" + x + "**" + b) == Strong(x) + Embolden(b)
  {
    var s := "**" + x + "**" + b;
    var j := 2 + |x|;
    assert DelimiterAt(s, 0) && DelimiterAt(s, j);
    forall i | 2 <= i < j
      ensures !DelimiterAt(s, i)
    {
      assert s[i] == x[i - 2];
    }
    assert SingleLine(s, 2, j);
    assert FindClose(s, 2) == Some(j);
    assert s[2..j] == x && s[j + 2..] == b;
  }

  /**
   * The general replacement rule: when `s` starts with `**` and the first `**`
   * after it, at `j`, is reached without crossing a line terminator, the span
   * between them, stars and all, becomes one strong element and the scan
   * resumes after the closing `**`.
   */
  lemma MatchReplaced(s: string, j: nat)
    requires DelimiterAt(s, 0) && 2 <= j && DelimiterAt(s, j) && SingleLine(s, 2, j)
    requires forall i :: 2 <= i < j ==> !DelimiterAt(s, i)
    ensures Embolden(s) == Strong(s[2..j]) + Embolden(s[j + 2..])
  {
    assert FindClose(s, 2) == Some(j);
    var step := ScanStep(s);
    assert step.consumed == j + 2 && step.out == Strong(s[2..j]);
    assert Embolden(s) == step.out + Embolden(s[step.consumed..]);
  }

  /** An opening `**` followed by text that holds no `**` stays literal. */
  lemma UnpairedDelimiter(x: string)
    requires !HasDelimiter(x)
    ensures Embolden("**" + x) == "**" + x
  {
    var s := "**" + x;
    var t := s[1..];
    assert t == "*" + x;
    forall j | 2 <= j
      ensures DelimiterAt(s, j) ==> DelimiterAt(x, j - 2)
      ensures DelimiterAt(t, j) ==> DelimiterAt(x, j - 1)
    {
    }
    assert FindClose(s, 2).None?;
    assert |t| >= 2 ==> FindClose(t, 2).None?;
    assert t[1..] == x;
  }

  /**
   * A closing delimiter is searched on the current line only: the search from
   * inside `a` gives the same answer whether or not a line break and more text follow.
   */
  lemma {:induction false} FindCloseStopsAtLineEnd(a: string, c: char, b: string, k: nat)
    requires IsLineTerminator(c) && k <= |a|
    ensures FindClose(a + [c] + b, k) == FindClose(a, k)
    decreases |a| - k
  {
    var s := a + [c] + b;
    assert s[..|a|] == a && s[|a|] == c;
    assert DelimiterAt(s, k) <==> DelimiterAt(a, k);
    if !DelimiterAt(a, k) && k < |a| && !IsLineTerminator(a[k]) {
      FindCloseStopsAtLineEnd(a, c, b, k + 1);
    }
  }

  /**
   * Regrouping a concatenation. Kept as a lemma of its own so that the regrouping
   * in `LineBreakSplits` is proved away from the unfolded scan.
   */
  lemma Associative(x: string, y: string, z: string)
    ensures x + (y + z) == (x + y) + z
  {
  }

  /** A step that starts inside `a` ends inside `a`, even when a line break and more text follow. */
  lemma StepStaysOnLine(a: string, c: char, b: string)
    requires IsLineTerminator(c) && a != []
    ensures ScanStep(a + [c] + b) == ScanStep(a)
  {
    var s := a + [c] + b;
    assert s[..|a|] == a && s[|a|] == c;
    assert DelimiterAt(s, 0) <==> DelimiterAt(a, 0);
    if DelimiterAt(a, 0) {
      FindCloseStopsAtLineEnd(a, c, b, 2);
      if FindClose(a, 2).Some? {
        var j := FindClose(a, 2).value;
        assert s[2..j] == a[2..j];
      }
    }
  }

  /**
   * No match crosses a line break, so emboldening the whole text equals
   * emboldening the text on either side of a line break separately.
   */
  lemma {:induction false} LineBreakSplits(a: string, c: char, b: string)
    requires IsLineTerminator(c)
    ensures Embolden(a + [c] + b) == Embolden(a) + [c] + Embolden(b)
    decreases |a|
  {
    var s := a + [c] + b;
    if a == [] {
      assert s == [c] + b && !DelimiterAt(s, 0) && s[1..] == b;
    } else {
      StepStaysOnLine(a, c, b);
      var step := ScanStep(a);
      var n := step.consumed;
      assert s[n..] == a[n..] + [c] + b;
      LineBreakSplits(a[n..], c, b);
      var rest, tail := Embolden(a[n..]), Embolden(b);
      assert Embolden(s) == step.out + (rest + [c] + tail);
      Associative(step.out, rest + [c], tail);
      Associative(step.out, rest, [c]);
      assert Embolden(a) == step.out + rest;
    }
  }

  /** Delimiters on different lines never pair up: `**x` newline `y**` stays literal. */
  lemma CrossLineDelimiters(x: string, y: string)
    requires '*' !in x && '*' !in y
    ensures Embolden("**" + x + "\n" + y + "**") == "**" + x + "\n" + y + "**"
  {
    var a, b := "**" + x, y + "**";
    assert "**" + x + "\n" + y + "**" == a + ['\n'] + b;
    LineBreakSplits(a, '\n', b);
    UnpairedDelimiter(x);
    UnpairedDelimiter([]);
    assert "**" + [] == "**";
    StarFreePrefix(y, "**");
  }

  /** The pre-pass applied to each line separately. */
  function EmboldenEach(lines: seq<string>): (r: seq<string>)
    ensures |r| == |lines|
    ensures forall i :: 0 <= i < |lines| ==> r[i] == Embolden(lines[i])
  {
    if lines == [] then [] else [Embolden(lines[0])] + EmboldenEach(lines[1..])
  }

  /** Emboldening lines joined by newlines equals joining the emboldened lines. */
  lemma {:induction false} EmboldenJoin(lines: seq<string>)
    requires |lines| >= 1
    ensures Embolden(Join(lines)) == Join(EmboldenEach(lines))
  {
    if |lines| > 1 {
      var rest := lines[1..];
      EmboldenJoin(rest);
      LineBreakSplits(lines[0], '\n', Join(rest));
      assert lines[0] + "\n" + Join(rest) == lines[0] + ['\n'] + Join(rest);
      var each := EmboldenEach(lines);
      assert each[1..] == EmboldenEach(rest);
    }
  }

  /**
   * The lines the formatter sees after the pre-pass are exactly the input's lines,
   * each emboldened on its own: the pre-pass neither adds nor removes a line.
   */
  lemma LinesAfterEmbolden(text: string)
    ensures Split(Embolden(text)) == EmboldenEach(Split(text))
  {
    var lines := Split(text);
    JoinSplit(text);
    EmboldenJoin(lines);
    var each := EmboldenEach(lines);
    assert forall i :: 0 <= i < |each| ==> '\n' !in each[i];
    SplitJoin(each);
  }
}
