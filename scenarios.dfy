// Typical responses run through the formatter, each proved from the general
// lemmas about emboldening, splitting, trimming and classifying.

module Scenarios {
  import opened JsString
  import opened Bold
  import opened Formatter

  /** Text with no star and no line feed: the bold pass and the split leave it whole. */
  predicate Plain(x: string) {
    '*' !in x && '\n' !in x
  }

  /** A plain line, split and classified, is one line of its own kind. */
  lemma {:induction false} PlainLine(line: string)
    requires Plain(line)
    ensures Embolden(line) == line
    ensures Split(Embolden(line)) == [line]
    ensures Kinds(Split(Embolden(line))) == [Classify(line)]
  {
    StarFreePrefix(line, []);
    assert line + [] == line;
    assert Join([line]) == line;
    SplitJoin([line]);
  }

  /** Two plain lines joined by a line feed are split back into those two lines. */
  lemma {:induction false} PlainLines(a: string, b: string)
    requires Plain(a) && Plain(b)
    ensures Embolden(a + "\n" + b) == a + "\n" + b
    ensures Split(Embolden(a + "\n" + b)) == [a, b]
    ensures Kinds(Split(Embolden(a + "\n" + b))) == [Classify(a), Classify(b)]
  {
    var text := a + "\n" + b;
    assert '*' !in text by {
      assert forall i :: 0 <= i < |text| ==> text[i] != '*' by {
        forall i | 0 <= i < |text| ensures text[i] != '*' {
          if i < |a| { assert text[i] == a[i]; }
          else if i > |a| { assert text[i] == b[i - |a| - 1]; }
        }
      }
    }
    StarFreePrefix(text, []);
    assert text + [] == text;
    assert Join([a, b]) == text by {
      assert Join([a, b][1..]) == b;
    }
    SplitJoin([a, b]);
  }

  /** The document of a text whose lines have the kinds `kinds`. */
  lemma DocumentOfKinds(text: string, kinds: seq<LineKind>)
    requires Kinds(Split(Embolden(text))) == kinds
    ensures Document(text) == Run(kinds).blocks + Closing(Run(kinds).state)
  {
  }

  /** The pass over a single line. */
  lemma RunOne(k: LineKind)
    ensures Run([k]) == Step(NoList, k)
  {
    assert [k][..0] == [];
  }

  /** The pass over two lines. */
  lemma RunTwo(k1: LineKind, k2: LineKind)
    ensures var first := Step(NoList, k1);
      Run([k1, k2]) == Progress(Step(first.state, k2).state, first.blocks + Step(first.state, k2).blocks)
  {
    assert [k1, k2][..1] == [k1];
    RunOne(k1);
  }

  /** The blocks of one ordered line. */
  lemma {:induction false} OrderedAlone(x: string)
    ensures var p := Run([OrderedLine(x)]); p.blocks + Closing(p.state) == [OlOpen, OlItem(x), OlClose]
  {
    RunOne(OrderedLine(x));
    assert Markers(NoList, OrderedLine(x)) == [OlOpen];
  }

  /** The blocks of two unordered lines. */
  lemma {:induction false} BulletPair(x: string, y: string)
    ensures var p := Run([UnorderedLine(x), UnorderedLine(y)]);
      p.blocks + Closing(p.state) == [UlOpen, UlItem(x), UlItem(y), UlClose]
  {
    RunTwo(UnorderedLine(x), UnorderedLine(y));
    assert Markers(NoList, UnorderedLine(x)) == [UlOpen];
    assert Markers(InUnordered, UnorderedLine(y)) == [];
  }

  /** The blocks of an ordered line followed by an unordered line. */
  lemma {:induction false} OrderedThenBullet(x: string, y: string)
    ensures var p := Run([OrderedLine(x), UnorderedLine(y)]);
      p.blocks + Closing(p.state) == [OlOpen, OlItem(x), OlClose, UlOpen, UlItem(y), UlClose]
  {
    RunTwo(OrderedLine(x), UnorderedLine(y));
    assert Markers(NoList, OrderedLine(x)) == [OlOpen];
    assert Markers(InOrdered, UnorderedLine(y)) == [OlClose, UlOpen];
  }

  /** A plain line that trims to `d. x` is a single ordered line. */
  lemma {:induction false} OrderedKinds(line: string, d: char, x: string)
    requires Plain(line) && IsDigit(d)
    requires Trim(line) == [d] + ['.', ' '] + x
    ensures Kinds(Split(Embolden(line))) == [OrderedLine(x)]
  {
    PlainLine(line);
    OrderedLineShape(line, [d], ' ', x);
  }

  /** A plain line that trims to `d. x` is alone a one-item ordered list, closed at the end. */
  lemma {:induction false} SingleOrderedItem(line: string, d: char, x: string)
    requires Plain(line) && IsDigit(d)
    requires Trim(line) == [d] + ['.', ' '] + x
    ensures Document(line) == [OlOpen, OlItem(x), OlClose]
  {
    OrderedKinds(line, d, x);
    DocumentOfKinds(line, [OrderedLine(x)]);
    OrderedAlone(x);
  }

  /** Two plain lines that trim to `- x` and `- y` are two unordered lines. */
  lemma {:induction false} BulletKinds(a: string, b: string, x: string, y: string)
    requires Plain(a) && Plain(b)
    requires Trim(a) == ['-', ' '] + x && Trim(b) == ['-', ' '] + y
    ensures Kinds(Split(Embolden(a + "\n" + b))) == [UnorderedLine(x), UnorderedLine(y)]
  {
    PlainLines(a, b);
    UnorderedLineShape(a, '-', ' ', x);
    UnorderedLineShape(b, '-', ' ', y);
  }

  /** Two plain lines that trim to `- x` and `- y` share one unordered list. */
  lemma {:induction false} TwoBullets(a: string, b: string, x: string, y: string)
    requires Plain(a) && Plain(b)
    requires Trim(a) == ['-', ' '] + x && Trim(b) == ['-', ' '] + y
    ensures Document(a + "\n" + b) == [UlOpen, UlItem(x), UlItem(y), UlClose]
  {
    BulletKinds(a, b, x, y);
    DocumentOfKinds(a + "\n" + b, [UnorderedLine(x), UnorderedLine(y)]);
    BulletPair(x, y);
  }

  /** A line that trims to `d. x` and one that trims to `- y` are an ordered and an unordered line. */
  lemma {:induction false} SwitchKinds(a: string, b: string, d: char, x: string, y: string)
    requires Plain(a) && Plain(b) && IsDigit(d)
    requires Trim(a) == [d] + ['.', ' '] + x && Trim(b) == ['-', ' '] + y
    ensures Kinds(Split(Embolden(a + "\n" + b))) == [OrderedLine(x), UnorderedLine(y)]
  {
    PlainLines(a, b);
    OrderedLineShape(a, [d], ' ', x);
    UnorderedLineShape(b, '-', ' ', y);
  }

  /**
   * A numbered line followed by a dash line: the ordered list is closed
   * before the unordered one opens.
   */
  lemma {:induction false} ListSwitch(a: string, b: string, d: char, x: string, y: string)
    requires Plain(a) && Plain(b) && IsDigit(d)
    requires Trim(a) == [d] + ['.', ' '] + x && Trim(b) == ['-', ' '] + y
    ensures Document(a + "\n" + b) == [OlOpen, OlItem(x), OlClose, UlOpen, UlItem(y), UlClose]
  {
    SwitchKinds(a, b, d, x, y);
    DocumentOfKinds(a + "\n" + b, [OrderedLine(x), UnorderedLine(y)]);
    OrderedThenBullet(x, y);
  }

  /** The empty response is one empty line, which renders as a spacer. */
  lemma {:induction false} EmptyResponse()
    ensures Document("") == [Spacer]
    ensures RenderAll(Document("")) == SpacerTag
  {
    assert Kinds(Split(Embolden(""))) == [BlankLine] by {
      PlainLine("");
      assert Classify("") == BlankLine;
    }
    DocumentOfKinds("", [BlankLine]);
    RunOne(BlankLine);
    assert [] + [Spacer] == [Spacer];
  }

  /** A bold span inside a text line is replaced and the rest of the line copied. */
  lemma {:induction false} BoldSpan(x: string, rest: string)
    requires x != [] && Plain(x) && '\U{2028}' !in x && '\U{2029}' !in x && '\r' !in x
    requires Plain(rest)
    ensures Embolden("**" + x + "**" + rest) == Strong(x) + rest
  {
    forall i | 0 <= i < |x| ensures !IsLineTerminator(x[i]) {
    }
    PairedDelimiters(x, rest);
    StarFreePrefix(rest, []);
    assert rest + [] == rest;
  }
}
