/**
 * StringExtensions.swift: `repeating(count:)` and `boxed(top:bottom:largestLine:centered:)`,
 * which lays text out between two horizontal rules. A character here is one
 * Unicode scalar; Swift counts grapheme clusters.
 */
module Strings {
  import opened Wrappers

  /** `repeating(count:)`: `count` copies of the text, one after another. */
  function Repeating(s: string, count: nat): (r: string)
    ensures |s| == 1 ==> |r| == count
    ensures count > 0 ==> |r| >= |s|
    ensures forall c :: c in r ==> c in s
    ensures count > 0 ==> r[..|s|] == s
  {
    if count == 0 then "" else s + Repeating(s, count - 1)
  }

  /** Concatenation of texts associates. */
  lemma AppendAssociates(a: string, b: string, c: string)
    ensures a + (b + c) == (a + b) + c
  {
  }

  /** Copies concatenate: `m + n` copies are `m` copies followed by `n` copies. */
  lemma {:induction false} RepeatingAdds(s: string, m: nat, n: nat)
    ensures Repeating(s, m + n) == Repeating(s, m) + Repeating(s, n)
    decreases m
  {
    if m == 0 {
      assert Repeating(s, m) + Repeating(s, n) == Repeating(s, n);
    } else {
      var k := m - 1;
      RepeatingAdds(s, k, n);
      AppendAssociates(s, Repeating(s, k), Repeating(s, n));
    }
  }

  /** `count` copies of a text of length `n` have length `count * n`. */
  lemma {:induction false} RepeatingLength(s: string, count: nat)
    ensures |Repeating(s, count)| == count * |s|
    decreases count
  {
    if count > 0 {
      RepeatingLength(s, count - 1);
      assert |Repeating(s, count)| == |s| + (count - 1) * |s|;
    }
  }

  /** Copy `i` of `count` is preceded by `i` copies and followed by the rest: the result is nothing but copies of `s`. */
  lemma RepeatingCopies(s: string, count: nat, i: nat)
    requires i < count
    ensures Repeating(s, count) == Repeating(s, i) + s + Repeating(s, count - i - 1)
    ensures |Repeating(s, i)| == i * |s|
  {
    var after := count - i - 1;
    assert count == i + (after + 1);
    RepeatingAdds(s, i, after + 1);
    assert Repeating(s, after + 1) == s + Repeating(s, after);
    AppendAssociates(Repeating(s, i), s, Repeating(s, after));
    RepeatingLength(s, i);
  }

  /**
   * `split(separator: "\n")` with its default of omitting empty pieces: the runs of
   * text between newlines, with `pending` the run already read. Characters here are
   * Unicode scalars, so a `"\r\n"` pair, one Character in Swift, is split after its `'\r'`.
   */
  function SplitFrom(s: string, pending: string): (pieces: seq<string>)
    requires '\n' !in pending
    ensures forall i :: 0 <= i < |pieces| ==> pieces[i] != "" && '\n' !in pieces[i]
    decreases |s|
  {
    if s == [] then (if pending == "" then [] else [pending])
    else if s[0] == '\n' then (if pending == "" then [] else [pending]) + SplitFrom(s[1..], "")
    else SplitFrom(s[1..], pending + [s[0]])
  }

  function SplitLines(s: string): (lines: seq<string>)
    ensures forall i :: 0 <= i < |lines| ==> lines[i] != "" && '\n' !in lines[i]
  {
    SplitFrom(s, "")
  }

  /** Each line followed by a newline. */
  function JoinLines(lines: seq<string>): string {
    if lines == [] then "" else lines[0] + "\n" + JoinLines(lines[1..])
  }

  /** Lines fit for `JoinLines` to be undone: not empty and with no newline. */
  predicate ProperLines(lines: seq<string>) {
    forall i :: 0 <= i < |lines| ==> lines[i] != "" && '\n' !in lines[i]
  }

  /** Reading text with no newline only extends the pending run. */
  lemma {:induction false} SplitFromPlainText(t: string, rest: string, pending: string)
    requires '\n' !in t && '\n' !in pending
    ensures SplitFrom(t + rest, pending) == SplitFrom(rest, pending + t)
    decreases |t|
  {
    if t == [] {
      assert t + rest == rest && pending + t == pending;
    } else {
      assert t[0] in t;
      assert (t + rest)[0] == t[0] && (t + rest)[1..] == t[1..] + rest;
      assert SplitFrom(t + rest, pending) == SplitFrom(t[1..] + rest, pending + [t[0]]);
      SplitFromPlainText(t[1..], rest, pending + [t[0]]);
      assert pending + [t[0]] + t[1..] == pending + t;
    }
  }

  /** A proper line and its newline come back as that line. */
  lemma SplitLineThenRest(l: string, rest: string)
    requires l != "" && '\n' !in l
    ensures SplitLines(l + "\n" + rest) == [l] + SplitLines(rest)
  {
    assert l + "\n" + rest == l + ("\n" + rest);
    SplitFromPlainText(l, "\n" + rest, "");
    assert "" + l == l;
    assert ("\n" + rest)[1..] == rest;
  }

  /** Splitting joined lines gives them back, and whatever follows is split on its own. */
  lemma {:induction false} SplitJoinLines(lines: seq<string>, tail: string)
    requires ProperLines(lines)
    ensures SplitLines(JoinLines(lines) + tail) == lines + SplitLines(tail)
    decreases |lines|
  {
    if lines == [] {
      assert JoinLines(lines) + tail == tail;
    } else {
      var l := lines[0];
      var rest := JoinLines(lines[1..]) + tail;
      assert JoinLines(lines) + tail == l + "\n" + rest;
      SplitLineThenRest(l, rest);
      assert ProperLines(lines[1..]) by {
        forall i | 0 <= i < |lines| - 1 ensures lines[1..][i] != "" && '\n' !in lines[1..][i] {
          assert lines[1..][i] == lines[i + 1];
        }
      }
      SplitJoinLines(lines[1..], tail);
      assert lines == [l] + lines[1..];
    }
  }

  /** `split` undoes `JoinLines` on proper lines. */
  lemma SplitUndoesJoin(lines: seq<string>)
    requires ProperLines(lines)
    ensures SplitLines(JoinLines(lines)) == lines
  {
    SplitJoinLines(lines, "");
    assert JoinLines(lines) + "" == JoinLines(lines);
  }

  /** A single proper line splits into itself. */
  lemma SplitOneLine(line: string)
    requires line != "" && '\n' !in line
    ensures SplitLines(line) == [line]
  {
    SplitFromPlainText(line, "", "");
    assert line + "" == line && "" + line == line;
    assert SplitFrom("", line) == [line];
  }

  lemma {:induction false} JoinLinesAppend(a: seq<string>, b: seq<string>)
    ensures JoinLines(a + b) == JoinLines(a) + JoinLines(b)
    decreases |a|
  {
    if a == [] {
      assert a + b == b;
    } else {
      assert (a + b)[0] == a[0] && (a + b)[1..] == a[1..] + b;
      JoinLinesAppend(a[1..], b);
    }
  }

  /** Swift's `a % 2`, whose remainder takes the sign of the dividend. */
  function SwiftRem2(a: int): (r: int)
    ensures a % 2 == 0 ==> r == 0
    ensures a % 2 == 1 && a >= 0 ==> r == 1
    ensures a % 2 == 1 && a < 0 ==> r == -1
  {
    if a >= 0 then a % 2 else -((-a) % 2)
  }

  /**
   * The box width: the longest line plus one space on each side, made even by adding
   * the remainder. For a negative width Swift's remainder is negative too, so the
   * width moves towards zero rather than up.
   */
  function BoxWidth(largestLine: int): (w: int)
    ensures w % 2 == 0
    ensures largestLine >= -2 ==> largestLine + 2 <= w <= largestLine + 3
    ensures largestLine < -2 ==> largestLine + 1 <= w <= largestLine + 2
  {
    var count := largestLine + 2;
    var remainder := SwiftRem2(count);
    if remainder != 0 then count + remainder else count
  }

  /** Swift's `a / 2`, which truncates towards zero: -1 / 2 is 0. */
  function SwiftHalf(a: int): (r: int)
    ensures a >= 0 ==> r == a / 2
    ensures a < 0 ==> r == -((-a) / 2)
    ensures r >= 0 <==> a >= -1
  {
    if a >= 0 then a / 2 else -((-a) / 2)
  }

  /** The length of the longest line, or None when there are no lines. */
  function MaxLength(lines: seq<string>): (m: Option<nat>)
    ensures m.None? <==> lines == []
    ensures m.Some? ==> (forall i :: 0 <= i < |lines| ==> |lines[i]| <= m.value)
                        && exists i :: 0 <= i < |lines| && |lines[i]| == m.value
  {
    if lines == [] then None
    else match MaxLength(lines[1..])
      case None => Some(|lines[0]|)
      case Some(m) => Some(if |lines[0]| >= m then |lines[0]| else m)
  }

  /** The width `boxed` lays its lines out in, or None when it returns "". */
  function Width(lines: seq<string>, largestLine: Option<int>): Option<int> {
    match (if largestLine.Some? then largestLine else MaxLength(lines))
    case None => None
    case Some(n) => Some(BoxWidth(n))
  }

  /**
   * One laid-out line: centred between equal runs of spaces, or after one space. The
   * padding `(width - count) / 2` truncates, so a line one wider than the box gets none.
   */
  function BoxLine(line: string, width: int, centered: bool): (r: string)
    requires centered ==> |line| <= width + 1
    ensures |r| > 0 && r[|r| - 1] == '\n'
    ensures !centered ==> r == " " + line + "\n"
  {
    if centered then
      var padding := Repeating(" ", SwiftHalf(width - |line|));
      padding + line + padding + "\n"
    else " " + line + "\n"
  }

  /**
   * A centred line spans the box, one column short when the free space is odd, with
   * the text after as many spaces as follow it; a line one wider than the box is
   * written as it is.
   */
  lemma CenteredLineSpansBox(line: string, width: int)
    requires |line| <= width + 1
    ensures |line| == width + 1 ==> BoxLine(line, width, true) == line + "\n"
    ensures |line| <= width ==>
            var r := BoxLine(line, width, true);
            var padding := (width - |line|) / 2;
            && width - 1 <= |r| - 1 <= width
            && r[padding..padding + |line|] == line
            && (forall i :: 0 <= i < padding ==> r[i] == ' ')
            && (forall i :: padding + |line| <= i < |r| - 1 ==> r[i] == ' ')
  {
    if |line| == width + 1 {
      assert Repeating(" ", 0) == "";
      assert "" + line + "" + "\n" == line + "\n";
      return;
    }
    var padding := (width - |line|) / 2;
    var spaces := Repeating(" ", padding);
    var r := spaces + line + spaces + "\n";
    assert BoxLine(line, width, true) == r;
    assert |spaces| == padding;
    assert r[padding..padding + |line|] == line;
    forall i | 0 <= i < padding ensures r[i] == ' ' {
      assert r[i] == spaces[i] && spaces[i] in spaces;
    }
    forall i | padding + |line| <= i < |r| - 1 ensures r[i] == ' ' {
      assert r[i] == spaces[i - padding - |line|] && spaces[i - padding - |line|] in spaces;
    }
  }

  /** Lines a centred box of this width can lay out: none more than one wider than the box. */
  predicate Fits(lines: seq<string>, width: int, centered: bool) {
    centered ==> forall i :: 0 <= i < |lines| ==> |lines[i]| <= width + 1
  }

  function BoxBody(lines: seq<string>, width: int, centered: bool): string
    requires Fits(lines, width, centered)
  {
    if lines == [] then "" else BoxLine(lines[0], width, centered) + BoxBody(lines[1..], width, centered)
  }

  /**
   * What `boxed` demands of its caller, since `repeating` traps on a negative count:
   * no rule drawn a negative number of times, and no centred line whose padding
   * `(width - count) / 2` is negative, that is, none two or more wider than the box.
   */
  predicate CanBox(text: string, top: Option<string>, bottom: Option<string>, largestLine: Option<int>, centered: bool) {
    var lines := SplitLines(text);
    match Width(lines, largestLine)
    case None => true
    case Some(w) =>
      ((top.Some? || bottom.Some?) ==> w >= 0)
      && (centered ==> forall i :: 0 <= i < |lines| ==> |lines[i]| <= w + 1)
  }

  function TopRule(top: Option<string>, width: nat): string {
    match top
    case Some(t) => Repeating(t, width) + "\n"
    case None => ""
  }

  function BottomRule(bottom: Option<string>, width: nat): string {
    match bottom
    case Some(b) => Repeating(b, width)
    case None => ""
  }

  /** The text `boxed` returns: the top rule, the lines laid out, the bottom rule; "" when there is no line to size the box by. */
  function BoxedSpec(text: string, top: Option<string>, bottom: Option<string>, largestLine: Option<int>, centered: bool): string
    requires CanBox(text, top, bottom, largestLine, centered)
  {
    var lines := SplitLines(text);
    match Width(lines, largestLine)
    case None => ""
    case Some(w) =>
      var rules := if w >= 0 then w else 0;
      TopRule(top, rules) + BoxBody(lines, w, centered) + BottomRule(bottom, rules)
  }

  lemma {:induction false} BoxBodyAppend(lines: seq<string>, line: string, width: int, centered: bool)
    requires Fits(lines + [line], width, centered)
    ensures Fits(lines, width, centered) && (centered ==> |line| <= width + 1)
    ensures BoxBody(lines + [line], width, centered) == BoxBody(lines, width, centered) + BoxLine(line, width, centered)
    decreases |lines|
  {
    var all := lines + [line];
    assert all[|lines|] == line;
    assert Fits(lines, width, centered) by {
      if centered {
        forall i | 0 <= i < |lines| ensures |lines[i]| <= width + 1 {
          assert all[i] == lines[i];
        }
      }
    }
    if lines == [] {
      assert all == [line] && all[1..] == [];
    } else {
      assert all[0] == lines[0] && all[1..] == lines[1..] + [line];
      assert Fits(lines[1..] + [line], width, centered) by {
        if centered {
          forall i | 0 <= i < |lines| ensures |(lines[1..] + [line])[i]| <= width + 1 {
            assert (lines[1..] + [line])[i] == all[i + 1];
          }
        }
      }
      BoxBodyAppend(lines[1..], line, width, centered);
    }
  }

  lemma FitsPrefix(lines: seq<string>, n: nat, width: int, centered: bool)
    requires Fits(lines, width, centered) && n <= |lines|
    ensures Fits(lines[..n], width, centered)
  {
    if centered {
      forall j | 0 <= j < n ensures |lines[..n][j]| <= width + 1 {
        assert lines[..n][j] == lines[j];
      }
    }
  }

  /** One more line of the body: the layout of the first `i + 1` lines extends that of the first `i`. */
  lemma BoxBodyStep(lines: seq<string>, i: nat, width: int, centered: bool)
    requires Fits(lines, width, centered) && i < |lines|
    ensures Fits(lines[..i], width, centered) && Fits(lines[..i + 1], width, centered)
    ensures BoxBody(lines[..i + 1], width, centered) == BoxBody(lines[..i], width, centered) + BoxLine(lines[i], width, centered)
  {
    FitsPrefix(lines, i + 1, width, centered);
    assert lines[..i + 1] == lines[..i] + [lines[i]];
    BoxBodyAppend(lines[..i], lines[i], width, centered);
  }

  /** The `forEach` of `boxed`: each line is laid out and appended in turn. */
  method AppendLines(prefix: string, lines: seq<string>, width: int, centered: bool) returns (s: string)
    requires Fits(lines, width, centered)
    ensures s == prefix + BoxBody(lines, width, centered)
  {
    s := prefix;
    var i := 0;
    FitsPrefix(lines, 0, width, centered);
    while i < |lines|
      invariant 0 <= i <= |lines|
      invariant Fits(lines[..i], width, centered)
      invariant s == prefix + BoxBody(lines[..i], width, centered)
    {
      BoxBodyStep(lines, i, width, centered);
      s := s + BoxLine(lines[i], width, centered);
      i := i + 1;
    }
    assert lines[..i] == lines;
  }

  /** `boxed(top:bottom:largestLine:centered:)`: the top rule, then the lines one by one, then the bottom rule. */
  method Boxed(text: string, top: Option<string>, bottom: Option<string>, largestLine: Option<int>, centered: bool)
    returns (boxed: string)
    requires CanBox(text, top, bottom, largestLine, centered)
    ensures boxed == BoxedSpec(text, top, bottom, largestLine, centered)
  {
    var lines := SplitLines(text);
    var given := if largestLine.Some? then largestLine else MaxLength(lines);
    if given.None? {
      return "";
    }
    var count := given.value + 2;
    var remainder := SwiftRem2(count);
    if remainder != 0 {
      count := count + remainder;
    }
    assert count == BoxWidth(given.value);
    assert Width(lines, largestLine) == Some(count);
    assert Fits(lines, count, centered);
    var rules := if count >= 0 then count else 0;
    boxed := "";
    if top.Some? {
      boxed := boxed + Repeating(top.value, rules) + "\n";
    }
    assert boxed == TopRule(top, rules);
    boxed := AppendLines(boxed, lines, count, centered);
    if bottom.Some? {
      boxed := boxed + Repeating(bottom.value, rules);
    }
    assert boxed == TopRule(top, rules) + BoxBody(lines, count, centered) + BottomRule(bottom, rules);
    assert BoxedSpec(text, top, bottom, largestLine, centered) == boxed;
  }

  /** Each line after one space, as the uncentred layout writes it. */
  function Indented(lines: seq<string>): (r: seq<string>)
    ensures |r| == |lines|
    ensures forall i :: 0 <= i < |lines| ==> r[i] == " " + lines[i]
  {
    seq(|lines|, i requires 0 <= i < |lines| => " " + lines[i])
  }

  lemma {:induction false} BoxBodyIsIndented(lines: seq<string>, width: int)
    ensures BoxBody(lines, width, false) == JoinLines(Indented(lines))
    decreases |lines|
  {
    if lines != [] {
      BoxBodyIsIndented(lines[1..], width);
      assert Indented(lines)[1..] == Indented(lines[1..]);
    }
  }

  /** With a given width of at least -2 an uncentred box can always be laid out: rules, then the lines after one space. */
  lemma UncentredBox(text: string, top: Option<string>, bottom: Option<string>, largestLine: int)
    requires largestLine >= -2
    ensures CanBox(text, top, bottom, Some(largestLine), false)
    ensures BoxWidth(largestLine) >= 0
    ensures BoxedSpec(text, top, bottom, Some(largestLine), false)
            == TopRule(top, BoxWidth(largestLine)) + JoinLines(Indented(SplitLines(text))) + BottomRule(bottom, BoxWidth(largestLine))
  {
    BoxBodyIsIndented(SplitLines(text), BoxWidth(largestLine));
  }

  /** A box sized by its own text can always be laid out uncentred. */
  lemma SelfSizedBox(text: string, top: Option<string>, bottom: Option<string>)
    ensures CanBox(text, top, bottom, None, false)
  {
  }

  /** A box sized by its own text can always be laid out centred too: every line is narrower than the box. */
  lemma SelfSizedCenteredBox(text: string, top: Option<string>, bottom: Option<string>)
    ensures CanBox(text, top, bottom, None, true)
    ensures SplitLines(text) != [] ==>
            forall i :: 0 <= i < |SplitLines(text)| ==> |SplitLines(text)[i]| + 2 <= Width(SplitLines(text), None).value
  {
  }

  /** Text with no line in it and no width given boxes to nothing, whatever the rules. */
  lemma NothingToBox(text: string, top: Option<string>, bottom: Option<string>, centered: bool)
    requires forall i :: 0 <= i < |text| ==> text[i] == '\n'
    ensures SplitLines(text) == []
    ensures CanBox(text, top, bottom, None, centered)
    ensures BoxedSpec(text, top, bottom, None, centered) == ""
  {
    NewlinesOnly(text);
  }

  lemma {:induction false} NewlinesOnly(text: string)
    requires forall i :: 0 <= i < |text| ==> text[i] == '\n'
    ensures SplitFrom(text, "") == []
    decreases |text|
  {
    if text != [] {
      NewlinesOnly(text[1..]);
    }
  }

  /** A rule character drawn a positive number of times is a proper line. */
  lemma RuleIsProperLine(rule: string, width: nat)
    requires rule != "" && '\n' !in rule && width > 0
    ensures Repeating(rule, width) != "" && '\n' !in Repeating(rule, width)
  {
  }

  /**
   * The layout `boxed` promises: read back line by line, an uncentred box is the top
   * rule, then every line of the text after one space, then the bottom rule, each
   * rule as wide as the box.
   */
  lemma BoxedLayout(text: string, top: string, bottom: string, largestLine: Option<int>)
    requires top != "" && '\n' !in top && bottom != "" && '\n' !in bottom
    requires Width(SplitLines(text), largestLine).Some? && Width(SplitLines(text), largestLine).value > 0
    ensures CanBox(text, Some(top), Some(bottom), largestLine, false)
    ensures var w := Width(SplitLines(text), largestLine).value;
            SplitLines(BoxedSpec(text, Some(top), Some(bottom), largestLine, false))
            == [Repeating(top, w)] + Indented(SplitLines(text)) + [Repeating(bottom, w)]
  {
    var lines := SplitLines(text);
    var w := Width(lines, largestLine).value;
    var upper := Repeating(top, w);
    var lower := Repeating(bottom, w);
    RuleIsProperLine(top, w);
    RuleIsProperLine(bottom, w);
    BoxBodyIsIndented(lines, w);
    JoinLinesAppend([upper], Indented(lines));
    assert ProperLines([upper] + Indented(lines));
    SplitJoinLines([upper] + Indented(lines), lower);
    SplitOneLine(lower);
  }

  /** Sized by its own text, the box leaves at least one space after the longest line. */
  lemma BoxFitsText(text: string)
    requires SplitLines(text) != []
    ensures var lines := SplitLines(text);
            forall i :: 0 <= i < |lines| ==> |Indented(lines)[i]| < Width(lines, None).value
  {
  }
}
