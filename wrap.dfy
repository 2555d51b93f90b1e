/** The greedy word wrap. The program carries two copies of the loop: one in
    `calculate_content_height`, which keeps the open line as a list of words,
    and one in `draw_wrapped_text`, which keeps it as a string. Both are
    specified by `WrapLines`, so both produce the same lines. */
module Wrap {
  import opened Words

  /** `font.getlength(' '.join(ws)) <= max_width`. */
  predicate Fits(width: string -> real, maxWidth: int, ws: seq<string>) {
    width(Join(ws)) <= maxWidth as real
  }

  /** The loop state after some words: the lines already closed, as word
      lists, and the open line. */
  datatype Pending = Pending(closed: seq<seq<string>>, current: seq<string>)

  /** One iteration of the loop: keep the word on the open line if the
      extended line fits, otherwise close the open line (even an empty one)
      and start a new line with the word. */
  function Place(width: string -> real, maxWidth: int, p: Pending, word: string): Pending {
    if Fits(width, maxWidth, p.current + [word]) then Pending(p.closed, p.current + [word])
    else Pending(p.closed + [p.current], [word])
  }

  /** The loop state after all of `words`. */
  function PlaceAll(width: string -> real, maxWidth: int, words: seq<string>): Pending {
    if words == [] then Pending([], [])
    else Place(width, maxWidth, PlaceAll(width, maxWidth, words[..|words| - 1]), words[|words| - 1])
  }

  /** The lines, as word lists: the closed ones and the open one if it holds
      a word. */
  function LineGroups(width: string -> real, maxWidth: int, words: seq<string>): seq<seq<string>> {
    var p := PlaceAll(width, maxWidth, words);
    if p.current != [] then p.closed + [p.current] else p.closed
  }

  function JoinEach(gs: seq<seq<string>>): (lines: seq<string>)
    ensures |lines| == |gs|
    ensures forall i :: 0 <= i < |gs| ==> lines[i] == Join(gs[i])
  {
    seq(|gs|, i requires 0 <= i < |gs| => Join(gs[i]))
  }

  function SplitEach(lines: seq<string>): (gs: seq<seq<string>>)
    ensures |gs| == |lines|
    ensures forall i :: 0 <= i < |lines| ==> gs[i] == Split(lines[i])
  {
    seq(|lines|, i requires 0 <= i < |lines| => Split(lines[i]))
  }

  /** The words of all groups, in order. */
  function Flatten(gs: seq<seq<string>>): seq<string> {
    if gs == [] then [] else Flatten(gs[..|gs| - 1]) + gs[|gs| - 1]
  }

  lemma JoinEachSnoc(gs: seq<seq<string>>, g: seq<string>)
    ensures JoinEach(gs + [g]) == JoinEach(gs) + [Join(g)]
  {
  }

  /** One more word is one more iteration of the loop. */
  lemma PlaceAllStep(width: string -> real, maxWidth: int, words: seq<string>, i: nat)
    requires i < |words|
    ensures PlaceAll(width, maxWidth, words[..i + 1])
            == Place(width, maxWidth, PlaceAll(width, maxWidth, words[..i]), words[i])
  {
    assert words[..i + 1][..i] == words[..i];
  }

  lemma AllWordsSnoc(ws: seq<string>, w: string)
    requires AllWords(ws) && IsWord(w)
    ensures AllWords(ws + [w])
  {
    forall i | 0 <= i < |ws + [w]| ensures IsWord((ws + [w])[i]) {
      if i < |ws| {
        assert (ws + [w])[i] == ws[i];
      }
    }
  }

  /** The lines the wrap produces for `text`. */
  function WrapLines(width: string -> real, maxWidth: int, text: string): seq<string> {
    JoinEach(LineGroups(width, maxWidth, Split(text)))
  }

  /** The wrap loop of `calculate_content_height`. */
  method WrapWordList(text: string, width: string -> real, maxWidth: int) returns (lines: seq<string>)
    ensures lines == WrapLines(width, maxWidth, text)
  {
    lines := [];
    var words := Split(text);
    var currentLine: seq<string> := [];
    for i := 0 to |words|
      invariant currentLine == PlaceAll(width, maxWidth, words[..i]).current
      invariant lines == JoinEach(PlaceAll(width, maxWidth, words[..i]).closed)
    {
      ghost var closed := PlaceAll(width, maxWidth, words[..i]).closed;
      PlaceAllStep(width, maxWidth, words, i);
      var testLine := Join(currentLine + [words[i]]);
      var testWidth := width(testLine);
      if testWidth <= maxWidth as real {
        currentLine := currentLine + [words[i]];
      } else {
        JoinEachSnoc(closed, currentLine);
        lines := lines + [Join(currentLine)];
        currentLine := [words[i]];
      }
    }
    assert words[..|words|] == words;
    if currentLine != [] {
      JoinEachSnoc(PlaceAll(width, maxWidth, words).closed, currentLine);
      lines := lines + [Join(currentLine)];
    }
  }

  /** One iteration of `WrapStripped`: the stripped candidate is the
      extended open line, and the new open line still holds only words. */
  lemma StrippedStep(width: string -> real, maxWidth: int, words: seq<string>, i: nat)
    requires i < |words| && AllWords(words)
    requires AllWords(PlaceAll(width, maxWidth, words[..i]).current)
    ensures var p := PlaceAll(width, maxWidth, words[..i]);
            Strip(Join(p.current) + " " + words[i]) == Join(p.current + [words[i]])
    ensures PlaceAll(width, maxWidth, words[..i + 1])
            == Place(width, maxWidth, PlaceAll(width, maxWidth, words[..i]), words[i])
    ensures AllWords(PlaceAll(width, maxWidth, words[..i + 1]).current)
    ensures Join([words[i]]) == words[i]
  {
    var p := PlaceAll(width, maxWidth, words[..i]);
    assert IsWord(words[i]);
    PlaceAllStep(width, maxWidth, words, i);
    StripJoinSnoc(p.current, words[i]);
    PlaceKeepsWords(width, maxWidth, p, words[i]);
  }

  /** The open line holds only words. */
  lemma PlaceKeepsWords(width: string -> real, maxWidth: int, p: Pending, word: string)
    requires AllWords(p.current) && IsWord(word)
    ensures AllWords(Place(width, maxWidth, p, word).current)
  {
    if Fits(width, maxWidth, p.current + [word]) {
      AllWordsSnoc(p.current, word);
    } else {
      ConsWords(word, []);
      assert [word] + [] == [word];
    }
  }

  /** The wrap loop of `draw_wrapped_text`: the open line is a string, and
      each candidate is `f"{line} {word}".strip()`. */
  method WrapStripped(text: string, width: string -> real, maxWidth: int) returns (lines: seq<string>)
    ensures lines == WrapLines(width, maxWidth, text)
  {
    lines := [];
    var words := Split(text);
    SplitGivesWords(text);
    var line := "";
    for i := 0 to |words|
      invariant AllWords(PlaceAll(width, maxWidth, words[..i]).current)
      invariant line == Join(PlaceAll(width, maxWidth, words[..i]).current)
      invariant lines == JoinEach(PlaceAll(width, maxWidth, words[..i]).closed)
    {
      ghost var p := PlaceAll(width, maxWidth, words[..i]);
      StrippedStep(width, maxWidth, words, i);
      var testLine := Strip(line + " " + words[i]);
      var testLineWidth := width(testLine);
      if testLineWidth <= maxWidth as real {
        assert Fits(width, maxWidth, p.current + [words[i]]);
        assert PlaceAll(width, maxWidth, words[..i + 1]) == Pending(p.closed, p.current + [words[i]]);
        line := testLine;
      } else {
        assert !Fits(width, maxWidth, p.current + [words[i]]);
        assert PlaceAll(width, maxWidth, words[..i + 1]) == Pending(p.closed + [p.current], [words[i]]);
        JoinEachSnoc(p.closed, p.current);
        lines := lines + [line];
        line := words[i];
      }
    }
    assert words[..|words|] == words;
    ghost var p := PlaceAll(width, maxWidth, words);
    JoinEmpty(p.current);
    if line != "" {
      JoinEachSnoc(p.closed, p.current);
      lines := lines + [line];
    }
  }

  /** A non-empty sequence is its front followed by its last element. */
  lemma FrontLast<T>(s: seq<T>)
    requires |s| > 0
    ensures s[..|s| - 1] + [s[|s| - 1]] == s
  {
  }

  lemma FlattenSnoc(gs: seq<seq<string>>, g: seq<string>)
    ensures Flatten(gs + [g]) == Flatten(gs) + g
  {
    assert (gs + [g])[..|gs|] == gs;
  }

  /** Every word lands on a line, in order: the closed lines and the open
      line together hold exactly the words seen so far, and after a word
      the open line is never empty. */
  lemma {:induction false} PlaceAllKeepsWords(width: string -> real, maxWidth: int, words: seq<string>)
    ensures var p := PlaceAll(width, maxWidth, words);
            Flatten(p.closed) + p.current == words && (words != [] ==> p.current != [])
  {
    if words != [] {
      var init, w := words[..|words| - 1], words[|words| - 1];
      PlaceAllKeepsWords(width, maxWidth, init);
      var q := PlaceAll(width, maxWidth, init);
      var p := PlaceAll(width, maxWidth, words);
      FrontLast(words);
      assert Flatten(q.closed) + q.current == init;
      if Fits(width, maxWidth, q.current + [w]) {
        assert p == Pending(q.closed, q.current + [w]);
        assert Flatten(q.closed) + (q.current + [w]) == (Flatten(q.closed) + q.current) + [w];
      } else {
        assert p == Pending(q.closed + [q.current], [w]);
        FlattenSnoc(q.closed, q.current);
        assert Flatten(p.closed) + p.current == (Flatten(q.closed) + q.current) + [w];
      }
    }
  }

  /** A line that holds two or more words was measured and fits. */
  lemma {:induction false} PlaceAllWidths(width: string -> real, maxWidth: int, words: seq<string>)
    ensures var p := PlaceAll(width, maxWidth, words);
            (forall i :: 0 <= i < |p.closed| && |p.closed[i]| >= 2 ==> Fits(width, maxWidth, p.closed[i]))
            && (|p.current| >= 2 ==> Fits(width, maxWidth, p.current))
  {
    if words != [] {
      var init, w := words[..|words| - 1], words[|words| - 1];
      PlaceAllWidths(width, maxWidth, init);
      var q := PlaceAll(width, maxWidth, init);
      if !Fits(width, maxWidth, q.current + [w]) {
        var closed := q.closed + [q.current];
        forall i | 0 <= i < |closed| && |closed[i]| >= 2 ensures Fits(width, maxWidth, closed[i]) {
          if i < |q.closed| {
            assert closed[i] == q.closed[i];
          }
        }
      }
    }
  }

  /** An empty line is closed only when the very first word does not fit on
      its own, and then it is the first line. */
  lemma {:induction false} PlaceAllEmptyLines(width: string -> real, maxWidth: int, words: seq<string>)
    ensures var p := PlaceAll(width, maxWidth, words);
            (forall i :: 0 < i < |p.closed| ==> p.closed[i] != [])
            && (words != [] ==> (!Fits(width, maxWidth, [words[0]]) <==> |p.closed| > 0 && p.closed[0] == []))
  {
    if words != [] {
      var init, w := words[..|words| - 1], words[|words| - 1];
      PlaceAllEmptyLines(width, maxWidth, init);
      PlaceAllKeepsWords(width, maxWidth, init);
      var q := PlaceAll(width, maxWidth, init);
      if init == [] {
        assert q == Pending([], []);
        assert [] + [w] == [w] == [words[0]];
      } else {
        assert words[0] == init[0];
        if !Fits(width, maxWidth, q.current + [w]) {
          var closed := q.closed + [q.current];
          forall i | 0 < i < |closed| ensures closed[i] != [] {
            if i < |q.closed| {
              assert closed[i] == q.closed[i];
            }
          }
          assert |q.closed| > 0 ==> closed[0] == q.closed[0];
        }
      }
    }
  }

  /** Each non-empty group is followed by a group whose first word did not
      fit at the end of it. */
  predicate Greedy(width: string -> real, maxWidth: int, gs: seq<seq<string>>) {
    forall i :: 0 <= i < |gs| - 1 && gs[i] != [] ==>
      gs[i + 1] != [] && !Fits(width, maxWidth, gs[i] + [gs[i + 1][0]])
  }

  /** Extending the last, non-empty group keeps the groups greedy. */
  lemma GreedyExtend(width: string -> real, maxWidth: int, closed: seq<seq<string>>, current: seq<string>, w: string)
    requires current != [] && Greedy(width, maxWidth, closed + [current])
    ensures Greedy(width, maxWidth, closed + [current + [w]])
  {
    var before, gs := closed + [current], closed + [current + [w]];
    forall i | 0 <= i < |gs| - 1 && gs[i] != []
      ensures gs[i + 1] != [] && !Fits(width, maxWidth, gs[i] + [gs[i + 1][0]])
    {
      assert gs[i] == before[i];
      assert gs[i + 1][0] == before[i + 1][0];
    }
  }

  /** Starting a new group with a word that did not fit keeps the groups
      greedy. */
  lemma GreedyClose(width: string -> real, maxWidth: int, closed: seq<seq<string>>, current: seq<string>, w: string)
    requires Greedy(width, maxWidth, closed + [current])
    requires !Fits(width, maxWidth, current + [w])
    ensures Greedy(width, maxWidth, closed + [current] + [[w]])
  {
    var before, gs := closed + [current], closed + [current] + [[w]];
    forall i | 0 <= i < |gs| - 1 && gs[i] != []
      ensures gs[i + 1] != [] && !Fits(width, maxWidth, gs[i] + [gs[i + 1][0]])
    {
      if i < |before| - 1 {
        assert gs[i] == before[i] && gs[i + 1] == before[i + 1];
      } else {
        assert gs[i] == current && gs[i + 1] == [w];
      }
    }
  }

  /** The wrap is greedy: the line after a non-empty line starts with a word
      that did not fit at the end of it. */
  lemma {:induction false} LineGroupsGreedy(width: string -> real, maxWidth: int, words: seq<string>)
    ensures Greedy(width, maxWidth, LineGroups(width, maxWidth, words))
  {
    if words != [] {
      var init, w := words[..|words| - 1], words[|words| - 1];
      var q := PlaceAll(width, maxWidth, init);
      var gs := LineGroups(width, maxWidth, words);
      assert PlaceAll(width, maxWidth, words) == Place(width, maxWidth, q, w);
      if init == [] {
        assert q == Pending([], []);
        assert [] + [w] == [w];
        assert gs == [[w]] || gs == [[], [w]];
      } else {
        PlaceAllKeepsWords(width, maxWidth, init);
        LineGroupsGreedy(width, maxWidth, init);
        assert LineGroups(width, maxWidth, init) == q.closed + [q.current];
        if Fits(width, maxWidth, q.current + [w]) {
          assert gs == q.closed + [q.current + [w]];
          GreedyExtend(width, maxWidth, q.closed, q.current, w);
        } else {
          assert gs == q.closed + [q.current] + [[w]];
          GreedyClose(width, maxWidth, q.closed, q.current, w);
        }
      }
    }
  }

  lemma AllWordsSplitAt(a: seq<string>, b: seq<string>)
    requires AllWords(a + b)
    ensures AllWords(a) && AllWords(b)
  {
    forall i | 0 <= i < |a| ensures IsWord(a[i]) {
      assert a[i] == (a + b)[i];
    }
    forall i | 0 <= i < |b| ensures IsWord(b[i]) {
      assert b[i] == (a + b)[|a| + i];
    }
  }

  /** When the flattened groups are words, every group is a list of words. */
  lemma {:induction false} FlattenWords(gs: seq<seq<string>>)
    requires AllWords(Flatten(gs))
    ensures forall i :: 0 <= i < |gs| ==> AllWords(gs[i])
  {
    if gs != [] {
      var init := gs[..|gs| - 1];
      AllWordsSplitAt(Flatten(init), gs[|gs| - 1]);
      FlattenWords(init);
      forall i | 0 <= i < |gs| ensures AllWords(gs[i]) {
        if i < |init| {
          assert gs[i] == init[i];
        }
      }
    }
  }

  /** Splitting the wrapped lines again gives back the line groups: the
      lines hold exactly the words the loop placed on them. */
  lemma SplitWrapLines(width: string -> real, maxWidth: int, text: string)
    ensures var gs := LineGroups(width, maxWidth, Split(text));
            SplitEach(WrapLines(width, maxWidth, text)) == gs
            && Flatten(gs) == Split(text)
            && forall i :: 0 <= i < |gs| ==> AllWords(gs[i])
  {
    var words := Split(text);
    var p := PlaceAll(width, maxWidth, words);
    var gs := LineGroups(width, maxWidth, words);
    SplitGivesWords(text);
    PlaceAllKeepsWords(width, maxWidth, words);
    if p.current != [] {
      FlattenSnoc(p.closed, p.current);
    }
    FlattenWords(gs);
    var lines := WrapLines(width, maxWidth, text);
    forall i | 0 <= i < |gs| ensures Split(lines[i]) == gs[i] {
      SplitJoin(gs[i]);
    }
  }

  /** The words of the emitted lines, taken in order, are exactly the words
      of the text: nothing dropped, duplicated or reordered. */
  lemma WrapKeepsWords(width: string -> real, maxWidth: int, text: string)
    ensures Flatten(SplitEach(WrapLines(width, maxWidth, text))) == Split(text)
  {
    SplitWrapLines(width, maxWidth, text);
  }

  /** Text without words wraps to no lines, and text with words to at least
      one. */
  lemma WrapNoWordsNoLines(width: string -> real, maxWidth: int, text: string)
    ensures |WrapLines(width, maxWidth, text)| == 0 <==> Split(text) == []
  {
    PlaceAllKeepsWords(width, maxWidth, Split(text));
  }

  lemma LineGroupsWidths(width: string -> real, maxWidth: int, words: seq<string>)
    ensures var gs := LineGroups(width, maxWidth, words);
            forall i :: 0 <= i < |gs| && |gs[i]| >= 2 ==> Fits(width, maxWidth, gs[i])
  {
    var p := PlaceAll(width, maxWidth, words);
    var gs := LineGroups(width, maxWidth, words);
    PlaceAllWidths(width, maxWidth, words);
    forall i | 0 <= i < |gs| && |gs[i]| >= 2 ensures Fits(width, maxWidth, gs[i]) {
      if i < |p.closed| {
        assert gs[i] == p.closed[i];
      } else {
        assert gs[i] == p.current;
      }
    }
  }

  /** A line of two or more words is no wider than the limit. So a line
      wider than the limit holds at most one word, and exactly one when the
      empty string itself fits, as `getlength("")` does for a real font. */
  lemma WrapLineWidths(width: string -> real, maxWidth: int, text: string)
    ensures var lines := WrapLines(width, maxWidth, text);
            forall i :: 0 <= i < |lines| && |Split(lines[i])| >= 2 ==> width(lines[i]) <= maxWidth as real
    ensures var lines := WrapLines(width, maxWidth, text);
            width("") <= maxWidth as real ==>
              forall i :: 0 <= i < |lines| && width(lines[i]) > maxWidth as real ==> |Split(lines[i])| == 1
  {
    var gs := LineGroups(width, maxWidth, Split(text));
    SplitWrapLines(width, maxWidth, text);
    LineGroupsWidths(width, maxWidth, Split(text));
    var lines := WrapLines(width, maxWidth, text);
    forall i | 0 <= i < |lines| && |Split(lines[i])| >= 2 ensures width(lines[i]) <= maxWidth as real {
      assert Split(lines[i]) == gs[i];
      assert Fits(width, maxWidth, gs[i]);
    }
    if width("") <= maxWidth as real {
      forall i | 0 <= i < |lines| && width(lines[i]) > maxWidth as real ensures |Split(lines[i])| == 1 {
        assert Split(lines[i]) == gs[i];
      }
    }
  }

  /** An empty line appears only as the first line, exactly when the first
      word alone is wider than the limit. */
  lemma WrapEmptyLine(width: string -> real, maxWidth: int, text: string)
    ensures var lines := WrapLines(width, maxWidth, text);
            var words := Split(text);
            forall i :: 0 <= i < |lines| ==>
              (lines[i] == "" <==> i == 0 && words != [] && width(words[0]) > maxWidth as real)
  {
    var words := Split(text);
    var p := PlaceAll(width, maxWidth, words);
    var gs := LineGroups(width, maxWidth, words);
    SplitWrapLines(width, maxWidth, text);
    PlaceAllEmptyLines(width, maxWidth, words);
    PlaceAllKeepsWords(width, maxWidth, words);
    var lines := WrapLines(width, maxWidth, text);
    if words != [] {
      assert Join([words[0]]) == words[0];
    }
    forall i | 0 <= i < |lines|
      ensures lines[i] == "" <==> i == 0 && words != [] && width(words[0]) > maxWidth as real
    {
      JoinEmpty(gs[i]);
      if i < |p.closed| {
        assert gs[i] == p.closed[i];
      } else {
        assert gs[i] == p.current;
      }
    }
  }

  /** The wrap is greedy: each non-empty line is followed by a line whose
      first word would have made it wider than the limit. */
  lemma WrapGreedy(width: string -> real, maxWidth: int, text: string)
    ensures var lines := WrapLines(width, maxWidth, text);
            forall i :: 0 <= i < |lines| - 1 && lines[i] != "" ==>
              Split(lines[i + 1]) != [] && width(lines[i] + " " + Split(lines[i + 1])[0]) > maxWidth as real
  {
    var words := Split(text);
    var gs := LineGroups(width, maxWidth, words);
    SplitWrapLines(width, maxWidth, text);
    LineGroupsGreedy(width, maxWidth, words);
    var lines := WrapLines(width, maxWidth, text);
    forall i | 0 <= i < |lines| - 1 && lines[i] != ""
      ensures Split(lines[i + 1]) != [] && width(lines[i] + " " + Split(lines[i + 1])[0]) > maxWidth as real
    {
      assert gs[i] != [];
      JoinSnoc(gs[i], gs[i + 1][0]);
    }
  }

  lemma ExampleGroups(width: string -> real, maxWidth: int, a: string, b: string, c: string)
    requires Fits(width, maxWidth, [a]) && Fits(width, maxWidth, [a, b])
    requires !Fits(width, maxWidth, [a, b, c])
    ensures LineGroups(width, maxWidth, [a, b, c]) == [[a, b], [c]]
  {
    var words := [a, b, c];
    assert [a] + [b] == [a, b] && [a, b] + [c] == words && [] + [a] == [a];
    PlaceAllStep(width, maxWidth, words, 0);
    PlaceAllStep(width, maxWidth, words, 1);
    PlaceAllStep(width, maxWidth, words, 2);
    assert words[..0] == [];
    assert words[..3] == words;
    assert PlaceAll(width, maxWidth, words[..1]) == Pending([], [a]);
    assert PlaceAll(width, maxWidth, words[..2]) == Pending([], [a, b]);
    assert PlaceAll(width, maxWidth, words) == Pending([[a, b]], [c]);
  }

  /** Worked example ("AAAA BBBB CCCC" with the limit at the width of
      "AAAA BBBB"): three words, where the first two fit together and all
      three do not, wrap to two lines. */
  lemma WrapExample(width: string -> real, maxWidth: int, a: string, b: string, c: string)
    requires IsWord(a) && IsWord(b) && IsWord(c)
    requires width(a) <= maxWidth as real
    requires width(a + " " + b) <= maxWidth as real
    requires width(a + " " + b + " " + c) > maxWidth as real
    ensures WrapLines(width, maxWidth, a + " " + b + " " + c) == [a + " " + b, c]
  {
    var words := [a, b, c];
    assert AllWords(words);
    assert [a] + [b] == [a, b] && [a, b] + [c] == words;
    JoinSnoc([a], b);
    JoinSnoc([a, b], c);
    assert Join([a]) == a && Join([c]) == c;
    ExampleGroups(width, maxWidth, a, b, c);
    SplitJoin(words);
  }
}
