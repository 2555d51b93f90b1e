/** Python's `str.split()` (no separator), `' '.join(...)` and `str.strip()`
    (no argument), the string operations the word wrap is built from. */
module Words {

  /** `c.isspace()`: the characters that `split()` and `strip()` treat as
      whitespace. */
  predicate IsSpace(c: char) {
    c in SpaceChars
  }

  const SpaceChars: set<char> := {
    '\t', '\n', '\U{B}', '\U{C}', '\r', '\U{1C}', '\U{1D}', '\U{1E}', '\U{1F}', ' ',
    '\U{85}', '\U{A0}', '\U{1680}', '\U{2000}', '\U{2001}', '\U{2002}', '\U{2003}',
    '\U{2004}', '\U{2005}', '\U{2006}', '\U{2007}', '\U{2008}', '\U{2009}', '\U{200A}',
    '\U{2028}', '\U{2029}', '\U{202F}', '\U{205F}', '\U{3000}'
  }

  /** A word as `split()` produces it: non-empty, no whitespace. */
  predicate IsWord(w: string) {
    |w| > 0 && forall i :: 0 <= i < |w| ==> !IsSpace(w[i])
  }

  predicate AllWords(ws: seq<string>) {
    forall i :: 0 <= i < |ws| ==> IsWord(ws[i])
  }

  /** `s.lstrip()`. */
  function TrimStart(s: string): (r: string)
    ensures |r| <= |s|
    ensures r == [] || !IsSpace(r[0])
  {
    if s != [] && IsSpace(s[0]) then TrimStart(s[1..]) else s
  }

  /** `s.rstrip()`. */
  function TrimEnd(s: string): (r: string)
    ensures |r| <= |s|
    ensures r == [] || !IsSpace(r[|r| - 1])
  {
    if s != [] && IsSpace(s[|s| - 1]) then TrimEnd(s[..|s| - 1]) else s
  }

  /** `s.strip()`. */
  function Strip(s: string): string {
    TrimEnd(TrimStart(s))
  }

  /** Length of the run of non-whitespace characters that starts `s`. */
  function WordLength(s: string): (n: nat)
    ensures n <= |s|
    ensures forall i :: 0 <= i < n ==> !IsSpace(s[i])
    ensures n < |s| ==> IsSpace(s[n])
  {
    if s == [] || IsSpace(s[0]) then 0 else 1 + WordLength(s[1..])
  }

  /** `s.split()`: the maximal runs of non-whitespace characters, in order. */
  function Split(s: string): seq<string>
    decreases |s|
  {
    var t := TrimStart(s);
    if t == [] then []
    else
      var n := WordLength(t);
      [t[..n]] + Split(t[n..])
  }

  /** `' '.join(ws)`. */
  function Join(ws: seq<string>): string {
    if |ws| == 0 then ""
    else if |ws| == 1 then ws[0]
    else ws[0] + " " + Join(ws[1..])
  }

  /** The run `WordLength` measures is a word when the text does not start
      with whitespace. */
  lemma LeadingWord(t: string)
    requires t != [] && !IsSpace(t[0])
    ensures WordLength(t) > 0 && IsWord(t[..WordLength(t)])
  {
    var w := t[..WordLength(t)];
    forall i | 0 <= i < |w| ensures !IsSpace(w[i]) {
      assert w[i] == t[i];
    }
  }

  lemma ConsWords(w: string, rest: seq<string>)
    requires IsWord(w) && AllWords(rest)
    ensures AllWords([w] + rest)
  {
    forall i | 0 <= i < |[w] + rest| ensures IsWord(([w] + rest)[i]) {
      if i > 0 {
        assert ([w] + rest)[i] == rest[i - 1];
      }
    }
  }

  /** Every piece `split()` returns is a word. */
  lemma {:induction false} SplitGivesWords(s: string)
    ensures AllWords(Split(s))
    decreases |s|
  {
    var t := TrimStart(s);
    if t != [] {
      LeadingWord(t);
      var n := WordLength(t);
      SplitGivesWords(t[n..]);
      ConsWords(t[..n], Split(t[n..]));
    }
  }

  /** Leading whitespace does not change what `split()` returns. */
  lemma SplitIgnoresLeadingSpace(s: string)
    requires s != [] && IsSpace(s[0])
    ensures Split(s) == Split(s[1..])
  {
    assert TrimStart(s) == TrimStart(s[1..]);
  }

  /** A word followed by anything that starts with whitespace (or nothing)
      is split into that word first. */
  lemma WordLengthOfWord(w: string, rest: string)
    requires IsWord(w)
    requires rest == [] || IsSpace(rest[0])
    ensures WordLength(w + rest) == |w|
    decreases |w|
  {
    if |w| > 1 {
      assert (w + rest)[1..] == w[1..] + rest;
      WordLengthOfWord(w[1..], rest);
    } else {
      assert (w + rest)[1..] == rest;
    }
  }

  /** The joined words start and end with a non-space character. */
  lemma {:induction false} JoinEnds(ws: seq<string>)
    requires AllWords(ws) && |ws| > 0
    ensures |Join(ws)| > 0
    ensures Join(ws)[0] == ws[0][0]
    ensures Join(ws)[|Join(ws)| - 1] == ws[|ws| - 1][|ws[|ws| - 1]| - 1]
  {
    if |ws| > 1 {
      var rest := ws[1..];
      assert AllWords(rest) by {
        forall i | 0 <= i < |rest| ensures IsWord(rest[i]) {
          assert rest[i] == ws[i + 1];
        }
      }
      JoinEnds(rest);
      var tail := Join(rest);
      assert Join(ws) == (ws[0] + " ") + tail;
      assert rest[|rest| - 1] == ws[|ws| - 1];
    }
  }

  /** Joining an empty list gives the empty string, and only then. */
  lemma JoinEmpty(ws: seq<string>)
    requires AllWords(ws)
    ensures Join(ws) == "" <==> ws == []
  {
    if ws != [] {
      JoinEnds(ws);
    }
  }

  /** A lone word splits into itself. */
  lemma SplitWord(w: string)
    requires IsWord(w)
    ensures Split(w) == [w]
  {
    WordLengthOfWord(w, "");
    assert w + "" == w;
    assert TrimStart(w) == w;
    assert w[|w|..] == [];
  }

  /** A word, a space and a tail that does not start with whitespace split
      into the word followed by the split of the tail. */
  lemma SplitWordSpace(w: string, tail: string)
    requires IsWord(w)
    requires tail == [] || !IsSpace(tail[0])
    ensures Split(w + " " + tail) == [w] + Split(tail)
  {
    var rest := " " + tail;
    var s := w + rest;
    assert w + " " + tail == s;
    assert s[0] == w[0];
    assert TrimStart(s) == s;
    assert IsSpace(rest[0]);
    WordLengthOfWord(w, rest);
    assert s[..|w|] == w;
    assert s[|w|..] == rest;
    SplitIgnoresLeadingSpace(rest);
    assert rest[1..] == tail;
  }

  /** `split()` undoes `' '.join(...)` on words. */
  lemma {:induction false} SplitJoin(ws: seq<string>)
    requires AllWords(ws)
    ensures Split(Join(ws)) == ws
  {
    if |ws| == 1 {
      SplitWord(ws[0]);
    } else if |ws| > 1 {
      var rest := ws[1..];
      assert AllWords(rest) by {
        forall i | 0 <= i < |rest| ensures IsWord(rest[i]) {
          assert rest[i] == ws[i + 1];
        }
      }
      var tail := Join(rest);
      JoinEnds(rest);
      assert IsWord(ws[1]);
      assert tail[0] == ws[1][0];
      assert IsWord(ws[0]);
      SplitWordSpace(ws[0], tail);
      SplitJoin(rest);
      assert Join(ws) == ws[0] + " " + tail;
      assert ws == [ws[0]] + rest;
    }
  }

  /** `' '.join(ws + [w])` extends `' '.join(ws)` by a space and `w`. */
  lemma {:induction false} JoinSnoc(ws: seq<string>, w: string)
    requires |ws| > 0
    ensures Join(ws + [w]) == Join(ws) + " " + w
  {
    if |ws| > 1 {
      assert (ws + [w])[1..] == ws[1..] + [w];
      JoinSnoc(ws[1..], w);
    }
  }

  /** Text that starts and ends with a non-space character is left alone
      by `strip()`. */
  lemma StripBare(s: string)
    requires s != [] && !IsSpace(s[0]) && !IsSpace(s[|s| - 1])
    ensures Strip(s) == s
  {
    assert TrimStart(s) == s;
  }

  /** `strip()` removes the single leading space before a word. */
  lemma StripSpaceWord(w: string)
    requires IsWord(w)
    ensures Strip(" " + w) == w
  {
    var s := " " + w;
    assert IsSpace(' ');
    assert s[1..] == w;
    assert TrimStart(s) == TrimStart(w);
    StripBare(w);
  }

  /** What `f"{line} {word}".strip()` computes when `line` is the joined
      current line: the current line extended by `word`. */
  lemma StripJoinSnoc(ws: seq<string>, w: string)
    requires AllWords(ws) && IsWord(w)
    ensures Strip(Join(ws) + " " + w) == Join(ws + [w])
  {
    if ws == [] {
      assert Join(ws) + " " + w == " " + w;
      StripSpaceWord(w);
      assert ws + [w] == [w];
    } else {
      JoinEnds(ws);
      var s := Join(ws) + " " + w;
      assert IsWord(ws[0]);
      assert s[0] == ws[0][0];
      assert s[|s| - 1] == w[|w| - 1];
      StripBare(s);
      JoinSnoc(ws, w);
    }
  }
}
