/**
 The two text functions behind the documentation tables
 (packages/esign-service/src/env/render.ts): greedy word wrap and the escaper
 for table cells.
 */
module Render {
  import opened JsCollections
  import opened Text

  const CELL_WIDTH := 72

  // ---- Greedy wrap ----

  function AddWord(lines: seq<string>, word: string, width: int): seq<string> {
    if lines != [] && |lines[|lines| - 1] + " " + word| <= width
    then lines[..|lines| - 1] + [lines[|lines| - 1] + " " + word]
    else lines + [word]
  }

  // The reduction over the words.
  function WrapWords(words: seq<string>, width: int): (lines: seq<string>)
    ensures words != [] ==> lines != []
  {
    if words == [] then [] else AddWord(WrapWords(words[..|words| - 1], width), words[|words| - 1], width)
  }

  function WrapTo(text: string, width: int): seq<string> {
    WrapWords(Split(text, ' '), width)
  }

  // A list of lines that could be printed for the text: joined by a space
  // they are the text, and a line of two or more words (one with a space in
  // it) fits the width.
  ghost predicate IsWrapping(lines: seq<string>, text: string, width: int) {
    lines != [] && Join(lines, " ") == text && forall l :: l in lines && ' ' in l ==> |l| <= width
  }

  lemma AddWordIsWrapping(lines: seq<string>, text: string, word: string, width: int)
    requires IsWrapping(lines, text, width) && ' ' !in word
    ensures IsWrapping(AddWord(lines, word, width), text + " " + word, width)
  {
    var front, last := lines[..|lines| - 1], lines[|lines| - 1];
    assert lines == front + [last];
    if |last + " " + word| <= width {
      JoinLast(lines, last, " ");
      JoinLast(lines, last + " " + word, " ");
      if front != [] {
        assert Join(front, " ") + " " + (last + " " + word) == text + " " + word;
      }
    } else {
      JoinConcat(lines, [word], " ");
    }
  }

  lemma {:induction false} WrapWordsIsWrapping(words: seq<string>, width: int)
    requires words != [] && forall w :: w in words ==> ' ' !in w
    ensures IsWrapping(WrapWords(words, width), Join(words, " "), width)
  {
    var front, word := words[..|words| - 1], words[|words| - 1];
    assert words == front + [word];
    assert word in words && forall w :: w in front ==> w in words;
    if front == [] {
      OneWord(word, width);
    } else {
      WrapWordsIsWrapping(front, width);
      JoinConcat(front, [word], " ");
      AddWordIsWrapping(WrapWords(front, width), Join(front, " "), word, width);
    }
  }

  lemma OneWord(word: string, width: int)
    requires ' ' !in word
    ensures WrapWords([word], width) == [word] && IsWrapping([word], Join([word], " "), width)
  {
    assert [word][..0] == [];
  }

  // Joining, with the last part set apart.
  lemma JoinLast(parts: seq<string>, last: string, sep: string)
    requires parts != []
    ensures Join(parts[..|parts| - 1] + [last], sep)
            == if |parts| == 1 then last else Join(parts[..|parts| - 1], sep) + sep + last
  {
    if |parts| > 1 {
      JoinConcat(parts[..|parts| - 1], [last], sep);
    } else {
      assert parts[..0] + [last] == [last];
    }
  }

  /** The lines give back the text, and every line of two or more words fits. */
  lemma WrapIsAWrapping(text: string, width: int)
    ensures IsWrapping(WrapTo(text, width), text, width)
  {
    SplitParts(text, ' ');
    WrapWordsIsWrapping(Split(text, ' '), width);
    JoinOfSplit(text, ' ');
  }

  // ---- No wrapping has fewer lines ----

  function Concat(groups: seq<seq<string>>): seq<string> {
    if groups == [] then [] else Concat(groups[..|groups| - 1]) + groups[|groups| - 1]
  }

  // Any way to cut a word list into lines that respects the width.
  ghost predicate IsLayout(groups: seq<seq<string>>, words: seq<string>, width: int) {
    && Concat(groups) == words
    && (forall g :: g in groups ==> g != [])
    && (forall g :: g in groups && |g| >= 2 ==> |Join(g, " ")| <= width)
  }

  // Greedy is ahead of a layout of the same words: fewer lines, or as many
  // with a last line no longer.
  ghost predicate Ahead(lines: seq<string>, groups: seq<seq<string>>) {
    |lines| < |groups|
    || (|lines| == |groups| && (lines != [] ==> |lines[|lines| - 1]| <= |Join(groups[|groups| - 1], " ")|))
  }

  // The layout without its last word.
  function DropLastWord(groups: seq<seq<string>>): seq<seq<string>>
    requires groups != [] && groups[|groups| - 1] != []
  {
    var n := |groups| - 1;
    if |groups[n]| == 1 then groups[..n] else groups[..n] + [groups[n][..|groups[n]| - 1]]
  }

  lemma DropLastWordIsLayout(groups: seq<seq<string>>, words: seq<string>, width: int)
    requires IsLayout(groups, words, width) && words != []
    ensures groups != [] && groups[|groups| - 1] != []
    ensures IsLayout(DropLastWord(groups), words[..|words| - 1], width)
    ensures groups[|groups| - 1][|groups[|groups| - 1]| - 1] == words[|words| - 1]
  {
    var n := |groups| - 1;
    var g, front := groups[n], groups[..n];
    assert g in groups && forall x :: x in front ==> x in groups;
    assert words == Concat(front) + g;
    if |g| == 1 {
      assert words[..|words| - 1] == Concat(front);
    } else {
      var g' := g[..|g| - 1];
      var d := front + [g'];
      assert d[..n] == front && words[..|words| - 1] == Concat(front) + g';
      assert g == g' + [g[|g| - 1]];
      JoinConcat(g', [g[|g| - 1]], " ");
      forall x | x in d ensures x != [] && (|x| >= 2 ==> |Join(x, " ")| <= width) {
        if x != g' {
          assert x in front;
        }
      }
    }
  }

  lemma {:induction false} GreedyStaysAhead(groups: seq<seq<string>>, words: seq<string>, width: int)
    requires IsLayout(groups, words, width)
    ensures Ahead(WrapWords(words, width), groups)
    decreases words
  {
    if words == [] {
    } else {
      var n := |groups| - 1;
      DropLastWordIsLayout(groups, words, width);
      GreedyStaysAhead(DropLastWord(groups), words[..|words| - 1], width);
      var g, word := groups[n], words[|words| - 1];
      assert g in groups;
      if |g| >= 2 {
        assert g == g[..|g| - 1] + [word];
        JoinConcat(g[..|g| - 1], [word], " ");
      }
    }
  }

  lemma SplitCons(x: char, s: string, c: char)
    ensures Split([x] + s, c)
            == if x == c then [""] + Split(s, c) else [[x] + Split(s, c)[0]] + Split(s, c)[1..]
  {
    assert ([x] + s)[1..] == s;
  }

  // The words of the lines, line by line, are the words of the joined text.
  lemma {:induction false} SplitAnyConcat(a: string, c: char, rest: string)
    ensures Split(a + [c] + rest, c) == Split(a, c) + Split(rest, c)
  {
    if a == "" {
      assert a + [c] + rest == [c] + rest;
      SplitCons(c, rest, c);
    } else {
      var tail := a[1..];
      assert a == [a[0]] + tail;
      assert a + [c] + rest == [a[0]] + (tail + [c] + rest);
      SplitAnyConcat(tail, c, rest);
      SplitCons(a[0], tail, c);
      SplitCons(a[0], tail + [c] + rest, c);
    }
  }

  function WordsOf(lines: seq<string>): seq<seq<string>> {
    Map(lines, (l: string) => Split(l, ' '))
  }

  lemma {:induction false} LinesAreALayout(lines: seq<string>)
    requires lines != []
    ensures Concat(WordsOf(lines)) == Split(Join(lines, " "), ' ')
  {
    var n := |lines| - 1;
    var front, last := lines[..n], lines[n];
    assert lines == front + [last];
    assert WordsOf(lines)[..n] == WordsOf(front);
    if front == [] {
      assert Concat(WordsOf(lines)) == Split(last, ' ');
    } else {
      LinesAreALayout(front);
      JoinConcat(front, [last], " ");
      SplitAnyConcat(Join(front, " "), ' ', last);
    }
  }

  /** Greedy wrap is optimal: every other wrapping of the same text to the same
      width has at least as many lines. */
  lemma WrapIsOptimal(text: string, width: int, other: seq<string>)
    requires IsWrapping(other, text, width)
    ensures |WrapTo(text, width)| <= |other|
  {
    var groups := WordsOf(other);
    LinesAreALayout(other);
    forall g | g in groups ensures g != [] && (|g| >= 2 ==> |Join(g, " ")| <= width) {
      var i :| 0 <= i < |groups| && groups[i] == g;
      assert g == Split(other[i], ' ');
      JoinOfSplit(other[i], ' ');
      if |g| >= 2 {
        assert Join(g, " ") == g[0] + " " + Join(g[1..], " ");
        assert other[i][|g[0]|] == ' ';
        assert other[i] in other;
      }
    }
    GreedyStaysAhead(groups, Split(text, ' '), width);
  }

  // ---- Escaping a cell ----

  predicate IsSpecial(c: char) {
    c == '\\' || c == '|'
  }

  // The length of the white space s begins with.
  function LeadingSpace(s: string): (n: nat)
    ensures n <= |s| && (forall i :: 0 <= i < n ==> IsSpace(s[i])) && (n < |s| ==> !IsSpace(s[n]))
  {
    if s == "" || !IsSpace(s[0]) then 0 else 1 + LeadingSpace(s[1..])
  }

  // Every maximal run of white space with a newline in it becomes one space.
  function FlattenNewlines(s: string): (r: string)
    ensures '\n' !in r
    decreases |s|
  {
    if s == "" then ""
    else
      var n := LeadingSpace(s);
      if n == 0 then [s[0]] + FlattenNewlines(s[1..])
      else (if '\n' in s[..n] then " " else s[..n]) + FlattenNewlines(s[n..])
  }

  function EscapeChar(c: char): string {
    if IsSpecial(c) then ['\\', c] else [c]
  }

  function Escape(s: string): string {
    if s == "" then "" else EscapeChar(s[0]) + Escape(s[1..])
  }

  function EscapeCell(text: string): string {
    Trim(Escape(FlattenNewlines(text)))
  }

  function Cell(text: string): string {
    Join(WrapTo(EscapeCell(text), CELL_WIDTH), "<br>")
  }

  // What a reader of the table does: a backslash stands for the character after it.
  function Unescape(s: string): string
    decreases |s|
  {
    if s == "" then ""
    else if s[0] == '\\' && |s| >= 2 then [s[1]] + Unescape(s[2..])
    else [s[0]] + Unescape(s[1..])
  }

  // The text a cell stands for.
  function PlainText(text: string): string {
    Trim(FlattenNewlines(text))
  }

  lemma {:induction false} UnescapeEscape(s: string)
    ensures Unescape(Escape(s)) == s
  {
    if s != "" {
      UnescapeEscape(s[1..]);
      var rest := Escape(s[1..]);
      if IsSpecial(s[0]) {
        assert ([('\\'), s[0]] + rest)[2..] == rest;
      } else {
        assert ([s[0]] + rest)[1..] == rest;
      }
    }
  }

  lemma {:induction false} EscapeConcat(a: string, b: string)
    ensures Escape(a + b) == Escape(a) + Escape(b)
  {
    if a == "" {
      assert a + b == b;
    } else {
      assert (a + b)[1..] == a[1..] + b;
      EscapeConcat(a[1..], b);
    }
  }

  lemma {:induction false} EscapeBlank(s: string)
    requires IsBlank(s)
    ensures Escape(s) == s
  {
    if s != "" {
      assert s[0] in s && forall c :: c in s[1..] ==> c in s;
      EscapeBlank(s[1..]);
    }
  }

  lemma EscapeTrimmed(s: string)
    requires Trimmed(s)
    ensures Trimmed(Escape(s))
  {
    if s != "" {
      var n := |s| - 1;
      assert s == s[..n] + [s[n]];
      EscapeConcat(s[..n], [s[n]]);
      assert Escape([s[n]]) == EscapeChar(s[n]);
    }
  }

  lemma TrimStartPadded(lead: string, rest: string)
    requires IsBlank(lead) && (rest != "" ==> !IsSpace(rest[0]))
    ensures TrimStart(lead + rest) == rest
  {
    var s, a := lead + rest, TrimStart(lead + rest);
    assert forall i :: 0 <= i < |lead| ==> s[i] in lead;
    if rest != "" {
      assert s[|lead|] == rest[0];
    }
    assert |a| == |rest|;
  }

  lemma TrimEndPadded(front: string, trail: string)
    requires IsBlank(trail) && (front != "" ==> !IsSpace(front[|front| - 1]))
    ensures TrimEnd(front + trail) == front
  {
    var s, r := front + trail, TrimEnd(front + trail);
    assert forall i :: |front| <= i < |s| ==> s[i] in trail;
    if front != "" {
      assert s[|front| - 1] == front[|front| - 1];
    }
    assert |r| == |front|;
  }

  lemma TrimPadded(lead: string, middle: string, trail: string)
    requires IsBlank(lead) && IsBlank(trail) && Trimmed(middle)
    ensures Trim((lead + middle) + trail) == middle
  {
    var s := (lead + middle) + trail;
    if middle == "" {
      assert IsBlank(s);
      BlankTrimsToNothing(s);
    } else {
      Associative(lead, middle, trail);
      TrimStartPadded(lead, middle + trail);
      TrimEndPadded(middle, trail);
    }
  }

  lemma TrimParts(s: string) returns (lead: string, middle: string, trail: string)
    ensures s == (lead + middle) + trail && middle == Trim(s)
    ensures IsBlank(lead) && IsBlank(trail) && Trimmed(middle)
  {
    var a := TrimStart(s);
    lead, middle, trail := s[..|s| - |a|], TrimEnd(a), a[|TrimEnd(a)|..];
    assert a == middle + trail && s == lead + a;
    Associative(lead, middle, trail);
  }

  lemma TrimEscape(s: string)
    ensures Trim(Escape(s)) == Escape(Trim(s))
  {
    var lead, middle, trail := TrimParts(s);
    EscapePadded(lead, middle, trail);
    EscapeTrimmed(middle);
    TrimPadded(lead, Escape(middle), trail);
  }

  lemma EscapePadded(lead: string, middle: string, trail: string)
    requires IsBlank(lead) && IsBlank(trail)
    ensures Escape((lead + middle) + trail) == (lead + Escape(middle)) + trail
  {
    EscapeConcat(lead + middle, trail);
    EscapeConcat(lead, middle);
    EscapeBlank(lead);
    EscapeBlank(trail);
  }

  // Every maximal run of white space as one space.
  function Collapse(s: string): string
    decreases |s|
  {
    if s == "" then ""
    else
      var n := LeadingSpace(s);
      if n == 0 then [s[0]] + Collapse(s[1..]) else " " + Collapse(s[n..])
  }

  lemma LeadingSpaceOf(blank: string, rest: string)
    requires IsBlank(blank) && (rest != "" ==> !IsSpace(rest[0]))
    ensures LeadingSpace(blank + rest) == |blank|
  {
    assert forall i :: 0 <= i < |blank| ==> (blank + rest)[i] in blank;
    if rest != "" {
      assert (blank + rest)[|blank|] == rest[0];
    }
  }

  /** Flattening changes no word: collapsed, the text is the same as before;
      and a text without a newline is left alone. */
  lemma {:induction false} FlattenKeepsWords(s: string)
    ensures Collapse(FlattenNewlines(s)) == Collapse(s)
    ensures '\n' !in s ==> FlattenNewlines(s) == s
    ensures s != "" && !IsSpace(s[0]) ==> FlattenNewlines(s) != "" && FlattenNewlines(s)[0] == s[0]
    decreases |s|
  {
    if s != "" {
      var n := LeadingSpace(s);
      assert s == s[..n] + s[n..];
      if n == 0 {
        FlattenKeepsWords(s[1..]);
        assert ([s[0]] + FlattenNewlines(s[1..]))[1..] == FlattenNewlines(s[1..]);
        assert s == [s[0]] + s[1..];
      } else {
        FlattenKeepsWords(s[n..]);
        var blank, rest := if '\n' in s[..n] then " " else s[..n], FlattenNewlines(s[n..]);
        LeadingSpaceOf(blank, rest);
        assert (blank + rest)[|blank|..] == rest;
      }
    }
  }

  /** Unescaping a cell's text gives back the flattened, trimmed text. */
  lemma EscapedCellDecodes(text: string)
    ensures EscapeCell(text) == Escape(PlainText(text))
    ensures Unescape(EscapeCell(text)) == PlainText(text)
  {
    TrimEscape(FlattenNewlines(text));
    UnescapeEscape(PlainText(text));
  }

  // ---- No raw pipe ----

  // How many backslashes s ends with.
  function TrailingSlashes(s: string): nat {
    if s != "" && s[|s| - 1] == '\\' then 1 + TrailingSlashes(s[..|s| - 1]) else 0
  }

  // Every pipe is preceded by an odd-length run of backslashes, and no
  // backslash at the end is left to escape what follows.
  ghost predicate TableSafe(s: string) {
    TrailingSlashes(s) % 2 == 0
    && forall i :: 0 <= i < |s| && s[i] == '|' ==> TrailingSlashes(s[..i]) % 2 == 1
  }

  lemma {:induction false} SlashesConcat(a: string, b: string)
    requires TrailingSlashes(a) % 2 == 0
    ensures TrailingSlashes(a + b) % 2 == TrailingSlashes(b) % 2
  {
    if b == "" {
      assert a + b == a;
    } else {
      assert (a + b)[..|a + b| - 1] == a + b[..|b| - 1];
      SlashesConcat(a, b[..|b| - 1]);
    }
  }

  lemma SafeConcat(a: string, b: string)
    requires TableSafe(a) && TableSafe(b)
    ensures TableSafe(a + b)
  {
    SlashesConcat(a, b);
    forall i | 0 <= i < |a + b| && (a + b)[i] == '|' ensures TrailingSlashes((a + b)[..i]) % 2 == 1 {
      if i < |a| {
        assert (a + b)[..i] == a[..i];
      } else {
        assert (a + b)[..i] == a + b[..i - |a|];
        SlashesConcat(a, b[..i - |a|]);
      }
    }
  }

  lemma CharSafe(c: char)
    ensures TableSafe(EscapeChar(c))
  {
    var e := EscapeChar(c);
    if IsSpecial(c) {
      assert e[..1] == ['\\'] && e[..1][..0] == "";
      assert TrailingSlashes(e[..1]) == 1;
    } else {
      assert e[..0] == "";
    }
  }

  lemma {:induction false} EscapeIsSafe(s: string)
    ensures TableSafe(Escape(s))
  {
    if s != "" {
      EscapeIsSafe(s[1..]);
      CharSafe(s[0]);
      SafeConcat(EscapeChar(s[0]), Escape(s[1..]));
    }
  }

  // ---- Wrapping an escaped text ----

  // A cut of an escaped text in front of a space is a cut of the text itself.
  lemma {:induction false} CutEscaped(s: string, a: string, tail: string) returns (y: string, z: string)
    requires Escape(s) == a + tail && tail != "" && tail[0] == ' '
    ensures s == y + z && Escape(y) == a && Escape(z) == tail
  {
    if a == "" {
      y, z := "", s;
    } else {
      var e, rest := EscapeChar(s[0]), s[1..];
      assert (a + tail)[|a|] == ' ' && (a + tail)[0] == a[0] == e[0];
      CutPrefix(e, Escape(rest), a, tail);
      var y';
      y', z := CutEscaped(rest, a[|e|..], tail);
      y := [s[0]] + y';
      assert y[1..] == y';
    }
  }

  lemma CutPrefix(e: string, r: string, a: string, tail: string)
    requires e + r == a + tail && |e| <= |a|
    ensures a == e + a[|e|..] && r == a[|e|..] + tail
  {
    assert (e + r)[..|e|] == e && (e + r)[|e|..] == r;
    assert (a + tail)[|e|..] == a[|e|..] + tail;
  }

  // Lines that join to an escaped text are the escaped lines of the text.
  lemma {:induction false} LinesOfEscaped(lines: seq<string>, s: string) returns (plain: seq<string>)
    requires lines != [] && Join(lines, " ") == Escape(s)
    ensures |plain| == |lines| && Join(plain, " ") == s
    ensures forall i :: 0 <= i < |lines| ==> lines[i] == Escape(plain[i])
  {
    if |lines| == 1 {
      plain := [s];
    } else {
      var tail := " " + Join(lines[1..], " ");
      Associative(lines[0], " ", Join(lines[1..], " "));
      var y, z := CutEscaped(s, lines[0], tail);
      SpaceIsKept(z, Join(lines[1..], " "));
      var rest := LinesOfEscaped(lines[1..], z[1..]);
      plain := [y] + rest;
      assert plain[1..] == rest;
      Associative(y, " ", z[1..]);
    }
  }

  lemma SpaceIsKept(z: string, rest: string)
    requires Escape(z) == " " + rest
    ensures z == " " + z[1..] && Escape(z[1..]) == rest
  {
    var e := EscapeChar(z[0]);
    assert (e + Escape(z[1..]))[0] == e[0];
    assert (" " + rest)[1..] == rest && (e + Escape(z[1..]))[1..] == Escape(z[1..]);
  }

  lemma LinesKeepEscapes(lines: seq<string>, s: string)
    requires lines != [] && Join(lines, " ") == Escape(s)
    ensures forall l :: l in lines ==> Escape(Unescape(l)) == l && TableSafe(l)
    ensures Join(Map(lines, l => Unescape(l)), " ") == s
  {
    var plain := LinesOfEscaped(lines, s);
    forall i | 0 <= i < |lines| ensures Unescape(lines[i]) == plain[i] && TableSafe(lines[i]) {
      UnescapeEscape(plain[i]);
      EscapeIsSafe(plain[i]);
    }
    assert Map(lines, l => Unescape(l)) == plain;
  }

  /** Wrapping a cell's text never separates an escape from its character: each
      line is the escape of its own unescaped text, those texts join to the
      plain text, and no line holds a raw pipe. */
  lemma WrapKeepsEscapes(text: string, width: int)
    ensures var lines := WrapTo(EscapeCell(text), width);
            && (forall l :: l in lines ==> Escape(Unescape(l)) == l && TableSafe(l))
            && Join(Map(lines, l => Unescape(l)), " ") == PlainText(text)
  {
    EscapedCellDecodes(text);
    WrapIsAWrapping(EscapeCell(text), width);
    LinesKeepEscapes(WrapTo(EscapeCell(text), width), PlainText(text));
  }

  lemma {:induction false} JoinIsSafe(lines: seq<string>, sep: string)
    requires TableSafe(sep) && '\n' !in sep
    requires forall l :: l in lines ==> TableSafe(l) && '\n' !in l
    ensures TableSafe(Join(lines, sep)) && '\n' !in Join(lines, sep)
  {
    if |lines| == 1 {
      assert lines[0] in lines;
    } else if |lines| > 1 {
      assert lines[0] in lines && forall l :: l in lines[1..] ==> l in lines;
      JoinIsSafe(lines[1..], sep);
      SafeConcat(lines[0], sep);
      SafeConcat(lines[0] + sep, Join(lines[1..], sep));
    }
  }

  lemma {:induction false} LineCharacters(lines: seq<string>, sep: string, c: char)
    requires exists l :: l in lines && c in l
    ensures c in Join(lines, sep)
  {
    var l :| l in lines && c in l;
    if |lines| > 1 && l != lines[0] {
      assert l in lines[1..];
      LineCharacters(lines[1..], sep, c);
    }
  }

  lemma {:induction false} EscapeAddsNoNewline(s: string)
    requires '\n' !in s
    ensures '\n' !in Escape(s)
  {
    if s != "" {
      assert s[0] in s && forall c :: c in s[1..] ==> c in s;
      EscapeAddsNoNewline(s[1..]);
    }
  }

  lemma LinesStayOneCell(lines: seq<string>, s: string)
    requires lines != [] && Join(lines, " ") == Escape(s) && '\n' !in s
    ensures '\n' !in Join(lines, "<br>") && TableSafe(Join(lines, "<br>"))
  {
    LinesKeepEscapes(lines, s);
    EscapeAddsNoNewline(s);
    forall l | l in lines ensures '\n' !in l {
      if '\n' in l {
        LineCharacters(lines, " ", '\n');
      }
    }
    var br := "<br>";
    assert br[3] == '>' && '\n' !in br;
    JoinIsSafe(lines, br);
  }

  /** A finished cell holds no newline and no raw pipe, so it stays one cell of
      one row. */
  lemma CellStaysOneCell(text: string)
    ensures '\n' !in Cell(text) && TableSafe(Cell(text))
  {
    EscapedCellDecodes(text);
    WrapIsAWrapping(EscapeCell(text), CELL_WIDTH);
    LinesStayOneCell(WrapTo(EscapeCell(text), CELL_WIDTH), PlainText(text));
  }

  /** A finished cell is the escaped text in the fewest lines that fit 72
      characters, a break between any two, and the lines unescape to the text. */
  lemma CellIsItsWrappedText(text: string)
    ensures exists lines ::
              && Cell(text) == Join(lines, "<br>") && IsWrapping(lines, EscapeCell(text), 72)
              && (forall other :: IsWrapping(other, EscapeCell(text), 72) ==> |lines| <= |other|)
              && Join(Map(lines, l => Unescape(l)), " ") == PlainText(text)
  {
    var lines := WrapTo(EscapeCell(text), CELL_WIDTH);
    WrapIsAWrapping(EscapeCell(text), CELL_WIDTH);
    WrapKeepsEscapes(text, CELL_WIDTH);
    forall other | IsWrapping(other, EscapeCell(text), CELL_WIDTH) ensures |lines| <= |other| {
      WrapIsOptimal(EscapeCell(text), CELL_WIDTH, other);
    }
  }
}
