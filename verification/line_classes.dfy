/** Which lines are fences, headings, tables and list items, said of their characters. */
module LineClasses {
  import opened Wrappers
  import opened Text
  import opened MarkdownUnits

  /** The line is blank padding followed by this text. */
  ghost predicate Indented(line: string, text: string) {
    exists pad: string :: Blank(pad) && line == pad + text
  }

  /** A text that starts visibly is what stripping the padding leaves. */
  lemma {:induction false} StripLeftIs(pad: string, text: string)
    requires Blank(pad) && text != "" && !IsSpace(text[0])
    ensures StripLeft(pad + text) == text
  {
    if pad == "" {
      assert pad + text == text;
    } else {
      assert (pad + text)[0] == pad[0] && (pad + text)[1..] == pad[1..] + text;
      StripLeftIs(pad[1..], text);
    }
  }

  lemma StripLeftIndents(line: string)
    ensures Indented(line, StripLeft(line))
  {
    StripLeftSplits(line);
    var cut := |line| - |StripLeft(line)|;
    assert line == line[..cut] + line[cut..];
  }

  /** Three backticks or three tildes. */
  lemma FenceExactly(line: string, c: char)
    ensures FenceChar(line) == Some(c) <==>
      (c == '`' || c == '~') && exists rest: string :: Indented(line, [c, c, c] + rest)
  {
    StripLeftIndents(line);
    var t := StripLeft(line);
    if FenceChar(line) == Some(c) {
      assert t == [c, c, c] + t[3..];
    }
    if (c == '`' || c == '~') && exists rest: string :: Indented(line, [c, c, c] + rest) {
      var rest: string :| Indented(line, [c, c, c] + rest);
      var pad: string :| Blank(pad) && line == pad + ([c, c, c] + rest);
      StripLeftIs(pad, [c, c, c] + rest);
      assert t[0] == t[1] == t[2] == c;
    }
  }

  function Repeated(c: char, k: nat): string {
    seq(k, _ => c)
  }

  lemma {:induction false} RunIs(t: string, k: nat, p: char -> bool)
    requires k < |t| && !p(t[k]) && forall i | 0 <= i < k :: p(t[i])
    ensures RunLength(t, p) == k
  {
    if k > 0 {
      RunIs(t[1..], k - 1, p);
    }
  }

  lemma {:induction false} RunHolds(t: string, p: char -> bool)
    ensures forall i | 0 <= i < RunLength(t, p) :: p(t[i])
    ensures RunLength(t, p) < |t| ==> !p(t[RunLength(t, p)])
  {
    if t != "" && p(t[0]) {
      RunHolds(t[1..], p);
      assert forall i | 0 < i < RunLength(t, p) :: t[i] == t[1..][i - 1];
    }
  }

  /** One to six hashes and a space. */
  ghost predicate HeadingLine(line: string) {
    exists k: nat, space, rest: string ::
      1 <= k <= 6 && IsSpace(space) && Indented(line, Repeated('#', k) + [space] + rest)
  }

  lemma HeadingExactly(line: string)
    ensures IsHeading(line) <==> HeadingLine(line)
  {
    StripLeftIndents(line);
    var t, hash := StripLeft(line), (c: char) => c == '#';
    if IsHeading(line) {
      var h := RunLength(t, hash);
      RunHolds(t, hash);
      assert t == Repeated('#', h) + [t[h]] + t[h + 1..];
    }
    if k: nat, space, rest: string :|
      1 <= k <= 6 && IsSpace(space) && Indented(line, Repeated('#', k) + [space] + rest) {
      var text := Repeated('#', k) + [space] + rest;
      var pad: string :| Blank(pad) && line == pad + text;
      assert text[0] == '#' && text[k] == space;
      StripLeftIs(pad, text);
      assert !IsSpace('#');
      RunIs(text, k, hash);
      assert IsHeading(line);
    }
  }

  /** A bar. */
  ghost predicate TableLine(line: string) {
    exists rest: string :: Indented(line, "|" + rest)
  }

  lemma TableExactly(line: string)
    ensures "|" <= StripLeft(line) <==> TableLine(line)
  {
    StripLeftIndents(line);
    var t := StripLeft(line);
    if "|" <= t {
      assert t == "|" + t[1..];
    }
    if rest: string :| Indented(line, "|" + rest) {
      var pad: string :| Blank(pad) && line == pad + ("|" + rest);
      StripLeftIs(pad, "|" + rest);
    }
  }

  /** A bullet and a space, or digits with a dot or parenthesis and a space. */
  ghost predicate ListLine(digit: char -> bool, line: string) {
    || (exists bullet, space, rest: string ::
          bullet in {'-', '+', '*'} && IsSpace(space) && Indented(line, [bullet, space] + rest))
    || (exists number: string, mark, space, rest: string ::
          && number != "" && (forall i | 0 <= i < |number| :: digit(number[i]))
          && mark in {'.', ')'} && IsSpace(space) && Indented(line, number + [mark, space] + rest))
  }

  /** Digits are neither spaces nor the marks after a number. */
  ghost predicate Digits(digit: char -> bool) {
    forall c | digit(c) :: !IsSpace(c) && c != '.' && c != ')'
  }

  lemma NumberedLine(digit: char -> bool, line: string, number: string, mark: char, space: char, rest: string)
    requires Digits(digit) && number != "" && (forall i | 0 <= i < |number| :: digit(number[i]))
    requires mark in {'.', ')'} && IsSpace(space) && Indented(line, number + [mark, space] + rest)
    ensures IsListItem(digit, line)
  {
    var text := number + [mark, space] + rest;
    var pad: string :| Blank(pad) && line == pad + text;
    assert text[0] == number[0] && text[|number|] == mark && text[|number| + 1] == space;
    assert forall i | 0 <= i < |number| :: text[i] == number[i];
    StripLeftIs(pad, text);
    RunIs(text, |number|, digit);
  }

  lemma BulletLine(digit: char -> bool, line: string, bullet: char, space: char, rest: string)
    requires bullet in {'-', '+', '*'} && IsSpace(space) && Indented(line, [bullet, space] + rest)
    ensures IsListItem(digit, line)
  {
    var text := [bullet, space] + rest;
    var pad: string :| Blank(pad) && line == pad + text;
    assert text[0] == bullet && text[1] == space;
    StripLeftIs(pad, text);
  }

  lemma ListExactly(digit: char -> bool, line: string)
    requires Digits(digit)
    ensures IsListItem(digit, line) <==> ListLine(digit, line)
  {
    if IsListItem(digit, line) {
      ListItemIsLine(digit, line);
    }
    hide IsListItem, Indented;
    if bullet, space, rest: string :|
      bullet in {'-', '+', '*'} && IsSpace(space) && Indented(line, [bullet, space] + rest) {
      BulletLine(digit, line, bullet, space, rest);
    }
    if number: string, mark, space, rest: string :|
      && number != "" && (forall i | 0 <= i < |number| :: digit(number[i]))
      && mark in {'.', ')'} && IsSpace(space) && Indented(line, number + [mark, space] + rest) {
      NumberedLine(digit, line, number, mark, space, rest);
    }
  }

  lemma ListItemIsLine(digit: char -> bool, line: string)
    requires IsListItem(digit, line)
    ensures ListLine(digit, line)
  {
    StripLeftIndents(line);
    var t := StripLeft(line);
    var k := RunLength(t, digit);
    RunHolds(t, digit);
    hide Indented, StripLeft, RunLength;
    if |t| > 1 && t[0] in {'-', '+', '*'} && IsSpace(t[1]) {
      assert t == [t[0], t[1]] + t[2..];
    } else {
      assert t == t[..k] + [t[k], t[k + 1]] + t[k + 2..];
    }
  }

  /** The kind of a line outside fences: a heading, else a table row, else a list item, else
      a paragraph line. */
  lemma ClassExactly(digit: char -> bool, line: string)
    requires Digits(digit)
    ensures Class(digit, line) ==
      if HeadingLine(line) then Heading
      else if TableLine(line) then Table
      else if ListLine(digit, line) then ListItem
      else Paragraph
  {
    HeadingExactly(line);
    TableExactly(line);
    ListExactly(digit, line);
    hide IsListItem, ListLine, StripLeft, Indented, Repeated;
  }
}
