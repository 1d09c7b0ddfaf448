/** The Markdown block splitter that inventories translated prose. */
module MarkdownUnits {
  import opened Wrappers
  import opened Text

  datatype Kind = Heading | Table | ListItem | Paragraph

  datatype Unit = Unit(index: nat, section: nat, line: nat, kind: Kind, text: string)

  // ---- Line patterns -------------------------------------------------------------------

  /** The character of a fence marker line. */
  function FenceChar(line: string): Option<char> {
    var t := StripLeft(line);
    if "```" <= t then Some('`') else if "~~~" <= t then Some('~') else None
  }

  function RunLength(t: string, p: char -> bool): nat
    ensures RunLength(t, p) <= |t|
  {
    if t == "" || !p(t[0]) then 0 else 1 + RunLength(t[1..], p)
  }

  /** Up to six hashes and a space. */
  predicate IsHeading(line: string) {
    var t := StripLeft(line);
    var h := RunLength(t, c => c == '#');
    1 <= h <= 6 && h < |t| && IsSpace(t[h])
  }

  /** A bullet, or digits with a dot or parenthesis, and a space. `digit` is the regular
      expression engine's digit class. */
  predicate IsListItem(digit: char -> bool, line: string) {
    var t := StripLeft(line);
    var k := RunLength(t, digit);
    || (|t| > 1 && t[0] in {'-', '+', '*'} && IsSpace(t[1]))
    || (k > 0 && k + 1 < |t| && t[k] in {'.', ')'} && IsSpace(t[k + 1]))
  }

  /** The kind of block a content line belongs to or starts. */
  function Class(digit: char -> bool, line: string): Kind {
    if IsHeading(line) then Heading
    else if "|" <= StripLeft(line) then Table
    else if IsListItem(digit, line) then ListItem
    else Paragraph
  }

  // ---- The scanner ------------------------------------------------------------------------

  /** Lines `start` to `start + count - 1`, numbered from 0. */
  datatype Span = Span(start: nat, count: nat)

  /** The scanner's variables. `spans` remembers which lines each emitted unit came from;
      the program itself keeps no such record. */
  datatype Scanner = Scanner(
    out: seq<Unit>, spans: seq<Span>, buffer: seq<string>, first: nat, section: nat, kind: Kind,
    fence: Option<char>)

  function EmitTo(out: seq<Unit>, section: nat, value: string, line: nat, kind: Kind): seq<Unit> {
    var v := Strip(value);
    if v == "" then out else out + [Unit(|out| + 1, section, line, kind, v)]
  }

  function Emit(s: Scanner, value: string, line: nat, kind: Kind, count: nat): Scanner
    requires line > 0
  {
    var out := EmitTo(s.out, s.section, value, line, kind);
    s.(out := out, spans := if out == s.out then s.spans else s.spans + [Span(line - 1, count)])
  }

  function Flush(s: Scanner): Scanner
    requires s.buffer != [] ==> s.first > 0
  {
    if s.buffer == [] then s
    else Emit(s, Join(s.buffer, "\n"), s.first, s.kind, |s.buffer|).(buffer := [])
  }

  lemma FlushFields(s: Scanner)
    requires s.buffer != [] ==> s.first > 0
    ensures var f := Flush(s);
      && f.out == (if s.buffer == [] then s.out else EmitTo(s.out, s.section, Join(s.buffer, "\n"), s.first, s.kind))
      && f.buffer == [] && f == s.(buffer := [], out := f.out, spans := f.spans)
  {
    hide EmitTo, Join;
  }

  /** One line, numbered from 1. */
  function Step(digit: char -> bool, s: Scanner, line: string, lineno: nat): Scanner
    requires lineno > 0 && (s.buffer != [] ==> s.first > 0)
  {
    var marker := FenceChar(line);
    if marker.Some? then
      if s.fence.None? then Flush(s).(fence := marker)
      else if s.fence == marker then s.(fence := None)
      else s
    else if s.fence.Some? then s
    else if Blank(line) then Flush(s)
    else if IsHeading(line) then
      var f := Flush(s);
      Emit(f.(section := f.section + 1), line, lineno, Heading, 1)
    else
      var kind := Class(digit, line);
      if kind.Table? || kind.ListItem? then
        var started := Flush(s).(kind := kind, first := lineno, buffer := [StripRight(line)]);
        if kind.Table? then Flush(started) else started
      else
        var f := if s.buffer != [] && s.kind.Table? then Flush(s) else s;
        if f.buffer == [] then f.(first := lineno, kind := Paragraph, buffer := [StripRight(line)])
        else f.(buffer := f.buffer + [StripRight(line)])
  }

  lemma StepFirst(digit: char -> bool, s: Scanner, line: string, lineno: nat)
    requires lineno > 0 && (s.buffer != [] ==> s.first > 0)
    ensures var t := Step(digit, s, line, lineno); t.buffer != [] ==> t.first > 0
  {
  }

  /** The scanner after the first `n` lines. */
  function Scan(digit: char -> bool, lines: seq<string>, n: nat): (s: Scanner)
    requires n <= |lines|
    ensures s.buffer != [] ==> s.first > 0
  {
    if n == 0 then Scanner([], [], [], 0, 0, Paragraph, None)
    else
      StepFirst(digit, Scan(digit, lines, n - 1), lines[n - 1], n);
      Step(digit, Scan(digit, lines, n - 1), lines[n - 1], n)
  }

  lemma ScanStep(digit: char -> bool, lines: seq<string>, n: nat)
    requires n < |lines|
    ensures Scan(digit, lines, n + 1) == Step(digit, Scan(digit, lines, n), lines[n], n + 1)
  {
    hide Step;
  }

  function Finish(digit: char -> bool, lines: seq<string>): Scanner {
    Flush(Scan(digit, lines, |lines|))
  }

  lemma ScanStart(digit: char -> bool, lines: seq<string>)
    ensures Scan(digit, lines, 0) == Scanner([], [], [], 0, 0, Paragraph, None)
  {
  }

  /** The program's variables hold the scanner's state. */
  predicate Reads(s: Scanner, out: seq<Unit>, buffer: seq<string>, first: nat, section: nat, kind: Kind,
                  fence: Option<char>)
  {
    && s.out == out && s.buffer == buffer && s.first == first && s.section == section
    && s.kind == kind && s.fence == fence
  }

  /** Split a document, already cut into lines, into review units; `None` is the
      "unclosed Markdown fence" error. */
  method ReviewUnits(digit: char -> bool, lines: seq<string>) returns (r: Option<seq<Unit>>)
    ensures r == if Finish(digit, lines).fence.Some? then None else Some(Finish(digit, lines).out)
  {
    var output: seq<Unit> := [];
    var buffer: seq<string> := [];
    var firstLine, section, kind := 0, 0, Paragraph;
    var fence: Option<char> := None;
    hide Scan, Flush, IsHeading, FenceChar, Blank, Join, Class, EmitTo, StripRight;
    ScanStart(digit, lines);
    for i := 0 to |lines|
      invariant Reads(Scan(digit, lines, i), output, buffer, firstLine, section, kind, fence)
    {
      ghost var s := Scan(digit, lines, i);
      ScanStep(digit, lines, i);
      FlushFields(s);
      var line, lineno := lines[i], i + 1;
      var marker := FenceChar(line);
      if marker.Some? {
        if fence.None? {
          output, buffer := FlushTo(output, buffer, section, firstLine, kind);
          fence := marker;
        } else if fence == marker {
          fence := None;
        }
        continue;
      }
      if fence.Some? {
        continue;
      }
      if Blank(line) {
        output, buffer := FlushTo(output, buffer, section, firstLine, kind);
        continue;
      }
      if IsHeading(line) {
        output, buffer := FlushTo(output, buffer, section, firstLine, kind);
        section := section + 1;
        output := EmitTo(output, section, line, lineno, Heading);
        continue;
      }
      var newKind := Class(digit, line);
      if newKind.Table? || newKind.ListItem? {
        output, buffer := FlushTo(output, buffer, section, firstLine, kind);
        kind, firstLine, buffer := newKind, lineno, [StripRight(line)];
        if newKind.Table? {
          FlushFields(Flush(s).(kind := kind, first := lineno, buffer := buffer));
          output, buffer := FlushTo(output, buffer, section, firstLine, kind);
        }
        continue;
      }
      if buffer != [] && kind.Table? {
        output, buffer := FlushTo(output, buffer, section, firstLine, kind);
      }
      if buffer == [] {
        firstLine, kind := lineno, Paragraph;
      }
      buffer := buffer + [StripRight(line)];
    }
    FlushFields(Scan(digit, lines, |lines|));
    output, buffer := FlushTo(output, buffer, section, firstLine, kind);
    return if fence.Some? then None else Some(output);
  }

  method FlushTo(output: seq<Unit>, buffer: seq<string>, section: nat, firstLine: nat, kind: Kind)
    returns (output': seq<Unit>, buffer': seq<string>)
    ensures buffer' == []
    ensures output' == if buffer == [] then output else EmitTo(output, section, Join(buffer, "\n"), firstLine, kind)
  {
    output', buffer' := output, buffer;
    if buffer != [] {
      output' := EmitTo(output, section, Join(buffer, "\n"), firstLine, kind);
      buffer' := [];
    }
  }

  // ---- What the units should be ------------------------------------------------------------

  /** The fence open before line `j`. */
  function FenceBefore(lines: seq<string>, j: nat): Option<char>
    requires j <= |lines|
  {
    if j == 0 then None
    else
      var open, marker := FenceBefore(lines, j - 1), FenceChar(lines[j - 1]);
      if marker.None? then open else if open.None? then marker else if open == marker then None else open
  }

  /** Visible text outside fences. */
  predicate Content(lines: seq<string>, j: nat)
    requires j < |lines|
  {
    FenceBefore(lines, j).None? && FenceChar(lines[j]).None? && !Blank(lines[j])
  }

  /** A content line begins a block unless it is a paragraph line that directly continues
      a paragraph or list item. */
  predicate Begins(digit: char -> bool, lines: seq<string>, j: nat)
    requires j < |lines|
  {
    Content(lines, j) &&
    (|| !Class(digit, lines[j]).Paragraph?
     || j == 0
     || !Content(lines, j - 1)
     || Class(digit, lines[j - 1]).Heading?
     || Class(digit, lines[j - 1]).Table?)
  }

  function ContentBelow(lines: seq<string>, n: nat): seq<nat>
    requires n <= |lines|
  {
    if n == 0 then []
    else ContentBelow(lines, n - 1) + (if Content(lines, n - 1) then [n - 1] else [])
  }

  /** Content headings among the first `n` lines. */
  function Headings(lines: seq<string>, n: nat): nat
    requires n <= |lines|
  {
    if n == 0 then 0
    else Headings(lines, n - 1) + (if Content(lines, n - 1) && IsHeading(lines[n - 1]) then 1 else 0)
  }

  function Range(start: nat, count: nat): seq<nat> {
    seq(count, i requires 0 <= i < count => start + i)
  }

  function Numbers(spans: seq<Span>): seq<nat> {
    if spans == [] then []
    else Numbers(spans[..|spans| - 1]) + Range(spans[|spans| - 1].start, spans[|spans| - 1].count)
  }

  function Trimmed(lines: seq<string>): seq<string> {
    seq(|lines|, i requires 0 <= i < |lines| => StripRight(lines[i]))
  }

  function BlockText(lines: seq<string>, span: Span): string
    requires 0 < span.count && span.start + span.count <= |lines|
  {
    if IsHeading(lines[span.start]) then Strip(lines[span.start])
    else Strip(Join(Trimmed(lines[span.start..span.start + span.count]), "\n"))
  }

  /** A span is one block: it begins at its first line and nowhere else. */
  ghost predicate Block(digit: char -> bool, lines: seq<string>, span: Span) {
    && 0 < span.count && span.start + span.count <= |lines|
    && forall j | span.start <= j < span.start + span.count ::
         Content(lines, j) && (Begins(digit, lines, j) <==> j == span.start)
  }

  /** Unit `k` is what its block says: position, section, kind and text. */
  ghost predicate Faithful(digit: char -> bool, lines: seq<string>, u: Unit, k: nat, span: Span) {
    && Block(digit, lines, span)
    && u == Unit(k + 1, Headings(lines, span.start + 1), span.start + 1, Class(digit, lines[span.start]),
                 BlockText(lines, span))
    && u.text != ""
  }

  ghost predicate AllFaithful(digit: char -> bool, lines: seq<string>, out: seq<Unit>, spans: seq<Span>) {
    |out| == |spans| && forall k | 0 <= k < |out| :: Faithful(digit, lines, out[k], k, spans[k])
  }

  /** The lines read since the last flush. */
  function PendingNumbers(s: Scanner, n: nat): seq<nat> {
    if s.buffer == [] || n < s.first || s.first == 0 then [] else Range(s.first - 1, n - s.first + 1)
  }

  /** Lines `a` to `n - 1` are a block in progress, read into `buffer`. */
  ghost predicate Collected(digit: char -> bool, lines: seq<string>, buffer: seq<string>, kind: Kind, a: int, n: int) {
    && 0 <= a < n <= |lines| && |buffer| == n - a
    && Block(digit, lines, Span(a, n - a))
    && buffer == Trimmed(lines[a..n])
    && kind == Class(digit, lines[a]) && (kind.ListItem? || kind.Paragraph?)
    && !Class(digit, lines[n - 1]).Heading? && !Class(digit, lines[n - 1]).Table?
  }

  /** The unflushed lines are a block in progress that ends at the line just read. */
  ghost predicate BufferOk(digit: char -> bool, lines: seq<string>, s: Scanner, n: nat)
    requires n <= |lines|
  {
    if s.buffer != [] then
      && 0 < s.first <= n && s.section == Headings(lines, s.first)
      && Collected(digit, lines, s.buffer, s.kind, s.first - 1, n)
    else
      n > 0 && Content(lines, n - 1) ==> Class(digit, lines[n - 1]).Heading? || Class(digit, lines[n - 1]).Table?
  }

  ghost predicate Good(digit: char -> bool, lines: seq<string>, s: Scanner, n: nat)
    requires n <= |lines|
  {
    && s.fence == FenceBefore(lines, n)
    && (s.fence.Some? ==> s.buffer == [])
    && s.section == Headings(lines, n)
    && BufferOk(digit, lines, s, n)
    && AllFaithful(digit, lines, s.out, s.spans)
    && Numbers(s.spans) + PendingNumbers(s, n) == ContentBelow(lines, n)
  }

  // ---- Emission never drops -------------------------------------------------------------------

  lemma TrimmedVisible(line: string)
    requires !Blank(line)
    ensures !Blank(StripRight(line))
  {
    StripRightSplits(line);
    var t := StripRight(line);
    var i :| 0 <= i < |line| && !IsSpace(line[i]);
    assert line == t + line[|t|..];
    assert i < |t| && t[i] == line[i];
  }

  lemma JoinVisible(parts: seq<string>, sep: string)
    requires parts != [] && !Blank(parts[0])
    ensures !Blank(Join(parts, sep))
  {
    var i :| 0 <= i < |parts[0]| && !IsSpace(parts[0][i]);
    assert Join(parts, sep)[i] == parts[0][i];
  }

  lemma NumbersSnoc(spans: seq<Span>, last: Span)
    ensures Numbers(spans + [last]) == Numbers(spans) + Range(last.start, last.count)
  {
    assert (spans + [last])[..|spans|] == spans;
  }

  /** Emitting the faithful unit of one block keeps every unit faithful. */
  lemma EmitGood(digit: char -> bool, lines: seq<string>, s: Scanner, value: string, line: nat, kind: Kind, count: nat)
    requires line > 0 && AllFaithful(digit, lines, s.out, s.spans)
    requires var unit := Unit(|s.out| + 1, s.section, line, kind, Strip(value));
      Faithful(digit, lines, unit, |s.out|, Span(line - 1, count))
    ensures var e := Emit(s, value, line, kind, count);
      && AllFaithful(digit, lines, e.out, e.spans)
      && e.spans == s.spans + [Span(line - 1, count)]
      && e == s.(out := e.out, spans := e.spans)
  {
    var u := Unit(|s.out| + 1, s.section, line, kind, Strip(value));
    assert u.text != "";
    hide Faithful, Strip;
    var e := Emit(s, value, line, kind, count);
    assert e.out == s.out + [u];
  }

  lemma BlockVisible(line: string, buffer: seq<string>)
    requires buffer != [] && buffer[0] == StripRight(line) && !Blank(line)
    ensures Strip(Join(buffer, "\n")) != ""
  {
    TrimmedVisible(line);
    hide StripRight, Strip, Join;
    JoinVisible(buffer, "\n");
    StripMeaning(Join(buffer, "\n"));
  }

  /** The block in progress, as the unit it will become. */
  lemma PendingFaithful(
      digit: char -> bool, lines: seq<string>, buffer: seq<string>, kind: Kind, a: nat, n: nat, k: nat)
    requires Collected(digit, lines, buffer, kind, a, n)
    ensures Faithful(digit, lines, Unit(k + 1, Headings(lines, a + 1), a + 1, kind, Strip(Join(buffer, "\n"))), k,
                     Span(a, n - a))
  {
    assert Content(lines, a) && !IsHeading(lines[a]);
    assert !Blank(lines[a]);
    assert buffer[0] == StripRight(lines[a]);
    assert Block(digit, lines, Span(a, n - a));
    assert buffer == Trimmed(lines[a..n]);
    assert kind == Class(digit, lines[a]);
    hide Content, Begins, StripRight, IsListItem, IsHeading, Headings;
    hide Join, Class, Strip, Blank, Collected, Block, Trimmed;
    BlockVisible(lines[a], buffer);
    assert a + (n - a) == n;
  }

  /** What holds of a scanner whose buffer has been flushed after `n` lines. */
  ghost predicate Clean(digit: char -> bool, lines: seq<string>, s: Scanner, n: nat)
    requires n <= |lines|
  {
    && s.buffer == []
    && AllFaithful(digit, lines, s.out, s.spans)
    && Numbers(s.spans) == ContentBelow(lines, n)
  }

  lemma GoodCounters(digit: char -> bool, lines: seq<string>, s: Scanner, n: nat)
    requires n <= |lines| && Good(digit, lines, s, n)
    ensures s.fence == FenceBefore(lines, n) && s.section == Headings(lines, n)
    ensures (s.fence.Some? ==> s.buffer == []) && (s.buffer != [] ==> 0 < s.first <= n)
  {
    hide AllFaithful, Numbers, ContentBelow, FenceBefore, Headings, Collected, Range, Class, Content;
  }

  /** What a nonempty buffer means. */
  lemma BusyFacts(digit: char -> bool, lines: seq<string>, s: Scanner, n: nat)
    requires n <= |lines| && Good(digit, lines, s, n) && s.buffer != []
    ensures 0 < s.first <= n && |s.buffer| == n - s.first + 1 && s.fence.None?
    ensures s.section == Headings(lines, s.first) == Headings(lines, n)
    ensures Collected(digit, lines, s.buffer, s.kind, s.first - 1, n)
    ensures AllFaithful(digit, lines, s.out, s.spans)
    ensures Numbers(s.spans) + Range(s.first - 1, n - s.first + 1) == ContentBelow(lines, n)
  {
    hide AllFaithful, Numbers, ContentBelow, Headings, FenceBefore, Block, Class, Trimmed, Range;
  }

  lemma BusyGood(digit: char -> bool, lines: seq<string>, t: Scanner, a: nat, n: nat)
    requires a < n <= |lines| && t.first == a + 1 && t.fence == None == FenceBefore(lines, n)
    requires t.section == Headings(lines, a + 1) == Headings(lines, n)
    requires Collected(digit, lines, t.buffer, t.kind, a, n)
    requires AllFaithful(digit, lines, t.out, t.spans)
    requires Numbers(t.spans) + Range(a, n - a) == ContentBelow(lines, n)
    ensures Good(digit, lines, t, n)
  {
    assert |t.buffer| == n - a;
    hide AllFaithful, Numbers, ContentBelow, Headings, FenceBefore, Collected, Class, Content, Range;
  }

  /** Flushing a block in progress emits exactly one faithful unit. */
  lemma NothingToFlush(digit: char -> bool, lines: seq<string>, s: Scanner, n: nat)
    requires n <= |lines| && Good(digit, lines, s, n) && s.buffer == []
    ensures Flush(s) == s && Clean(digit, lines, s, n)
  {
    hide AllFaithful, Numbers, ContentBelow, Headings, FenceBefore, BufferOk, Emit;
    assert Numbers(s.spans) + [] == Numbers(s.spans);
  }

  lemma FlushGood(digit: char -> bool, lines: seq<string>, s: Scanner, n: nat)
    requires n <= |lines| && Good(digit, lines, s, n)
    ensures Clean(digit, lines, Flush(s), n)
    ensures Flush(s) == s.(buffer := [], out := Flush(s).out, spans := Flush(s).spans)
  {
    FlushFields(s);
    hide *;
    if s.buffer == [] {
      NothingToFlush(digit, lines, s, n);
    } else {
      BusyFacts(digit, lines, s, n);
      FlushBusy(digit, lines, s, s.first - 1, n);
    }
  }

  lemma FlushBusy(digit: char -> bool, lines: seq<string>, s: Scanner, a: nat, n: nat)
    requires a < n <= |lines| && s.first == a + 1 && s.section == Headings(lines, a + 1)
    requires Collected(digit, lines, s.buffer, s.kind, a, n) && s.buffer != []
    requires AllFaithful(digit, lines, s.out, s.spans) && Numbers(s.spans) + Range(a, n - a) == ContentBelow(lines, n)
    ensures Clean(digit, lines, Flush(s), n)
  {
    assert |s.buffer| == n - a;
    hide AllFaithful, Faithful, Headings, Numbers, ContentBelow, Collected, Emit, Range, Strip, Join;
    PendingFaithful(digit, lines, s.buffer, s.kind, a, n, |s.out|);
    EmitGood(digit, lines, s, Join(s.buffer, "\n"), s.first, s.kind, |s.buffer|);
    NumbersSnoc(s.spans, Span(a, n - a));
  }

  // ---- One line ---------------------------------------------------------------------------------

  /** After a line that leaves nothing pending, only the facts about the emitted units
      and the block boundary are left to check. */
  lemma CleanGood(digit: char -> bool, lines: seq<string>, t: Scanner, n: nat)
    requires n < |lines| && Clean(digit, lines, t, n + 1)
    requires t.fence == FenceBefore(lines, n + 1) && t.section == Headings(lines, n + 1)
    requires Content(lines, n) ==> Class(digit, lines[n]).Heading? || Class(digit, lines[n]).Table?
    ensures Good(digit, lines, t, n + 1)
  {
    hide AllFaithful, Numbers, ContentBelow, Headings, FenceBefore, Content, Class;
    assert Numbers(t.spans) + [] == Numbers(t.spans);
  }

  lemma ContentCounters(lines: seq<string>, n: nat)
    requires n < |lines| && Content(lines, n)
    ensures FenceBefore(lines, n) == FenceBefore(lines, n + 1) == None
    ensures ContentBelow(lines, n + 1) == ContentBelow(lines, n) + [n]
    ensures Headings(lines, n + 1) == Headings(lines, n) + (if IsHeading(lines[n]) then 1 else 0)
  {
    hide IsHeading, Blank, FenceChar;
  }

  lemma QuietCounters(lines: seq<string>, n: nat)
    requires n < |lines| && !Content(lines, n)
    ensures ContentBelow(lines, n + 1) == ContentBelow(lines, n)
    ensures Headings(lines, n + 1) == Headings(lines, n)
  {
    hide IsHeading, Content;
  }

  /** A blank line or a line of a fence only flushes and moves the fence. */
  lemma QuietStep(digit: char -> bool, lines: seq<string>, s: Scanner, n: nat)
    requires n < |lines| && !Content(lines, n) && s.fence == FenceBefore(lines, n)
    requires s.fence.Some? ==> s.buffer == []
    requires s.buffer != [] ==> s.first > 0
    requires Flush(s) == s.(buffer := [], out := Flush(s).out, spans := Flush(s).spans)
    ensures Step(digit, s, lines[n], n + 1) == Flush(s).(fence := FenceBefore(lines, n + 1))
  {
    assert s.buffer == [] ==> Flush(s) == s;
    hide Flush, IsHeading, Class, Blank, FenceChar;
  }

  lemma QuietGood(digit: char -> bool, lines: seq<string>, s: Scanner, n: nat)
    requires n < |lines| && Good(digit, lines, s, n) && !Content(lines, n)
    ensures Good(digit, lines, Step(digit, s, lines[n], n + 1), n + 1)
  {
    hide Content, Flush, Step, FenceBefore, Headings, ContentBelow, AllFaithful, Numbers, Class, Block;
    FlushGood(digit, lines, s, n);
    QuietStep(digit, lines, s, n);
    QuietCounters(lines, n);
    CleanGood(digit, lines, Step(digit, s, lines[n], n + 1), n);
  }

  /** One more block of one line, emitted at once. */
  lemma CleanSnoc(digit: char -> bool, lines: seq<string>, f: Scanner, t: Scanner, n: nat)
    requires n < |lines| && Content(lines, n) && Clean(digit, lines, f, n)
    requires t.buffer == [] && AllFaithful(digit, lines, t.out, t.spans) && t.spans == f.spans + [Span(n, 1)]
    ensures Clean(digit, lines, t, n + 1)
  {
    hide Content, AllFaithful, Numbers, ContentBelow;
    ContentCounters(lines, n);
    NumbersSnoc(f.spans, Span(n, 1));
    assert Range(n, 1) == [n];
  }

  lemma CleanFacts(digit: char -> bool, lines: seq<string>, f: Scanner, n: nat)
    requires n <= |lines| && Clean(digit, lines, f, n)
    ensures f.buffer == [] && AllFaithful(digit, lines, f.out, f.spans) && Numbers(f.spans) == ContentBelow(lines, n)
  {
    hide AllFaithful, Numbers, ContentBelow;
  }

  lemma HeadingClass(digit: char -> bool, line: string)
    requires IsHeading(line)
    ensures Class(digit, line).Heading?
  {
  }

  lemma HeadingFaithful(digit: char -> bool, lines: seq<string>, n: nat, k: nat, section: nat)
    requires n < |lines| && Content(lines, n) && IsHeading(lines[n]) && section == Headings(lines, n + 1)
    ensures Faithful(digit, lines, Unit(k + 1, section, n + 1, Heading, Strip(lines[n])), k, Span(n, 1))
  {
    StartedBlock(digit, lines, n);
    StripMeaning(lines[n]);
    assert !Blank(lines[n]);
    hide Block, Strip, Headings, Content, IsListItem, IsHeading;
  }

  lemma StepOnHeading(digit: char -> bool, lines: seq<string>, s: Scanner, n: nat)
    requires n < |lines| && Content(lines, n) && IsHeading(lines[n])
    requires s.fence == FenceBefore(lines, n) && (s.buffer != [] ==> s.first > 0)
    ensures var f := Flush(s);
      Step(digit, s, lines[n], n + 1) == Emit(f.(section := f.section + 1), lines[n], n + 1, Heading, 1)
  {
    hide Flush, Emit, Class, IsHeading, FenceBefore, FenceChar, Blank;
  }

  lemma HeadingGood(digit: char -> bool, lines: seq<string>, s: Scanner, n: nat)
    requires n < |lines| && Good(digit, lines, s, n) && Content(lines, n) && IsHeading(lines[n])
    ensures Good(digit, lines, Step(digit, s, lines[n], n + 1), n + 1)
  {
    hide *;
    GoodCounters(digit, lines, s, n);
    StepOnHeading(digit, lines, s, n);
    FlushGood(digit, lines, s, n);
    HeadingClean(digit, lines, Flush(s), n);
  }

  lemma HeadingClean(digit: char -> bool, lines: seq<string>, f: Scanner, n: nat)
    requires n < |lines| && Content(lines, n) && IsHeading(lines[n])
    requires Clean(digit, lines, f, n) && f.fence == FenceBefore(lines, n) && f.section == Headings(lines, n)
    ensures Good(digit, lines, Emit(f.(section := f.section + 1), lines[n], n + 1, Heading, 1), n + 1)
  {
    hide *;
    CleanFacts(digit, lines, f, n);
    HeadingClass(digit, lines[n]);
    var g := f.(section := f.section + 1);
    var t := Emit(g, lines[n], n + 1, Heading, 1);
    ContentCounters(lines, n);
    HeadingFaithful(digit, lines, n, |g.out|, g.section);
    EmitGood(digit, lines, g, lines[n], n + 1, Heading, 1);
    CleanSnoc(digit, lines, f, t, n);
    CleanGood(digit, lines, t, n);
  }

  /** A line that begins a block is a block of one line until something continues it. */
  lemma StartedBlock(digit: char -> bool, lines: seq<string>, n: nat)
    requires n < |lines| && Begins(digit, lines, n)
    ensures Block(digit, lines, Span(n, 1))
    ensures [StripRight(lines[n])] == Trimmed(lines[n..n + 1])
  {
    assert lines[n..n + 1] == [lines[n]];
  }

  /** The scanner just after a block has been started at line `n`. */
  function Started(f: Scanner, line: string, n: nat, kind: Kind): Scanner {
    f.(kind := kind, first := n + 1, buffer := [StripRight(line)])
  }

  lemma NotHeading(digit: char -> bool, line: string)
    requires !Class(digit, line).Heading?
    ensures !IsHeading(line)
  {
  }

  lemma StartedCollected(digit: char -> bool, lines: seq<string>, n: nat)
    requires n < |lines| && Begins(digit, lines, n)
    requires Class(digit, lines[n]).ListItem? || Class(digit, lines[n]).Paragraph?
    ensures Collected(digit, lines, [StripRight(lines[n])], Class(digit, lines[n]), n, n + 1)
    ensures Range(n, 1) == [n]
  {
    StartedBlock(digit, lines, n);
    hide Content, Class, Block, Begins, StripRight, Trimmed;
  }

  lemma StartedGood(digit: char -> bool, lines: seq<string>, f: Scanner, n: nat)
    requires n < |lines| && Begins(digit, lines, n) && Clean(digit, lines, f, n)
    requires f.fence.None? && f.section == Headings(lines, n)
    requires Class(digit, lines[n]).ListItem? || Class(digit, lines[n]).Paragraph?
    ensures Good(digit, lines, Started(f, lines[n], n, Class(digit, lines[n])), n + 1)
  {
    var s := Started(f, lines[n], n, Class(digit, lines[n]));
    assert s.fence == f.fence && s.section == f.section && s.out == f.out && s.spans == f.spans && s.first == n + 1;
    assert s.kind == Class(digit, lines[n]) && s.buffer == [StripRight(lines[n])];
    assert AllFaithful(digit, lines, f.out, f.spans) && Numbers(f.spans) == ContentBelow(lines, n);
    assert Content(lines, n);
    hide *;
    NotHeading(digit, lines[n]);
    ContentCounters(lines, n);
    StartedCollected(digit, lines, n);
    BusyGood(digit, lines, s, n, n + 1);
  }

  lemma ListGood(digit: char -> bool, lines: seq<string>, s: Scanner, n: nat)
    requires n < |lines| && Good(digit, lines, s, n) && Content(lines, n) && Class(digit, lines[n]).ListItem?
    ensures Good(digit, lines, Step(digit, s, lines[n], n + 1), n + 1)
  {
    FlushGood(digit, lines, s, n);
    assert Step(digit, s, lines[n], n + 1) == Started(Flush(s), lines[n], n, ListItem);
    hide Step, Flush, Clean, BufferOk, AllFaithful, Class, Headings;
    StartedGood(digit, lines, Flush(s), n);
  }

  lemma TableGood(digit: char -> bool, lines: seq<string>, s: Scanner, n: nat)
    requires n < |lines| && Good(digit, lines, s, n) && Content(lines, n) && Class(digit, lines[n]).Table?
    ensures Good(digit, lines, Step(digit, s, lines[n], n + 1), n + 1)
  {
    var f := Flush(s);
    var t := Flush(Started(f, lines[n], n, Table));
    assert Step(digit, s, lines[n], n + 1) == t by {
      hide Flush, FenceBefore, Headings, BufferOk, AllFaithful, IsHeading, IsListItem, StripRight;
    }
    assert !IsHeading(lines[n]);
    hide Content, Flush, Step, FenceBefore, Headings, ContentBelow;
    hide AllFaithful, Numbers, Class, Block, IsHeading, Started;
    FlushGood(digit, lines, s, n);
    ContentCounters(lines, n);
    TableLine(digit, lines, f, n);
    CleanGood(digit, lines, t, n);
  }

  lemma TableFaithful(digit: char -> bool, lines: seq<string>, n: nat, k: nat, section: nat)
    requires n < |lines| && Content(lines, n) && Class(digit, lines[n]).Table? && section == Headings(lines, n + 1)
    ensures var unit := Unit(k + 1, section, n + 1, Table, Strip(Join([StripRight(lines[n])], "\n")));
      Faithful(digit, lines, unit, k, Span(n, 1))
  {
    var value := Join([StripRight(lines[n])], "\n");
    StartedBlock(digit, lines, n);
    assert !Blank(lines[n]) && !IsHeading(lines[n]);
    hide Content, Begins, StripRight, IsListItem, IsHeading, Headings, Join, Block, Class, Strip;
    TrimmedVisible(lines[n]);
    JoinVisible([StripRight(lines[n])], "\n");
    StripMeaning(value);
  }

  lemma TableLine(digit: char -> bool, lines: seq<string>, f: Scanner, n: nat)
    requires n < |lines| && Content(lines, n) && Class(digit, lines[n]).Table?
    requires Clean(digit, lines, f, n) && f.section == Headings(lines, n + 1)
    ensures var t := Flush(Started(f, lines[n], n, Table));
      Clean(digit, lines, t, n + 1) && t.section == f.section && t.fence == f.fence
  {
    var g := Started(f, lines[n], n, Table);
    var value := Join(g.buffer, "\n");
    hide AllFaithful, Faithful, Headings, Numbers, ContentBelow, Content, Class, Join, Emit, Strip, StripRight;
    ContentCounters(lines, n);
    TableFaithful(digit, lines, n, |g.out|, g.section);
    EmitGood(digit, lines, g, value, n + 1, Table, 1);
    CleanSnoc(digit, lines, f, Flush(g), n);
  }

  /** A paragraph line extends the block in progress. */
  lemma ExtendedBlock(digit: char -> bool, lines: seq<string>, buffer: seq<string>, kind: Kind, a: nat, n: nat)
    requires n < |lines| && Collected(digit, lines, buffer, kind, a, n)
    requires Content(lines, n) && Class(digit, lines[n]).Paragraph?
    ensures Collected(digit, lines, buffer + [StripRight(lines[n])], kind, a, n + 1)
  {
    hide Content, Class, StripRight;
    assert Content(lines, n - 1);
    assert !Begins(digit, lines, n);
    hide Begins;
    assert lines[a..n + 1] == lines[a..n] + [lines[n]];
  }

  lemma ContinuedGood(digit: char -> bool, lines: seq<string>, s: Scanner, n: nat)
    requires n < |lines| && Good(digit, lines, s, n) && s.buffer != []
    requires Content(lines, n) && Class(digit, lines[n]).Paragraph?
    ensures Good(digit, lines, s.(buffer := s.buffer + [StripRight(lines[n])]), n + 1)
  {
    hide *;
    NotHeading(digit, lines[n]);
    BusyFacts(digit, lines, s, n);
    var a := s.first - 1;
    ContentCounters(lines, n);
    ExtendedBlock(digit, lines, s.buffer, s.kind, a, n);
    RangeSnoc(a, n - a);
    assert Numbers(s.spans) + Range(a, n + 1 - a) == Numbers(s.spans) + Range(a, n - a) + [n];
    BusyGood(digit, lines, s.(buffer := s.buffer + [StripRight(lines[n])]), a, n + 1);
  }

  lemma RangeSnoc(start: nat, count: nat)
    ensures Range(start, count + 1) == Range(start, count) + [start + count]
  {
  }

  lemma ParagraphGood(digit: char -> bool, lines: seq<string>, s: Scanner, n: nat)
    requires n < |lines| && Good(digit, lines, s, n) && Content(lines, n) && Class(digit, lines[n]).Paragraph?
    ensures Good(digit, lines, Step(digit, s, lines[n], n + 1), n + 1)
  {
    ParagraphStep(digit, lines, s, n);
    if s.buffer == [] {
      FreshParagraph(digit, lines, s, n);
    } else {
      hide Step, Good, Started;
      ContinuedGood(digit, lines, s, n);
    }
  }

  lemma ParagraphStep(digit: char -> bool, lines: seq<string>, s: Scanner, n: nat)
    requires n < |lines| && Good(digit, lines, s, n) && Content(lines, n) && Class(digit, lines[n]).Paragraph?
    ensures Step(digit, s, lines[n], n + 1)
         == if s.buffer == [] then Started(s, lines[n], n, Paragraph)
            else s.(buffer := s.buffer + [StripRight(lines[n])])
  {
    hide AllFaithful, Headings, Numbers, ContentBelow, StripRight;
  }

  lemma FreshParagraph(digit: char -> bool, lines: seq<string>, s: Scanner, n: nat)
    requires n < |lines| && Good(digit, lines, s, n) && Content(lines, n) && Class(digit, lines[n]).Paragraph?
    requires s.buffer == []
    ensures Good(digit, lines, Started(s, lines[n], n, Paragraph), n + 1)
  {
    assert Begins(digit, lines, n);
    FlushGood(digit, lines, s, n);
    hide Step, AllFaithful, Class, Headings, Begins;
    StartedGood(digit, lines, s, n);
  }

  lemma StepGood(digit: char -> bool, lines: seq<string>, s: Scanner, n: nat)
    requires n < |lines| && Good(digit, lines, s, n)
    ensures Good(digit, lines, Step(digit, s, lines[n], n + 1), n + 1)
  {
    if !Content(lines, n) {
      QuietGood(digit, lines, s, n);
    } else {
      match Class(digit, lines[n]) {
        case Heading => HeadingGood(digit, lines, s, n);
        case Table => TableGood(digit, lines, s, n);
        case ListItem => ListGood(digit, lines, s, n);
        case Paragraph => ParagraphGood(digit, lines, s, n);
      }
    }
  }

  lemma NothingScanned(digit: char -> bool, lines: seq<string>)
    ensures Good(digit, lines, Scan(digit, lines, 0), 0)
  {
  }

  lemma {:induction false} EveryScanGood(digit: char -> bool, lines: seq<string>, n: nat)
    requires n <= |lines|
    ensures Good(digit, lines, Scan(digit, lines, n), n)
  {
    hide *;
    if n == 0 {
      NothingScanned(digit, lines);
    } else {
      EveryScanGood(digit, lines, n - 1);
      ScanStep(digit, lines, n - 1);
      StepGood(digit, lines, Scan(digit, lines, n - 1), n - 1);
    }
  }

  // ---- Conservation ----------------------------------------------------------------------------

  /** For every document: the units are one per block, in order, with the right number,
      section, line, kind and text; their lines, taken together, are exactly the visible
      lines outside fences, each once; and the splitter raises exactly when a fence is
      still open at the end. */
  lemma Conservation(digit: char -> bool, lines: seq<string>)
    ensures var s := Finish(digit, lines);
      && AllFaithful(digit, lines, s.out, s.spans)
      && Numbers(s.spans) == ContentBelow(lines, |lines|)
      && s.fence == FenceBefore(lines, |lines|)
  {
    EveryScanGood(digit, lines, |lines|);
    FlushGood(digit, lines, Scan(digit, lines, |lines|), |lines|);
  }

  /** The branch that flushes a pending table before a paragraph line is dead code. */
  lemma {:induction false} TableFlushIsDead(digit: char -> bool, lines: seq<string>, n: nat)
    requires n <= |lines|
    ensures var s := Scan(digit, lines, n); !(s.buffer != [] && s.kind.Table?)
  {
    EveryScanGood(digit, lines, n);
  }

  // ---- Order and exactness -----------------------------------------------------------------------

  predicate Covers(span: Span, j: int) {
    span.start <= j < span.start + span.count
  }

  predicate Increasing(xs: seq<nat>) {
    forall i, j | 0 <= i < j < |xs| :: xs[i] < xs[j]
  }

  lemma {:induction false} ContentIncreases(lines: seq<string>, n: nat)
    requires n <= |lines|
    ensures Increasing(ContentBelow(lines, n))
    ensures forall j: nat :: j in ContentBelow(lines, n) <==> j < n && Content(lines, j)
  {
    if n > 0 {
      ContentIncreases(lines, n - 1);
      var before, xs := ContentBelow(lines, n - 1), ContentBelow(lines, n);
      assert xs == before + (if Content(lines, n - 1) then [n - 1] else []);
      hide Content, ContentBelow;
      IncreasesPast(before, n - 1);
      assert forall j: nat :: j in before ==> j < n - 1;
      forall j: nat
        ensures j in xs <==> j < n && Content(lines, j)
      {
        assert j in xs <==> j in before || (j == n - 1 && Content(lines, n - 1));
      }
    }
  }

  lemma IncreasesPast(xs: seq<nat>, x: nat)
    requires Increasing(xs)
    ensures (forall y: nat :: y in xs ==> y < x) ==> Increasing(xs + [x])
  {
    assert forall i | 0 <= i < |xs| :: xs[i] in xs;
  }

  lemma {:induction false} NumbersCover(spans: seq<Span>, j: nat)
    ensures j in Numbers(spans) <==> exists k | 0 <= k < |spans| :: Covers(spans[k], j)
  {
    if spans != [] {
      var init, last := spans[..|spans| - 1], spans[|spans| - 1];
      NumbersCover(init, j);
      var r := Range(last.start, last.count);
      assert Numbers(spans) == Numbers(init) + r;
      if Covers(last, j) {
        assert r[j - last.start] == j;
      }
      if k :| 0 <= k < |init| && Covers(init[k], j) {
        assert Covers(spans[k], j);
      }
      if k :| 0 <= k < |spans| && Covers(spans[k], j) && k < |init| {
        assert Covers(init[k], j);
      }
    }
  }

  lemma {:induction false} SpansSeparate(spans: seq<Span>, k: nat, l: nat)
    requires Increasing(Numbers(spans)) && k < l < |spans|
    requires forall i | 0 <= i < |spans| :: spans[i].count > 0
    ensures spans[k].start + spans[k].count <= spans[l].start
    decreases |spans|
  {
    var init, last := spans[..|spans| - 1], spans[|spans| - 1];
    var before, r := Numbers(init), Range(last.start, last.count);
    assert Numbers(spans) == before + r;
    assert forall i | 0 <= i < |before| :: before[i] == (before + r)[i];
    if l < |init| {
      SpansSeparate(init, k, l);
    } else {
      var end := spans[k].start + spans[k].count - 1;
      assert Covers(init[k], end);
      NumbersCover(init, end);
      var p :| 0 <= p < |before| && before[p] == end;
      assert (before + r)[|before|] == r[0] == last.start;
    }
  }

  /** Every visible line outside fences lands in exactly one unit, no other line lands in
      any, and the units' line ranges follow each other without overlap. */
  lemma EachLineOnce(digit: char -> bool, lines: seq<string>)
    ensures var spans := Finish(digit, lines).spans;
      && (forall j: nat | j < |lines| :: Content(lines, j) <==> exists k | 0 <= k < |spans| :: Covers(spans[k], j))
      && (forall k, l | 0 <= k < l < |spans| :: spans[k].start + spans[k].count <= spans[l].start)
  {
    Conservation(digit, lines);
    ContentIncreases(lines, |lines|);
    var s := Finish(digit, lines);
    assert forall k | 0 <= k < |s.spans| :: s.spans[k].count > 0 by {
      hide Finish, Content;
      assert forall k | 0 <= k < |s.out| :: Faithful(digit, lines, s.out[k], k, s.spans[k]);
    }
    hide Finish, Content, AllFaithful, Numbers, ContentBelow;
    forall j: nat | j < |lines|
      ensures Content(lines, j) <==> exists k | 0 <= k < |s.spans| :: Covers(s.spans[k], j)
    {
      NumbersCover(s.spans, j);
    }
    forall k, l | 0 <= k < l < |s.spans|
      ensures s.spans[k].start + s.spans[k].count <= s.spans[l].start
    {
      SpansSeparate(s.spans, k, l);
    }
  }
}
