/** The rendered-documentation checker: a stack automaton over HTML tags. */
module RenderedHtml {
  import opened Text

  /** Tags as the HTML parser reports them, with their line. */
  datatype Tag = Start(name: string, line: nat) | End(name: string, line: nat)

  datatype Problem =
    | RawFence(marker: string) | NestedPre(line: nat) | StrayClose(line: nat) | NoCode(line: nat) | UnclosedPre

  datatype Parser = Parser(stack: seq<bool>, errors: seq<Problem>)

  predicate PreStart(t: Tag) { t.Start? && t.name == "pre" }
  predicate PreEnd(t: Tag) { t.End? && t.name == "pre" }
  predicate CodeStart(t: Tag) { t.Start? && t.name == "code" }

  function Step(p: Parser, t: Tag): Parser {
    if PreStart(t) then
      Parser(p.stack + [false], if p.stack == [] then p.errors else p.errors + [NestedPre(t.line)])
    else if CodeStart(t) && p.stack != [] then p.(stack := p.stack[|p.stack| - 1 := true])
    else if PreEnd(t) then
      if p.stack == [] then p.(errors := p.errors + [StrayClose(t.line)])
      else
        Parser(p.stack[..|p.stack| - 1],
               if p.stack[|p.stack| - 1] then p.errors else p.errors + [NoCode(t.line)])
    else p
  }

  function Feed(tags: seq<Tag>): Parser {
    if tags == [] then Parser([], []) else Step(Feed(tags[..|tags| - 1]), tags[|tags| - 1])
  }

  class CodeBlockParser {
    var preStack: seq<bool>
    var errors: seq<Problem>

    constructor ()
      ensures View() == Parser([], [])
    {
      preStack, errors := [], [];
    }

    function View(): Parser
      reads this
    {
      Parser(preStack, errors)
    }

    method HandleStartTag(t: Tag)
      requires t.Start?
      modifies this
      ensures View() == Step(old(View()), t)
    {
      if t.name == "pre" {
        if preStack != [] {
          errors := errors + [NestedPre(t.line)];
        }
        preStack := preStack + [false];
      } else if t.name == "code" && preStack != [] {
        preStack := preStack[|preStack| - 1 := true];
      }
    }

    method HandleEndTag(t: Tag)
      requires t.End?
      modifies this
      ensures View() == Step(old(View()), t)
    {
      if t.name != "pre" {
        return;
      }
      if preStack == [] {
        errors := errors + [StrayClose(t.line)];
        return;
      }
      var hasCode := preStack[|preStack| - 1];
      preStack := preStack[..|preStack| - 1];
      if !hasCode {
        errors := errors + [NoCode(t.line)];
      }
    }
  }

  /** All problems of one page: surviving Markdown fences, then tag structure. */
  method CheckHtml(text: string, tags: seq<Tag>) returns (errors: seq<Problem>)
    ensures errors == [] <==> !Contains(text, "```") && !Contains(text, "~~~") && WellStructured(tags)
  {
    errors := [];
    if Contains(text, "```") {
      errors := errors + [RawFence("```")];
    }
    if Contains(text, "~~~") {
      errors := errors + [RawFence("~~~")];
    }
    var parser := new CodeBlockParser();
    for i := 0 to |tags|
      invariant parser.View() == Feed(tags[..i])
    {
      assert tags[..i + 1][..i] == tags[..i];
      if tags[i].Start? {
        parser.HandleStartTag(tags[i]);
      } else {
        parser.HandleEndTag(tags[i]);
      }
    }
    assert tags[..|tags|] == tags;
    StructureExactly(tags);
    errors := errors + parser.errors;
    if parser.preStack != [] {
      errors := errors + [UnclosedPre];
    }
  }

  // ---- What a well-structured page is ------------------------------------------------------

  function Depth(tags: seq<Tag>): int {
    if tags == [] then 0
    else
      var t := tags[|tags| - 1];
      Depth(tags[..|tags| - 1]) + (if PreStart(t) then 1 else if PreEnd(t) then -1 else 0)
  }

  /** `i` opens a block, `c` is a code tag after it, and no `pre` tag follows before `j`. */
  ghost predicate CodeBetween(tags: seq<Tag>, i: int, c: int, j: int) {
    && 0 <= i < c < j <= |tags| && PreStart(tags[i]) && CodeStart(tags[c])
    && forall m | i < m < j :: !PreStart(tags[m]) && !PreEnd(tags[m])
  }

  ghost predicate HasCode(tags: seq<Tag>, j: nat) {
    exists i, c :: CodeBetween(tags, i, c, j)
  }

  /** Never nested, never closed twice, and every closed block contains a code tag. */
  ghost predicate Orderly(tags: seq<Tag>) {
    && (forall k | 0 <= k <= |tags| :: 0 <= Depth(tags[..k]) <= 1)
    && (forall j | 0 <= j < |tags| && PreEnd(tags[j]) :: HasCode(tags, j))
  }

  ghost predicate WellStructured(tags: seq<Tag>) {
    Orderly(tags) && Depth(tags) == 0
  }

  lemma HasCodePrefix(tags: seq<Tag>, n: nat, j: nat)
    requires j <= n <= |tags|
    ensures HasCode(tags[..n], j) <==> HasCode(tags, j)
  {
    if HasCode(tags[..n], j) {
      var i, c :| CodeBetween(tags[..n], i, c, j);
      assert forall m | i < m < j :: tags[..n][m] == tags[m];
      assert CodeBetween(tags, i, c, j);
    }
    if HasCode(tags, j) {
      var i, c :| CodeBetween(tags, i, c, j);
      assert CodeBetween(tags[..n], i, c, j);
    }
  }

  /** How the last tag changes whether the open block has code. */
  lemma HasCodeNext(tags: seq<Tag>)
    requires tags != []
    ensures var n, t := |tags| - 1, tags[|tags| - 1];
      HasCode(tags, n + 1) <==>
        !PreStart(t) && !PreEnd(t) && (HasCode(tags, n) || (CodeStart(t) && OpenAt(tags, n)))
  {
    var n, t := |tags| - 1, tags[|tags| - 1];
    if HasCode(tags, n + 1) {
      var i, c :| CodeBetween(tags, i, c, n + 1);
      assert i < n;
      assert !PreStart(tags[n]) && !PreEnd(tags[n]);
      if c < n {
        assert CodeBetween(tags, i, c, n);
      } else {
        assert OpenSince(tags, i, n);
      }
    }
    if !PreStart(t) && !PreEnd(t) {
      if HasCode(tags, n) {
        var i, c :| CodeBetween(tags, i, c, n);
        assert CodeBetween(tags, i, c, n + 1);
      }
      if CodeStart(t) && OpenAt(tags, n) {
        var i :| OpenSince(tags, i, n);
        assert CodeBetween(tags, i, n, n + 1);
      }
    }
  }

  ghost predicate OpenSince(tags: seq<Tag>, i: int, j: int) {
    0 <= i < j <= |tags| && PreStart(tags[i]) && forall m | i < m < j :: !PreStart(tags[m]) && !PreEnd(tags[m])
  }

  ghost predicate OpenAt(tags: seq<Tag>, j: nat) {
    exists i :: OpenSince(tags, i, j)
  }

  lemma OpenNext(tags: seq<Tag>)
    requires tags != []
    ensures var n, t := |tags| - 1, tags[|tags| - 1];
      OpenAt(tags, n + 1) <==> PreStart(t) || (!PreEnd(t) && OpenAt(tags, n))
  {
    var n, t := |tags| - 1, tags[|tags| - 1];
    if PreStart(t) {
      assert OpenSince(tags, n, n + 1);
    }
    if OpenAt(tags, n + 1) && !PreStart(t) {
      var i :| OpenSince(tags, i, n + 1);
      assert i < n && OpenSince(tags, i, n);
    }
    if OpenAt(tags, n) && !PreStart(t) && !PreEnd(t) {
      var i :| OpenSince(tags, i, n);
      assert OpenSince(tags, i, n + 1);
    }
  }

  lemma OpenPrefix(tags: seq<Tag>, n: nat)
    requires n <= |tags|
    ensures OpenAt(tags[..n], n) <==> OpenAt(tags, n)
  {
    if OpenAt(tags[..n], n) {
      var i :| OpenSince(tags[..n], i, n);
      assert forall m | i < m < n :: tags[..n][m] == tags[m];
      assert OpenSince(tags, i, n);
    }
    if OpenAt(tags, n) {
      var i :| OpenSince(tags, i, n);
      assert OpenSince(tags[..n], i, n);
    }
  }

  lemma OrderlyNext(tags: seq<Tag>)
    requires tags != []
    ensures var init, t := tags[..|tags| - 1], tags[|tags| - 1];
      Orderly(tags) <==>
        Orderly(init) && 0 <= Depth(tags) <= 1 && (PreEnd(t) ==> HasCode(tags, |init|))
  {
    var init := tags[..|tags| - 1];
    assert forall k | 0 <= k <= |init| :: tags[..k] == init[..k];
    assert tags[..|tags|] == tags;
    forall j | 0 <= j < |init| ensures HasCode(init, j) <==> HasCode(tags, j) {
      HasCodePrefix(tags, |init|, j);
    }
  }

  /** While no error is recorded, the stack is the open block, if any, with its flag. */
  ghost predicate Tracks(tags: seq<Tag>) {
    var p := Feed(tags);
    && (p.errors == [] <==> Orderly(tags))
    && (p.errors == [] ==>
          && |p.stack| == Depth(tags)
          && (p.stack != [] <==> OpenAt(tags, |tags|))
          && (p.stack != [] ==> (p.stack[0] <==> HasCode(tags, |tags|))))
  }

  lemma {:induction false} EveryFeedTracks(tags: seq<Tag>)
    ensures Tracks(tags)
  {
    if tags == [] {
      assert Depth(tags[..0]) == 0;
    } else {
      var init := tags[..|tags| - 1];
      EveryFeedTracks(init);
      StepTracks(tags);
    }
  }

  lemma StepTracks(tags: seq<Tag>)
    requires tags != [] && Tracks(tags[..|tags| - 1])
    ensures Tracks(tags)
  {
    hide Orderly, HasCode, OpenAt;
    var init, t := tags[..|tags| - 1], tags[|tags| - 1];
    OrderlyDepth(init);
    OrderlyNext(tags);
    HasCodeNext(tags);
    OpenNext(tags);
    HasCodePrefix(tags, |init|, |init|);
    OpenPrefix(tags, |init|);
    if PreStart(t) {
      NewlyOpened(tags);
    }
  }

  lemma OrderlyDepth(tags: seq<Tag>)
    ensures Orderly(tags) ==> 0 <= Depth(tags) <= 1
  {
    assert tags[..|tags|] == tags;
  }

  lemma NewlyOpened(tags: seq<Tag>)
    requires tags != [] && PreStart(tags[|tags| - 1])
    ensures !HasCode(tags, |tags|)
  {
    HasCodeNext(tags);
  }

  /** The automaton ends without errors and with an empty stack exactly on pages whose
      `pre` elements are balanced, never nested, and each contain a code tag. */
  lemma StructureExactly(tags: seq<Tag>)
    ensures Feed(tags) == Parser([], []) <==> WellStructured(tags)
    ensures Feed(tags).errors == [] && Feed(tags).stack == [] <==> WellStructured(tags)
  {
    EveryFeedTracks(tags);
    hide Orderly, HasCode, OpenAt;
  }
}
