/**
  What one turn of the tokenizer does to the tree, stated in terms of the
  source's own state: the target list `last`, the current group and the
  group stack.
 */
module StepFacts {
  import opened Wrappers
  import opened Ast
  import opened Tokenizer
  import Brace

  /** The bounds of `?`, `+` and `*`: (0, 1), (1, unbounded) and (0, unbounded). */
  function Bounds(c: char): (nat, Option<nat>)
    requires c in "?+*"
  {
    if c == '?' then (0, Some(1)) else if c == '+' then (1, None) else (0, None)
  }

  /**
    `?`, `+` and `*`: an empty target fails at the quantifier's column;
    otherwise only the last node of the target changes, wrapped with the
    quantifier's bounds, and scanning resumes at the next character.
   */
  lemma QuantifierSplice(str: seq<char>, tokenizeClass: ClassTokenizer, st: State)
    requires ScansWithin(tokenizeClass) && st.i < |str| && str[st.i] in "?+*"
    ensures var r := Step(str, tokenizeClass, st);
      (r.Err? <==> |st.tree.lastGroup.last| == 0) &&
      (r.Err? ==> r.error == NothingToRepeat(st.i)) &&
      (r.Ok? ==>
        r.value.i == st.i + 1 && OnlyLastChanged(st.tree, r.value.tree) &&
        Spliced(st.tree.lastGroup.last, r.value.tree.lastGroup.last, Bounds(str[st.i]).0, Bounds(str[st.i]).1))
  {
    var c := str[st.i];
    StepQuantifier(str, tokenizeClass, st, Bounds(c).0, Bounds(c).1);
  }

  /**
    `{` followed by a quantifier text: the bounds are the ones the text
    denotes, taken as written (a minimum above the maximum is kept), exactly
    the text is consumed, and only the last node of the target changes; an
    empty target fails at the column of `{`.
   */
  lemma BraceQuantifier(str: seq<char>, tokenizeClass: ClassTokenizer, st: State,
                        low: seq<char>, comma: bool, high: seq<char>, rest: seq<char>)
    requires ScansWithin(tokenizeClass) && st.i < |str| && str[st.i] == '{'
    requires Brace.WellFormedText(low, comma, high) && str[st.i + 1..] == Brace.Text(low, comma, high) + rest
    ensures var r := Step(str, tokenizeClass, st);
      var q := Brace.Denotes(low, comma, high);
      (r.Err? <==> |st.tree.lastGroup.last| == 0) &&
      (r.Err? ==> r.error == NothingToRepeat(st.i)) &&
      (r.Ok? ==>
        r.value.i == st.i + 1 + |Brace.Text(low, comma, high)| && OnlyLastChanged(st.tree, r.value.tree) &&
        Spliced(st.tree.lastGroup.last, r.value.tree.lastGroup.last, q.min, q.max))
  {
    Brace.MatchComplete(low, comma, high, rest);
    StepBrace(str, tokenizeClass, st.i, st.tree);
  }

  /**
    `{` not followed by a quantifier text is the character `{` itself: it
    is appended even to an empty target, and scanning resumes right after it.
   */
  lemma BraceLiteral(str: seq<char>, tokenizeClass: ClassTokenizer, st: State)
    requires ScansWithin(tokenizeClass) && st.i < |str| && str[st.i] == '{'
    requires forall low, comma, high, rest :: Brace.WellFormedText(low, comma, high) ==>
      str[st.i + 1..] != Brace.Text(low, comma, high) + rest
    ensures var r := Step(str, tokenizeClass, st);
      r.Ok? && r.value.i == st.i + 1 && OnlyLastChanged(st.tree, r.value.tree) &&
      r.value.tree.lastGroup.last == st.tree.lastGroup.last + [Char(123)]
  {
    var s := str[st.i + 1..];
    if Brace.Match(s).Some? {
      Brace.MatchSound(s);
      assert false;
    }
    StepBrace(str, tokenizeClass, st.i, st.tree);
  }

  /** The character at `i`, if there is one. */
  function At(str: seq<char>, i: nat): Option<char> {
    if i < |str| then Some(str[i]) else None
  }

  /**
    `\`: the escaped character's node is appended and both characters are
    consumed; a `\` that ends the pattern is an error at its own column.
   */
  lemma EscapeStep(str: seq<char>, tokenizeClass: ClassTokenizer, st: State)
    requires ScansWithin(tokenizeClass) && st.i < |str| && str[st.i] == '\\'
    ensures var r := Step(str, tokenizeClass, st);
      (r.Err? <==> st.i + 1 == |str|) &&
      (r.Err? ==> r.error == TrailingBackslash(st.i)) &&
      (r.Ok? ==>
        r.value.i == st.i + 2 && OnlyLastChanged(st.tree, r.value.tree) &&
        r.value.tree.lastGroup.last == st.tree.lastGroup.last + [EscapeNode(str[st.i + 1])])
  {
    StepEscape(str, tokenizeClass, st);
  }

  /**
    `[`: a leading `^` negates the class; the members and the length are
    the class tokenizer's, and scanning resumes after the characters it
    consumed.
   */
  lemma ClassStep(str: seq<char>, tokenizeClass: ClassTokenizer, st: State)
    requires ScansWithin(tokenizeClass) && st.i < |str| && str[st.i] == '['
    ensures var not := At(str, st.i + 1) == Some('^');
      var from := if not then st.i + 2 else st.i + 1;
      var scan := tokenizeClass(str[from..]);
      var r := Step(str, tokenizeClass, st);
      (r.Err? <==> scan.Unterminated?) &&
      (r.Err? ==> r.error == UnterminatedClass) &&
      (r.Ok? ==>
        r.value.i == from + scan.consumed && OnlyLastChanged(st.tree, r.value.tree) &&
        r.value.tree.lastGroup.last == st.tree.lastGroup.last + [Set(scan.members, not)])
  {
    var from := if At(str, st.i + 1) == Some('^') then st.i + 2 else st.i + 1;
    StepClass(str, tokenizeClass, st, from);
  }

  /**
    `(`: the current group goes onto the group stack and a new, empty group
    becomes current. A plain `(` remembers; `(?:`, `(?=` and `(?!` do not,
    the last two setting `followedBy` and `notFollowedBy`; any other
    character after `?`, or none, is an error reported at the column after
    the `?`.
   */
  lemma GroupKinds(str: seq<char>, tokenizeClass: ClassTokenizer, st: State)
    requires ScansWithin(tokenizeClass) && st.i < |str| && str[st.i] == '('
    ensures var r := Step(str, tokenizeClass, st);
      var special := At(str, st.i + 1) == Some('?');
      var kind := At(str, st.i + 2);
      (r.Err? <==> special && kind != Some('=') && kind != Some('!') && kind != Some(':')) &&
      (r.Err? ==> r.error == InvalidGroup(st.i + 2, kind)) &&
      (r.Ok? ==>
        r.value.i == (if special then st.i + 3 else st.i + 1) &&
        r.value.tree.groupStack == st.tree.groupStack + [st.tree.lastGroup] &&
        r.value.tree.lastGroup.closed == [] && r.value.tree.lastGroup.last == [] &&
        (r.value.tree.lastGroup.remember <==> !special) &&
        (r.value.tree.lastGroup.followedBy <==> special && kind == Some('=')) &&
        (r.value.tree.lastGroup.notFollowedBy <==> special && kind == Some('!')))
  {
    StepOpen(str, tokenizeClass, st);
  }

  /**
    `)`: fails at its own column when no group is open; otherwise the group
    stack is popped, the parent is current again with its flags, and the
    closed group is appended to the parent's target: its newest branch once
    it has options, its stack otherwise.
   */
  lemma CloseRestores(str: seq<char>, tokenizeClass: ClassTokenizer, st: State)
    requires ScansWithin(tokenizeClass) && st.i < |str| && str[st.i] == ')'
    ensures var r := Step(str, tokenizeClass, st);
      var stack := st.tree.groupStack;
      (r.Err? <==> |stack| == 0) &&
      (r.Err? ==> r.error == UnmatchedParen(st.i)) &&
      (r.Ok? ==>
        var parent := stack[|stack| - 1];
        var before := Branches(BodyOf(parent));
        var after := BodyOf(r.value.tree.lastGroup);
        r.value.i == st.i + 1 && r.value.tree.groupStack == stack[..|stack| - 1] &&
        SameFlags(r.value.tree.lastGroup, parent) &&
        after.Options? == BodyOf(parent).Options? &&
        Branches(after) == before[..|before| - 1] + [before[|before| - 1] + [GroupNode(st.tree.lastGroup)]])
  {
    StepClose(str, tokenizeClass, st);
    if |st.tree.groupStack| > 0 {
      var parent := st.tree.groupStack[|st.tree.groupStack| - 1];
      assert Branches(BodyOf(parent))[..|parent.closed|] == parent.closed;
    }
  }

  /**
    `|`: the first one turns the current group's stack into its first
    branch; every one adds exactly one new, empty branch, which becomes the
    target. The group stack and the group's flags do not change.
   */
  lemma PipeBranches(str: seq<char>, tokenizeClass: ClassTokenizer, st: State)
    requires ScansWithin(tokenizeClass) && st.i < |str| && str[st.i] == '|'
    ensures var r := Step(str, tokenizeClass, st);
      var before := BodyOf(st.tree.lastGroup);
      r.Ok? && r.value.i == st.i + 1 &&
      r.value.tree.groupStack == st.tree.groupStack && SameFlags(r.value.tree.lastGroup, st.tree.lastGroup) &&
      BodyOf(r.value.tree.lastGroup).Options? && r.value.tree.lastGroup.last == [] &&
      Branches(BodyOf(r.value.tree.lastGroup)) == Branches(before) + [[]] &&
      (before.Stack? ==> BodyOf(r.value.tree.lastGroup).options[0] == before.stack)
  {
    StepPipe(str, tokenizeClass, st);
  }

  /**
    The group stack is a stack: `(` pushes the current group, `)` pops,
    and every other character leaves it as it is.
   */
  lemma GroupStackDiscipline(str: seq<char>, tokenizeClass: ClassTokenizer, st: State)
    requires ScansWithin(tokenizeClass) && st.i < |str|
    ensures var r := Step(str, tokenizeClass, st);
      var stack := st.tree.groupStack;
      r.Ok? ==>
        r.value.tree.groupStack ==
          if str[st.i] == '(' then stack + [st.tree.lastGroup]
          else if str[st.i] == ')' then stack[..|stack| - 1]
          else stack
  {
  }
}
