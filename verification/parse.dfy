/**
  What the whole pass produces: the tree of a pattern made of plain
  characters and `|`, the column every error points at, and the balance
  of the parentheses of a pattern the parse accepts.
 */
module ParseFacts {
  import opened Wrappers
  import opened Ast
  import opened Tokenizer
  import opened StepFacts
  import Brace

  /** The CHAR nodes of a run of characters, one per character and in order. */
  function Chars(s: seq<char>): (r: seq<Node>)
    ensures |r| == |s| && forall k :: 0 <= k < |s| ==> r[k] == Char(s[k] as nat)
  {
    if s == [] then [] else [Char(s[0] as nat)] + Chars(s[1..])
  }

  /** `Chars` of each piece. */
  function CharsEach(ps: seq<seq<char>>): (r: seq<seq<Node>>)
    ensures |r| == |ps| && forall k :: 0 <= k < |ps| ==> r[k] == Chars(ps[k])
  {
    if ps == [] then [] else [Chars(ps[0])] + CharsEach(ps[1..])
  }

  // Splitting a pattern at its `|` characters.

  /** How many `|` characters `s` holds. */
  function Bars(s: seq<char>): nat {
    if s == [] then 0 else (if s[0] == '|' then 1 else 0) + Bars(s[1..])
  }

  /** The pieces of `s` between its `|` characters, in order. */
  function Split(s: seq<char>): (ps: seq<seq<char>>)
    ensures |ps| > 0
  {
    if s == [] then [[]]
    else
      var ps := Split(s[1..]);
      if s[0] == '|' then [[]] + ps else [[s[0]] + ps[0]] + ps[1..]
  }

  /** The pieces put back together with a `|` between each two. */
  function Join(ps: seq<seq<char>>): seq<char>
    requires |ps| > 0
  {
    if |ps| == 1 then ps[0] else ps[0] + ['|'] + Join(ps[1..])
  }

  /** Splitting loses nothing, and no piece holds a `|`. */
  lemma {:induction false} SplitJoin(s: seq<char>)
    ensures Join(Split(s)) == s
    ensures forall k :: 0 <= k < |Split(s)| ==> '|' !in Split(s)[k]
  {
    if s != [] {
      var ps := Split(s[1..]);
      SplitJoin(s[1..]);
      if s[0] == '|' {
        assert Split(s)[1..] == ps;
        assert s == [] + ['|'] + Join(ps);
      } else {
        var qs := Split(s);
        assert qs[1..] == ps[1..];
        if |ps| == 1 {
          assert s == [s[0]] + ps[0];
        } else {
          assert Join(ps) == ps[0] + ['|'] + Join(ps[1..]);
          assert s == ([s[0]] + ps[0]) + ['|'] + Join(ps[1..]);
        }
        forall k | 0 <= k < |qs| ensures '|' !in qs[k] {
          if k > 0 {
            assert qs[k] == ps[k];
          }
        }
      }
    }
  }

  /** k bars make k + 1 pieces. */
  lemma {:induction false} SplitCount(s: seq<char>)
    ensures |Split(s)| == Bars(s) + 1
    ensures Bars(s) > 0 <==> '|' in s
  {
    if s != [] {
      SplitCount(s[1..]);
      assert s == [s[0]] + s[1..];
    }
  }

  // Patterns made of plain characters and `|`.

  /**
    What the rest of the pass makes of a pattern that, from position `i`
    on, holds only plain characters and `|`: the current group keeps its
    finished branches, its target gets the CHAR nodes up to the first `|`,
    and every further piece becomes a branch of its own; a group still
    open at the end is an error.
   */
  predicate AlternationFrom(str: seq<char>, tokenizeClass: ClassTokenizer, i: nat, groupStack: seq<Frame>, f: Frame)
    requires ScansWithin(tokenizeClass) && i <= |str|
  {
    var ps := Split(str[i..]);
    var r := Run(str, tokenizeClass, State(i, Tree(groupStack, f)));
    (|groupStack| != 0 ==> r == Err(UnterminatedGroup)) &&
    (|groupStack| == 0 ==>
      r.Ok? && r.value.Root? &&
      Branches(r.value.body) == f.closed + [f.last + Chars(ps[0])] + CharsEach(ps[1..]) &&
      (r.value.body.Options? <==> f.closed != [] || |ps| > 1))
  }

  lemma AlternationEnd(str: seq<char>, tokenizeClass: ClassTokenizer, groupStack: seq<Frame>, f: Frame)
    requires ScansWithin(tokenizeClass)
    ensures AlternationFrom(str, tokenizeClass, |str|, groupStack, f)
  {
    assert str[|str|..] == [];
    assert f.last + Chars([]) == f.last;
  }

  lemma RunPipe(str: seq<char>, tokenizeClass: ClassTokenizer, i: nat, groupStack: seq<Frame>, f: Frame)
    requires ScansWithin(tokenizeClass) && i < |str| && str[i] == '|'
    ensures Run(str, tokenizeClass, State(i, Tree(groupStack, f))) ==
      Run(str, tokenizeClass, State(i + 1, Tree(groupStack, f.(closed := f.closed + [f.last], last := []))))
  {
    StepPipe(str, tokenizeClass, State(i, Tree(groupStack, f)));
  }

  lemma RunChar(str: seq<char>, tokenizeClass: ClassTokenizer, i: nat, groupStack: seq<Frame>, f: Frame)
    requires ScansWithin(tokenizeClass) && i < |str| && !IsSpecial(str[i])
    ensures Run(str, tokenizeClass, State(i, Tree(groupStack, f))) ==
      Run(str, tokenizeClass, State(i + 1, Tree(groupStack, f.(last := f.last + [Char(str[i] as nat)]))))
  {
    StepSingle(str, tokenizeClass, State(i, Tree(groupStack, f)), Char(str[i] as nat));
  }

  lemma SplitBar(s: seq<char>)
    requires |s| > 0 && s[0] == '|'
    ensures Split(s)[0] == [] && Split(s)[1..] == Split(s[1..])
  {
  }

  lemma SplitOther(s: seq<char>)
    requires |s| > 0 && s[0] != '|'
    ensures Split(s)[0] == [s[0]] + Split(s[1..])[0]
    ensures Split(s)[1..] == Split(s[1..])[1..]
  {
  }

  lemma CharsCons(x: seq<char>, c: char, last: seq<Node>)
    ensures last + Chars([c] + x) == (last + [Char(c as nat)]) + Chars(x)
  {
    assert ([c] + x)[1..] == x;
  }

  lemma CharsEachCons(ps: seq<seq<char>>)
    requires |ps| > 0
    ensures CharsEach(ps) == [Chars(ps[0])] + CharsEach(ps[1..])
  {
  }

  lemma BranchShape(closed: seq<seq<Node>>, last: seq<Node>, x: seq<Node>, rest: seq<seq<Node>>)
    ensures closed + [last + []] + ([x] + rest) == (closed + [last]) + [[] + x] + rest
  {
    assert last + [] == last;
    assert [] + x == x;
  }

  lemma StartShape(x: seq<Node>, rest: seq<seq<Node>>)
    ensures [] + [[] + x] + rest == [x] + rest
  {
    assert [] + x == x;
  }

  lemma AlternationPipe(str: seq<char>, tokenizeClass: ClassTokenizer, i: nat, groupStack: seq<Frame>, f: Frame)
    requires ScansWithin(tokenizeClass) && i < |str| && str[i] == '|'
    requires AlternationFrom(str, tokenizeClass, i + 1, groupStack, f.(closed := f.closed + [f.last], last := []))
    ensures AlternationFrom(str, tokenizeClass, i, groupStack, f)
  {
    RunPipe(str, tokenizeClass, i, groupStack, f);
    var s := str[i..];
    assert s[1..] == str[i + 1..];
    SplitBar(s);
    var qs := Split(s[1..]);
    CharsEachCons(qs);
    BranchShape(f.closed, f.last, Chars(qs[0]), CharsEach(qs[1..]));
  }

  lemma AlternationChar(str: seq<char>, tokenizeClass: ClassTokenizer, i: nat, groupStack: seq<Frame>, f: Frame)
    requires ScansWithin(tokenizeClass) && i < |str| && !IsSpecial(str[i])
    requires AlternationFrom(str, tokenizeClass, i + 1, groupStack, f.(last := f.last + [Char(str[i] as nat)]))
    ensures AlternationFrom(str, tokenizeClass, i, groupStack, f)
  {
    RunChar(str, tokenizeClass, i, groupStack, f);
    var s := str[i..];
    assert s[1..] == str[i + 1..];
    SplitOther(s);
    CharsCons(Split(s[1..])[0], s[0], f.last);
  }

  lemma {:induction false} AlternationRun(str: seq<char>, tokenizeClass: ClassTokenizer, i: nat, groupStack: seq<Frame>, f: Frame)
    requires ScansWithin(tokenizeClass) && i <= |str|
    requires forall k :: i <= k < |str| ==> str[k] == '|' || !IsSpecial(str[k])
    ensures AlternationFrom(str, tokenizeClass, i, groupStack, f)
    decreases |str| - i
  {
    if i == |str| {
      AlternationEnd(str, tokenizeClass, groupStack, f);
    } else if str[i] == '|' {
      AlternationRun(str, tokenizeClass, i + 1, groupStack, f.(closed := f.closed + [f.last], last := []));
      AlternationPipe(str, tokenizeClass, i, groupStack, f);
    } else {
      AlternationRun(str, tokenizeClass, i + 1, groupStack, f.(last := f.last + [Char(str[i] as nat)]));
      AlternationChar(str, tokenizeClass, i, groupStack, f);
    }
  }

  /**
    A pattern of plain characters and `|` parses to ROOT whose branches are
    the CHAR nodes of its `|`-separated pieces, in order: k bars give k + 1
    branches, and ROOT has options exactly when there is a bar.
   */
  lemma AlternationOfLiterals(str: seq<char>, tokenizeClass: ClassTokenizer)
    requires ScansWithin(tokenizeClass)
    requires forall k :: 0 <= k < |str| ==> str[k] == '|' || !IsSpecial(str[k])
    ensures var r := Parse(str, tokenizeClass);
      r.Ok? && r.value.Root? &&
      Branches(r.value.body) == CharsEach(Split(str)) &&
      |Branches(r.value.body)| == Bars(str) + 1 &&
      (r.value.body.Options? <==> '|' in str)
  {
    AlternationRun(str, tokenizeClass, 0, [], Start.tree.lastGroup);
    assert str[0..] == str;
    var ps := Split(str);
    CharsEachCons(ps);
    StartShape(Chars(ps[0]), CharsEach(ps[1..]));
    SplitCount(str);
  }

  /** A pattern with no character of special meaning is ROOT whose stack is the CHAR nodes of its characters, in order. */
  lemma LiteralPattern(str: seq<char>, tokenizeClass: ClassTokenizer)
    requires ScansWithin(tokenizeClass)
    requires forall k :: 0 <= k < |str| ==> !IsSpecial(str[k])
    ensures Parse(str, tokenizeClass) == Ok(Root(Stack(Chars(str))))
  {
    AlternationOfLiterals(str, tokenizeClass);
    SplitCount(str);
    SplitJoin(str);
    var r := Parse(str, tokenizeClass);
    assert '|' !in str;
    assert Split(str) == [str];
    assert r.value.body.Stack?;
  }

  // Where errors point.

  /**
    The character an error reports is the one that caused it: a
    quantifier with nothing before it, the character after `(?`, a `)`
    with no group open, a final lone `\`; a group left open needs a `(`
    and an unterminated class a `[`.
   */
  predicate ErrorAt(str: seq<char>, e: ParseError) {
    match e
    case NothingToRepeat(column) => column < |str| && str[column] in "?+*{"
    case InvalidGroup(column, found) =>
      2 <= column <= |str| && str[column - 2] == '(' && str[column - 1] == '?' && found == At(str, column) &&
      found != Some('=') && found != Some('!') && found != Some(':')
    case UnmatchedParen(column) => column < |str| && str[column] == ')'
    case UnterminatedGroup => '(' in str
    case UnterminatedClass => '[' in str
    case TrailingBackslash(column) => column + 1 == |str| && str[column] == '\\'
  }

  /** An error stops one turn of the loop only at a character that explains it. */
  lemma StepErrorAt(str: seq<char>, tokenizeClass: ClassTokenizer, st: State)
    requires ScansWithin(tokenizeClass) && st.i < |str|
    requires Step(str, tokenizeClass, st).Err?
    ensures ErrorAt(str, Step(str, tokenizeClass, st).error)
  {
    var c := str[st.i];
    if c in "?+*" {
      QuantifierSplice(str, tokenizeClass, st);
    } else if c == '{' {
      StepBrace(str, tokenizeClass, st.i, st.tree);
    } else if c == '(' {
      GroupKinds(str, tokenizeClass, st);
    } else if c == ')' {
      CloseRestores(str, tokenizeClass, st);
    } else if c == '\\' {
      EscapeStep(str, tokenizeClass, st);
    } else if c == '[' {
      ClassStep(str, tokenizeClass, st);
    }
  }

  lemma {:induction false} RunErrorAt(str: seq<char>, tokenizeClass: ClassTokenizer, st: State)
    requires ScansWithin(tokenizeClass) && st.i <= |str|
    requires |st.tree.groupStack| > 0 ==> '(' in str
    requires Run(str, tokenizeClass, st).Err?
    ensures ErrorAt(str, Run(str, tokenizeClass, st).error)
    decreases |str| - st.i
  {
    if st.i < |str| {
      var r := Step(str, tokenizeClass, st);
      if r.Err? {
        StepErrorAt(str, tokenizeClass, st);
      } else {
        GroupStackDiscipline(str, tokenizeClass, st);
        RunErrorAt(str, tokenizeClass, r.value);
      }
    }
  }

  /** Every error a parse reports points at a character of the pattern that causes it. */
  lemma ErrorColumns(str: seq<char>, tokenizeClass: ClassTokenizer)
    requires ScansWithin(tokenizeClass) && Parse(str, tokenizeClass).Err?
    ensures ErrorAt(str, Parse(str, tokenizeClass).error)
  {
    RunErrorAt(str, tokenizeClass, Start);
  }

  // Balanced parentheses.

  /** The change a character makes to the nesting depth. */
  function Delta(c: char): int {
    if c == '(' then 1 else if c == ')' then -1 else 0
  }

  /** Opening minus closing parentheses of `s`. */
  function Depth(s: seq<char>): int {
    if s == [] then 0 else Depth(s[..|s| - 1]) + Delta(s[|s| - 1])
  }

  /** No prefix of `str[..n]` closes more parentheses than it opened. */
  predicate NeverNegative(str: seq<char>, n: nat)
    requires n <= |str|
  {
    forall j :: 0 <= j <= n ==> Depth(str[..j]) >= 0
  }

  /** No escape and no bracket class, so every parenthesis of the text is one the tokenizer reads as such. */
  predicate Plain(str: seq<char>) {
    forall k :: 0 <= k < |str| ==> str[k] != '\\' && str[k] != '['
  }

  lemma DepthNext(str: seq<char>, i: nat)
    requires i < |str|
    ensures Depth(str[..i + 1]) == Depth(str[..i]) + Delta(str[i])
  {
    assert str[..i + 1][..i] == str[..i];
  }

  /** A stretch without parentheses leaves the depth as it is. */
  lemma {:induction false} DepthFlat(str: seq<char>, i: nat, j: nat)
    requires i <= j <= |str|
    requires forall k :: i <= k < j ==> Delta(str[k]) == 0
    ensures forall m :: i <= m <= j ==> Depth(str[..m]) == Depth(str[..i])
    decreases j - i
  {
    if i < j {
      DepthFlat(str, i, j - 1);
      DepthNext(str, j - 1);
    }
  }

  /**
    What one turn of the loop over a plain pattern does to the depth: on
    success the group stack is as deep as the parentheses read so far and
    no prefix read in this turn went below zero; a `)` with no group open
    is reported at its own column, where the depth first goes negative.
   */
  predicate KeepsDepth(str: seq<char>, st: State, r: Result<State, ParseError>)
    requires st.i < |str| && (r.Ok? ==> r.value.i <= |str|)
  {
    (r.Ok? ==>
      |r.value.tree.groupStack| == Depth(str[..r.value.i]) &&
      forall m :: st.i < m <= r.value.i ==> Depth(str[..m]) >= 0) &&
    (r.Err? && r.error.UnmatchedParen? ==> r.error.column == st.i && Depth(str[..st.i + 1]) == -1)
  }

  /** The characters that neither open nor close a group and are read one at a time. */
  lemma StepAdvance(str: seq<char>, tokenizeClass: ClassTokenizer, st: State)
    requires ScansWithin(tokenizeClass) && st.i < |str|
    requires str[st.i] in "^$.|?+*" || !IsSpecial(str[st.i])
    ensures var r := Step(str, tokenizeClass, st);
      (r.Ok? ==> r.value.i == st.i + 1 && r.value.tree.groupStack == st.tree.groupStack) &&
      (r.Err? ==> r.error.NothingToRepeat?)
  {
  }

  lemma DepthOther(str: seq<char>, tokenizeClass: ClassTokenizer, st: State)
    requires ScansWithin(tokenizeClass) && st.i < |str|
    requires str[st.i] in "^$.|?+*" || !IsSpecial(str[st.i])
    requires |st.tree.groupStack| == Depth(str[..st.i])
    ensures KeepsDepth(str, st, Step(str, tokenizeClass, st))
  {
    StepAdvance(str, tokenizeClass, st);
    DepthNext(str, st.i);
  }

  lemma DepthClose(str: seq<char>, tokenizeClass: ClassTokenizer, st: State)
    requires ScansWithin(tokenizeClass) && st.i < |str| && str[st.i] == ')'
    requires |st.tree.groupStack| == Depth(str[..st.i])
    ensures KeepsDepth(str, st, Step(str, tokenizeClass, st))
  {
    StepClose(str, tokenizeClass, st);
    DepthNext(str, st.i);
  }

  lemma DepthOpen(str: seq<char>, tokenizeClass: ClassTokenizer, st: State)
    requires ScansWithin(tokenizeClass) && st.i < |str| && str[st.i] == '('
    requires |st.tree.groupStack| == Depth(str[..st.i])
    ensures KeepsDepth(str, st, Step(str, tokenizeClass, st))
  {
    var r := Step(str, tokenizeClass, st);
    GroupKinds(str, tokenizeClass, st);
    DepthNext(str, st.i);
    if r.Ok? {
      DepthFlat(str, st.i + 1, r.value.i);
    }
  }

  /** The text a brace quantifier consumes holds no parenthesis. */
  lemma BraceFlat(str: seq<char>, i: nat)
    requires i < |str| && Brace.Match(str[i + 1..]).Some?
    ensures i + 1 + Brace.Match(str[i + 1..]).value.length <= |str|
    ensures forall m :: i + 1 <= m <= i + 1 + Brace.Match(str[i + 1..]).value.length ==> Depth(str[..m]) == Depth(str[..i + 1])
  {
    var s := str[i + 1..];
    Brace.MatchSpan(s);
    var n := Brace.Match(s).value.length;
    forall k | i + 1 <= k < i + 1 + n ensures Delta(str[k]) == 0 {
      assert s[k - i - 1] == str[k];
    }
    DepthFlat(str, i + 1, i + 1 + n);
  }

  lemma DepthBraceQuantifier(str: seq<char>, tokenizeClass: ClassTokenizer, st: State)
    requires ScansWithin(tokenizeClass) && st.i < |str| && str[st.i] == '{' && Brace.Match(str[st.i + 1..]).Some?
    requires |st.tree.groupStack| == Depth(str[..st.i])
    ensures KeepsDepth(str, st, Step(str, tokenizeClass, st))
  {
    StepBrace(str, tokenizeClass, st.i, st.tree);
    DepthNext(str, st.i);
    BraceFlat(str, st.i);
  }

  lemma DepthBraceLiteral(str: seq<char>, tokenizeClass: ClassTokenizer, st: State)
    requires ScansWithin(tokenizeClass) && st.i < |str| && str[st.i] == '{' && Brace.Match(str[st.i + 1..]).None?
    requires |st.tree.groupStack| == Depth(str[..st.i])
    ensures KeepsDepth(str, st, Step(str, tokenizeClass, st))
  {
    StepBrace(str, tokenizeClass, st.i, st.tree);
    DepthNext(str, st.i);
  }

  /** One turn of the loop over a plain pattern keeps the group stack as deep as the parentheses read so far. */
  lemma StepDepth(str: seq<char>, tokenizeClass: ClassTokenizer, st: State)
    requires ScansWithin(tokenizeClass) && st.i < |str| && Plain(str)
    requires |st.tree.groupStack| == Depth(str[..st.i])
    ensures KeepsDepth(str, st, Step(str, tokenizeClass, st))
  {
    var c := str[st.i];
    if c == '(' {
      DepthOpen(str, tokenizeClass, st);
    } else if c == ')' {
      DepthClose(str, tokenizeClass, st);
    } else if c == '{' {
      if Brace.Match(str[st.i + 1..]).Some? {
        DepthBraceQuantifier(str, tokenizeClass, st);
      } else {
        DepthBraceLiteral(str, tokenizeClass, st);
      }
    } else {
      DepthOther(str, tokenizeClass, st);
    }
  }

  lemma RunOk(str: seq<char>, tokenizeClass: ClassTokenizer, st: State, next: State)
    requires ScansWithin(tokenizeClass) && st.i < |str| && Step(str, tokenizeClass, st) == Ok(next)
    ensures Run(str, tokenizeClass, st) == Run(str, tokenizeClass, next)
  {
  }

  /** What a whole pass over a plain pattern says about its parentheses. */
  predicate DepthOutcome(str: seq<char>, r: Result<Node, ParseError>) {
    (r.Ok? ==> Depth(str) == 0 && NeverNegative(str, |str|)) &&
    (r == Err(UnterminatedGroup) ==> Depth(str) > 0 && NeverNegative(str, |str|)) &&
    (r.Err? && r.error.UnmatchedParen? ==>
      r.error.column < |str| && Depth(str[..r.error.column + 1]) == -1 && NeverNegative(str, r.error.column))
  }

  lemma NeverNegativeExtend(str: seq<char>, i: nat, j: nat)
    requires i <= j <= |str| && NeverNegative(str, i)
    requires forall m :: i < m <= j ==> Depth(str[..m]) >= 0
    ensures NeverNegative(str, j)
  {
  }

  lemma RunErr(str: seq<char>, tokenizeClass: ClassTokenizer, st: State)
    requires ScansWithin(tokenizeClass) && st.i < |str| && Step(str, tokenizeClass, st).Err?
    ensures Run(str, tokenizeClass, st) == Err(Step(str, tokenizeClass, st).error)
  {
  }

  lemma RunEnd(str: seq<char>, tokenizeClass: ClassTokenizer, st: State)
    requires ScansWithin(tokenizeClass) && st.i == |str|
    ensures var r := Run(str, tokenizeClass, st);
      (r.Ok? <==> |st.tree.groupStack| == 0) && (r.Err? ==> r.error == UnterminatedGroup)
  {
  }

  lemma {:induction false} RunDepth(str: seq<char>, tokenizeClass: ClassTokenizer, st: State)
    requires ScansWithin(tokenizeClass) && st.i <= |str| && Plain(str)
    requires |st.tree.groupStack| == Depth(str[..st.i]) && NeverNegative(str, st.i)
    ensures DepthOutcome(str, Run(str, tokenizeClass, st))
    decreases |str| - st.i
  {
    if st.i == |str| {
      RunEnd(str, tokenizeClass, st);
      assert str[..|str|] == str;
    } else {
      var r := Step(str, tokenizeClass, st);
      StepDepth(str, tokenizeClass, st);
      if r.Ok? {
        NeverNegativeExtend(str, st.i, r.value.i);
        RunDepth(str, tokenizeClass, r.value);
        RunOk(str, tokenizeClass, st, r.value);
      } else {
        RunErr(str, tokenizeClass, st);
      }
    }
  }

  /**
    In a pattern without escapes and bracket classes, a successful parse
    means the parentheses balance and no prefix closes more than it opened;
    "Unmatched )" is reported at the first `)` that takes the depth below
    zero, and "Unterminated group" means more `(` than `)`.
   */
  lemma ParenBalance(str: seq<char>, tokenizeClass: ClassTokenizer)
    requires ScansWithin(tokenizeClass) && Plain(str)
    ensures var r := Parse(str, tokenizeClass);
      (r.Ok? ==> Depth(str) == 0 && NeverNegative(str, |str|)) &&
      (r == Err(UnterminatedGroup) ==> Depth(str) > 0) &&
      (r.Err? && r.error.UnmatchedParen? ==>
        r.error.column < |str| && Depth(str[..r.error.column + 1]) == -1 && NeverNegative(str, r.error.column))
  {
    assert str[..0] == [];
    RunDepth(str, tokenizeClass, Start);
  }
  // Two patterns worked through.

  lemma MatchThreeTwo()
    ensures Brace.Match("3,2}") == Some(Brace.Quantifier(3, Some(2), 4))
  {
    assert "3,2}" == Brace.Text("3", true, "2") + [];
    Brace.MatchComplete("3", true, "2", []);
    assert Brace.Decimal("3") == 3 && Brace.Decimal("2") == 2;
  }

  lemma ThreeTwoFirst(tokenizeClass: ClassTokenizer)
    requires ScansWithin(tokenizeClass)
    ensures Run("a{3,2}", tokenizeClass, Start) == Run("a{3,2}", tokenizeClass, State(1, Push(Start.tree, Char('a' as nat))))
  {
    StepSingle("a{3,2}", tokenizeClass, Start, Char('a' as nat));
    RunOk("a{3,2}", tokenizeClass, Start, State(1, Push(Start.tree, Char('a' as nat))));
  }

  lemma StepThreeTwo(tokenizeClass: ClassTokenizer, t: Tree)
    requires ScansWithin(tokenizeClass) && |t.lastGroup.last| > 0
    ensures Step("a{3,2}", tokenizeClass, State(1, t)) == Ok(State(6, Quantify(t, 3, Some(2))))
  {
    var str := "a{3,2}";
    assert str[2..] == "3,2}";
    MatchThreeTwo();
    StepBrace(str, tokenizeClass, 1, t);
  }

  lemma ThreeTwoBrace(tokenizeClass: ClassTokenizer, t: Tree)
    requires ScansWithin(tokenizeClass) && |t.lastGroup.last| > 0
    ensures Run("a{3,2}", tokenizeClass, State(1, t)) == Run("a{3,2}", tokenizeClass, State(6, Quantify(t, 3, Some(2))))
  {
    StepThreeTwo(tokenizeClass, t);
    RunOk("a{3,2}", tokenizeClass, State(1, t), State(6, Quantify(t, 3, Some(2))));
  }

  /** `a{3,2}`: the bounds are kept as written even though the minimum exceeds the maximum. */
  lemma BoundsAsWritten(tokenizeClass: ClassTokenizer)
    requires ScansWithin(tokenizeClass)
    ensures Parse("a{3,2}", tokenizeClass) == Ok(Root(Stack([Repetition(3, Some(2), Char('a' as nat))])))
  {
    var t := Push(Start.tree, Char('a' as nat));
    ThreeTwoFirst(tokenizeClass);
    ThreeTwoBrace(tokenizeClass, t);
    assert Quantify(t, 3, Some(2)).lastGroup.last == [Repetition(3, Some(2), Char('a' as nat))];
  }

  /** `{}`: with no digits after it, `{` is an ordinary character, and so is the `}` after it. */
  lemma EmptyBraces(tokenizeClass: ClassTokenizer)
    requires ScansWithin(tokenizeClass)
    ensures Parse("{}", tokenizeClass) == Ok(Root(Stack([Char('{' as nat), Char('}' as nat)])))
  {
    var str := "{}";
    assert Brace.Match(str[1..]).None?;
    StepBrace(str, tokenizeClass, 0, Start.tree);
    var s1 := State(1, Push(Start.tree, Char(123)));
    RunOk(str, tokenizeClass, Start, s1);
    StepSingle(str, tokenizeClass, s1, Char('}' as nat));
    var s2 := State(2, Push(s1.tree, Char('}' as nat)));
    RunOk(str, tokenizeClass, s1, s2);
    assert s2.tree.lastGroup.last == [Char('{' as nat), Char('}' as nat)];
  }
}
