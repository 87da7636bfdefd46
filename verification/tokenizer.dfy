/**
  The tokenizer: one left-to-right pass over the decoded pattern that builds
  the tree. Its mutable state is the scan position `i`, the current group
  `lastGroup`, the stack `groupStack` of the groups that enclose it, and the
  list `last` of `lastGroup` that nodes are pushed onto.

  A group is kept in its frame while it is open and appended to its
  parent's `last` when its `)` is read; the source pushes the same object
  when the group opens and fills it in place, and nothing reads the
  parent's `last` in between, so the trees agree.

  `Step` is one turn of the loop and `Run` the whole loop, as functions;
  `Tokenize` is the loop itself, proved to compute `Parse`.
 */
module Tokenizer {
  import opened Wrappers
  import opened Ast
  import Brace

  /** A failed parse; `column` is the 0-based index of the offending character. */
  datatype ParseError =
    | NothingToRepeat(column: nat)
    | InvalidGroup(column: nat, found: Option<char>)
    | UnmatchedParen(column: nat)
    | UnterminatedGroup
    | UnterminatedClass
    | TrailingBackslash(column: nat)

  /** What the class tokenizer makes of the text after `[` (and after a leading `^`). */
  datatype ClassScan = Scanned(members: seq<ClassMember>, consumed: nat) | Unterminated

  type ClassTokenizer = seq<char> -> ClassScan

  /** The class tokenizer consumes at most the text it is given. */
  ghost predicate ScansWithin(tokenizeClass: ClassTokenizer) {
    forall rest: seq<char> :: tokenizeClass(rest).Scanned? ==> tokenizeClass(rest).consumed <= |rest|
  }

  /**
    ROOT or a group while it is being read. `last` is the list nodes go to;
    `closed` holds the branches that a `|` has already ended, so it is
    empty until the first `|`, and the source's `options` exist exactly
    when it is not.
   */
  datatype Frame = Frame(closed: seq<seq<Node>>, last: seq<Node>, remember: bool, followedBy: bool, notFollowedBy: bool)

  /** The body a frame stands for: its stack, or, once a `|` has been read, its options with `last` as the newest. */
  function BodyOf(f: Frame): (b: Body)
    ensures Branches(b) == f.closed + [f.last] && (b.Options? <==> f.closed != []) && WellFormedBody(b)
  {
    if f.closed == [] then Stack(f.last) else Options(f.closed + [f.last])
  }

  /** The GROUP node a closed frame becomes. */
  function GroupNode(f: Frame): Node {
    Group(BodyOf(f), f.remember, f.followedBy, f.notFollowedBy)
  }

  /** A frame with nothing read yet. */
  function Fresh(remember: bool, followedBy: bool, notFollowedBy: bool): Frame {
    Frame([], [], remember, followedBy, notFollowedBy)
  }

  /** `groupStack` holds the enclosing frames, ROOT's first; `lastGroup` is the current one. */
  datatype Tree = Tree(groupStack: seq<Frame>, lastGroup: Frame)

  /** The scan position and the tree built so far. */
  datatype State = State(i: nat, tree: Tree)

  /** ROOT is current, with an empty stack and no enclosing group. */
  const Start: State := State(0, Tree([], Fresh(false, false, false)))

  /** Both frames are the same kind of group: plain or not, lookahead or not. */
  predicate SameFlags(f: Frame, g: Frame) {
    f.remember == g.remember && f.followedBy == g.followedBy && f.notFollowedBy == g.notFollowedBy
  }

  /** Only the target list of the current group changed; its branches, flags and the group stack did not. */
  predicate OnlyLastChanged(t: Tree, u: Tree) {
    u.groupStack == t.groupStack && u.lastGroup.closed == t.lastGroup.closed && SameFlags(u.lastGroup, t.lastGroup)
  }

  /**
    `after` is `before` with its last node wrapped in a REPETITION with
    bounds `min` and `max`: same length, every earlier node unchanged.
   */
  predicate Spliced(before: seq<Node>, after: seq<Node>, min: nat, max: Option<nat>) {
    |before| > 0 && |after| == |before| &&
    (forall k :: 0 <= k < |before| - 1 ==> after[k] == before[k]) &&
    after[|before| - 1] == Repetition(min, max, before[|before| - 1])
  }

  /** `last.push(n)`: `n` becomes the newest node of the target and nothing else changes. */
  function Push(t: Tree, n: Node): (r: Tree)
    ensures OnlyLastChanged(t, r)
    ensures |r.lastGroup.last| == |t.lastGroup.last| + 1
    ensures r.lastGroup.last[..|t.lastGroup.last|] == t.lastGroup.last && r.lastGroup.last[|t.lastGroup.last|] == n
  {
    t.(lastGroup := t.lastGroup.(last := t.lastGroup.last + [n]))
  }

  /** A quantifier: the last node of `last` is popped, wrapped in a REPETITION and pushed back. */
  function Quantify(t: Tree, min: nat, max: Option<nat>): (r: Tree)
    requires |t.lastGroup.last| > 0
    ensures OnlyLastChanged(t, r) && Spliced(t.lastGroup.last, r.lastGroup.last, min, max)
  {
    var last := t.lastGroup.last;
    t.(lastGroup := t.lastGroup.(last := last[..|last| - 1] + [Repetition(min, max, last[|last| - 1])]))
  }

  /**
    A `|`: the current list becomes a finished branch and a new, empty one
    is current; the first one turns the stack into the first option.
   */
  function Alternate(t: Tree): (r: Tree)
    ensures r.groupStack == t.groupStack && SameFlags(r.lastGroup, t.lastGroup)
    ensures BodyOf(r.lastGroup).Options? && r.lastGroup.last == []
    ensures Branches(BodyOf(r.lastGroup)) == Branches(BodyOf(t.lastGroup)) + [[]]
    ensures BodyOf(t.lastGroup).Stack? ==> BodyOf(r.lastGroup).options[0] == BodyOf(t.lastGroup).stack
  {
    t.(lastGroup := t.lastGroup.(closed := t.lastGroup.closed + [t.lastGroup.last], last := []))
  }

  /** `(`: the current frame goes onto the top of the group stack and the new group is current. */
  function Enter(t: Tree, group: Frame): (r: Tree)
    ensures |r.groupStack| == |t.groupStack| + 1
    ensures r.groupStack[..|t.groupStack|] == t.groupStack && r.groupStack[|t.groupStack|] == t.lastGroup
    ensures r.lastGroup == group
  {
    Tree(t.groupStack + [t.lastGroup], group)
  }

  /**
    `)`: the group stack is popped and the parent, with its branches and
    kind unchanged, is current again; the closed group is the newest node
    of the parent's target.
   */
  function Leave(t: Tree): (r: Tree)
    requires |t.groupStack| > 0
    ensures var parent := t.groupStack[|t.groupStack| - 1];
      r.groupStack == t.groupStack[..|t.groupStack| - 1] &&
      r.lastGroup.closed == parent.closed && SameFlags(r.lastGroup, parent) &&
      |r.lastGroup.last| == |parent.last| + 1 && r.lastGroup.last[..|parent.last|] == parent.last &&
      r.lastGroup.last[|parent.last|] == GroupNode(t.lastGroup)
  {
    var parent := t.groupStack[|t.groupStack| - 1];
    Tree(t.groupStack[..|t.groupStack| - 1], parent.(last := parent.last + [GroupNode(t.lastGroup)]))
  }

  /**
    The node for `\` followed by `c`: a word boundary or its negation, one
    of the six predefined sets, a back-reference for a digit, and otherwise
    the character itself.
   */
  function EscapeNode(c: char): (n: Node)
    ensures n.Position? <==> c in "bB"
    ensures n.BuiltinSet? <==> c in "wWdDsS"
    ensures n.Reference? <==> Brace.IsDigit(c)
    ensures c == 'b' ==> n == Position(WordBoundary)
    ensures c == 'B' ==> n == Position(NonWordBoundary)
    ensures c == 'w' ==> n == BuiltinSet(Words)
    ensures c == 'W' ==> n == BuiltinSet(NotWords)
    ensures c == 'd' ==> n == BuiltinSet(Integers)
    ensures c == 'D' ==> n == BuiltinSet(NotIntegers)
    ensures c == 's' ==> n == BuiltinSet(Whitespace)
    ensures c == 'S' ==> n == BuiltinSet(NotWhitespace)
    ensures Brace.IsDigit(c) ==> n == Reference(c as nat - '0' as nat) && n.number < 10
    ensures c !in "bBwWdDsS" && !Brace.IsDigit(c) ==> n == Char(c as nat)
  {
    match c
    case 'b' => Position(WordBoundary)
    case 'B' => Position(NonWordBoundary)
    case 'w' => BuiltinSet(Words)
    case 'W' => BuiltinSet(NotWords)
    case 'd' => BuiltinSet(Integers)
    case 'D' => BuiltinSet(NotIntegers)
    case 's' => BuiltinSet(Whitespace)
    case 'S' => BuiltinSet(NotWhitespace)
    case _ => if Brace.IsDigit(c) then Reference(Brace.DigitValue(c)) else Char(c as nat)
  }

  /**
    A quantifier read at `column`: fails on an empty `last`, otherwise
    wraps its last node and resumes at `next`.
   */
  function Repeat(t: Tree, next: nat, min: nat, max: Option<nat>, column: nat): (r: Result<State, ParseError>)
    ensures r.Err? <==> |t.lastGroup.last| == 0
    ensures r.Err? ==> r.error == NothingToRepeat(column)
    ensures r.Ok? ==>
      r.value.i == next && OnlyLastChanged(t, r.value.tree) &&
      Spliced(t.lastGroup.last, r.value.tree.lastGroup.last, min, max)
  {
    if |t.lastGroup.last| == 0 then Err(NothingToRepeat(column))
    else Ok(State(next, Quantify(t, min, max)))
  }

  /** `(` read at `i - 1`: the group it opens, after any `?=`, `?!` or `?:` prefix. */
  function OpenGroupAt(str: seq<char>, i: nat, t: Tree): (r: Result<State, ParseError>)
    requires i <= |str|
    ensures r.Ok? ==> i <= r.value.i <= |str|
  {
    if i < |str| && str[i] == '?' then
      var after := if i + 1 < |str| then Some(str[i + 1]) else None;
      if after == Some('=') then Ok(State(i + 2, Enter(t, Fresh(false, true, false))))
      else if after == Some('!') then Ok(State(i + 2, Enter(t, Fresh(false, false, true))))
      else if after == Some(':') then Ok(State(i + 2, Enter(t, Fresh(false, false, false))))
      else Err(InvalidGroup(i + 1, after))
    else Ok(State(i, Enter(t, Fresh(true, false, false))))
  }

  /**
    `{` read at `i - 1`: a brace quantifier when the text after it matches
    one, otherwise the character `{` itself.
   */
  function BraceAt(str: seq<char>, i: nat, t: Tree): (r: Result<State, ParseError>)
    requires 0 < i <= |str|
    ensures r.Ok? ==> i <= r.value.i <= |str|
    ensures r.Err? ==> r.error == NothingToRepeat(i - 1)
  {
    match Brace.Match(str[i..])
    case None => Ok(State(i, Push(t, Char(123))))
    case Some(q) => Repeat(t, i + q.length, q.min, q.max, i - 1)
  }

  /** One turn of the main loop: reads the character at `st.i` and dispatches on it. */
  function Step(str: seq<char>, tokenizeClass: ClassTokenizer, st: State): (r: Result<State, ParseError>)
    requires ScansWithin(tokenizeClass) && st.i < |str|
    ensures r.Ok? ==> st.i < r.value.i <= |str|
  {
    var c := str[st.i];
    var i := st.i + 1;
    var t := st.tree;
    match c
    case '\\' =>
      if i == |str| then Err(TrailingBackslash(st.i))
      else Ok(State(i + 1, Push(t, EscapeNode(str[i]))))
    case '^' => Ok(State(i, Push(t, Position(Begin))))
    case '$' => Ok(State(i, Push(t, Position(End))))
    case '[' =>
      var not := i < |str| && str[i] == '^';
      var from := if not then i + 1 else i;
      (match tokenizeClass(str[from..])
       case Unterminated => Err(UnterminatedClass)
       case Scanned(members, n) => Ok(State(from + n, Push(t, Set(members, not)))))
    case '.' => Ok(State(i, Push(t, BuiltinSet(AnyChar))))
    case '(' => OpenGroupAt(str, i, t)
    case ')' =>
      if |t.groupStack| == 0 then Err(UnmatchedParen(st.i))
      else Ok(State(i, Leave(t)))
    case '|' => Ok(State(i, Alternate(t)))
    case '{' => BraceAt(str, i, t)
    case '?' => Repeat(t, i, 0, Some(1), st.i)
    case '+' => Repeat(t, i, 1, None, st.i)
    case '*' => Repeat(t, i, 0, None, st.i)
    case _ => Ok(State(i, Push(t, Char(c as nat))))
  }

  /** The loop from state `st` to the end of the input, then the check for groups left open. */
  function Run(str: seq<char>, tokenizeClass: ClassTokenizer, st: State): (r: Result<Node, ParseError>)
    requires ScansWithin(tokenizeClass) && st.i <= |str|
    ensures r.Ok? ==> r.value.Root? && WellFormedBody(r.value.body)
    decreases |str| - st.i
  {
    if st.i == |str| then
      if |st.tree.groupStack| != 0 then Err(UnterminatedGroup) else Ok(Root(BodyOf(st.tree.lastGroup)))
    else
      match Step(str, tokenizeClass, st)
      case Err(e) => Err(e)
      case Ok(next) => Run(str, tokenizeClass, next)
  }

  /** The tree of a decoded pattern, or the error that stops the scan. */
  function Parse(str: seq<char>, tokenizeClass: ClassTokenizer): (r: Result<Node, ParseError>)
    requires ScansWithin(tokenizeClass)
    ensures r.Ok? ==> r.value.Root? && WellFormedBody(r.value.body)
    ensures str == [] ==> r == Ok(Root(Stack([])))
  {
    Run(str, tokenizeClass, Start)
  }

  /** The characters with a meaning of their own in a pattern. */
  predicate IsSpecial(c: char) {
    c in "\\^$[.()|{?+*"
  }

  // What one turn of the loop does, case by case; `Tokenize` follows these.

  lemma StepEscape(str: seq<char>, tokenizeClass: ClassTokenizer, st: State)
    requires ScansWithin(tokenizeClass) && st.i < |str| && str[st.i] == '\\'
    ensures Step(str, tokenizeClass, st) ==
      if st.i + 1 == |str| then Err(TrailingBackslash(st.i))
      else Ok(State(st.i + 2, Push(st.tree, EscapeNode(str[st.i + 1]))))
  {
  }

  lemma StepSingle(str: seq<char>, tokenizeClass: ClassTokenizer, st: State, n: Node)
    requires ScansWithin(tokenizeClass) && st.i < |str|
    requires var c := str[st.i];
      (c == '^' && n == Position(Begin)) || (c == '$' && n == Position(End)) ||
      (c == '.' && n == BuiltinSet(AnyChar)) || (!IsSpecial(c) && n == Char(c as nat))
    ensures Step(str, tokenizeClass, st) == Ok(State(st.i + 1, Push(st.tree, n)))
  {
  }

  lemma StepClass(str: seq<char>, tokenizeClass: ClassTokenizer, st: State, from: nat)
    requires ScansWithin(tokenizeClass) && st.i < |str| && str[st.i] == '['
    requires from == if st.i + 1 < |str| && str[st.i + 1] == '^' then st.i + 2 else st.i + 1
    ensures var scan := tokenizeClass(str[from..]);
      Step(str, tokenizeClass, st) ==
        if scan.Unterminated? then Err(UnterminatedClass)
        else Ok(State(from + scan.consumed, Push(st.tree, Set(scan.members, from == st.i + 2))))
  {
  }

  lemma StepOpen(str: seq<char>, tokenizeClass: ClassTokenizer, st: State)
    requires ScansWithin(tokenizeClass) && st.i < |str| && str[st.i] == '('
    ensures Step(str, tokenizeClass, st) == OpenGroupAt(str, st.i + 1, st.tree)
  {
  }

  lemma StepClose(str: seq<char>, tokenizeClass: ClassTokenizer, st: State)
    requires ScansWithin(tokenizeClass) && st.i < |str| && str[st.i] == ')'
    ensures Step(str, tokenizeClass, st) ==
      if |st.tree.groupStack| == 0 then Err(UnmatchedParen(st.i)) else Ok(State(st.i + 1, Leave(st.tree)))
  {
  }

  lemma StepPipe(str: seq<char>, tokenizeClass: ClassTokenizer, st: State)
    requires ScansWithin(tokenizeClass) && st.i < |str| && str[st.i] == '|'
    ensures Step(str, tokenizeClass, st) == Ok(State(st.i + 1, Alternate(st.tree)))
  {
  }

  lemma StepBrace(str: seq<char>, tokenizeClass: ClassTokenizer, i: nat, tree: Tree)
    requires ScansWithin(tokenizeClass) && i < |str| && str[i] == '{'
    ensures Step(str, tokenizeClass, State(i, tree)) == BraceAt(str, i + 1, tree)
  {
  }

  lemma StepQuantifier(str: seq<char>, tokenizeClass: ClassTokenizer, st: State, min: nat, max: Option<nat>)
    requires ScansWithin(tokenizeClass) && st.i < |str|
    requires var c := str[st.i];
      (c == '?' && min == 0 && max == Some(1)) || (c == '+' && min == 1 && max == None) ||
      (c == '*' && min == 0 && max == None)
    ensures Step(str, tokenizeClass, st) == Repeat(st.tree, st.i + 1, min, max, st.i)
  {
  }

  /** `\\` at `i`: an escape, or the error for a pattern that ends in a lone backslash. */
  method ReadEscape(str: seq<char>, tokenizeClass: ClassTokenizer, i: nat, tree: Tree) returns (r: Result<State, ParseError>)
    requires ScansWithin(tokenizeClass) && i < |str| && str[i] == '\\'
    ensures r == Step(str, tokenizeClass, State(i, tree))
  {
    StepEscape(str, tokenizeClass, State(i, tree));
    var i := i + 1;
    if i == |str| {
      return Err(TrailingBackslash(i - 1));
    }
    var c := str[i];
    var lastGroup := tree.lastGroup;
    lastGroup := lastGroup.(last := lastGroup.last + [EscapeNode(c)]);
    r := Ok(State(i + 1, tree.(lastGroup := lastGroup)));
  }

  /** `[` at `i`: a bracket class, negated by a leading `^`, read by the class tokenizer. */
  method ReadClass(str: seq<char>, tokenizeClass: ClassTokenizer, i: nat, tree: Tree) returns (r: Result<State, ParseError>)
    requires ScansWithin(tokenizeClass) && i < |str| && str[i] == '['
    ensures r == Step(str, tokenizeClass, State(i, tree))
  {
    ghost var st := State(i, tree);
    var i := i + 1;
    var not := false;
    if i < |str| && str[i] == '^' {
      not := true;
      i := i + 1;
    }
    StepClass(str, tokenizeClass, st, i);
    match tokenizeClass(str[i..]) {
      case Unterminated =>
        r := Err(UnterminatedClass);
      case Scanned(members, n) =>
        var lastGroup := tree.lastGroup;
        lastGroup := lastGroup.(last := lastGroup.last + [Set(members, not)]);
        r := Ok(State(i + n, tree.(lastGroup := lastGroup)));
    }
  }

  /** `(` at `i`: a new group, its kind given by an optional `?=`, `?!` or `?:`, becomes current. */
  method ReadGroup(str: seq<char>, tokenizeClass: ClassTokenizer, i: nat, tree: Tree) returns (r: Result<State, ParseError>)
    requires ScansWithin(tokenizeClass) && i < |str| && str[i] == '('
    ensures r == Step(str, tokenizeClass, State(i, tree))
  {
    StepOpen(str, tokenizeClass, State(i, tree));
    var i := i + 1;
    var group := Fresh(true, false, false);
    if i < |str| && str[i] == '?' {
      var after := if i + 1 < |str| then Some(str[i + 1]) else None;
      i := i + 2;
      if after == Some('=') {
        group := group.(followedBy := true);
      } else if after == Some('!') {
        group := group.(notFollowedBy := true);
      } else if after != Some(':') {
        return Err(InvalidGroup(i - 1, after));
      }
      group := group.(remember := false);
    }
    r := Ok(State(i, Tree(tree.groupStack + [tree.lastGroup], group)));
  }

  /** `)` at `i`: the enclosing group becomes current again, with the closed group as its newest node. */
  method CloseGroup(str: seq<char>, tokenizeClass: ClassTokenizer, i: nat, tree: Tree) returns (r: Result<State, ParseError>)
    requires ScansWithin(tokenizeClass) && i < |str| && str[i] == ')'
    ensures r == Step(str, tokenizeClass, State(i, tree))
  {
    StepClose(str, tokenizeClass, State(i, tree));
    var groupStack := tree.groupStack;
    if |groupStack| == 0 {
      return Err(UnmatchedParen(i));
    }
    var lastGroup := groupStack[|groupStack| - 1];
    groupStack := groupStack[..|groupStack| - 1];
    lastGroup := lastGroup.(last := lastGroup.last + [GroupNode(tree.lastGroup)]);
    r := Ok(State(i + 1, Tree(groupStack, lastGroup)));
  }

  /** The last node of `last` wrapped in a REPETITION, or the error when `last` is empty. */
  method Wrap(tree: Tree, next: nat, min: nat, max: Option<nat>, column: nat) returns (r: Result<State, ParseError>)
    ensures r == Repeat(tree, next, min, max, column)
  {
    var last := tree.lastGroup.last;
    if |last| == 0 {
      return Err(NothingToRepeat(column));
    }
    var value := last[|last| - 1];
    last := last[..|last| - 1];
    last := last + [Repetition(min, max, value)];
    r := Ok(State(next, tree.(lastGroup := tree.lastGroup.(last := last))));
  }

  /** `{` at `i`: a brace quantifier when one follows, otherwise a literal `{`. */
  method ReadBrace(str: seq<char>, tokenizeClass: ClassTokenizer, i: nat, tree: Tree) returns (r: Result<State, ParseError>)
    requires ScansWithin(tokenizeClass) && i < |str| && str[i] == '{'
    ensures r == Step(str, tokenizeClass, State(i, tree))
  {
    StepBrace(str, tokenizeClass, i, tree);
    r := ReadQuantifierText(str, i + 1, tree);
  }

  /** The text after a `{` read at `i - 1`: its bounds when it is a quantifier text, otherwise a CHAR 123. */
  method ReadQuantifierText(str: seq<char>, i: nat, tree: Tree) returns (r: Result<State, ParseError>)
    requires 0 < i <= |str|
    ensures r == BraceAt(str, i, tree)
  {
    var q := Brace.Match(str[i..]);
    if q.None? {
      var lastGroup := tree.lastGroup;
      lastGroup := lastGroup.(last := lastGroup.last + [Char(123)]);
      r := Ok(State(i, tree.(lastGroup := lastGroup)));
    } else {
      r := Wrap(tree, i + q.value.length, q.value.min, q.value.max, i - 1);
    }
  }

  /** `|` at `i`: the current list is closed as a branch and a new, empty one becomes current. */
  method ReadBar(str: seq<char>, tokenizeClass: ClassTokenizer, i: nat, tree: Tree) returns (r: Result<State, ParseError>)
    requires ScansWithin(tokenizeClass) && i < |str| && str[i] == '|'
    ensures r == Step(str, tokenizeClass, State(i, tree))
  {
    StepPipe(str, tokenizeClass, State(i, tree));
    var lastGroup := tree.lastGroup;
    lastGroup := lastGroup.(closed := lastGroup.closed + [lastGroup.last], last := []);
    r := Ok(State(i + 1, tree.(lastGroup := lastGroup)));
  }

  /** `^`, `$`, `.` or a character without a meaning of its own at `i`: its node is pushed. */
  method ReadPlain(str: seq<char>, tokenizeClass: ClassTokenizer, i: nat, tree: Tree) returns (r: Result<State, ParseError>)
    requires ScansWithin(tokenizeClass) && i < |str| && !(str[i] in "\\[(){?+*|")
    ensures r == Step(str, tokenizeClass, State(i, tree))
  {
    var c := str[i];
    var n := if c == '^' then Position(Begin) else if c == '$' then Position(End)
      else if c == '.' then BuiltinSet(AnyChar) else Char(c as nat);
    StepSingle(str, tokenizeClass, State(i, tree), n);
    var lastGroup := tree.lastGroup;
    lastGroup := lastGroup.(last := lastGroup.last + [n]);
    r := Ok(State(i + 1, tree.(lastGroup := lastGroup)));
  }

  /**
    One pass of the loop body: reads the character at `i` and updates the
    position and the tree as the source's `switch` does, or stops with the
    error the source raises.
   */
  method Dispatch(str: seq<char>, tokenizeClass: ClassTokenizer, i: nat, tree: Tree) returns (r: Result<State, ParseError>)
    requires ScansWithin(tokenizeClass) && i < |str|
    ensures r == Step(str, tokenizeClass, State(i, tree))
  {
    var c := str[i];
    match c {
      case '\\' => r := ReadEscape(str, tokenizeClass, i, tree);
      case '[' => r := ReadClass(str, tokenizeClass, i, tree);
      case '(' => r := ReadGroup(str, tokenizeClass, i, tree);
      case ')' => r := CloseGroup(str, tokenizeClass, i, tree);
      case '{' => r := ReadBrace(str, tokenizeClass, i, tree);
      case '?' =>
        StepQuantifier(str, tokenizeClass, State(i, tree), 0, Some(1));
        r := Wrap(tree, i + 1, 0, Some(1), i);
      case '+' =>
        StepQuantifier(str, tokenizeClass, State(i, tree), 1, None);
        r := Wrap(tree, i + 1, 1, None, i);
      case '*' =>
        StepQuantifier(str, tokenizeClass, State(i, tree), 0, None);
        r := Wrap(tree, i + 1, 0, None, i);
      case '|' => r := ReadBar(str, tokenizeClass, i, tree);
      case _ => r := ReadPlain(str, tokenizeClass, i, tree);
    }
  }

  /**
    The tokenizer's loop: `i`, `groupStack` and `lastGroup` (whose `last`
    field is the source's `last`) are updated by one `Dispatch` per turn.
    The result is the tree or the first error, exactly as `Parse` gives it.
   */
  method Tokenize(str: seq<char>, tokenizeClass: ClassTokenizer) returns (r: Result<Node, ParseError>)
    requires ScansWithin(tokenizeClass)
    ensures r == Parse(str, tokenizeClass)
  {
    var i: nat := 0;
    var groupStack: seq<Frame> := [];
    var lastGroup := Fresh(false, false, false);
    while i < |str|
      invariant i <= |str|
      invariant Run(str, tokenizeClass, State(i, Tree(groupStack, lastGroup))) == Parse(str, tokenizeClass)
      decreases |str| - i
    {
      var next := Dispatch(str, tokenizeClass, i, Tree(groupStack, lastGroup));
      match next {
        case Err(e) =>
          return Err(e);
        case Ok(st) =>
          i, groupStack, lastGroup := st.i, st.tree.groupStack, st.tree.lastGroup;
      }
    }
    if |groupStack| != 0 {
      return Err(UnterminatedGroup);
    }
    r := Ok(Root(BodyOf(lastGroup)));
  }
}
