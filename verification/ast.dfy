/** Option and Result, the two wrappers the tokenizer's values use. */
module Wrappers {
  datatype Option<+T> = None | Some(value: T)

  datatype Result<+T, +E> = Ok(value: T) | Err(error: E)
}

/**
  The tree the tokenizer builds. A ROOT or GROUP node holds either a single
  `stack` of children or, once a `|` has been read inside it, a list of
  `options` (branches); never both.
 */
module Ast {
  import opened Wrappers

  /** The zero-width assertions built by the positions helper. */
  datatype PositionKind = WordBoundary | NonWordBoundary | Begin | End

  /** The predefined sets built by the sets helper (`\w`, `\W`, `\d`, `\D`, `\s`, `\S`, `.`). */
  datatype SetKind = Words | NotWords | Integers | NotIntegers | Whitespace | NotWhitespace | AnyChar

  /** A member of a bracket class, as the class tokenizer returns it. */
  datatype ClassMember = ClassChar(code: nat) | ClassRange(from: nat, to: nat) | ClassSet(kind: SetKind)

  /** The children of a ROOT or GROUP node. */
  datatype Body = Stack(stack: seq<Node>) | Options(options: seq<seq<Node>>)

  datatype Node =
    | Root(body: Body)
    | Group(body: Body, remember: bool, followedBy: bool, notFollowedBy: bool)
    | Position(position: PositionKind)
    | BuiltinSet(kind: SetKind)
    | Set(members: seq<ClassMember>, not: bool)
    | Reference(number: nat)
    | Char(code: nat)
      /** `max == None` stands for an unbounded repetition. */
    | Repetition(min: nat, max: Option<nat>, value: Node)

  /** Once alternation has started, a body has at least two branches. */
  predicate WellFormedBody(b: Body) {
    b.Options? ==> |b.options| >= 2
  }

  /** The branches of a body, a plain stack counting as a single branch. */
  function Branches(b: Body): seq<seq<Node>> {
    if b.Stack? then [b.stack] else b.options
  }
}
