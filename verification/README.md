# regexp-tokenizer in Dafny

This is a model of the tokenizer of `regexp-tokenizer`. The tokenizer makes one left-to-right pass over a decoded regular-expression pattern and builds its tree:

- a ROOT node;
- GROUP nodes, with `remember`, `followedBy` and `notFollowedBy`;
- alternation, held as `options`;
- CHAR, REFERENCE, SET and position nodes;
- REPETITION nodes, which wrap the node before them.

It does not recurse. Its state is:

- the scan position `i`;
- the current group `lastGroup`;
- the list `last` that new nodes are pushed onto;
- the stack `groupStack` of enclosing groups.

Quantifiers rewrite the tree after the fact: they pop the last node of `last`, wrap it, and push it back.

Files:

- `ast.dfy`: the node types (`Ast`) and the `Option`/`Result` wrappers.
- `brace.dfy`: the brace-quantifier matcher `{m}`, `{m,}`, `{m,n}` (`Brace`). The matcher is proved sound and complete against the quantifier texts.
- `tokenizer.dfy`: the tokenizer (`Tokenizer`).
  - `Step` is one turn of the loop, `Run` is the loop, and `Parse` is the whole pass.
  - `Tokenize` is the imperative loop. It carries a loop invariant over the frame stack.
  - The per-character methods (`ReadEscape`, `ReadClass`, `ReadGroup`, `CloseGroup`, `ReadBrace`, `ReadBar`, `ReadPlain`, `Dispatch`) are each proved to compute `Step`.
  - `Wrap`, the imperative pop-wrap-push of a quantifier, is proved equal to `Repeat`. `ReadQuantifierText` is proved equal to `BraceAt`.
  - The tree operations `Push`, `Quantify`, `Repeat`, `Alternate`, `Enter` and `Leave` each state what they change and that nothing else changes.
- `steps.dfy`: what one turn does to the tree, character by character (`StepFacts`).
- `parse.dfy`: properties of whole passes (`ParseFacts`):
  - patterns of plain characters and `|`;
  - where errors point;
  - parenthesis balance;
  - two worked patterns.

The state is a zipper of frames. A group is kept in its own frame while it is open, with `closed` holding the branches a `|` has already ended. The group is appended to its parent's `last` when its `)` is read. The source instead pushes the group object when `(` is read and fills it in place. Nothing reads the parent's `last` in between, so both build the same tree.

Two behaviours of the code are kept exactly as written:

- Error columns are the 0-based index `i - 1` into the decoded pattern, as the code reports them. A `)` at the start is column 0.
- A brace quantifier whose minimum exceeds its maximum is kept as written. `a{3,2}` gives a REPETITION with min 3 and max 2; see `ParseFacts.BoundsAsWritten`.

## Model

| member | source | states |
|---|---|---|
| Tokenizer.Tokenize | lib/index.js:7-284 | the loop returns exactly what `Parse` defines: the tree, or the first error, or "Unterminated group" when groups are still open at the end |
| Tokenizer.Dispatch | lib/index.js:27-274 | one pass of the loop body yields the state or error of one `Step` |
| Tokenizer.ReadEscape | lib/index.js:31-79 | an escape appends the node for the escaped character and consumes two characters; a final lone `\` is an error |
| Tokenizer.ReadClass | lib/index.js:93-115 | a leading `^` sets `not`, the class tokenizer's members go into a SET, and the index advances by what it consumed |
| Tokenizer.ReadGroup | lib/index.js:125-167 | the group flags are set in place as the source sets them, and the result is the group `Step` opens |
| Tokenizer.CloseGroup | lib/index.js:171-181 | the group stack is popped, the parent becomes current with the closed group as its newest node, or "Unmatched )" |
| Tokenizer.Wrap | lib/index.js:231-265 | the imperative pop-wrap-push of the last node is the `Repeat` of the tree, including the "Nothing to repeat" error |
| Tokenizer.ReadQuantifierText | lib/index.js:207-227 | reading the text after `{` gives exactly what `BraceAt` defines: the wrapped node or a CHAR 123 |
| Tokenizer.ReadBar | lib/index.js:185-198 | the imperative closing of the current branch at a bar is the turn `Step` defines |
| Tokenizer.ReadPlain | lib/index.js:268-273 | a character without a meaning of its own (and `^`, `$`, `.`) pushes its node, as `Step` defines |
| Tokenizer.ReadBrace | lib/index.js:206-229 | `{` is a quantifier when the brace grammar matches, otherwise a literal CHAR 123 |
| Tokenizer.Step | lib/index.js:26-274 | every successful turn strictly advances the index and stays within the input, so the loop ends |
| Tokenizer.Run | lib/index.js:26-283 | a loop that ends without error returns a ROOT whose body is well formed (options, if any, have at least two branches) |
| Tokenizer.Parse | lib/index.js:7-284 | a successful pass returns a well-formed ROOT; the empty pattern gives ROOT with an empty stack |
| Tokenizer.Push | lib/index.js:269-273 | the pushed node becomes the newest node of `last`, every earlier node is kept, and the branches, flags and group stack do not change |
| Tokenizer.Quantify | lib/index.js:235-240 | `last` keeps its length and its earlier nodes, its last node is wrapped in a REPETITION with the given bounds, and nothing else changes |
| Tokenizer.Repeat | lib/index.js:231-265 | a quantifier fails iff `last` is empty, with "Nothing to repeat" at the given column; otherwise it resumes at the given index with only the last node wrapped |
| Tokenizer.Alternate | lib/index.js:185-198 | a bar adds exactly one empty branch, which becomes `last`; the first one makes the stack `options[0]`; flags and group stack are unchanged |
| Tokenizer.Enter | lib/index.js:158-165 | the current group is pushed on top of the group stack, which keeps its other entries, and the new group becomes current |
| Tokenizer.Leave | lib/index.js:175-181 | the group stack is popped; the parent is current again with its branches and flags, and its `last` gains the closed group as its newest node |
| Tokenizer.BraceAt | lib/index.js:206-229 | after `{` the index never moves backwards or past the input, and the only error is "Nothing to repeat" at the column of `{` |
| Tokenizer.OpenGroupAt | lib/index.js:133-155 | after `(` the index never moves backwards or past the input |
| Tokenizer.BodyOf | lib/index.js:185-198 | a body has options exactly when a bar was read, its branches are the closed ones plus the current one, and options have at least two branches |
| Tokenizer.EscapeNode | lib/index.js:33-77 | `\b` is the word boundary and `\B` its negation; `\w`, `\d`, `\s` are the word, integer and whitespace sets and their upper-case letters the negated sets; a digit is the REFERENCE to its value (below 10); any other character is the CHAR of its code |
| Brace.Match | lib/index.js:207 | a match consumes at least two characters of the text and ends at a `}` |
| Brace.DigitRunSpec | lib/index.js:207 | the digit run is all digits and is maximal, like the greedy `\d+` |
| Brace.MatchComplete | lib/index.js:207-214 | every quantifier text followed by anything is matched with the bounds it denotes and exactly its own length |
| Brace.MatchSound | lib/index.js:207-214 | whatever the matcher accepts is a quantifier text followed by the rest, with the bounds that text denotes |
| Brace.MatchSpan | lib/index.js:207 | the consumed text holds only digits, a comma and the closing `}` |
| StepFacts.QuantifierSplice | lib/index.js:231-265 | for `?` `+` `*`: the turn fails iff `last` is empty, at the quantifier's column; otherwise `last` keeps its length, every earlier node is unchanged, and the last one is wrapped with (0,1), (1,∞) or (0,∞) |
| StepFacts.BraceQuantifier | lib/index.js:206-221 | a quantifier text after `{` gives the bounds it denotes, taken as written, consumes exactly the text, and fails iff `last` is empty |
| StepFacts.BraceLiteral | lib/index.js:222-227 | when no quantifier text follows, `{` appends CHAR 123 even to an empty `last`, and the scan resumes after it |
| StepFacts.EscapeStep | lib/index.js:31-79 | the escape fails iff `\` is the last character; otherwise it appends one node and nothing else changes |
| StepFacts.ClassStep | lib/index.js:93-115 | `not` holds iff `^` follows `[`; the class fails iff the class tokenizer does; the members and length are the class tokenizer's |
| StepFacts.GroupKinds | lib/index.js:125-166 | plain `(` remembers; `(?:`, `(?=`, `(?!` do not, and set `followedBy`/`notFollowedBy` iff `=`/`!`; any other character after `?` fails at its column; the parent is pushed on the stack |
| StepFacts.CloseRestores | lib/index.js:171-181 | `)` fails iff no group is open; otherwise the parent is current again with its own `remember`/`followedBy`/`notFollowedBy`, and the new target is the parent's newest branch if it has options, else its stack, extended by the closed group |
| StepFacts.PipeBranches | lib/index.js:185-198 | the first bar makes the stack `options[0]`; every bar adds exactly one empty branch, which becomes the target; the group stack and the group's flags are unchanged |
| StepFacts.GroupStackDiscipline | lib/index.js:158-175 | `(` pushes the current group, `)` pops, and every other character leaves the group stack alone |
| ParseFacts.SplitJoin | lib/index.js:185-198 | splitting at the bars loses nothing and no piece holds a bar (partner of the branch contents below) |
| ParseFacts.AlternationOfLiterals | lib/index.js:185-198 | a pattern of plain characters and bars gives ROOT whose branches are the CHAR nodes of its pieces in order; k bars give k+1 branches; options exist iff there is a bar |
| ParseFacts.LiteralPattern | lib/index.js:269-273 | a pattern without special characters gives ROOT whose stack is the CHAR nodes of its character codes, in input order |
| ParseFacts.StepErrorAt | lib/index.js:26-274 | a turn fails only at a character that explains the error |
| ParseFacts.ErrorColumns | lib/index.js:17-281 | every parse error points at its cause: a quantifier, the character after `(?`, an unmatched `)`, or a final `\`; an open group needs a `(` |
| ParseFacts.StepDepth | lib/index.js:125-181 | in a pattern without escapes and classes, each turn keeps the group stack as deep as the parentheses read so far |
| ParseFacts.ParenBalance | lib/index.js:158-281 | in such a pattern: success means balanced parentheses with no negative prefix; "Unmatched )" is the first `)` that makes the depth negative; "Unterminated group" means more `(` than `)` |
| ParseFacts.BoundsAsWritten | lib/index.js:212-213 | `a{3,2}` parses to REPETITION(3, 2, CHAR a): min above max is not rejected |
| ParseFacts.EmptyBraces | lib/index.js:222-227 | `{}` parses to CHAR 123 followed by CHAR 125 |

## Left out

- The escape decoder `util.strToChars` (lib/index.js:22) is not part of this model. The input is the decoded character sequence.
- Error columns therefore index the decoded sequence, as the code reports them, and not the original string.
- The class tokenizer `util.tokenizeClass` (lib/index.js:104) is not part of this model. It is a function parameter whose only contract is that it consumes at most the text it is given. Its failure is the error `UnterminatedClass`. Only the leading `^` and the index advance are modelled.
- The node constructors of `sets` and `positions` and the constants of `types` are not part of this model. They are enumerated tags.
- `util.error` and its message text are not part of this model. Errors are a `Result` carrying an error kind and a column.
- JavaScript `Infinity` is `None` in `Repetition.max`.
- `parseInt` gives unbounded naturals. The loss of precision of JavaScript numbers above 2^53 is not modelled.
- Characters are Dafny `char`. `charCodeAt(0)` is the character's code. UTF-16 surrogate pairs are not modelled.
- A pattern that ends in a lone `\` makes the source read past the end and throw a TypeError. The model reports it as the error `TrailingBackslash` at the column of the `\`.
- The in-place update of group objects and the aliasing between `last` and a group's `stack` or newest option are not modelled. They are replaced by the frame zipper described above.
- ParseFacts.ParenBalance is stated only for patterns without `\` and `[`, because there an escaped parenthesis or the class tokenizer's consumption would change which parentheses count.
- ParseFacts.AlternationOfLiterals and ParseFacts.LiteralPattern cover top-level patterns of plain characters, and of plain characters and `|`. Nested groups are covered turn by turn by the `StepFacts` lemmas.
- ParseFacts.ErrorColumns says only that a `(` (or a `[`) occurs for "Unterminated group" (or an unterminated class), since those errors carry no column.
