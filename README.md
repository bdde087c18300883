# parsepy's LL(1) core in Dafny

parsepy is a small LL(1) parser generator that works at run time. A
longest-match lexer turns text into tokens. A context-free grammar (read
from `A -> x y | ε` text or built from productions) gives its FIRST, FOLLOW
and SELECT sets. A parser checks that the lexer and the grammar fit
together and fills a predictive table `table[rule][lookahead]`. The
stack-driven parse `LL1.tree` builds a syntax tree, and `LL1.eval`
evaluates that tree bottom-up with user actions.

The repository holds two generations of this code. The package version
(`parsepy/lexer/lexer.py`, `parsepy/parser/*.py`) is the primary one. The
older files (`parser.py`, `parsepy/lexer.py`, `parsepy/parser.py`,
`parsepy/LL1.py`) repeat the same algorithms with a few differences. The
model covers both: a `Dialect` parameter (`Package` or `Legacy`) selects
the older behaviour where the two differ, and the older lexer has a module
of its own.

Modules, one per concern:

- `Symbols`: terminals (strings), non-terminals and the epsilon marker, plus
  the `EOI` and `unknown` names and the `Result`/`Option` wrappers.
- `Lexer`: the package lexer. Patterns are oracles giving the length of an
  anchored match. `GetToken` is the pattern loop; `Lexer.Iter` is a class
  with the cursor's mutable `n` and `stop` and the line-start table.
- `LegacyLexer`: the older lexer. It feeds `get_token` one character at a
  time.
- `Grammar`: productions, `rules`, `terms` and the validating constructor.
- `FirstFollow`: FIRST, FOLLOW and SELECT as recursive functions.
- `Text` and `GrammarText`: the string operations `CFG.parse` uses, and
  `CFG.parse` itself.
- `Ast`: the syntax tree, `add_child`, indexing, `eval` and `__eq__`.
- `ParserConfig`: the checks of `Parser.__init__`, identical in all three
  copies.
- `LL1Table`: `LL1.__init__`, the table-filling loops.
- `LL1Driver`: `LL1.tree` and `LL1.eval`.

Some behaviour of the code is kept as written and stated by lemmas:

- FIRST of a non-terminal leaks ε from a nullable leading item
  (`FirstFollow.EpsilonLeak`).
- The name-collision check of `Parser.__init__` never fires
  (`ParserConfig.NoCollision`).
- The parse ignores trailing input (`LL1Driver.TrailingInputIgnored`).
- An unknown token kind is reported as unexpected before the `unknown`
  check (`LL1Driver.StepBadKind`).

The parse loop is modelled twice:

- `Step` and `Run` form a functional machine. It is proved to keep the
  counter invariant `len(ps) - 1 == sum(pops)` and the shape of the root,
  and to produce a tree whose token leaves are the tokens consumed.
- `LL1Driver.Tree` is the imperative loop. It pulls tokens from the lexer's
  cursor object and is proved to compute what `Run` computes.

Node parent links are replaced by the path of open nodes (see "Left out").

## Model

| member | source | states |
|---|---|---|
| Symbols.NonTermEquality | parsepy/parser/cfg.py:44-63 | non-terminals are equal exactly when their names are, and a non-terminal never equals a string or the epsilon marker |
| Grammar.TruthyLen | parsepy/parser/cfg.py:97-111 | a production is falsy exactly when its body holds epsilon, and then its length is 0; otherwise its length is its body's length |
| Grammar.RulesOf | parsepy/parser/cfg.py:150-157 | the rule set holds exactly the owners of the productions, as non-terminals |
| Grammar.BodySymbols | parsepy/parser/cfg.py:322-325 | the symbols collected are exactly those in the bodies of the truthy productions |
| Grammar.TermsAreTerminals | parsepy/parser/cfg.py:315-326 | in a grammar that passed construction every term is a terminal string |
| Grammar.Renumbered | parsepy/parser/cfg.py:139-140 | every production is numbered by its position and is otherwise unchanged |
| Grammar.RenumberedRules | parsepy/parser/cfg.py:139-143 | numbering changes neither the rule set nor which bodies name undefined non-terminals |
| Grammar.Build | parsepy/parser/cfg.py:130-148 | construction succeeds exactly when no body names a non-terminal without productions and the start is a rule; the result is the renumbered productions and the start; an undefined non-terminal is reported exactly when one exists, and it is the first one met scanning the bodies in order; otherwise the failure is the invalid start |
| Lexer.TokenEquality | parsepy/lexer/lexer.py:42-58 | two tokens are equal exactly when kind and value agree, whatever their text and position; `__ne__` is the exact negation of `__eq__` |
| Lexer.Lexer.Kinds | parsepy/lexer/lexer.py:159-166 | the `tokens` property holds exactly the kinds of the lexer's patterns |
| Lexer.MatchLenAgrees | parsepy/lexer/lexer.py:185 | for a lexer whose patterns only make non-empty matches, the anchored match length is the pattern's own answer, 0 for no match |
| Lexer.PickBounds | parsepy/lexer/lexer.py:183-188 | the greedy scan's chosen length stays between 1 and the input length |
| Lexer.Match | parsepy/lexer/lexer.py:176-192 | the lexeme found is a non-empty prefix of the input, its length is its text's length, and its value is the kind's action applied to the text, or the text itself when the kind has no action |
| Lexer.GetToken | parsepy/lexer/lexer.py:176-192 | the loop over the patterns returns exactly the lexeme `Match` specifies |
| Lexer.PickStep | parsepy/lexer/lexer.py:184-188 | one more pattern keeps the running choice the longest match so far, the first pattern winning ties |
| Lexer.PickIsBest | parsepy/lexer/lexer.py:183-188 | the scan over the remaining patterns ends with the longest-match choice over all patterns |
| Lexer.LongestMatch | parsepy/lexer/lexer.py:183-192 | for a lexer with no pattern named `unknown`, `get_token` returns the longest match over all patterns, the earliest pattern on a tie; it returns kind `unknown` (one character) exactly when no pattern matches |
| Lexer.UnknownNamedPattern | parsepy/lexer/lexer.py:183-188 | a pattern named `unknown` that matches three characters is replaced by a later pattern matching one, because `greedy[0] == UNK` still holds after it won |
| Lexer.PickKind | parsepy/lexer/lexer.py:183-188 | the chosen kind is the initial `unknown` or the kind of some pattern |
| Lexer.StartsMembers | parsepy/lexer/lexer.py:100 | the line starts are exactly offset 0 and every offset just after a newline |
| Lexer.StartsIncreasing | parsepy/lexer/lexer.py:100 | the line starts are strictly increasing |
| Lexer.LineStarts | parsepy/lexer/lexer.py:100 | the line-start table is `[-1]` exactly for the empty input and otherwise begins at 0 |
| Lexer.LineStartsSpec | parsepy/lexer/lexer.py:100 | for non-empty input the table starts with 0, is strictly increasing, and holds exactly 0 and every offset after a newline |
| Lexer.LastStartAtOrBefore | parsepy/lexer/lexer.py:134 | the index found is that of the last line start at or before the offset |
| Lexer.EndToken | parsepy/lexer/lexer.py:122-131 | the end-of-input token has kind `EOI`, no value and empty text, and sits at line -1, column -1 for the empty input |
| Lexer.EmittedStep | parsepy/lexer/lexer.py:120-138 | one matching step emits the lexeme's token unless its value is `None`, then goes on after the lexeme |
| Lexer.RemainingStep | parsepy/lexer/lexer.py:120-138 | a running cursor skips a discarded lexeme and otherwise yields its token first |
| Lexer.SourceName | parsepy/lexer/lexer.py:202-203 | a non-empty source name is kept, and an empty one is replaced by a non-empty default |
| Lexer.Iter.constructor | parsepy/lexer/lexer.py:90-102 | the new cursor holds the lexer, the text and the name, builds the line-start table, starts at offset 0 not stopped, and will yield the whole stream |
| Lexer.Iter.Restart | parsepy/lexer/lexer.py:104-112 | rewinding puts the cursor back at 0, not stopped, so the whole stream is pending again |
| Lexer.Iter.Next | parsepy/lexer/lexer.py:114-138 | each call yields the next pending token and drops it from what is pending; once the stream is spent it yields nothing (`StopIteration`) |
| Lexer.Tokenize | parsepy/lexer/lexer.py:194-205 | `tokenize` returns a fresh cursor whose pending tokens are the whole stream of the text under the source name |
| Lexer.EmittedNeverNil | parsepy/lexer/lexer.py:133-137 | no emitted token has the value `None`: those lexemes are skipped |
| Lexer.EmittedKinds | parsepy/lexer/lexer.py:183-188 | every emitted token's kind is a pattern's kind or `unknown` |
| Lexer.StreamShape | parsepy/lexer/lexer.py:120-138 | the stream ends with exactly one `EOI` token with no value and empty text, no other token has the value `None`, and if no pattern is called `EOI` no other token has kind `EOI` |
| Lexer.EmptyInput | parsepy/lexer/lexer.py:127-131 | the empty input yields the single `EOI` token at line -1, column -1 |
| Lexer.ScanRoundTrip | parsepy/lexer/lexer.py:132-137 | the lexemes of a scan, concatenated, give back the input from the offset on |
| Lexer.TokenTextsCons | parsepy/lexer/lexer.py:31 | the texts of a token sequence are the first token's text followed by the rest's |
| Lexer.EmittedTexts | parsepy/lexer/lexer.py:132-137 | the emitted tokens' texts, concatenated, are the input with the discarded lexemes left out |
| Lexer.TokenAtLocated | parsepy/lexer/lexer.py:134-136 | a token's 1-based line and column designate the offset where its text was found |
| Lexer.TokensLocated | parsepy/lexer/lexer.py:132-137 | every emitted token is found in the input at the offset its line and column designate |
| Lexer.MatchLen | parsepy/lexer/lexer.py:185 | the length taken from a pattern's anchored match is never more than the rest of the input |
| LegacyLexer.LTokenEquality | parsepy/lexer.py:101-117 | two legacy tokens are equal exactly when kind and value agree, whatever their position; `__ne__` is the exact negation of `__eq__` |
| LegacyLexer.GetToken | parsepy/lexer.py:231-247 | the older `get_token` returns the kind, value and length of the package version's longest match |
| LegacyLexer.SingleCharacter | parsepy/lexer.py:187 | fed one character, the match covers exactly that character, with the kind's action applied or the character itself as value |
| LegacyLexer.FirstKept | parsepy/lexer.py:185-192 | the offset found is the first at or after the cursor whose character gives a kept token, or the end of the input |
| LegacyLexer.LegacyLineStarts | parsepy/lexer.py:158 | the older line-start table is empty exactly for the empty input and otherwise starts at 0 |
| LegacyLexer.Iter.constructor | parsepy/lexer.py:149-160 | the new cursor holds the lexer and the text, builds the older line-start table, and starts at 0, not stopped |
| LegacyLexer.Iter.Restart | parsepy/lexer.py:162-170 | rewinding puts the cursor back at 0, not stopped |
| LegacyLexer.Iter.Next | parsepy/lexer.py:172-193 | one call does what `NextSpec` says: the first kept character's token, else a crash when only discarded characters remain; at the end the `EOI` token once (a crash for the empty input), then `StopIteration` |
| LegacyLexer.Tokenize | parsepy/lexer.py:249-256 | `tokenize` returns a fresh cursor at 0 over the text |
| LegacyLexer.TrailingBlankCrashes | parsepy/lexer.py:178-192 | on `"a "` the first call yields `a` and the second fails instead of yielding the `EOI` token |
| LegacyLexer.EmptyInputCrashes | parsepy/lexer.py:158-183 | on the empty input the first call fails |
| LegacyLexer.TrailingBlankPackage | parsepy/lexer/lexer.py:120-138 | the package tokenizer yields `a` and then `EOI` on the same input |
| Text.Find | parsepy/parser/cfg.py:299 | the offset found is the first at or after the start where the separator occurs, or the end of the string |
| Text.SplitJoin | parsepy/parser/cfg.py:299 | the pieces of `split(sep)`, joined again with the separator, give back the string |
| Text.SplitPieces | parsepy/parser/cfg.py:299 | no piece of `split(sep)` contains the separator |
| Text.SplitNone | parsepy/parser/cfg.py:299 | a string without the separator splits into itself alone |
| Text.WordsShape | parsepy/parser/cfg.py:304 | every word of `split()` is non-empty and free of whitespace, and the words together hold exactly the string's non-space characters in order |
| Text.WordsEmpty | parsepy/parser/cfg.py:304-305 | `split()` gives no words exactly when the string is all whitespace |
| Text.TrimStartShape | parsepy/parser/cfg.py:300 | `lstrip` removes a prefix of whitespace and leaves no whitespace in front |
| Text.TrimEndShape | parsepy/parser/cfg.py:300 | `rstrip` removes a suffix of whitespace and leaves no whitespace at the end |
| Text.StripShape | parsepy/parser/cfg.py:300 | `strip` gives a slice of the string with only whitespace cut from either end, and neither end of the result is whitespace |
| GrammarText.AltBody | parsepy/parser/cfg.py:304-308 | the body of one alternative is never empty and holds no non-terminal before promotion |
| GrammarText.AltBodyShape | parsepy/parser/cfg.py:304-308 | an alternative becomes `[ε]` exactly when it is blank or one of its words is `ε`; otherwise its body is its words as strings, in order |
| GrammarText.AltProds | parsepy/parser/cfg.py:303-308 | one production per `|` alternative, in order, owned by the line's left-hand side |
| GrammarText.LineProdsOk | parsepy/parser/cfg.py:299-308 | a line with exactly one `->` gives the productions of its alternatives under its stripped left-hand side |
| GrammarText.LineOk | parsepy/parser/cfg.py:299 | a line is refused exactly when it has not exactly one `->`, and the refusal names the line |
| GrammarText.LineShape | parsepy/parser/cfg.py:299-308 | a read line splits into a left and a right side that join back into the line, and gives one production per alternative, all owned by the stripped left-hand side |
| GrammarText.Outcomes | parsepy/parser/cfg.py:298-308 | there is one outcome per line, the line's own |
| GrammarText.ReadLines | parsepy/parser/cfg.py:296-308 | the loop over the lines yields the productions of all lines in order with the first left-hand side, or the first bad line's error |
| GrammarText.RawShape | parsepy/parser/cfg.py:298-308 | reading succeeds exactly when every line has one `->`; otherwise the first line without one is reported |
| GrammarText.RawStart | parsepy/parser/cfg.py:301-302 | the first production read is owned by the first line's left-hand side |
| GrammarText.RawPlain | parsepy/parser/cfg.py:303-308 | no production read from text mentions a non-terminal before promotion |
| GrammarText.Lhs | parsepy/parser/cfg.py:309 | the set of left-hand sides holds exactly the owners of the productions |
| GrammarText.PromoteBody | parsepy/parser/cfg.py:311 | each body item is promoted in place, the length unchanged |
| GrammarText.Promoted | parsepy/parser/cfg.py:310-312 | each production keeps its owner and gets its body promoted against the set of left-hand sides |
| GrammarText.PromoteAll | parsepy/parser/cfg.py:309-312 | the in-place loop over the productions ends with every body promoted |
| GrammarText.ParsedClosed | parsepy/parser/cfg.py:309-313 | after promotion every non-terminal in a body has productions, so the constructor's dangling check cannot fire on parsed text |
| GrammarText.RulesLhs | parsepy/parser/cfg.py:309-313 | a name is a rule of the promoted grammar exactly when it is a left-hand side |
| GrammarText.ParseStart | parsepy/parser/cfg.py:301-313 | in parsed text the first left-hand side is a rule and owns the first production, and a body symbol is a non-terminal exactly when it names a left-hand side |
| GrammarText.Parse | parsepy/parser/cfg.py:286-313 | a bad line is reported as such; otherwise parsing succeeds exactly when there is a line, and gives the renumbered, promoted productions with the first left-hand side as start |
| FirstFollow.FirstOfAtoms | parsepy/parser/cfg.py:179-196 | FIRST of a terminal string is itself unless it names a rule, in which case it is that rule's FIRST; FIRST of epsilon is `{ε}`, and FIRST of the empty list is `{ε}` |
| FirstFollow.LegacyFirstString | parser.py:211-215 | in the older module a string is always its own FIRST, even when it names a rule |
| FirstFollow.LegacyFollowString | parser.py:259-260 | in the older module FOLLOW of a string is refused |
| FirstFollow.FollowOfAtoms | parsepy/parser/cfg.py:240-244 | FOLLOW of a string naming a rule is that rule's FOLLOW; any other string and epsilon are refused |
| FirstFollow.FirstSeqNullable | parsepy/parser/cfg.py:179-187 | FIRST of a list holds ε exactly when every element is nullable |
| FirstFollow.FirstSeqMembers | parsepy/parser/cfg.py:179-187 | a symbol other than ε is in FIRST of a list exactly when it is in FIRST of some element whose predecessors are all nullable |
| FirstFollow.FirstItemsLeak | parsepy/parser/cfg.py:213-230 | the per-production loop of FIRST on a non-terminal fails exactly when FIRST of the body fails, agrees with it apart from ε, and holds ε exactly when the body is empty or its first item is nullable |
| FirstFollow.FirstProdsEps | parsepy/parser/cfg.py:203-231 | FIRST of a rule holds ε exactly when one of its productions is an epsilon production, has an empty body, or starts with a nullable item |
| FirstFollow.EpsilonLeak | parsepy/parser/cfg.py:217-230 | on `S -> A d`, `A -> B c`, `B -> ε`, FIRST of `A` is `{ε, c}` even though FIRST of its body is `{c}`, and SELECT of `S -> A d` then holds `d` |
| FirstFollow.LeakFirstB | parsepy/parser/cfg.py:209-212 | in that grammar FIRST of `B` is `{ε}` |
| FirstFollow.LeakFirstA | parsepy/parser/cfg.py:213-231 | in that grammar the rule loop gives FIRST of `A` as `{ε, c}` |
| FirstFollow.FollowRuleNoEps | parsepy/parser/cfg.py:249-272 | FOLLOW of a rule never holds ε |
| FirstFollow.FollowProdsNoEps | parsepy/parser/cfg.py:256-271 | what the productions contribute to FOLLOW never holds ε |
| FirstFollow.FollowAtNoEps | parsepy/parser/cfg.py:257-271 | what the positions of one production contribute to FOLLOW never holds ε |
| FirstFollow.FollowStart | parsepy/parser/cfg.py:251-253 | FOLLOW of the start rule holds `EOI` |
| FirstFollow.SelectShape | parsepy/parser/cfg.py:274-284 | SELECT is FIRST of the body when that lacks ε, and otherwise FIRST minus ε joined with FOLLOW of the owner; SELECT never holds ε |
| FirstFollow.SelectEpsilon | parsepy/parser/cfg.py:281-283 | SELECT of an epsilon production is FOLLOW of its owner |
| FirstFollow.FirstRuleFuel | parsepy/parser/cfg.py:200-231 | once FIRST of a rule has an answer within a recursion bound, every larger bound gives the same answer |
| FirstFollow.FirstProdsFuel | parsepy/parser/cfg.py:205-231 | the same for the loop over the productions of FIRST |
| FirstFollow.FirstItemsFuel | parsepy/parser/cfg.py:214-223 | the same for the loop over the items of a production |
| FirstFollow.FirstSeqFuel | parsepy/parser/cfg.py:179-187 | the same for FIRST of a list |
| FirstFollow.FirstSymFuel | parsepy/parser/cfg.py:192-198 | the same for FIRST of one symbol |
| FirstFollow.FollowRuleFuel | parsepy/parser/cfg.py:246-272 | the same for FOLLOW of a rule |
| FirstFollow.FollowProdsFuel | parsepy/parser/cfg.py:256-271 | the same for the loop over the productions of FOLLOW |
| FirstFollow.FollowAtFuel | parsepy/parser/cfg.py:257-271 | the same for the loop over the positions of one production |
| Ast.Leaf | parsepy/parser/ast.py:14-39 | a new node holds the value and function it was given and has no children |
| Ast.AddChild | parsepy/parser/ast.py:41-49 | the child is appended after the existing children, which stay as they were, and the node keeps its value and function |
| Ast.GetItem | parsepy/parser/ast.py:63-70 | indexing gives the child at that position, a negative index counting from the end, and fails outside the children |
| Ast.AddChildIndex | parsepy/parser/ast.py:41-49 | after `add_child` the newest child is at index -1 and at the old length, and the earlier children keep their indices |
| Ast.Default | parsepy/parser/ast.py:32-36 | the default function gives a token's value for a token, `None` for epsilon and, in the package, for every production; the older class gives `None` only for an epsilon production and fails on a truthy one |
| Ast.Args | parsepy/parser/ast.py:57-60 | the package passes one leading argument for the node, then the children's values; the older class passes the children's values alone |
| Ast.EvalKidsSpec | parsepy/parser/ast.py:57-59 | the children's values are produced exactly when every child evaluates, and then they are those values, in order, one per child |
| Ast.EvalKidsFirstError | parsepy/parser/ast.py:57-59 | children are evaluated left to right: the failure reported is that of the first child that fails |
| Ast.EvalWithAction | parsepy/parser/ast.py:51-61 | a node with its own function evaluates to that function applied to the argument list built from the children's values in order (post-order evaluation) |
| Ast.EvalLeaves | parsepy/parser/ast.py:32-38 | without a function of its own a token leaf evaluates to the token's value and an epsilon leaf to `None` |
| Ast.EvalDefaultProd | parser.py:373-377 | without a function of its own a production node evaluates to `None` in the package once its children evaluate, while in the older class a truthy production fails |
| Ast.AddChildEval | parsepy/parser/ast.py:41-59 | adding a child extends the children's values by that child's value |
| Ast.ValueNe | parsepy/parser/ast.py:87 | two tokens differ exactly when their kinds or values do; a token against a non-token cannot be compared; other values differ exactly when they are not the same |
| Ast.Ne | parsepy/parser/ast.py:99-106 | `__ne__` answers exactly when `__eq__` does, with the opposite answer |
| Ast.EqReflexive | parsepy/parser/ast.py:80-97 | a tree equals itself |
| Ast.EqMeans | parsepy/parser/ast.py:80-97 | equality holds exactly when the values compare equal and every child of the left tree equals the right tree's child at the same position, extra children on the right not being looked at |
| Ast.EqAsymmetric | parsepy/parser/ast.py:90-95 | equality is not symmetric: a node equals itself with an extra child, but not the other way round |
| Ast.KidsEqStops | parsepy/parser/ast.py:90-95 | a left tree with more children than the right one, equal at every shared position, is not equal to it |
| Ast.EqTokenAgainstEps | parsepy/parser/ast.py:87 | comparing a token leaf with an epsilon leaf, in either order, fails instead of answering |
| ParserConfig.Tokens | parsepy/lexer/lexer.py:159-166 | the lexer's token kinds, as grammar symbols, are exactly the terminals named by its patterns |
| ParserConfig.Configure | parsepy/parser/parser.py:13-32 | configuration succeeds exactly when `EOI` is no token kind and every term of the grammar is a token kind, and then stores the lexer, grammar and actions unchanged; the failure is the `EOI` one exactly when `EOI` is a token kind, and otherwise it names the terms that are no token kind |
| ParserConfig.NoCollision | parsepy/parser/parser.py:21-23 | no token kind is ever a rule: the name-collision check cannot fire |
| ParserConfig.EOIOnlyFromTokens | parsepy/parser/parser.py:24-25 | the `EOI` check fires exactly when `EOI` is a token kind; a rule called `EOI` does not trip it |
| ParserConfig.RuleNamedEOI | parsepy/parser/parser.py:24-32 | a grammar with a rule named `EOI` is accepted when the lexer does not declare `EOI` and covers the terms |
| LL1Table.EnterRow | parsepy/parser/ll1.py:25-29 | the inner loop either stops at a symbol of the SELECT set that the row already holds, or enters the production under every symbol of the set, none of which the row held before |
| LL1Table.BuildTable | parsepy/parser/ll1.py:23-29 | the table is built exactly when every SELECT set can be computed and no two productions of one rule share a lookahead; it then has a row for every rule, every entry comes from a production of that row's rule whose SELECT set holds the symbol, and every symbol of every SELECT set leads to its production; a failure is reported at the first production whose SELECT set fails or that clashes with an earlier one |
| LL1Table.BuiltStep | parsepy/parser/ll1.py:24-27 | entering one more production whose lookaheads are all new keeps the loop invariant: a row per rule, no clash, and exactly the entries the productions so far call for |
| LL1Table.ClashFound | parsepy/parser/ll1.py:26-29 | a lookahead already in the row belongs to an earlier production of the same rule, so the ambiguity error is the right report |
| LL1Table.NoClashHere | parsepy/parser/ll1.py:26-27 | when none of the production's lookaheads is in the row, it shares a lookahead with no earlier production of its rule |
| LL1Table.SoundStep | parsepy/parser/ll1.py:26-27 | entering a production keeps every table entry justified by a production whose SELECT set holds its symbol |
| LL1Table.CompleteStep | parsepy/parser/ll1.py:26-27 | entering a production keeps the earlier productions' entries and adds its own |
| LL1Table.NewLL1 | parsepy/parser/ll1.py:13-29 | construction reports the configuration error when there is one; otherwise it succeeds exactly when the table can be built, keeping the configured parser and a table with the properties above (the module taken with the `AST` import it lacks, see "Left out") |
| LL1Table.EntryUnique | parsepy/parser/ll1.py:25-29 | in a table that was built, a production's lookahead leads to that production, and no other production of the same rule has that lookahead |
| LL1Table.NoEpsilonEntries | parsepy/parser/ll1.py:25-27 | no row of the table has an entry for epsilon |
| LL1Table.TableDetermined | parsepy/parser/ll1.py:23-29 | the grammar fixes the table: two tables with the same rows that are both sound and complete for it are equal |
| LL1Driver.Reversed | parsepy/parser/ll1.py:82 | `reversed(prod.prod)` has the body's length and holds its symbols last to first |
| LL1Driver.Dec | parsepy/parser/ll1.py:52 | `pops[-1] -= 1` lowers the last counter by one and leaves the others alone |
| LL1Driver.AddToTop | parsepy/parser/ll1.py:53 | `curr.add_child` appends to the current node only; the nodes above it are untouched |
| LL1Driver.Close | parsepy/parser/ll1.py:56 | `curr = curr.parent` leaves one open node fewer |
| LL1Driver.Collapse | parsepy/parser/ll1.py:54-56 | when the terminal branch's closing loop ends, counters and open nodes are still paired and the last counter is not 0 |
| LL1Driver.Settle | parsepy/parser/ll1.py:78-80 | the epsilon branch's closing loop ends at the root or at a counter that is not 0 |
| LL1Driver.Step | parsepy/parser/ll1.py:49-82 | an iteration that does not raise keeps `EOI` at the bottom of `ps`, one counter per open node, and the current token inside the stream |
| LL1Driver.Init | parsepy/parser/ll1.py:40-48 | the loop starts with `ps = [EOI, start]`, `pops = [1]`, the childless `Root` node as current node, and the first token |
| LL1Driver.CollapseSum | parsepy/parser/ll1.py:54-56 | the terminal branch's closing loop pops only counters that are 0, so the sum of `pops` is unchanged |
| LL1Driver.SettleSum | parsepy/parser/ll1.py:78-80 | the same for the epsilon branch's closing loop |
| LL1Driver.StepKeepsCount | parsepy/parser/ll1.py:49-82 | every branch keeps `len(ps) - 1 == sum(pops)` |
| LL1Driver.InitCounted | parsepy/parser/ll1.py:41-47 | `len(ps) - 1 == sum(pops)` holds before the first iteration |
| LL1Driver.CloseFringe | parsepy/parser/ll1.py:56 | moving the current node into its parent keeps the leaves of the open nodes, in order: keeping children in open nodes builds the same tree as adding them through parent links |
| LL1Driver.CloseAllFringe | parsepy/parser/ll1.py:83 | joining all open nodes into the root keeps their leaves, in order |
| LL1Driver.StepMatch | parsepy/parser/ll1.py:50-57 | the terminal branch pops the matched symbol, adds the token as the next leaf, and makes the next token current |
| LL1Driver.StepExpand | parsepy/parser/ll1.py:64-82 | the expansion branch takes the table's production for the stack top and the token, replaces the top by the body with its leftmost symbol uppermost, pushes a counter equal to the body's length, opens a node with the production's action or none, and consumes no token |
| LL1Driver.StepEpsilon | parsepy/parser/ll1.py:76-80 | an epsilon production pops the top, adds exactly one epsilon leaf, consumes no token, and closes finished nodes up to an unfinished one or the root |
| LL1Driver.StepBadKind | parsepy/parser/ll1.py:58-61 | a non-`EOI` token whose kind is no terminal of the grammar fails as unexpected before the `unknown` check, which fires only for an `unknown` kind that is a terminal |
| LL1Driver.StepShape | parsepy/parser/ll1.py:49-82 | every iteration keeps the root childless while the start node is open and gives it exactly one child when the start node closes |
| LL1Driver.FinishOne | parsepy/parser/ll1.py:83 | when the loop ends, the root has exactly one child, so `out_tree[0]` exists |
| LL1Driver.StepConsumed | parsepy/parser/ll1.py:50-82 | every iteration keeps the token leaves built so far equal to the tokens consumed, none of them `EOI` |
| LL1Driver.FinishLeaves | parsepy/parser/ll1.py:83 | the returned start node holds all leaves built, in order |
| LL1Driver.StepInv | parsepy/parser/ll1.py:49-82 | one iteration keeps the loop invariant (stack discipline, counter sum, root shape, consumed tokens) and consumes at most one token |
| LL1Driver.StepPos | parsepy/parser/ll1.py:50-82 | an iteration moves the token position forward by at most one |
| LL1Driver.RunLeaves | parsepy/parser/ll1.py:49-83 | the tree the loop returns has as token leaves, in order, exactly the tokens it consumed, none of them `EOI` |
| LL1Driver.TreeLeaves | parsepy/parser/ll1.py:35-83 | `tree` returns a tree whose token leaves are, in order, a prefix of the token stream that contains no `EOI`; what follows the prefix is never looked at |
| LL1Driver.RunMoreSteps | parsepy/parser/ll1.py:49 | a loop that ends within some number of iterations ends the same way with any larger allowance |
| LL1Driver.CollapseIsSettle | parsepy/parser/ll1.py:54-80 | the terminal branch's unguarded closing loop closes exactly what the guarded epsilon-branch loop closes, except that where the guarded loop stops at the root with counter 0 the unguarded one fails |
| LL1Driver.StepUnguarded | parsepy/parser/ll1.py:50-57 | an iteration of the loop as written equals the corrected one except when a token completes the start node, where it fails with the underflow |
| LL1Driver.CloseMatched | parsepy/parser/ll1.py:54-56 | the terminal branch's closing loop does what `Collapse` says, failing exactly where `pops` is emptied and indexed |
| LL1Driver.CloseEpsilon | parsepy/parser/ll1.py:78-80 | the epsilon branch's closing loop does what `Settle` says |
| LL1Driver.Iteration | parsepy/parser/ll1.py:50-82 | the loop body, reading the next token from the lexer's cursor, does what `Step` says |
| LL1Driver.MatchIteration | parsepy/parser/ll1.py:50-57 | the terminal branch does what `Step` says and leaves the cursor on the token after the new current one |
| LL1Driver.ExpandIteration | parsepy/parser/ll1.py:58-82 | the error branches and the expansion branch do what `Step` says |
| LL1Driver.RunLoop | parsepy/parser/ll1.py:49-83 | the `while ps[-1] != EOI` loop and `return out_tree[0]` give what `Run` says |
| LL1Driver.Tree | parsepy/parser/ll1.py:35-83 | `tree` on a text gives what the model's run gives on the lexer's token stream for that text (the module taken with the `AST` import it lacks, see "Left out") |
| LL1Driver.Evaluate | parsepy/parser/ll1.py:31-33 | `eval` builds the tree of the text from the grammar's start and evaluates it, passing on either failure (the module taken with the `AST` import it lacks, see "Left out") |
| LL1Driver.OneRuleUnderflows | parsepy/parser/ll1.py:54-56 | with `S -> a` on the input `a`, the loop as written fails with the underflow |
| LL1Driver.OneRuleGuarded | parsepy/parser/ll1.py:76-80 | with the guarded closing loop the same input gives the tree `S(a)` |
| LL1Driver.TrailingInputIgnored | parsepy/parser/ll1.py:49 | with `S -> a T`, `T -> S x`, `T -> ε` on `a x`, the loop returns `S(a, T(ε))` and never reads `x`: no error reports the unread input |
| LL1Driver.OneRuleBuilt | parsepy/parser/ll1.py:13-29 | SELECT(`S -> a`) is {a} at any depth, so construction succeeds, and the only sound and complete table with a row per rule is `S` on `a` to `S -> a` |
| LL1Driver.BuildOneRuleTable | parsepy/parser/ll1.py:13-29 | table construction on `S -> a` returns that table |
| LL1Driver.SeqFollowS | parsepy/parser/cfg.py:233-272 | in `S -> a T`, `T -> S x`, `T -> ε`, FOLLOW(S) is {EOI, x} |
| LL1Driver.SeqFollowT | parsepy/parser/cfg.py:233-272 | in the same grammar FOLLOW(T) equals FOLLOW(S), because `T` ends the body of `S` |
| LL1Driver.SeqSelects | parsepy/parser/cfg.py:274-285 | the SELECT sets of the three productions are {a}, {a} and {x, EOI} |
| LL1Driver.SeqTableSound | parsepy/parser/ll1.py:23-29 | every entry of the example table is called for by one of those SELECT sets |
| LL1Driver.SeqTableComplete | parsepy/parser/ll1.py:23-29 | the example table has a row per rule and every entry the SELECT sets call for |
| LL1Driver.SeqBuilt | parsepy/parser/ll1.py:13-29 | no two productions of `T` share a lookahead, so construction succeeds, and the only sound and complete table with a row per rule is the example table |
| LL1Driver.BuildSeqTable | parsepy/parser/ll1.py:13-29 | table construction on the grammar returns the example table |

## Left out

- Python's `re` engine is not modelled. A pattern is an oracle that gives the length of its match anchored at the cursor. A match of length 0 counts as no match; the source would then not advance.
- Lexer.MatchLenAgrees: stated for lexers whose patterns never match the empty string (`NonEmptyMatches`). The source takes an empty match as a match of length 0, after which the cursor stops advancing; the model counts it as no match.
- Lexer.LongestMatch: stated for lexers in which no pattern is named `unknown`. The source's test `greedy[0] == UNK` (`parsepy/lexer/lexer.py:187`) then lets any later match replace a match from that pattern, so the earliest-longest promise fails. `Lexer.Match` models this as written, and `Lexer.UnknownNamedPattern` shows an instance.
- The undefined `Lexer.Error` hit when a pattern does not compile (`parsepy/lexer/lexer.py:156`) is not modelled: patterns are given as oracles.
- File input (`tokenize_file`) is left out.
- Printing and formatting are left out, because they only produce text: `printCFG`, `print_tree`, `__str__`, `__repr__`, `items_str`, `loc_str` and the message formatting of the error classes.
- The demo functions `test()`, `parsepy/tests/cfg_test.py` and `setup.py` are left out.
- Semantic actions and token transforms are arbitrary pure functions (`A.EvalFn`, `Lexer.Transform`). A transform that raises is not modelled. This includes a `KeyError` raised inside a transform, which the `except KeyError` of `get_token` (`parsepy/lexer/lexer.py:189-192`) catches; the source then returns the raw text as the token's value.
- Ast.Args: the package passes the node object itself as the first argument (`parsepy/parser/ast.py:57`), so an action can read the node's value and children. The model passes the placeholder `SelfNode`, which carries nothing, so no modelled action can look at its node.
- Ast.ValueNe: productions are compared as values. `Prod` defines no `__eq__` (`parsepy/parser/cfg.py:65-128`), so `self.value != other.value` compares two production objects by identity. Trees holding equal productions from two separately built grammars are unequal in the source and equal in the model. Within one grammar the productions differ in `idx`, so the two comparisons agree there.
- Grammar.Build: numbers copies of the productions. `CFG.__init__` sets `idx` on the caller's `Prod` objects in place (`parsepy/parser/cfg.py:139-140`). A `Prod` shared with a grammar built later then carries that grammar's index, and `LL1.tree` looks its action up by that index (`parsepy/parser/ll1.py:71`). It may then run the action registered for another production, or none (the `KeyError` fallback at lines 72-73). The model always uses the production's position within the grammar being parsed.
- `AST.eval` calls the evaluation function twice and returns the second result. For a pure function this equals one call, which is what `Ast.Eval` does. Side effects of actions are not modelled.
- Node parent links are not modelled. The parse keeps the open nodes from the root to the current node, and a node joins its parent's children when it is left. `LL1Driver.CloseFringe` and `LL1Driver.CloseAllFringe` show that this gives the same leaves in the same order, because nothing is added to a parent while its child is open. Sharing of node objects is not modelled either.
- The fields `line`, `col`, `raw`, `idx` and `file` of `AST` are left out: the parse never fills them.
- `CFG.parse` takes the list of lines. `str.splitlines` on a string argument is not modelled.
- GrammarText.Parse: for text with no lines the source passes `start=None` to the constructor, which refuses it as an invalid start. The model passes the empty name, which is refused the same way (`InvalidStart("")`), because with no productions no rule can be called anything.
- FIRST and FOLLOW recurse without cycle protection, so they may run out of depth on left-recursive or mutually dependent grammars. The functions take a `fuel` bound standing for the interpreter's recursion limit, with `RecursionLimit` as the failure. The `...Fuel` lemmas show that the bound only cuts computations short; no lemma says that a particular grammar finishes.
- Termination of the `while ps[-1] != EOI` loop is not proved. `Run` and `RunLoop` take an iteration budget, with `OutOfSteps` when it runs out, and `LL1Driver.RunMoreSteps` shows that a larger budget changes nothing for a run that ended.
- Python type errors on arguments of the wrong type are not modelled: a non-iterable text or an unhashable start in `tree`, and an unsupported type in `first` or in `CFG.__contains__`. Symbols are a closed datatype, so only the refusal of strings and epsilon by `follow` remains (`UnsupportedType`).
- Exception classes and messages are left out: each failure is one tagged error value. This includes the KeyError raised when a terminal that does not match is on top of the stack (tagged `UnexpectedToken` or `NoEntry`) and the wrong number of arguments given to `UnkToken`.
- ParserConfig.Configure: a failure carries the whole set of colliding or undefined names, where the source reports one element taken with `set.pop()`, whose choice Python leaves unspecified.
- LL1Table.EnterRow: the order in which a SELECT set is walked is a free choice, as Python's set order is. Only which symbol is found to clash depends on it, and the error names the rule alone.
- `parsepy/parser/ll1.py` never imports `AST`, yet its annotations `-> AST` (lines 31 and 35) are evaluated when the class is defined, and `tree` calls `AST('Root')` (line 46). As written, the module fails with `NameError` on import under most Python versions that `setup.py:25` allows, or at the first `tree` call under the rest. The package driver (`LL1Table.NewLL1`, `LL1Driver.Tree`, `LL1Driver.Evaluate`) is modelled as if `from parsepy.parser.ast import AST` were present. The same loop runs with `AST` defined in `parser.py:560-630` (class `AST` at `parser.py:358`).
- The hash functions of `NonTerm` and `Token` are left out: sets and maps of values need none.
- `parsepy/ast.py` and `parsepy/cfg.py`, which `parsepy/LL1.py` imports, are not part of this model. The older `LL1.py` is modelled by the same table and driver code as the package, whose text it repeats (`parsepy/LL1.py:16-86`).

## Findings

| source | as written | input that shows it | evidently intended | confidence | as-written member | corrected member |
|---|---|---|---|---|---|---|
| parsepy/lexer.py:178-193 | `__next__` tests for the end of the input only on entry. The skipping loop then reads `str_in[n]` even after the last character was consumed by a discarded token. For the empty input `line_idx` is empty, and `line_idx[-1]` fails. | the lexer `a`/blank with blanks discarded, on `"a "`: the second call fails instead of returning `EOI`; on `""` the first call fails | yield `EOI` once the remaining characters are all discarded, as `parsepy/lexer/lexer.py:121-138` does | high (not executed) | LegacyLexer.TrailingBlankCrashes, LegacyLexer.EmptyInputCrashes | Lexer.Iter.Next, LegacyLexer.TrailingBlankPackage |
| parser.py:601-603 | the terminal branch's closing loop `while pops[-1] == 0` has no `curr.parent` guard, unlike the epsilon branch at line 625. The package copy `parsepy/parser/ll1.py:54-56` (guarded branch at line 78) and `parsepy/LL1.py` repeat it. When a token completes the start node it pops the root's counter too and then indexes the empty `pops`. | grammar `S -> a`, input `a`: after the match `pops` is `[0, 0]`, both counters are popped, and `pops[-1]` raises `IndexError` | stop at the root, as the epsilon branch does, and return `S(a)` | high (not executed) | LL1Driver.OneRuleUnderflows, LL1Driver.StepUnguarded | LL1Driver.OneRuleGuarded, LL1Driver.CollapseIsSettle |
