/** The checks `Parser.__init__` makes before a lexer and a grammar are
    combined (`parsepy/parser/parser.py`, and identically in `parser.py`
    and `parsepy/parser.py`): a token kind may not also be a rule, `EOI`
    may not be a token kind or a rule, and every terminal of the grammar
    must be a token kind. */
module ParserConfig {
  import opened Symbols
  import opened Grammar
  import L = Lexer
  import A = Ast

  /** Why a lexer and a grammar cannot be combined. The library reports one
      element of a non-empty set; the model keeps the whole set. */
  datatype ConfigError =
    | NameCollision(names: set<Symbol>)        // token kinds that are also rules
    | ReservedEOI                              // `EOI` is a token kind or a rule
    | UndefinedTerminals(missing: set<Symbol>) // terms that are no token kind

  /** A configured parser: the lexer, the grammar and the semantic actions
      (keyed by production number), stored unchanged. */
  datatype Parser = Parser(lexer: L.Lexer, cfg: CFG, actions: map<int, A.EvalFn>)

  /** `lexer.tokens` as symbols: token kinds are plain strings, that is,
      terminals. */
  function Tokens(lx: L.Lexer): (r: set<Symbol>)
    ensures forall x :: x in r <==> x.Terminal? && x.name in lx.Kinds()
  {
    set k | k in lx.Kinds() :: Terminal(k)
  }

  /** `Parser.__init__`: the three checks in order, then the components are
      stored. */
  function Configure(lx: L.Lexer, g: CFG, actions: map<int, A.EvalFn>): (r: Result<Parser, ConfigError>)
    ensures r.Success? <==> EOI !in lx.Kinds() && Terms(g) <= Tokens(lx)
    ensures r.Success? ==> r.value == Parser(lx, g, actions)
    ensures r.Failure? ==> (r.error == ReservedEOI <==> EOI in lx.Kinds())
    ensures r.Failure? && EOI !in lx.Kinds() ==> r.error == UndefinedTerminals(Terms(g) - Tokens(lx)) && r.error.missing != {}
  {
    NoCollision(lx, g);
    EOIOnlyFromTokens(lx, g);
    var nc := Tokens(lx) * Rules(g);
    if nc != {} then Failure(NameCollision(nc))
    else if EndOfInput in Tokens(lx) + Rules(g) then Failure(ReservedEOI)
    else
      var mt := Terms(g) - Tokens(lx);
      if mt != {} then Failure(UndefinedTerminals(mt))
      else
        assert Terms(g) <= Tokens(lx) by {
          forall x | x in Terms(g) ensures x in Tokens(lx) {
            assert x !in mt;
          }
        }
        Success(Parser(lx, g, actions))
  }

  /** The collision check never fires: rules are non-terminals and token
      kinds are strings, and the two never compare equal. */
  lemma NoCollision(lx: L.Lexer, g: CFG)
    ensures Tokens(lx) * Rules(g) == {}
  {
  }

  /** For the same reason a rule named `EOI` does not trip the `EOI` check:
      only a token kind named `EOI` does. */
  lemma EOIOnlyFromTokens(lx: L.Lexer, g: CFG)
    ensures EndOfInput in Tokens(lx) + Rules(g) <==> EOI in lx.Kinds()
  {
  }

  /** A lexer whose kinds cover the terms and that does not declare `EOI`
      is accepted whatever the grammar's rules are called. */
  lemma RuleNamedEOI(lx: L.Lexer, g: CFG, actions: map<int, A.EvalFn>)
    requires IsRule(g, EOI) && EOI !in lx.Kinds() && Terms(g) <= Tokens(lx)
    ensures Configure(lx, g, actions) == Success(Parser(lx, g, actions))
  {
  }
}
