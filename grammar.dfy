/** Context-free grammars as `parsepy/parser/cfg.py` represents them:
    productions, the grammar value with its start rule, the derived sets
    `rules` and `terms`, and the validating constructor `CFG.__init__`.
    The older `parser.py` has the same definitions. */
module Grammar {
  import opened Symbols

  /** Why a grammar operation fails. */
  datatype CfgError =
    | UndefinedNonTerm(name: string)  // a body names a non-terminal that owns no production
    | InvalidStart(name: string)      // the start name is not a rule
    | NotARule(name: string)          // FIRST/FOLLOW asked about a non-terminal that is not a rule
    | UnsupportedType                 // FOLLOW asked about something that is not a rule
    | RecursionLimit                  // the recursion of FIRST/FOLLOW ran out of depth
    | BadRuleLine(line: string)       // a line of grammar text without exactly one `->`

  /** A production `rule -> body`, numbered by `idx`. */
  datatype Prod = Prod(rule: string, body: seq<Symbol>, idx: int) {

    /** `Prod.__bool__`: false exactly for an epsilon production. */
    predicate Truthy() {
      Eps !in body
    }

    /** `Prod.__len__`: 0 for an epsilon production, else the body length. */
    function Len(): nat {
      if Eps in body then 0 else |body|
    }
  }

  /** A production is falsy exactly when `Eps` is in its body, and then its
      length is 0; otherwise its length is its body's length, and it is 0
      only for an empty body. */
  lemma TruthyLen(p: Prod)
    ensures !p.Truthy() <==> exists k :: 0 <= k < |p.body| && p.body[k] == Eps
    ensures !p.Truthy() ==> p.Len() == 0
    ensures p.Truthy() ==> p.Len() == |p.body| && (p.Len() == 0 <==> p.body == [])
  {
  }

  /** A grammar: its productions in order and the name of its start rule. */
  datatype CFG = CFG(productions: seq<Prod>, start: string)

  /** The rule set of a production list: one `NonTerm` per owner. */
  function RulesOf(ps: seq<Prod>): (r: set<Symbol>)
    ensures forall x :: x in r <==> exists i :: 0 <= i < |ps| && x == NonTerm(ps[i].rule)
  {
    set i | 0 <= i < |ps| :: NonTerm(ps[i].rule)
  }

  /** `CFG.rules`. */
  function Rules(g: CFG): set<Symbol> {
    RulesOf(g.productions)
  }

  /** `name` owns some production of `g` (the `in self.rules` and
      `in (r.name for r in self.rules)` tests). */
  predicate IsRule(g: CFG, name: string) {
    NonTerm(name) in Rules(g)
  }

  /** The symbols occurring in the bodies of the truthy productions. */
  function BodySymbols(ps: seq<Prod>): (r: set<Symbol>)
    ensures forall x :: x in r <==>
      exists i, k :: 0 <= i < |ps| && ps[i].Truthy() && 0 <= k < |ps[i].body| && x == ps[i].body[k]
  {
    set i, k | 0 <= i < |ps| && ps[i].Truthy() && 0 <= k < |ps[i].body| :: ps[i].body[k]
  }

  /** `CFG.terms`: what the truthy bodies mention, minus the rules. */
  function Terms(g: CFG): set<Symbol> {
    BodySymbols(g.productions) - Rules(g)
  }

  /** No body mentions a non-terminal that owns no production. */
  ghost predicate NoDangling(ps: seq<Prod>) {
    forall i, k :: 0 <= i < |ps| && 0 <= k < |ps[i].body| && ps[i].body[k].NonTerm? ==>
      ps[i].body[k] in RulesOf(ps)
  }

  /** What a successful construction guarantees. */
  ghost predicate WellFormed(g: CFG) {
    && NoDangling(g.productions)
    && IsRule(g, g.start)
    && (forall i :: 0 <= i < |g.productions| ==> g.productions[i].idx == i)
  }

  /** In a well-formed grammar every term is a terminal string: epsilon
      occurs only in falsy productions and every non-terminal is a rule. */
  lemma TermsAreTerminals(g: CFG)
    requires WellFormed(g)
    ensures forall x :: x in Terms(g) ==> x.Terminal?
  {
    forall x | x in Terms(g) ensures x.Terminal? {
      var i, k :| 0 <= i < |g.productions| && g.productions[i].Truthy()
                  && 0 <= k < |g.productions[i].body| && x == g.productions[i].body[k];
      assert x != Eps;
    }
  }

  /** The production list with every `idx` set to its position. */
  function Renumbered(ps: seq<Prod>): (r: seq<Prod>)
    ensures |r| == |ps|
    ensures forall i :: 0 <= i < |ps| ==> r[i] == ps[i].(idx := i)
  {
    seq(|ps|, i requires 0 <= i < |ps| => ps[i].(idx := i))
  }

  /** Renumbering changes neither rules nor bodies. */
  lemma RenumberedRules(ps: seq<Prod>)
    ensures RulesOf(Renumbered(ps)) == RulesOf(ps)
    ensures NoDangling(Renumbered(ps)) <==> NoDangling(ps)
  {
    var r := Renumbered(ps);
    forall x | x in RulesOf(ps) ensures x in RulesOf(r) {
      var i :| 0 <= i < |ps| && x == NonTerm(ps[i].rule);
      assert x == NonTerm(r[i].rule);
    }
  }

  /** Every non-terminal met before position `k` of body `a`, scanning the
      bodies in order, owns a production. */
  ghost predicate ClosedBefore(ps: seq<Prod>, a: nat, k: nat)
    requires a < |ps|
  {
    && (forall b, j :: 0 <= b < a && 0 <= j < |ps[b].body| && ps[b].body[j].NonTerm? ==> ps[b].body[j] in RulesOf(ps))
    && (forall j :: 0 <= j < k && j < |ps[a].body| && ps[a].body[j].NonTerm? ==> ps[a].body[j] in RulesOf(ps))
  }

  /** `CFG.__init__`: numbers the productions by position, rejects a body
      non-terminal that owns no production (first offender in order), then
      rejects a start name that is not a rule. */
  method Build(prods: seq<Prod>, start: string) returns (r: Result<CFG, CfgError>)
    ensures r.Success? <==> NoDangling(prods) && NonTerm(start) in RulesOf(prods)
    ensures r.Success? ==> r.value == CFG(Renumbered(prods), start) && WellFormed(r.value)
    ensures r.Failure? ==> (r.error.UndefinedNonTerm? <==> !NoDangling(prods))
    ensures r.Failure? && r.error.UndefinedNonTerm? ==> NonTerm(r.error.name) !in RulesOf(prods)
    ensures r.Failure? && r.error.UndefinedNonTerm? ==>
      exists a, k :: 0 <= a < |prods| && 0 <= k < |prods[a].body| && prods[a].body[k] == NonTerm(r.error.name)
                     && ClosedBefore(prods, a, k)
    ensures r.Failure? && !r.error.UndefinedNonTerm? ==> r.error == InvalidStart(start)
  {
    var ps := prods;
    var n := 0;
    while n < |ps|
      invariant 0 <= n <= |ps| && |ps| == |prods|
      invariant forall i :: 0 <= i < n ==> ps[i] == prods[i].(idx := i)
      invariant forall i :: n <= i < |ps| ==> ps[i] == prods[i]
    {
      ps := ps[n := ps[n].(idx := n)];
      n := n + 1;
    }
    assert ps == Renumbered(prods);
    RenumberedRules(prods);
    var rules := RulesOf(ps);
    var i := 0;
    while i < |ps|
      invariant 0 <= i <= |ps|
      invariant forall a, k :: 0 <= a < i && 0 <= k < |ps[a].body| && ps[a].body[k].NonTerm? ==> ps[a].body[k] in rules
    {
      var body := ps[i].body;
      var k := 0;
      while k < |body|
        invariant 0 <= k <= |body|
        invariant forall a, k' :: 0 <= a < i && 0 <= k' < |ps[a].body| && ps[a].body[k'].NonTerm? ==> ps[a].body[k'] in rules
        invariant forall k' :: 0 <= k' < k && body[k'].NonTerm? ==> body[k'] in rules
      {
        if body[k].NonTerm? && body[k] !in rules {
          assert ClosedBefore(prods, i, k);
          return Failure(UndefinedNonTerm(body[k].name));
        }
        k := k + 1;
      }
      i := i + 1;
    }
    if NonTerm(start) !in rules {
      return Failure(InvalidStart(start));
    }
    r := Success(CFG(ps, start));
  }
}
