/** The stack-driven parse `LL1.tree` of `parsepy/parser/ll1.py` (the same
    loop is in `parser.py` and `parsepy/LL1.py`), and `LL1.eval`.

    The parse keeps a symbol stack `ps` (bottom `EOI`), a stack `pops` of
    how many symbols each open node still expects, and a current node. The
    model keeps the path of open nodes from the root to the current node;
    a node joins its parent's children when it is left, which gives the
    same children in the same order because nothing is added to the parent
    while the child is open. One loop iteration is `Step`, the loop is
    `Run`, and `Tree` is the loop itself, pulling tokens from the lexer's
    cursor. */
module LL1Driver {
  import opened Symbols
  import opened Grammar
  import L = Lexer
  import A = Ast
  import T = LL1Table
  import FF = FirstFollow

  /** Why a parse or an evaluation fails, tagged by the place that raises. */
  datatype ParseError =
    | NoToken                      // `next(t_iter)` raised `StopIteration`
    | Underflow                    // the terminal branch emptied `pops` and indexed it
    | UnexpectedToken(t: L.Token)  // a token kind that is no terminal of the grammar
    | UnknownToken(t: L.Token)     // the `unknown` kind
    | NoEntry(t: L.Token)          // no table entry for the stack top and token
    | NoTree                       // the root has no child to return
    | OutOfSteps                   // the step budget ran out
    | EvalFailed(e: A.AstError)    // `eval` of the tree failed

  /** The loop's variables: `ps`, `pops`, the open nodes (root first, the
      current node last) and the position of the current token. */
  datatype State = State(ps: seq<Symbol>, pops: seq<int>, open: seq<A.Ast>, pos: nat)

  /** What every loop iteration may rely on. */
  ghost predicate WF(s: State, toks: seq<L.Token>) {
    && |s.ps| >= 1 && s.ps[0] == EndOfInput
    && |s.pops| == |s.open| >= 1
    && s.pos < |toks|
  }

  function Top(s: State): Symbol
    requires |s.ps| >= 1
  {
    s.ps[|s.ps| - 1]
  }

  /** `reversed(xs)`. */
  function Reversed<X>(xs: seq<X>): (r: seq<X>)
    ensures |r| == |xs|
    ensures forall i :: 0 <= i < |xs| ==> r[i] == xs[|xs| - 1 - i]
  {
    if xs == [] then [] else Reversed(xs[1..]) + [xs[0]]
  }

  /** `pops[-1] -= 1`. */
  function Dec(pops: seq<int>): (r: seq<int>)
    requires |pops| >= 1
    ensures |r| == |pops| && r[..|pops| - 1] == pops[..|pops| - 1] && r[|pops| - 1] == pops[|pops| - 1] - 1
  {
    pops[..|pops| - 1] + [pops[|pops| - 1] - 1]
  }

  /** `curr.add_child(c)` on the current node. */
  function AddToTop(open: seq<A.Ast>, c: A.Ast): (r: seq<A.Ast>)
    requires |open| >= 1
    ensures |r| == |open| && r[..|open| - 1] == open[..|open| - 1]
    ensures r[|open| - 1] == A.AddChild(open[|open| - 1], c)
  {
    open[..|open| - 1] + [A.AddChild(open[|open| - 1], c)]
  }

  /** `curr = curr.parent`: the current node is finished and joins its
      parent's children. */
  function Close(open: seq<A.Ast>): (r: seq<A.Ast>)
    requires |open| >= 2
    ensures |r| == |open| - 1
  {
    AddToTop(open[..|open| - 1], open[|open| - 1])
  }

  /** The closing loop of the terminal branch, `while pops[-1] == 0:
      pops.pop(); curr = curr.parent`, which has no guard for the root:
      `None` when it pops the root's counter and then indexes the empty
      list. */
  function Collapse(pops: seq<int>, open: seq<A.Ast>): (r: Option<(seq<int>, seq<A.Ast>)>)
    requires |pops| == |open| >= 1
    ensures r.Some? ==> |r.value.0| == |r.value.1| >= 1 && r.value.0[|r.value.0| - 1] != 0
    decreases |pops|
  {
    if pops[|pops| - 1] != 0 then Some((pops, open))
    else if |pops| == 1 then None
    else Collapse(pops[..|pops| - 1], Close(open))
  }

  /** The closing loop of the epsilon branch, `while curr.parent and
      pops[-1] == 0`, which stops at the root. */
  function Settle(pops: seq<int>, open: seq<A.Ast>): (r: (seq<int>, seq<A.Ast>))
    requires |pops| == |open| >= 1
    ensures |r.0| == |r.1| >= 1 && (|r.1| == 1 || r.0[|r.0| - 1] != 0)
    decreases |pops|
  {
    if |open| == 1 || pops[|pops| - 1] != 0 then (pops, open)
    else Settle(pops[..|pops| - 1], Close(open))
  }

  /** The action bound to a production: `actions[prod.idx]`, or `None` on a
      `KeyError`. */
  function ActionOf(acts: map<int, A.EvalFn>, p: Prod): Option<A.EvalFn> {
    if p.idx in acts then Some(acts[p.idx]) else None
  }

  /** One iteration of the loop, with `toks[s.pos]` the current token.
      `guarded` selects the terminal branch's closing loop: `false` is the
      source's unguarded loop (`Collapse`), `true` the corrected one that
      stops at the root like the epsilon branch's (`Settle`). */
  function Step(t: T.Table, terms: set<Symbol>, acts: map<int, A.EvalFn>, toks: seq<L.Token>, s: State, guarded: bool)
    : (r: Result<State, ParseError>)
    requires WF(s, toks) && Top(s) != EndOfInput
    ensures r.Success? ==> WF(r.value, toks)
  {
    var tok := toks[s.pos];
    var top := Top(s);
    var rest := s.ps[..|s.ps| - 1];
    if tok.kind != EOI && top == Terminal(tok.kind) then
      var open := AddToTop(s.open, A.Leaf(A.TokNode(tok), None));
      var closed := if guarded then Some(Settle(Dec(s.pops), open)) else Collapse(Dec(s.pops), open);
      if closed.None? then Failure(Underflow)
      else if s.pos + 1 >= |toks| then Failure(NoToken)
      else Success(State(rest, closed.value.0, closed.value.1, s.pos + 1))
    else if tok.kind != EOI && Terminal(tok.kind) !in terms then Failure(UnexpectedToken(tok))
    else if tok.kind == UNK then Failure(UnknownToken(tok))
    else if top !in t || Terminal(tok.kind) !in t[top] then Failure(NoEntry(tok))
    else
      var p := t[top][Terminal(tok.kind)];
      var pops := Dec(s.pops) + [p.Len()];
      var open := s.open + [A.Leaf(A.ProdNode(p), ActionOf(acts, p))];
      if !p.Truthy() then
        var settled := Settle(pops, AddToTop(open, A.Leaf(A.EpsNode, None)));
        Success(State(rest, settled.0, settled.1, s.pos))
      else
        Success(State(rest + Reversed(p.body), pops, open, s.pos))
  }

  /** Every open node joins its parent; the result is the root. */
  function CloseAll(open: seq<A.Ast>): A.Ast
    requires |open| >= 1
    decreases |open|
  {
    if |open| == 1 then open[0] else CloseAll(Close(open))
  }

  /** `return out_tree[0]`. */
  function Finish(s: State): Result<A.Ast, ParseError>
    requires |s.open| >= 1
  {
    var root := CloseAll(s.open);
    if root.kids == [] then Failure(NoTree) else Success(root.kids[0])
  }

  /** The loop `while ps[-1] != EOI`, for at most `steps` iterations. */
  function Run(t: T.Table, terms: set<Symbol>, acts: map<int, A.EvalFn>, toks: seq<L.Token>, s: State, steps: nat, guarded: bool)
    : Result<A.Ast, ParseError>
    requires WF(s, toks)
    decreases steps
  {
    if Top(s) == EndOfInput then Finish(s)
    else if steps == 0 then Failure(OutOfSteps)
    else
      match Step(t, terms, acts, toks, s, guarded)
      case Failure(e) => Failure(e)
      case Success(next) => Run(t, terms, acts, toks, next, steps - 1, guarded)
  }

  /** The name the parse starts from: the caller's, else the grammar's. */
  function StartName(g: CFG, start: Option<string>): string {
    if start.Some? then start.value else g.start
  }

  /** The variables before the loop: `ps = [EOI, NonTerm(start)]`,
      `pops = [1]`, the current node the `AST('Root')` node, and the first
      token. */
  function Init(g: CFG, start: Option<string>): (s: State)
    ensures s.ps == [EndOfInput, NonTerm(StartName(g, start))] && s.pops == [1] && s.pos == 0
    ensures s.open == [A.Leaf(A.RootNode("Root"), None)]
  {
    State([EndOfInput, NonTerm(StartName(g, start))], [1], [A.Leaf(A.RootNode("Root"), None)], 0)
  }

  /** `LL1.tree` on a token stream. */
  function TreeOf(ll: T.LL1, toks: seq<L.Token>, start: Option<string>, steps: nat): Result<A.Ast, ParseError> {
    if toks == [] then Failure(NoToken)
    else Run(ll.table, Terms(ll.parser.cfg), ll.parser.actions, toks, Init(ll.parser.cfg, start), steps, false)
  }

  /** The token stream `LL1.tree` reads: the parser's lexer on `text`. */
  function TokensFor(ll: T.LL1, text: string): seq<L.Token> {
    L.Stream(ll.parser.lexer, text, L.SourceName(""))
  }

  /** `LL1.eval`: the tree of `text` from the grammar's start, evaluated. */
  function EvalOf(d: Dialect, ll: T.LL1, text: string, steps: nat): Result<Value, ParseError> {
    match TreeOf(ll, TokensFor(ll, text), None, steps)
    case Failure(e) => Failure(e)
    case Success(tree) =>
      match A.Eval(d, tree)
      case Failure(e) => Failure(EvalFailed(e))
      case Success(v) => Success(v)
  }

  // ----- the counter invariant -----

  function Sum(xs: seq<int>): int {
    if xs == [] then 0 else Sum(xs[..|xs| - 1]) + xs[|xs| - 1]
  }

  /** `len(ps) - 1 == sum(pops)`: every symbol above `EOI` is owed to one
      open node. */
  ghost predicate Counted(s: State) {
    |s.ps| - 1 == Sum(s.pops)
  }

  lemma SumDec(pops: seq<int>)
    requires |pops| >= 1
    ensures Sum(Dec(pops)) == Sum(pops) - 1
  {
    assert Dec(pops)[..|pops| - 1] == pops[..|pops| - 1];
  }

  lemma SumPush(pops: seq<int>, x: int)
    ensures Sum(pops + [x]) == Sum(pops) + x
  {
    assert (pops + [x])[..|pops|] == pops;
  }

  lemma {:induction false} CollapseSum(pops: seq<int>, open: seq<A.Ast>)
    requires |pops| == |open| >= 1 && Collapse(pops, open).Some?
    ensures Sum(Collapse(pops, open).value.0) == Sum(pops)
    decreases |pops|
  {
    if pops[|pops| - 1] == 0 {
      CollapseSum(pops[..|pops| - 1], Close(open));
    }
  }

  lemma {:induction false} SettleSum(pops: seq<int>, open: seq<A.Ast>)
    requires |pops| == |open| >= 1
    ensures Sum(Settle(pops, open).0) == Sum(pops)
    decreases |pops|
  {
    if |open| > 1 && pops[|pops| - 1] == 0 {
      SettleSum(pops[..|pops| - 1], Close(open));
    }
  }

  /** Every branch keeps `len(ps) - 1 == sum(pops)`. */
  lemma StepKeepsCount(t: T.Table, terms: set<Symbol>, acts: map<int, A.EvalFn>, toks: seq<L.Token>, s: State, guarded: bool)
    requires WF(s, toks) && Top(s) != EndOfInput && Counted(s)
    requires Step(t, terms, acts, toks, s, guarded).Success?
    ensures Counted(Step(t, terms, acts, toks, s, guarded).value)
  {
    var tok := toks[s.pos];
    SumDec(s.pops);
    if tok.kind != EOI && Top(s) == Terminal(tok.kind) {
      var open := AddToTop(s.open, A.Leaf(A.TokNode(tok), None));
      if guarded {
        SettleSum(Dec(s.pops), open);
      } else {
        CollapseSum(Dec(s.pops), open);
      }
    } else {
      var p := t[Top(s)][Terminal(tok.kind)];
      SumPush(Dec(s.pops), p.Len());
      var pops := Dec(s.pops) + [p.Len()];
      var open := s.open + [A.Leaf(A.ProdNode(p), ActionOf(acts, p))];
      if !p.Truthy() {
        SettleSum(pops, AddToTop(open, A.Leaf(A.EpsNode, None)));
      }
    }
  }

  /** The loop starts with the invariant in force. */
  lemma InitCounted(g: CFG, start: Option<string>)
    ensures Counted(Init(g, start))
  {
    assert Sum([1]) == Sum([]) + 1;
  }

  // ----- the fringe: the leaves built so far, in order -----

  /** A node's own contribution to the leaves: tokens and epsilon marks. */
  function Own(v: A.NodeValue): seq<A.NodeValue> {
    if v.TokNode? || v.EpsNode? then [v] else []
  }

  /** The token and epsilon leaves of a tree, left to right. */
  function Fringe(t: A.Ast): seq<A.NodeValue>
    decreases t, 1
  {
    Own(t.value) + FringeKids(t, |t.kids|)
  }

  /** The leaves under the first `n` children of `t`. */
  function FringeKids(t: A.Ast, n: nat): seq<A.NodeValue>
    requires n <= |t.kids|
    decreases t, 0, n
  {
    if n == 0 then [] else FringeKids(t, n - 1) + Fringe(t.kids[n - 1])
  }

  /** The leaves of the open nodes, root first: what the finished tree will
      hold, in order. */
  function FringeOpen(open: seq<A.Ast>): seq<A.NodeValue> {
    if open == [] then [] else FringeOpen(open[..|open| - 1]) + Fringe(open[|open| - 1])
  }

  /** The tokens among leaves. */
  function TokensOf(vs: seq<A.NodeValue>): seq<L.Token> {
    if vs == [] then [] else (if vs[0].TokNode? then [vs[0].t] else []) + TokensOf(vs[1..])
  }

  lemma {:induction false} TokensAppend(a: seq<A.NodeValue>, b: seq<A.NodeValue>)
    ensures TokensOf(a + b) == TokensOf(a) + TokensOf(b)
    decreases |a|
  {
    if a == [] {
      assert a + b == b;
    } else {
      var h := if a[0].TokNode? then [a[0].t] else [];
      assert (a + b)[0] == a[0];
      assert (a + b)[1..] == a[1..] + b;
      assert TokensOf(a + b) == h + TokensOf(a[1..] + b);
      TokensAppend(a[1..], b);
      assert TokensOf(a) == h + TokensOf(a[1..]);
    }
  }

  lemma {:induction false} FringeKidsPrefix(t: A.Ast, c: A.Ast, n: nat)
    requires n <= |t.kids|
    ensures FringeKids(A.AddChild(t, c), n) == FringeKids(t, n)
    decreases n
  {
    if n > 0 {
      FringeKidsPrefix(t, c, n - 1);
    }
  }

  /** A new last child adds its leaves after the existing ones. */
  lemma FringeAdd(t: A.Ast, c: A.Ast)
    ensures Fringe(A.AddChild(t, c)) == Fringe(t) + Fringe(c)
  {
    var r := A.AddChild(t, c);
    FringeKidsPrefix(t, c, |t.kids|);
    assert FringeKids(r, |r.kids|) == FringeKids(r, |t.kids|) + Fringe(c);
  }

  lemma FringeOpenTop(open: seq<A.Ast>, c: A.Ast)
    requires |open| >= 1
    ensures FringeOpen(AddToTop(open, c)) == FringeOpen(open) + Fringe(c)
  {
    var r := AddToTop(open, c);
    assert r[..|r| - 1] == open[..|open| - 1];
    FringeAdd(open[|open| - 1], c);
  }

  /** Closing the current node moves it into its parent: the leaves are
      the same. */
  lemma CloseFringe(open: seq<A.Ast>)
    requires |open| >= 2
    ensures FringeOpen(Close(open)) == FringeOpen(open)
  {
    var o := open[..|open| - 1];
    FringeOpenTop(o, open[|open| - 1]);
    assert open[..|open| - 1] == o;
  }

  lemma {:induction false} CollapseFringe(pops: seq<int>, open: seq<A.Ast>)
    requires |pops| == |open| >= 1 && Collapse(pops, open).Some?
    ensures FringeOpen(Collapse(pops, open).value.1) == FringeOpen(open)
    decreases |pops|
  {
    if pops[|pops| - 1] == 0 {
      CloseFringe(open);
      CollapseFringe(pops[..|pops| - 1], Close(open));
    }
  }

  lemma {:induction false} SettleFringe(pops: seq<int>, open: seq<A.Ast>)
    requires |pops| == |open| >= 1
    ensures FringeOpen(Settle(pops, open).1) == FringeOpen(open)
    decreases |pops|
  {
    if |open| > 1 && pops[|pops| - 1] == 0 {
      CloseFringe(open);
      SettleFringe(pops[..|pops| - 1], Close(open));
    }
  }

  lemma {:induction false} CloseAllFringe(open: seq<A.Ast>)
    requires |open| >= 1
    ensures Fringe(CloseAll(open)) == FringeOpen(open)
    decreases |open|
  {
    if |open| == 1 {
      assert open[..0] == [];
    } else {
      CloseFringe(open);
      CloseAllFringe(Close(open));
    }
  }

  // ----- what each branch does -----

  /** Terminal branch: the matched symbol is popped, the token becomes the
      next leaf, and the next token becomes current. */
  lemma StepMatch(t: T.Table, terms: set<Symbol>, acts: map<int, A.EvalFn>, toks: seq<L.Token>, s: State, guarded: bool)
    requires WF(s, toks) && Top(s) != EndOfInput
    requires toks[s.pos].kind != EOI && Top(s) == Terminal(toks[s.pos].kind)
    requires Step(t, terms, acts, toks, s, guarded).Success?
    ensures var r := Step(t, terms, acts, toks, s, guarded).value;
      && r.ps == s.ps[..|s.ps| - 1] && r.pos == s.pos + 1
      && FringeOpen(r.open) == FringeOpen(s.open) + [A.TokNode(toks[s.pos])]
  {
    var open := AddToTop(s.open, A.Leaf(A.TokNode(toks[s.pos]), None));
    FringeOpenTop(s.open, A.Leaf(A.TokNode(toks[s.pos]), None));
    assert Fringe(A.Leaf(A.TokNode(toks[s.pos]), None)) == [A.TokNode(toks[s.pos])];
    if guarded {
      SettleFringe(Dec(s.pops), open);
    } else {
      CollapseFringe(Dec(s.pops), open);
    }
  }

  /** Expansion by a truthy production: the table's production for the top
      and the token is chosen, its body replaces the top with the leftmost
      symbol uppermost, the new node carries the production's action (if
      any) and becomes current, and no token is consumed. */
  lemma StepExpand(t: T.Table, terms: set<Symbol>, acts: map<int, A.EvalFn>, toks: seq<L.Token>, s: State, guarded: bool)
    requires WF(s, toks) && Top(s) != EndOfInput
    requires !(toks[s.pos].kind != EOI && Top(s) == Terminal(toks[s.pos].kind))
    requires Step(t, terms, acts, toks, s, guarded).Success?
    ensures Top(s) in t && Terminal(toks[s.pos].kind) in t[Top(s)]
    ensures var p := t[Top(s)][Terminal(toks[s.pos].kind)];
      var r := Step(t, terms, acts, toks, s, guarded).value;
      p.Truthy() ==>
        && r.ps == s.ps[..|s.ps| - 1] + Reversed(p.body)
        && (p.body != [] ==> Top(r) == p.body[0])
        && r.pos == s.pos && r.open[..|s.open|] == s.open
        && r.open[|s.open|] == A.Node(A.ProdNode(p), ActionOf(acts, p), [])
        && r.pops == Dec(s.pops) + [|p.body|]
        && FringeOpen(r.open) == FringeOpen(s.open)
  {
    var p := t[Top(s)][Terminal(toks[s.pos].kind)];
    if p.Truthy() {
      var r := Step(t, terms, acts, toks, s, guarded).value;
      var node := A.Leaf(A.ProdNode(p), ActionOf(acts, p));
      assert r.open == s.open + [node];
      assert r.open[..|s.open|] == s.open;
      assert FringeKids(node, 0) == [];
    }
  }

  /** Expansion by an epsilon production: the top is popped, the new node
      gets exactly one epsilon leaf, no token is consumed, and the finished
      nodes are closed up to an unfinished one or the root. */
  lemma StepEpsilon(t: T.Table, terms: set<Symbol>, acts: map<int, A.EvalFn>, toks: seq<L.Token>, s: State, guarded: bool)
    requires WF(s, toks) && Top(s) != EndOfInput
    requires !(toks[s.pos].kind != EOI && Top(s) == Terminal(toks[s.pos].kind))
    requires Step(t, terms, acts, toks, s, guarded).Success?
    requires !t[Top(s)][Terminal(toks[s.pos].kind)].Truthy()
    ensures var r := Step(t, terms, acts, toks, s, guarded).value;
      && r.ps == s.ps[..|s.ps| - 1] && r.pos == s.pos
      && FringeOpen(r.open) == FringeOpen(s.open) + [A.EpsNode]
      && (|r.open| == 1 || r.pops[|r.pops| - 1] != 0)
  {
    RejectAt(t, terms, acts, toks, s, guarded);
    var p := t[Top(s)][Terminal(toks[s.pos].kind)];
    ExpandAt(t, terms, acts, toks, s, guarded, p);
    EpsilonSettled(s.open, Dec(s.pops) + [p.Len()], A.Leaf(A.ProdNode(p), ActionOf(acts, p)));
  }

  /** A new node with just an epsilon leaf, once the finished nodes are
      closed, adds just that leaf. */
  lemma EpsilonSettled(open: seq<A.Ast>, pops: seq<int>, node: A.Ast)
    requires |open| >= 1 && |pops| == |open| + 1
    requires node.kids == [] && !node.value.TokNode? && !node.value.EpsNode?
    ensures var st := Settle(pops, AddToTop(open + [node], A.Leaf(A.EpsNode, None)));
      FringeOpen(st.1) == FringeOpen(open) + [A.EpsNode]
  {
    EpsilonFringe(open, node);
    SettleFringe(pops, AddToTop(open + [node], A.Leaf(A.EpsNode, None)));
  }

  /** A new childless node with an epsilon leaf adds just that leaf. */
  lemma EpsilonFringe(open: seq<A.Ast>, node: A.Ast)
    requires node.kids == [] && !node.value.TokNode? && !node.value.EpsNode?
    ensures FringeOpen(AddToTop(open + [node], A.Leaf(A.EpsNode, None))) == FringeOpen(open) + [A.EpsNode]
  {
    var o := open + [node];
    assert o[..|o| - 1] == open;
    assert FringeKids(node, 0) == [];
    assert FringeOpen(o) == FringeOpen(open);
    FringeOpenTop(o, A.Leaf(A.EpsNode, None));
    assert Fringe(A.Leaf(A.EpsNode, None)) == [A.EpsNode];
  }

  /** A non-`EOI` token whose kind is not a terminal of the grammar fails
      before the `unknown` check, so even an `unknown` token is reported as
      unexpected unless the grammar mentions `unknown`. */
  lemma StepBadKind(t: T.Table, terms: set<Symbol>, acts: map<int, A.EvalFn>, toks: seq<L.Token>, s: State, guarded: bool)
    requires WF(s, toks) && Top(s) != EndOfInput
    requires toks[s.pos].kind != EOI && Top(s) != Terminal(toks[s.pos].kind)
    ensures Terminal(toks[s.pos].kind) !in terms ==>
      Step(t, terms, acts, toks, s, guarded) == Failure(UnexpectedToken(toks[s.pos]))
    ensures Terminal(toks[s.pos].kind) in terms && toks[s.pos].kind == UNK ==>
      Step(t, terms, acts, toks, s, guarded) == Failure(UnknownToken(toks[s.pos]))
  {
  }

  // ----- the root has exactly one child -----

  /** Where the root stands: before the first iteration (no child, counter
      1, the start symbol on the stack); while the start node is open (no
      child yet, counter at most 0); or finished (one child, counter 0). */
  ghost predicate Shape(s: State)
    requires |s.pops| == |s.open| >= 1
  {
    && s.open[0].value.RootNode?
    && (|| (|s.open| == 1 && s.open[0].kids == [] && s.pops == [1] && |s.ps| == 2 && s.ps[1].NonTerm?)
        || (|s.open| >= 2 && s.open[0].kids == [] && s.pops[0] <= 0)
        || (|s.open| == 1 && |s.open[0].kids| == 1 && s.pops == [0]))
  }

  /** Closing keeps the root until the root itself is reached, which then
      holds the one child it was given. */
  ghost predicate RootKept(pops: seq<int>, open: seq<A.Ast>, p: seq<int>, o: seq<A.Ast>)
    requires |pops| == |open| >= 1 && |p| == |o| >= 1
  {
    || (|o| >= 2 && o[0] == open[0] && p[0] == pops[0])
    || (|o| == 1 && o[0].value == open[0].value && |o[0].kids| == |open[0].kids| + 1 && p == [pops[0]])
  }

  lemma CloseRoot(open: seq<A.Ast>)
    requires |open| >= 2
    ensures |open| >= 3 ==> Close(open)[0] == open[0]
    ensures |open| == 2 ==> Close(open) == [A.AddChild(open[0], open[1])]
  {
  }

  lemma {:induction false} CollapseRoot(pops: seq<int>, open: seq<A.Ast>)
    requires |pops| == |open| >= 2 && Collapse(pops, open).Some?
    ensures RootKept(pops, open, Collapse(pops, open).value.0, Collapse(pops, open).value.1)
    decreases |pops|
  {
    if pops[|pops| - 1] == 0 {
      CloseRoot(open);
      if |open| >= 3 {
        CollapseRoot(pops[..|pops| - 1], Close(open));
      }
    }
  }

  lemma {:induction false} SettleRoot(pops: seq<int>, open: seq<A.Ast>)
    requires |pops| == |open| >= 2
    ensures RootKept(pops, open, Settle(pops, open).0, Settle(pops, open).1)
    decreases |pops|
  {
    if pops[|pops| - 1] == 0 {
      CloseRoot(open);
      if |open| >= 3 {
        SettleRoot(pops[..|pops| - 1], Close(open));
      }
    }
  }

  /** Closing all open nodes of a root without children gives it one. */
  lemma {:induction false} CloseAllRoot(open: seq<A.Ast>)
    requires |open| >= 2 && open[0].kids == []
    ensures CloseAll(open).value == open[0].value && |CloseAll(open).kids| == 1
    decreases |open|
  {
    CloseRoot(open);
    if |open| >= 3 {
      CloseAllRoot(Close(open));
    }
  }

  /** After closing from a state whose start node was open, the root has
      the shape the invariant asks for. */
  lemma KeptShape(pops: seq<int>, open: seq<A.Ast>, r: State)
    requires |pops| == |open| >= 2 && open[0].value.RootNode? && open[0].kids == [] && pops[0] <= 0
    requires |r.pops| == |r.open| >= 1 && |r.ps| >= 1 && Counted(r)
    requires RootKept(pops, open, r.pops, r.open)
    ensures Shape(r)
  {
    if |r.open| == 1 {
      assert Sum(r.pops) == Sum([]) + r.pops[0];
    }
  }

  /** While the loop runs, the root has no child yet and, after the top
      node's count is decremented, owes no symbol. */
  lemma ShapeRunning(s: State)
    requires |s.pops| == |s.open| >= 1 && |s.ps| >= 1 && Top(s) != EndOfInput && Counted(s) && Shape(s)
    requires s.ps[0] == EndOfInput
    ensures s.open[0].kids == [] && Dec(s.pops)[0] <= 0
    ensures |s.open| == 1 ==> Top(s).NonTerm?
  {
    if |s.open| == 1 {
      assert Sum(s.pops) == Sum([]) + s.pops[0];
    }
  }

  lemma StepShapeMatch(t: T.Table, terms: set<Symbol>, acts: map<int, A.EvalFn>, toks: seq<L.Token>, s: State, guarded: bool)
    requires WF(s, toks) && Top(s) != EndOfInput && Counted(s) && Shape(s)
    requires toks[s.pos].kind != EOI && Top(s) == Terminal(toks[s.pos].kind)
    requires Step(t, terms, acts, toks, s, guarded).Success?
    ensures Shape(Step(t, terms, acts, toks, s, guarded).value)
  {
    var r := Step(t, terms, acts, toks, s, guarded).value;
    StepKeepsCount(t, terms, acts, toks, s, guarded);
    var open := AddToTop(s.open, A.Leaf(A.TokNode(toks[s.pos]), None));
    ShapeRunning(s);
    assert open[0] == s.open[0];
    if guarded {
      SettleRoot(Dec(s.pops), open);
    } else {
      CollapseRoot(Dec(s.pops), open);
    }
    KeptShape(Dec(s.pops), open, r);
  }

  lemma StepShapeExpand(t: T.Table, terms: set<Symbol>, acts: map<int, A.EvalFn>, toks: seq<L.Token>, s: State, guarded: bool)
    requires WF(s, toks) && Top(s) != EndOfInput && Counted(s) && Shape(s)
    requires !(toks[s.pos].kind != EOI && Top(s) == Terminal(toks[s.pos].kind))
    requires Step(t, terms, acts, toks, s, guarded).Success?
    ensures Shape(Step(t, terms, acts, toks, s, guarded).value)
  {
    var r := Step(t, terms, acts, toks, s, guarded).value;
    StepKeepsCount(t, terms, acts, toks, s, guarded);
    RejectAt(t, terms, acts, toks, s, guarded);
    var p := t[Top(s)][Terminal(toks[s.pos].kind)];
    ExpandAt(t, terms, acts, toks, s, guarded, p);
    var pops := Dec(s.pops) + [p.Len()];
    var open := s.open + [A.Leaf(A.ProdNode(p), ActionOf(acts, p))];
    ShapeRunning(s);
    assert pops[0] == Dec(s.pops)[0] <= 0;
    assert open[0] == s.open[0];
    if p.Truthy() {
      assert r.pops == pops && r.open == open;
      KeptShape(pops, open, r);
    } else {
      var withEps := AddToTop(open, A.Leaf(A.EpsNode, None));
      assert withEps[0] == s.open[0];
      assert (r.pops, r.open) == Settle(pops, withEps);
      SettleRoot(pops, withEps);
      KeptShape(pops, withEps, r);
    }
  }

  /** Every iteration keeps the root's shape. */
  lemma StepShape(t: T.Table, terms: set<Symbol>, acts: map<int, A.EvalFn>, toks: seq<L.Token>, s: State, guarded: bool)
    requires WF(s, toks) && Top(s) != EndOfInput && Counted(s) && Shape(s)
    requires Step(t, terms, acts, toks, s, guarded).Success?
    ensures Shape(Step(t, terms, acts, toks, s, guarded).value)
  {
    if toks[s.pos].kind != EOI && Top(s) == Terminal(toks[s.pos].kind) {
      StepShapeMatch(t, terms, acts, toks, s, guarded);
    } else {
      StepShapeExpand(t, terms, acts, toks, s, guarded);
    }
  }

  /** When the loop ends the root has exactly one child, the start node. */
  lemma FinishOne(s: State)
    requires |s.pops| == |s.open| >= 1 && |s.ps| >= 1 && Top(s) == EndOfInput && Shape(s)
    ensures CloseAll(s.open).value.RootNode? && |CloseAll(s.open).kids| == 1
  {
    if |s.open| >= 2 {
      CloseAllRoot(s.open);
    }
  }

  // ----- the leaves of the result are the consumed tokens -----

  /** The tokens before the current one are exactly the token leaves built
      so far, and none of them is `EOI`. */
  ghost predicate Consumed(s: State, toks: seq<L.Token>)
    requires s.pos < |toks|
  {
    && TokensOf(FringeOpen(s.open)) == toks[..s.pos]
    && forall i :: 0 <= i < s.pos ==> toks[i].kind != EOI
  }

  lemma StepConsumed(t: T.Table, terms: set<Symbol>, acts: map<int, A.EvalFn>, toks: seq<L.Token>, s: State, guarded: bool)
    requires WF(s, toks) && Top(s) != EndOfInput && Consumed(s, toks)
    requires Step(t, terms, acts, toks, s, guarded).Success?
    ensures Consumed(Step(t, terms, acts, toks, s, guarded).value, toks)
  {
    var r := Step(t, terms, acts, toks, s, guarded).value;
    var tok := toks[s.pos];
    if tok.kind != EOI && Top(s) == Terminal(tok.kind) {
      StepMatch(t, terms, acts, toks, s, guarded);
      ConsumedMatch(s, r, toks);
    } else if t[Top(s)][Terminal(tok.kind)].Truthy() {
      StepExpand(t, terms, acts, toks, s, guarded);
      ConsumedSame(s, r, toks, []);
    } else {
      StepEpsilon(t, terms, acts, toks, s, guarded);
      ConsumedSame(s, r, toks, [A.EpsNode]);
    }
  }

  /** Matching a terminal adds the current token as the last leaf. */
  lemma ConsumedMatch(s: State, r: State, toks: seq<L.Token>)
    requires s.pos < |toks| && Consumed(s, toks) && toks[s.pos].kind != EOI
    requires r.pos == s.pos + 1 < |toks|
    requires FringeOpen(r.open) == FringeOpen(s.open) + [A.TokNode(toks[s.pos])]
    ensures Consumed(r, toks)
  {
    TokensAppend(FringeOpen(s.open), [A.TokNode(toks[s.pos])]);
    assert TokensOf([A.TokNode(toks[s.pos])]) == [toks[s.pos]];
    assert toks[..s.pos + 1] == toks[..s.pos] + [toks[s.pos]];
  }

  /** Expanding a production adds no token leaf. */
  lemma ConsumedSame(s: State, r: State, toks: seq<L.Token>, added: seq<A.NodeValue>)
    requires s.pos < |toks| && Consumed(s, toks)
    requires added == [] || added == [A.EpsNode]
    requires r.pos == s.pos && FringeOpen(r.open) == FringeOpen(s.open) + added
    ensures Consumed(r, toks)
  {
    TokensAppend(FringeOpen(s.open), added);
    assert TokensOf(added) == [];
  }

  /** When the loop ends, the returned start node holds the leaves of
      all open nodes. */
  lemma FinishLeaves(s: State)
    requires |s.pops| == |s.open| >= 1 && |s.ps| >= 1 && Top(s) == EndOfInput && Shape(s)
    ensures Finish(s).Success? && Fringe(Finish(s).value) == FringeOpen(s.open)
  {
    var root := CloseAll(s.open);
    FinishOne(s);
    CloseAllFringe(s.open);
    assert FringeKids(root, 1) == FringeKids(root, 0) + Fringe(root.kids[0]);
  }

  /** The token leaves of `tree` are, in order, the stream up to some
      position, and no token before that position is `EOI`. */
  ghost predicate LeavesPrefix(tree: A.Ast, toks: seq<L.Token>) {
    exists p :: (0 <= p < |toks|
      && TokensOf(Fringe(tree)) == toks[..p]
      && forall i :: 0 <= i < p ==> toks[i].kind != EOI)
  }

  /** The tree the loop returns holds as token leaves, in order, exactly
      the tokens it consumed: the stream up to the position `p` where the
      loop stopped, none of them `EOI`. */
  lemma {:induction false} RunLeaves(t: T.Table, terms: set<Symbol>, acts: map<int, A.EvalFn>, toks: seq<L.Token>,
                                     s: State, steps: nat, guarded: bool, tree: A.Ast)
    returns (p: nat)
    requires Inv(s, toks)
    requires Run(t, terms, acts, toks, s, steps, guarded) == Success(tree)
    ensures s.pos <= p < |toks| && TokensOf(Fringe(tree)) == toks[..p]
    ensures forall i :: 0 <= i < p ==> toks[i].kind != EOI
    decreases steps
  {
    if Top(s) == EndOfInput {
      p := EndLeaves(t, terms, acts, toks, s, steps, guarded, tree);
    } else {
      var next, fewer := RunFirstStep(t, terms, acts, toks, s, steps, guarded);
      p := RunLeaves(t, terms, acts, toks, next, fewer, guarded, tree);
    }
  }

  /** When the loop ends, the start node's token leaves are the tokens
      consumed. */
  lemma EndLeaves(t: T.Table, terms: set<Symbol>, acts: map<int, A.EvalFn>, toks: seq<L.Token>,
                  s: State, steps: nat, guarded: bool, tree: A.Ast)
    returns (p: nat)
    requires Inv(s, toks) && Top(s) == EndOfInput
    requires Run(t, terms, acts, toks, s, steps, guarded) == Success(tree)
    ensures s.pos <= p < |toks| && TokensOf(Fringe(tree)) == toks[..p]
    ensures forall i :: 0 <= i < p ==> toks[i].kind != EOI
  {
    RunFinish(t, terms, acts, toks, s, steps, guarded);
    FinishLeaves(s);
    p := s.pos;
  }

  /** The loop invariant: the machine's stack discipline, the root's shape
      and the tokens consumed so far. */
  ghost predicate Inv(s: State, toks: seq<L.Token>) {
    WF(s, toks) && Counted(s) && Shape(s) && Consumed(s, toks)
  }

  /** One iteration keeps the invariant and reads at most one token. */
  lemma StepInv(t: T.Table, terms: set<Symbol>, acts: map<int, A.EvalFn>, toks: seq<L.Token>, s: State, guarded: bool, next: State)
    requires Inv(s, toks) && Top(s) != EndOfInput
    requires Step(t, terms, acts, toks, s, guarded) == Success(next)
    ensures Inv(next, toks) && s.pos <= next.pos
  {
    StepKeepsCount(t, terms, acts, toks, s, guarded);
    StepShape(t, terms, acts, toks, s, guarded);
    StepConsumed(t, terms, acts, toks, s, guarded);
    StepPos(t, terms, acts, toks, s, guarded);
  }

  /** A run that succeeds from a running state took a successful first
      iteration, which kept the invariant. */
  lemma RunFirstStep(t: T.Table, terms: set<Symbol>, acts: map<int, A.EvalFn>, toks: seq<L.Token>, s: State, steps: nat,
                     guarded: bool)
    returns (next: State, fewer: nat)
    requires Inv(s, toks) && Top(s) != EndOfInput
    requires Run(t, terms, acts, toks, s, steps, guarded).Success?
    ensures fewer < steps && Inv(next, toks) && s.pos <= next.pos
    ensures Run(t, terms, acts, toks, s, steps, guarded) == Run(t, terms, acts, toks, next, fewer, guarded)
  {
    next := Step(t, terms, acts, toks, s, guarded).value;
    fewer := RunAfter(t, terms, acts, toks, s, steps, guarded, next);
    StepInv(t, terms, acts, toks, s, guarded, next);
  }

  /** A successful iteration leaves one iteration less of the budget for
      the rest of the loop. */
  lemma RunAfter(t: T.Table, terms: set<Symbol>, acts: map<int, A.EvalFn>, toks: seq<L.Token>, s: State, steps: nat,
                guarded: bool, next: State)
    returns (fewer: nat)
    requires WF(s, toks) && Top(s) != EndOfInput
    requires Step(t, terms, acts, toks, s, guarded) == Success(next) && steps >= 1
    ensures fewer + 1 == steps
    ensures Run(t, terms, acts, toks, s, steps, guarded) == Run(t, terms, acts, toks, next, fewer, guarded)
  {
    fewer := steps - 1;
  }
  /** The same with the budget written as one more than what is left. */
  lemma RunStepOn(t: T.Table, terms: set<Symbol>, acts: map<int, A.EvalFn>, toks: seq<L.Token>, s: State, fewer: nat,
                guarded: bool, next: State)
    requires WF(s, toks) && Top(s) != EndOfInput
    requires Step(t, terms, acts, toks, s, guarded) == Success(next)
    ensures Run(t, terms, acts, toks, s, fewer + 1, guarded) == Run(t, terms, acts, toks, next, fewer, guarded)
  {
  }

  /** An iteration consumes at most one token. */
  lemma StepPos(t: T.Table, terms: set<Symbol>, acts: map<int, A.EvalFn>, toks: seq<L.Token>, s: State, guarded: bool)
    requires WF(s, toks) && Top(s) != EndOfInput
    requires Step(t, terms, acts, toks, s, guarded).Success?
    ensures s.pos <= Step(t, terms, acts, toks, s, guarded).value.pos <= s.pos + 1
  {
  }

  /** `LL1.tree` returns a tree whose token leaves are, in order, a prefix
      of the token stream that stops before `EOI`; the rest of the stream
      is not looked at. */
  lemma TreeLeaves(ll: T.LL1, toks: seq<L.Token>, start: Option<string>, steps: nat)
    requires TreeOf(ll, toks, start, steps).Success?
    ensures LeavesPrefix(TreeOf(ll, toks, start, steps).value, toks)
  {
    var s := Init(ll.parser.cfg, start);
    InitCounted(ll.parser.cfg, start);
    assert FringeOpen(s.open) == FringeOpen([]) + Fringe(s.open[0]);
    assert FringeKids(s.open[0], 0) == [];
    var p := RunLeaves(ll.table, Terms(ll.parser.cfg), ll.parser.actions, toks, s, steps, false, TreeOf(ll, toks, start, steps).value);
  }

  // ----- the two closing loops compared -----

  /** The unguarded loop closes exactly what the guarded one closes, except
      that where the guarded loop stops at the root with a counter of 0 the
      unguarded one goes on and fails. */
  lemma {:induction false} CollapseIsSettle(pops: seq<int>, open: seq<A.Ast>)
    requires |pops| == |open| >= 1
    ensures Collapse(pops, open) ==
      (if |Settle(pops, open).1| == 1 && Settle(pops, open).0[0] == 0 then None else Some(Settle(pops, open)))
    decreases |pops|
  {
    if pops[|pops| - 1] != 0 || |pops| == 1 {
    } else {
      CollapseIsSettle(pops[..|pops| - 1], Close(open));
    }
  }

  /** Closing back to the root from a state whose start node was open
      leaves the root's counter at 0. */
  lemma SettleAtRoot(pops: seq<int>, open: seq<A.Ast>)
    requires |pops| == |open| >= 2 && open[0].value.RootNode? && pops[0] <= 0 && Sum(pops) >= 0
    ensures |Settle(pops, open).1| == 1 ==> Settle(pops, open).0 == [0]
  {
    var st := Settle(pops, open);
    SettleRoot(pops, open);
    SettleSum(pops, open);
    if |st.1| == 1 {
      assert Sum(st.0) == Sum([]) + st.0[0];
    }
  }

  /** An iteration of the source's loop does what the corrected loop does,
      except when a token completes the start node: the source then fails
      with `Underflow` where the corrected loop returns to the root. */
  lemma StepUnguarded(t: T.Table, terms: set<Symbol>, acts: map<int, A.EvalFn>, toks: seq<L.Token>, s: State)
    requires Inv(s, toks) && Top(s) != EndOfInput
    ensures Step(t, terms, acts, toks, s, false) ==
      (if && toks[s.pos].kind != EOI && Top(s) == Terminal(toks[s.pos].kind)
          && |Settle(Dec(s.pops), AddToTop(s.open, A.Leaf(A.TokNode(toks[s.pos]), None))).1| == 1
       then Failure(Underflow)
       else Step(t, terms, acts, toks, s, true))
  {
    var tok := toks[s.pos];
    if tok.kind != EOI && Top(s) == Terminal(tok.kind) {
      var open := AddToTop(s.open, A.Leaf(A.TokNode(tok), None));
      ShapeRunning(s);
      SumDec(s.pops);
      assert open[0] == s.open[0];
      SettleAtRoot(Dec(s.pops), open);
      CollapseIsSettle(Dec(s.pops), open);
      MatchAt(t, terms, acts, toks, s, false);
      MatchAt(t, terms, acts, toks, s, true);
    } else {
      RejectAt(t, terms, acts, toks, s, false);
      RejectAt(t, terms, acts, toks, s, true);
      if (tok.kind == EOI || Terminal(tok.kind) in terms) && tok.kind != UNK && Top(s) in t && Terminal(tok.kind) in t[Top(s)] {
        ExpandAt(t, terms, acts, toks, s, false, t[Top(s)][Terminal(tok.kind)]);
        ExpandAt(t, terms, acts, toks, s, true, t[Top(s)][Terminal(tok.kind)]);
      }
    }
  }

  /** A successful iteration hands its state to the rest of the loop. */
  lemma RunStep(t: T.Table, terms: set<Symbol>, acts: map<int, A.EvalFn>, toks: seq<L.Token>, s: State, steps: nat,
                guarded: bool, next: State)
    requires WF(s, toks) && Top(s) != EndOfInput && steps >= 1
    requires Step(t, terms, acts, toks, s, guarded) == Success(next)
    ensures Run(t, terms, acts, toks, s, steps, guarded) == Run(t, terms, acts, toks, next, steps - 1, guarded)
  {
  }

  /** The expansion branch, given the facts that select it. */
  lemma ExpandAt(t: T.Table, terms: set<Symbol>, acts: map<int, A.EvalFn>, toks: seq<L.Token>, s: State, guarded: bool, p: Prod)
    requires WF(s, toks) && Top(s) != EndOfInput
    requires toks[s.pos].kind != EOI ==> Top(s) != Terminal(toks[s.pos].kind) && Terminal(toks[s.pos].kind) in terms
    requires toks[s.pos].kind != UNK
    requires Top(s) in t && Terminal(toks[s.pos].kind) in t[Top(s)] && t[Top(s)][Terminal(toks[s.pos].kind)] == p
    ensures var rest, pops := s.ps[..|s.ps| - 1], Dec(s.pops) + [p.Len()];
      var open := s.open + [A.Leaf(A.ProdNode(p), ActionOf(acts, p))];
      Step(t, terms, acts, toks, s, guarded) ==
        if p.Truthy() then Success(State(rest + Reversed(p.body), pops, open, s.pos))
        else Success(State(rest, Settle(pops, AddToTop(open, A.Leaf(A.EpsNode, None))).0,
                           Settle(pops, AddToTop(open, A.Leaf(A.EpsNode, None))).1, s.pos))
  {
  }

  /** The terminal branch, given the facts that select it. */
  lemma MatchAt(t: T.Table, terms: set<Symbol>, acts: map<int, A.EvalFn>, toks: seq<L.Token>, s: State, guarded: bool)
    requires WF(s, toks) && Top(s) != EndOfInput
    requires toks[s.pos].kind != EOI && Top(s) == Terminal(toks[s.pos].kind)
    ensures var open := AddToTop(s.open, A.Leaf(A.TokNode(toks[s.pos]), None));
      var closed := if guarded then Some(Settle(Dec(s.pops), open)) else Collapse(Dec(s.pops), open);
      Step(t, terms, acts, toks, s, guarded) ==
        if closed.None? then Failure(Underflow)
        else if s.pos + 1 >= |toks| then Failure(NoToken)
        else Success(State(s.ps[..|s.ps| - 1], closed.value.0, closed.value.1, s.pos + 1))
  {
  }

  /** The failing branches after the terminal one, given the facts that
      select them. */
  lemma RejectAt(t: T.Table, terms: set<Symbol>, acts: map<int, A.EvalFn>, toks: seq<L.Token>, s: State, guarded: bool)
    requires WF(s, toks) && Top(s) != EndOfInput
    requires !(toks[s.pos].kind != EOI && Top(s) == Terminal(toks[s.pos].kind))
    ensures var tok := toks[s.pos];
      Step(t, terms, acts, toks, s, guarded) ==
        if tok.kind != EOI && Terminal(tok.kind) !in terms then Failure(UnexpectedToken(tok))
        else if tok.kind == UNK then Failure(UnknownToken(tok))
        else if Top(s) !in t || Terminal(tok.kind) !in t[Top(s)] then Failure(NoEntry(tok))
        else Step(t, terms, acts, toks, s, guarded)
  {
  }

  /** With `EOI` on top the loop ends and returns the start node. */
  lemma RunFinish(t: T.Table, terms: set<Symbol>, acts: map<int, A.EvalFn>, toks: seq<L.Token>, s: State, steps: nat, guarded: bool)
    requires WF(s, toks) && Top(s) == EndOfInput
    ensures Run(t, terms, acts, toks, s, steps, guarded) == Finish(s)
  {
  }

  /** The step budget only cuts runs short: a run that ends within a
      budget ends the same way within any larger one. */
  lemma {:induction false} RunMoreSteps(t: T.Table, terms: set<Symbol>, acts: map<int, A.EvalFn>, toks: seq<L.Token>, s: State,
                                        n: nat, m: nat, guarded: bool)
    requires WF(s, toks) && n <= m
    requires Run(t, terms, acts, toks, s, n, guarded).Success? || Run(t, terms, acts, toks, s, n, guarded).error != OutOfSteps
    ensures Run(t, terms, acts, toks, s, m, guarded) == Run(t, terms, acts, toks, s, n, guarded)
    decreases m - n
  {
    if n < m {
      RunOneMore(t, terms, acts, toks, s, n, guarded);
      RunMoreSteps(t, terms, acts, toks, s, n + 1, m, guarded);
    }
  }

  /** One more iteration of budget changes nothing for a run that ends. */
  lemma {:induction false} RunOneMore(t: T.Table, terms: set<Symbol>, acts: map<int, A.EvalFn>, toks: seq<L.Token>, s: State,
                                      n: nat, guarded: bool)
    requires WF(s, toks)
    requires Run(t, terms, acts, toks, s, n, guarded).Success? || Run(t, terms, acts, toks, s, n, guarded).error != OutOfSteps
    ensures Run(t, terms, acts, toks, s, n + 1, guarded) == Run(t, terms, acts, toks, s, n, guarded)
    decreases n
  {
    if Top(s) != EndOfInput && n > 0 {
      if Step(t, terms, acts, toks, s, guarded).Success? {
        var next, fewer := OneMoreStep(t, terms, acts, toks, s, n, guarded);
        RunOneMore(t, terms, acts, toks, next, fewer, guarded);
      }
    }
  }

  /** The first iteration of a run, seen with two budgets that differ by
      one. */
  lemma OneMoreStep(t: T.Table, terms: set<Symbol>, acts: map<int, A.EvalFn>, toks: seq<L.Token>, s: State,
                    n: nat, guarded: bool)
    returns (next: State, fewer: nat)
    requires WF(s, toks) && Top(s) != EndOfInput && n > 0 && Step(t, terms, acts, toks, s, guarded).Success?
    ensures WF(next, toks) && fewer + 1 == n
    ensures Run(t, terms, acts, toks, s, n, guarded) == Run(t, terms, acts, toks, next, fewer, guarded)
    ensures Run(t, terms, acts, toks, s, n + 1, guarded) == Run(t, terms, acts, toks, next, fewer + 1, guarded)
  {
    next := Step(t, terms, acts, toks, s, guarded).value;
    fewer := RunAfter(t, terms, acts, toks, s, n, guarded, next);
    RunStepOn(t, terms, acts, toks, s, n, guarded, next);
  }

  // ----- the loop itself -----

  /** `while pops[-1] == 0: pops.pop(); curr = curr.parent` of the terminal
      branch; `ok` is false where the source indexes the emptied list. */
  method CloseMatched(pops0: seq<int>, open0: seq<A.Ast>) returns (ok: bool, pops: seq<int>, open: seq<A.Ast>)
    requires |pops0| == |open0| >= 1
    ensures ok == Collapse(pops0, open0).Some?
    ensures ok ==> (pops, open) == Collapse(pops0, open0).value
  {
    pops, open := pops0, open0;
    while pops[|pops| - 1] == 0
      invariant |pops| == |open| >= 1
      invariant Collapse(pops, open) == Collapse(pops0, open0)
      decreases |pops|
    {
      if |pops| == 1 {
        return false, pops, open;
      }
      pops, open := pops[..|pops| - 1], Close(open);
    }
    ok := true;
  }

  /** `while curr.parent and pops[-1] == 0: pops.pop(); curr = curr.parent`
      of the epsilon branch. */
  method CloseEpsilon(pops0: seq<int>, open0: seq<A.Ast>) returns (pops: seq<int>, open: seq<A.Ast>)
    requires |pops0| == |open0| >= 1
    ensures (pops, open) == Settle(pops0, open0)
  {
    pops, open := pops0, open0;
    while |open| > 1 && pops[|pops| - 1] == 0
      invariant |pops| == |open| >= 1
      invariant Settle(pops, open) == Settle(pops0, open0)
      decreases |pops|
    {
      pops, open := pops[..|pops| - 1], Close(open);
    }
  }

  /** The body of the loop of `LL1.tree` on the variables `ps`, `pops`,
      the open nodes and the current token `tok`, which is `toks[pos]`;
      the terminal branch reads the next token from the cursor. It does
      what `Step` says. */
  method Iteration(t: T.Table, terms: set<Symbol>, acts: map<int, A.EvalFn>, it: L.Iter, ghost toks: seq<L.Token>,
                   tok: L.Token, ps0: seq<Symbol>, pops0: seq<int>, open0: seq<A.Ast>, ghost pos0: nat)
    returns (r: Result<L.Token, ParseError>, ps: seq<Symbol>, pops: seq<int>, open: seq<A.Ast>, ghost pos: nat)
    requires it.Valid() && pos0 < |toks| && tok == toks[pos0] && it.Pending() == toks[pos0 + 1..]
    requires WF(State(ps0, pops0, open0, pos0), toks) && ps0[|ps0| - 1] != EndOfInput
    modifies it
    ensures it.Valid()
    ensures Step(t, terms, acts, toks, State(ps0, pops0, open0, pos0), false) ==
      if r.Success? then Success(State(ps, pops, open, pos)) else Failure(r.error)
    ensures r.Success? ==> pos < |toks| && r.value == toks[pos] && it.Pending() == toks[pos + 1..]
  {
    if tok.kind != EOI && ps0[|ps0| - 1] == Terminal(tok.kind) {
      r, ps, pops, open, pos := MatchIteration(t, terms, acts, it, toks, tok, ps0, pops0, open0, pos0);
    } else {
      var e;
      e, ps, pops, open := ExpandIteration(t, terms, acts, toks, tok, ps0, pops0, open0, pos0);
      pos := pos0;
      r := if e.Some? then Failure(e.value) else Success(tok);
    }
  }

  /** The terminal branch: pop the terminal, add the token's leaf, close
      the finished nodes, read the next token. */
  method MatchIteration(t: T.Table, terms: set<Symbol>, acts: map<int, A.EvalFn>, it: L.Iter, ghost toks: seq<L.Token>,
                        tok: L.Token, ps0: seq<Symbol>, pops0: seq<int>, open0: seq<A.Ast>, ghost pos0: nat)
    returns (r: Result<L.Token, ParseError>, ps: seq<Symbol>, pops: seq<int>, open: seq<A.Ast>, ghost pos: nat)
    requires it.Valid() && pos0 < |toks| && tok == toks[pos0] && it.Pending() == toks[pos0 + 1..]
    requires WF(State(ps0, pops0, open0, pos0), toks) && ps0[|ps0| - 1] != EndOfInput
    requires tok.kind != EOI && ps0[|ps0| - 1] == Terminal(tok.kind)
    modifies it
    ensures it.Valid()
    ensures Step(t, terms, acts, toks, State(ps0, pops0, open0, pos0), false) ==
      if r.Success? then Success(State(ps, pops, open, pos)) else Failure(r.error)
    ensures r.Success? ==> pos < |toks| && r.value == toks[pos] && it.Pending() == toks[pos + 1..]
  {
    MatchAt(t, terms, acts, toks, State(ps0, pops0, open0, pos0), false);
    pos := pos0;
    ps := ps0[..|ps0| - 1];
    var ok;
    ok, pops, open := CloseMatched(Dec(pops0), AddToTop(open0, A.Leaf(A.TokNode(tok), None)));
    if !ok {
      return Failure(Underflow), ps, pops, open, pos;
    }
    var next := it.Next();
    if next.None? {
      return Failure(NoToken), ps, pops, open, pos;
    }
    pos := pos0 + 1;
    r := Success(next.value);
  }

  /** The other branches: the three errors, then the expansion by the
      table's production; `e` is the error, if any. */
  method ExpandIteration(t: T.Table, terms: set<Symbol>, acts: map<int, A.EvalFn>, ghost toks: seq<L.Token>,
                         tok: L.Token, ps0: seq<Symbol>, pops0: seq<int>, open0: seq<A.Ast>, ghost pos0: nat)
    returns (e: Option<ParseError>, ps: seq<Symbol>, pops: seq<int>, open: seq<A.Ast>)
    requires pos0 < |toks| && tok == toks[pos0]
    requires WF(State(ps0, pops0, open0, pos0), toks) && ps0[|ps0| - 1] != EndOfInput
    requires !(tok.kind != EOI && ps0[|ps0| - 1] == Terminal(tok.kind))
    ensures Step(t, terms, acts, toks, State(ps0, pops0, open0, pos0), false) ==
      if e.Some? then Failure(e.value) else Success(State(ps, pops, open, pos0))
  {
    ghost var s := State(ps0, pops0, open0, pos0);
    RejectAt(t, terms, acts, toks, s, false);
    ps, pops, open := ps0, pops0, open0;
    if tok.kind != EOI && Terminal(tok.kind) !in terms {
      return Some(UnexpectedToken(tok)), ps, pops, open;
    } else if tok.kind == UNK {
      return Some(UnknownToken(tok)), ps, pops, open;
    } else if ps0[|ps0| - 1] !in t || Terminal(tok.kind) !in t[ps0[|ps0| - 1]] {
      return Some(NoEntry(tok)), ps, pops, open;
    }
    var p := t[ps0[|ps0| - 1]][Terminal(tok.kind)];
    ExpandAt(t, terms, acts, toks, s, false, p);
    var act := if p.idx in acts then Some(acts[p.idx]) else None;
    ps := ps0[..|ps0| - 1];
    pops := Dec(pops0) + [p.Len()];
    open := open0 + [A.Leaf(A.ProdNode(p), act)];
    if !p.Truthy() {
      pops, open := CloseEpsilon(pops, AddToTop(open, A.Leaf(A.EpsNode, None)));
    } else {
      ps := ps + Reversed(p.body);
    }
    e := None;
  }

  /** The loop invariant: from `s`, at most `steps` more iterations of the
      source's loop end in `goal`. */
  ghost predicate Reaches(t: T.Table, terms: set<Symbol>, acts: map<int, A.EvalFn>, toks: seq<L.Token>, s: State,
                          steps: nat, goal: Result<A.Ast, ParseError>)
  {
    WF(s, toks) && Run(t, terms, acts, toks, s, steps, false) == goal
  }

  /** A successful iteration keeps the invariant with one step fewer. */
  lemma ReachesStep(t: T.Table, terms: set<Symbol>, acts: map<int, A.EvalFn>, toks: seq<L.Token>, s: State,
                    steps: nat, fewer: nat, goal: Result<A.Ast, ParseError>, next: State)
    requires Reaches(t, terms, acts, toks, s, steps, goal) && Top(s) != EndOfInput && fewer + 1 == steps
    requires Step(t, terms, acts, toks, s, false) == Success(next)
    ensures Reaches(t, terms, acts, toks, next, fewer, goal)
  {
  }

  /** A failing iteration ends the loop with its error. */
  lemma ReachesFailure(t: T.Table, terms: set<Symbol>, acts: map<int, A.EvalFn>, toks: seq<L.Token>, s: State,
                       steps: nat, goal: Result<A.Ast, ParseError>, e: ParseError)
    requires Reaches(t, terms, acts, toks, s, steps, goal) && Top(s) != EndOfInput && steps >= 1
    requires Step(t, terms, acts, toks, s, false) == Failure(e)
    ensures goal == Failure(e)
  {
  }

  /** An exhausted budget ends the loop with `OutOfSteps`. */
  lemma ReachesNoSteps(t: T.Table, terms: set<Symbol>, acts: map<int, A.EvalFn>, toks: seq<L.Token>, s: State,
                       goal: Result<A.Ast, ParseError>)
    requires Reaches(t, terms, acts, toks, s, 0, goal) && Top(s) != EndOfInput
    ensures goal == Failure(OutOfSteps)
  {
  }

  /** With `EOI` on top the loop is over and the tree is returned. */
  lemma ReachesEnd(t: T.Table, terms: set<Symbol>, acts: map<int, A.EvalFn>, toks: seq<L.Token>, s: State,
                   steps: nat, goal: Result<A.Ast, ParseError>)
    requires Reaches(t, terms, acts, toks, s, steps, goal)
    requires |s.ps| >= 1 && s.ps[|s.ps| - 1] == EndOfInput
    ensures goal == Finish(s)
  {
  }

  /** `while ps[-1] != EOI`, then `return out_tree[0]`, from the given
      variables and at most `fuel` iterations. */
  method RunLoop(t: T.Table, terms: set<Symbol>, acts: map<int, A.EvalFn>, it: L.Iter, ghost toks: seq<L.Token>,
                 tok0: L.Token, ps0: seq<Symbol>, pops0: seq<int>, open0: seq<A.Ast>, ghost pos0: nat, fuel0: nat)
    returns (r: Result<A.Ast, ParseError>)
    requires it.Valid() && pos0 < |toks| && tok0 == toks[pos0] && it.Pending() == toks[pos0 + 1..]
    requires WF(State(ps0, pops0, open0, pos0), toks)
    modifies it
    ensures r == Run(t, terms, acts, toks, State(ps0, pops0, open0, pos0), fuel0, false)
  {
    var tok, ps, pops, open := tok0, ps0, pops0, open0;
    var fuel: nat := fuel0;
    ghost var pos: nat := pos0;
    ghost var goal := Run(t, terms, acts, toks, State(ps0, pops0, open0, pos0), fuel0, false);
    while ps[|ps| - 1] != EndOfInput
      invariant it.Valid()
      invariant pos < |toks| && tok == toks[pos] && it.Pending() == toks[pos + 1..]
      invariant Reaches(t, terms, acts, toks, State(ps, pops, open, pos), fuel, goal)
      decreases fuel
    {
      ghost var s := State(ps, pops, open, pos);
      if fuel == 0 {
        ReachesNoSteps(t, terms, acts, toks, s, goal);
        return Failure(OutOfSteps);
      }
      var res;
      res, ps, pops, open, pos := Iteration(t, terms, acts, it, toks, tok, ps, pops, open, pos);
      if res.Failure? {
        ReachesFailure(t, terms, acts, toks, s, fuel, goal, res.error);
        return Failure(res.error);
      }
      ghost var before := fuel;
      fuel := fuel - 1;
      ReachesStep(t, terms, acts, toks, s, before, fuel, goal, State(ps, pops, open, pos));
      tok := res.value;
    }
    ReachesEnd(t, terms, acts, toks, State(ps, pops, open, pos), fuel, goal);
    var root := CloseAll(open);
    if root.kids == [] {
      return Failure(NoTree);
    }
    return Success(root.kids[0]);
  }

  /** `LL1.tree`: tokenize `text`, read the first token, set up the
      variables and run the loop. It computes what `TreeOf` says of the
      token stream of `text`. */
  method Tree(ll: T.LL1, text: string, start: Option<string>, steps: nat) returns (r: Result<A.Ast, ParseError>)
    ensures r == TreeOf(ll, TokensFor(ll, text), start, steps)
  {
    var it := L.Tokenize(ll.parser.lexer, text, "");
    ghost var toks := it.Pending();
    var first := it.Next();
    if first.None? {
      return Failure(NoToken);
    }
    var ps := [EndOfInput, NonTerm(StartName(ll.parser.cfg, start))];
    assert State(ps, [1], [A.Leaf(A.RootNode("Root"), None)], 0) == Init(ll.parser.cfg, start);
    r := RunLoop(ll.table, Terms(ll.parser.cfg), ll.parser.actions, it, toks, first.value,
                 ps, [1], [A.Leaf(A.RootNode("Root"), None)], 0, steps);
  }

  /** `LL1.eval`: the tree of `text` from the grammar's start, evaluated. */
  method Evaluate(d: Dialect, ll: T.LL1, text: string, steps: nat) returns (r: Result<Value, ParseError>)
    ensures r == EvalOf(d, ll, text, steps)
  {
    var tree := Tree(ll, text, None, steps);
    if tree.Failure? {
      return Failure(tree.error);
    }
    var v := A.Eval(d, tree.value);
    if v.Failure? {
      return Failure(EvalFailed(v.error));
    }
    return Success(v.value);
  }

  // ----- worked examples -----

  function TokenOf(kind: string): L.Token {
    L.Token(kind, Str(kind), kind, 1, 0, "<string>")
  }

  /** `S -> a`. */
  function OneRule(): Prod { Prod("S", [Terminal("a")], 0) }

  function OneRuleGrammar(): CFG { CFG([OneRule()], "S") }

  /** Its LL(1) table: `S` on `a` expands `S -> a`. */
  function OneRuleTable(): T.Table { map[NonTerm("S") := map[Terminal("a") := OneRule()]] }

  /** `LL1.__init__` on `S -> a` builds `OneRuleTable`: SELECT(`S -> a`) is
      {a} at any depth, so construction succeeds, and a table with a row
      per rule that is sound and complete for the grammar is this one. */
  lemma OneRuleBuilt(fuel: nat, t: T.Table)
    ensures T.Clean(Package, OneRuleGrammar(), fuel, 1)
    ensures (t.Keys == Rules(OneRuleGrammar()) && T.Sound(Package, OneRuleGrammar(), fuel, 1, t)
             && T.Complete(Package, OneRuleGrammar(), fuel, 1, t)) ==> t == OneRuleTable()
  {
    var g := OneRuleGrammar();
    assert !IsRule(g, "a");
    assert T.Sel(Package, g, fuel, 0) == Success({Terminal("a")});
    if t.Keys == Rules(g) && T.Sound(Package, g, fuel, 1, t) && T.Complete(Package, g, fuel, 1, t) {
      assert Rules(g) == {NonTerm("S")};
      var row := t[NonTerm("S")];
      assert row.Keys == {Terminal("a")};
      assert row == map[Terminal("a") := OneRule()];
    }
  }

  /** Table construction on `S -> a` gives `OneRuleTable`. */
  method BuildOneRuleTable() returns (r: Result<T.Table, T.BuildError>)
    ensures r == Success(OneRuleTable())
  {
    r := T.BuildTable(Package, OneRuleGrammar(), 0);
    OneRuleBuilt(0, if r.Success? then r.value else map[]);
  }

  lemma OneRuleTerms()
    ensures Terminal("a") in Terms(OneRuleGrammar())
  {
    var g := OneRuleGrammar();
    assert g.productions[0].body[0] == Terminal("a");
  }

  /** The first iteration on `a EOI` expands `S -> a`. */
  lemma OneRuleExpand(acts: map<int, A.EvalFn>, guarded: bool)
    requires 0 !in acts
    ensures Step(OneRuleTable(), Terms(OneRuleGrammar()), acts, [TokenOf("a"), TokenOf(EOI)], Init(OneRuleGrammar(), None), guarded)
            == Success(State([EndOfInput, Terminal("a")], [0, 1],
                             [A.Leaf(A.RootNode("Root"), None), A.Leaf(A.ProdNode(OneRule()), None)], 0))
  {
    var s0 := Init(OneRuleGrammar(), None);
    var t, toks := OneRuleTable(), [TokenOf("a"), TokenOf(EOI)];
    OneRuleTerms();
    assert "a" != EOI && "a" != UNK;
    assert toks[s0.pos].kind == "a" && Top(s0) == NonTerm("S");
    assert OneRule().Truthy() && OneRule().Len() == 1;
    assert ActionOf(acts, OneRule()) == None;
    ExpandAt(t, Terms(OneRuleGrammar()), acts, toks, s0, guarded, OneRule());
    OneRuleExpanded();
  }

  /** The stacks and open nodes after the expansion of `S -> a`. */
  lemma OneRuleExpanded()
    ensures Init(OneRuleGrammar(), None).ps[..1] + Reversed(OneRule().body) == [EndOfInput, Terminal("a")]
    ensures Dec(Init(OneRuleGrammar(), None).pops) + [1] == [0, 1]
    ensures Init(OneRuleGrammar(), None).open + [A.Leaf(A.ProdNode(OneRule()), None)]
            == [A.Leaf(A.RootNode("Root"), None), A.Leaf(A.ProdNode(OneRule()), None)]
  {
    assert Reversed([Terminal("a")]) == [Terminal("a")];
  }

  /** The source's loop cannot parse the one-token sentence `a` of
      `S -> a`: the match closes the `S` node and then pops the root's
      counter too. */
  lemma OneRuleUnderflows(acts: map<int, A.EvalFn>, steps: nat)
    requires steps >= 2 && 0 !in acts
    ensures Run(OneRuleTable(), Terms(OneRuleGrammar()), acts, [TokenOf("a"), TokenOf(EOI)],
                Init(OneRuleGrammar(), None), steps, false) == Failure(Underflow)
  {
    var t, terms, toks := OneRuleTable(), Terms(OneRuleGrammar()), [TokenOf("a"), TokenOf(EOI)];
    OneRuleExpand(acts, false);
    var s1 := State([EndOfInput, Terminal("a")], [0, 1],
                    [A.Leaf(A.RootNode("Root"), None), A.Leaf(A.ProdNode(OneRule()), None)], 0);
    var open := AddToTop(s1.open, A.Leaf(A.TokNode(TokenOf("a")), None));
    assert "a" != EOI;
    assert Dec(s1.pops) == [0, 0];
    assert Collapse([0], Close(open)) == None;
    assert Step(t, terms, acts, toks, s1, false) == Failure(Underflow);
  }

  /** The corrected loop returns `S(a)` for the same input. */
  lemma OneRuleGuarded(acts: map<int, A.EvalFn>, steps: nat)
    requires steps >= 2 && 0 !in acts
    ensures Run(OneRuleTable(), Terms(OneRuleGrammar()), acts, [TokenOf("a"), TokenOf(EOI)],
                Init(OneRuleGrammar(), None), steps, true)
            == Success(A.Node(A.ProdNode(OneRule()), None, [A.Leaf(A.TokNode(TokenOf("a")), None)]))
  {
    var t, terms, toks := OneRuleTable(), Terms(OneRuleGrammar()), [TokenOf("a"), TokenOf(EOI)];
    OneRuleExpand(acts, true);
    var s1 := State([EndOfInput, Terminal("a")], [0, 1],
                    [A.Leaf(A.RootNode("Root"), None), A.Leaf(A.ProdNode(OneRule()), None)], 0);
    var open := AddToTop(s1.open, A.Leaf(A.TokNode(TokenOf("a")), None));
    var done := A.Node(A.ProdNode(OneRule()), None, [A.Leaf(A.TokNode(TokenOf("a")), None)]);
    var root := A.Node(A.RootNode("Root"), None, [done]);
    assert "a" != EOI;
    assert Dec(s1.pops) == [0, 0];
    assert open == [A.Leaf(A.RootNode("Root"), None), done];
    assert Close(open) == [root];
    assert Settle([0, 0], open) == ([0], [root]);
    var s2 := State([EndOfInput], [0], [root], 1);
    assert Top(s1) == Terminal("a") && s1.ps[..1] == [EndOfInput];
    assert Step(t, terms, acts, toks, s1, true) == Success(s2);
    assert Run(t, terms, acts, toks, s1, steps - 1, true) == Finish(s2);
  }

  /** `S -> a T`, `T -> S x`, `T -> ε`: FOLLOW(T) holds `x`, so `T`
      may end before an `x`. */
  function SeqRule(i: nat): Prod
    requires i < 3
  {
    if i == 0 then Prod("S", [Terminal("a"), NonTerm("T")], 0)
    else if i == 1 then Prod("T", [NonTerm("S"), Terminal("x")], 1)
    else Prod("T", [Eps], 2)
  }

  function SeqGrammar(): CFG { CFG([SeqRule(0), SeqRule(1), SeqRule(2)], "S") }

  /** Its LL(1) table, from SELECT(`S -> a T`) = {a}, SELECT(`T -> S x`) =
      {a} and SELECT(`T -> ε`) = FOLLOW(T) = {x, EOI}. */
  function SeqTable(): T.Table {
    map[NonTerm("S") := map[Terminal("a") := SeqRule(0)],
        NonTerm("T") := map[Terminal("a") := SeqRule(1), Terminal("x") := SeqRule(2), EndOfInput := SeqRule(2)]]
  }

  lemma SeqRules()
    ensures Rules(SeqGrammar()) == {NonTerm("S"), NonTerm("T")}
    ensures SeqGrammar().productions == [SeqRule(0), SeqRule(1), SeqRule(2)]
  {
    var ps := SeqGrammar().productions;
    assert NonTerm("S") == NonTerm(ps[0].rule) && NonTerm("T") == NonTerm(ps[1].rule);
    forall x | x in Rules(SeqGrammar()) ensures x == NonTerm("S") || x == NonTerm("T") {
      var i :| 0 <= i < |ps| && x == NonTerm(ps[i].rule);
    }
  }

  /** `r` succeeds with exactly the set `s`. */
  predicate Yields(r: FF.Sets, s: set<Symbol>) {
    r.Success? && r.value == s
  }

  /** FOLLOW(S) = {EOI, x}: `S` is the start and is followed by `x` in
      `T -> S x`. */
  lemma SeqFollowS(fuel: nat)
    requires fuel >= 1
    ensures FF.FollowRule(Package, SeqGrammar(), fuel, "S") == Success({EndOfInput, Terminal("x")})
  {
    var g := SeqGrammar();
    SeqRules();
    var f := fuel - 1;
    assert SeqRule(0).Len() == 2 && SeqRule(1).Len() == 2 && SeqRule(2).Len() == 0;
    assert Yields(FF.FollowAt(Package, g, f, "S", 0, 2), {});
    assert Yields(FF.FollowAt(Package, g, f, "S", 0, 1), {});
    assert Yields(FF.FollowAt(Package, g, f, "S", 0, 0), {});
    assert Yields(FF.FollowAt(Package, g, f, "S", 1, 2), {});
    assert Yields(FF.FollowAt(Package, g, f, "S", 1, 1), {});
    assert g.productions[1].body[1..] == [Terminal("x")];
    assert Yields(FF.FirstSeq(Package, g, f, [Terminal("x")]), {Terminal("x")});
    assert Yields(FF.FollowAt(Package, g, f, "S", 1, 0), {Terminal("x")});
    assert Yields(FF.FollowAt(Package, g, f, "S", 2, 0), {});
    assert Yields(FF.FollowProds(Package, g, f, "S", 3), {});
    assert Yields(FF.FollowProds(Package, g, f, "S", 2), {});
    assert Yields(FF.FollowProds(Package, g, f, "S", 1), {Terminal("x")});
    assert Yields(FF.FollowProds(Package, g, f, "S", 0), {Terminal("x")});
    assert Yields(FF.FollowRule(Package, g, fuel, "S"), {EndOfInput, Terminal("x")});
  }

  /** FOLLOW(T) = FOLLOW(S), since `T` ends `S -> a T` and occurs nowhere
      else. */
  lemma SeqFollowT(fuel: nat)
    requires fuel >= 2
    ensures FF.FollowRule(Package, SeqGrammar(), fuel, "T") == Success({EndOfInput, Terminal("x")})
  {
    var g := SeqGrammar();
    SeqRules();
    var f := fuel - 1;
    SeqFollowS(f);
    assert SeqRule(0).Len() == 2 && SeqRule(1).Len() == 2 && SeqRule(2).Len() == 0;
    assert Yields(FF.FollowAt(Package, g, f, "T", 0, 2), {});
    assert Yields(FF.FollowAt(Package, g, f, "T", 0, 1), {EndOfInput, Terminal("x")});
    assert Yields(FF.FollowAt(Package, g, f, "T", 0, 0), {EndOfInput, Terminal("x")});
    assert Yields(FF.FollowAt(Package, g, f, "T", 1, 2), {});
    assert Yields(FF.FollowAt(Package, g, f, "T", 1, 1), {});
    assert Yields(FF.FollowAt(Package, g, f, "T", 1, 0), {});
    assert Yields(FF.FollowAt(Package, g, f, "T", 2, 0), {});
    assert Yields(FF.FollowProds(Package, g, f, "T", 3), {});
    assert Yields(FF.FollowProds(Package, g, f, "T", 2), {});
    assert Yields(FF.FollowProds(Package, g, f, "T", 1), {});
    assert Yields(FF.FollowProds(Package, g, f, "T", 0), {EndOfInput, Terminal("x")});
  }

  /** The three SELECT sets the table is read from. */
  lemma SeqSelects(fuel: nat)
    requires fuel >= 2
    ensures T.Sel(Package, SeqGrammar(), fuel, 0) == Success({Terminal("a")})
    ensures T.Sel(Package, SeqGrammar(), fuel, 1) == Success({Terminal("a")})
    ensures T.Sel(Package, SeqGrammar(), fuel, 2) == Success({Terminal("x"), EndOfInput})
  {
    var g := SeqGrammar();
    SeqRules();
    var f := fuel - 1;
    assert Yields(FF.FirstSym(Package, g, f, Terminal("a")), {Terminal("a")});
    assert Yields(FF.FirstItems(Package, g, f, [Terminal("a"), NonTerm("T")]), {Terminal("a")});
    assert Yields(FF.FirstProds(Package, g, f, "S", 3), {});
    assert Yields(FF.FirstProds(Package, g, f, "S", 2), {});
    assert Yields(FF.FirstProds(Package, g, f, "S", 1), {});
    assert Yields(FF.FirstProds(Package, g, f, "S", 0), {Terminal("a")});
    assert Yields(FF.FirstRule(Package, g, fuel, "S"), {Terminal("a")});
    assert Yields(FF.FirstSeq(Package, g, fuel, [NonTerm("S"), Terminal("x")]), {Terminal("a")});
    assert Yields(FF.FirstSeq(Package, g, fuel, [Terminal("a"), NonTerm("T")]), {Terminal("a")});
    assert Yields(FF.FirstSeq(Package, g, fuel, []), {Eps});
    assert Yields(FF.FirstSeq(Package, g, fuel, [Eps]), {Eps});
    SeqFollowT(fuel);
    assert Yields(T.Sel(Package, g, fuel, 2), {Terminal("x"), EndOfInput});
  }

  lemma SeqOwners(k: nat)
    requires k < 3
    ensures SeqGrammar().productions[k] == SeqRule(k)
    ensures SeqRule(k).rule == "S" <==> k == 0
  {
    SeqRules();
  }

  /** Every entry of `SeqTable` is called for by a SELECT set. */
  lemma SeqTableSound(fuel: nat)
    requires fuel >= 2
    ensures T.Sound(Package, SeqGrammar(), fuel, 3, SeqTable())
  {
    var g, t := SeqGrammar(), SeqTable();
    SeqSelects(fuel);
    forall rl, s | rl in t && s in t[rl]
      ensures exists k :: 0 <= k < 3 && g.productions[k] == t[rl][s] && rl == NonTerm(g.productions[k].rule)
                          && T.Sel(Package, g, fuel, k).Success? && s in T.Sel(Package, g, fuel, k).value
    {
      if rl == NonTerm("S") {
        SeqOwners(0);
      } else if s == Terminal("a") {
        SeqOwners(1);
      } else {
        SeqOwners(2);
      }
    }
  }

  /** `SeqTable` holds every entry the SELECT sets call for, and a row per
      rule. */
  lemma SeqTableComplete(fuel: nat)
    requires fuel >= 2
    ensures SeqTable().Keys == Rules(SeqGrammar())
    ensures T.Complete(Package, SeqGrammar(), fuel, 3, SeqTable())
  {
    var g, t := SeqGrammar(), SeqTable();
    SeqRules();
    SeqSelects(fuel);
    forall k, s | 0 <= k < 3 && T.Sel(Package, g, fuel, k).Success? && s in T.Sel(Package, g, fuel, k).value
      ensures NonTerm(g.productions[k].rule) in t && s in t[NonTerm(g.productions[k].rule)]
        && t[NonTerm(g.productions[k].rule)][s] == g.productions[k]
    {
      SeqOwners(k);
    }
  }

  /** `LL1.__init__` on the grammar builds `SeqTable`: no two productions of
      `T` share a SELECT symbol, and a table with a row per rule that is
      sound and complete for the grammar is this one. */
  lemma SeqBuilt(fuel: nat, t: T.Table)
    requires fuel >= 2
    ensures T.Clean(Package, SeqGrammar(), fuel, 3)
    ensures (t.Keys == Rules(SeqGrammar()) && T.Sound(Package, SeqGrammar(), fuel, 3, t)
             && T.Complete(Package, SeqGrammar(), fuel, 3, t)) ==> t == SeqTable()
  {
    var g := SeqGrammar();
    SeqRules();
    SeqSelects(fuel);
    assert {Terminal("a")} * {Terminal("x"), EndOfInput} == {};
    assert !T.Clash(Package, g, fuel, 1, 2);
    if t.Keys == Rules(g) && T.Sound(Package, g, fuel, 3, t) && T.Complete(Package, g, fuel, 3, t) {
      SeqTableSound(fuel);
      SeqTableComplete(fuel);
      T.TableDetermined(Package, g, fuel, t, SeqTable());
    }
  }

  /** Table construction on the grammar gives `SeqTable`. */
  method BuildSeqTable() returns (r: Result<T.Table, T.BuildError>)
    ensures r == Success(SeqTable())
  {
    r := T.BuildTable(Package, SeqGrammar(), 2);
    SeqBuilt(2, if r.Success? then r.value else map[]);
  }

  function SeqTokens(): seq<L.Token> { [TokenOf("a"), TokenOf("x"), TokenOf(EOI)] }

  lemma SeqTerms()
    ensures Terminal("a") in Terms(SeqGrammar()) && Terminal("x") in Terms(SeqGrammar())
  {
    var g := SeqGrammar();
    assert g.productions[0].body[0] == Terminal("a") && g.productions[0].Truthy();
    assert g.productions[1].body[1] == Terminal("x") && g.productions[1].Truthy();
  }

  /** The states of the source's loop on `a x EOI`. */
  function SeqOpenS(): A.Ast { A.Leaf(A.ProdNode(SeqRule(0)), None) }

  function SeqS(): A.Ast { A.AddChild(SeqOpenS(), A.Leaf(A.TokNode(TokenOf("a")), None)) }

  function SeqT(): A.Ast { A.Node(A.ProdNode(SeqRule(2)), None, [A.Leaf(A.EpsNode, None)]) }

  function SeqState(i: nat): State
    requires i <= 3
  {
    if i == 0 then State([EndOfInput, NonTerm("S")], [1], [A.Leaf(A.RootNode("Root"), None)], 0)
    else if i == 1 then State([EndOfInput, NonTerm("T"), Terminal("a")], [0, 2], [A.Leaf(A.RootNode("Root"), None), SeqOpenS()], 0)
    else if i == 2 then State([EndOfInput, NonTerm("T")], [0, 1], [A.Leaf(A.RootNode("Root"), None), SeqS()], 1)
    else State([EndOfInput], [0], [A.Node(A.RootNode("Root"), None, [A.AddChild(SeqS(), SeqT())])], 1)
  }

  lemma SeqStep1(guarded: bool)
    ensures Step(SeqTable(), Terms(SeqGrammar()), map[], SeqTokens(), SeqState(0), guarded) == Success(SeqState(1))
  {
    var s0 := SeqState(0);
    SeqTerms();
    assert "a" != EOI && "a" != UNK;
    assert SeqTokens()[0] == TokenOf("a");
    assert Top(s0) == NonTerm("S");
    ExpandAt(SeqTable(), Terms(SeqGrammar()), map[], SeqTokens(), s0, guarded, SeqRule(0));
    assert SeqRule(0).Truthy() && SeqRule(0).Len() == 2;
    assert ActionOf(map[], SeqRule(0)) == None;
    SeqExpand1();
  }

  /** The stacks and open nodes after the first iteration's expansion. */
  lemma SeqExpand1()
    ensures SeqState(0).ps[..1] + Reversed(SeqRule(0).body) == SeqState(1).ps
    ensures Dec(SeqState(0).pops) + [2] == SeqState(1).pops
    ensures SeqState(0).open + [SeqOpenS()] == SeqState(1).open
  {
    assert SeqRule(0).body == [Terminal("a"), NonTerm("T")];
    assert Reversed([Terminal("a"), NonTerm("T")]) == [NonTerm("T"), Terminal("a")];
    assert Dec([1]) + [2] == [0, 2];
  }

  lemma SeqStep2(guarded: bool)
    ensures Step(SeqTable(), Terms(SeqGrammar()), map[], SeqTokens(), SeqState(1), guarded) == Success(SeqState(2))
  {
    var s1 := SeqState(1);
    assert "a" != EOI;
    assert SeqTokens()[0] == TokenOf("a");
    assert Top(s1) == Terminal("a") && s1.ps[..2] == SeqState(2).ps;
    MatchAt(SeqTable(), Terms(SeqGrammar()), map[], SeqTokens(), s1, guarded);
    assert Dec(s1.pops) == [0, 1];
    assert AddToTop(s1.open, A.Leaf(A.TokNode(TokenOf("a")), None)) == SeqState(2).open;
  }

  /** `Settle` on the third iteration closes `T` and then `S`. */
  lemma SeqSettle()
    ensures Settle([0, 0, 0], [A.Leaf(A.RootNode("Root"), None), SeqS(), SeqT()]) == (SeqState(3).pops, SeqState(3).open)
  {
    var withEps := [A.Leaf(A.RootNode("Root"), None), SeqS(), SeqT()];
    var once := [A.Leaf(A.RootNode("Root"), None), A.AddChild(SeqS(), SeqT())];
    assert Close(withEps) == once;
    assert [0, 0, 0][..2] == [0, 0];
    assert Settle([0, 0, 0], withEps) == Settle([0, 0], once);
    assert Close(once) == SeqState(3).open;
    assert [0, 0][..1] == [0];
    assert Settle([0, 0], once) == Settle([0], Close(once));
  }

  lemma SeqStep3(guarded: bool)
    ensures Step(SeqTable(), Terms(SeqGrammar()), map[], SeqTokens(), SeqState(2), guarded) == Success(SeqState(3))
  {
    var s2 := SeqState(2);
    SeqTerms();
    assert "x" != EOI && "x" != UNK;
    assert SeqTokens()[1] == TokenOf("x");
    assert Top(s2) == NonTerm("T") && s2.ps[..1] == [EndOfInput];
    ExpandAt(SeqTable(), Terms(SeqGrammar()), map[], SeqTokens(), s2, guarded, SeqRule(2));
    assert !SeqRule(2).Truthy() && SeqRule(2).Len() == 0;
    assert ActionOf(map[], SeqRule(2)) == None;
    SeqExpand3();
    SeqSettle();
  }

  /** The counters and open nodes the third iteration hands to `Settle`. */
  lemma SeqExpand3()
    ensures Dec(SeqState(2).pops) + [0] == [0, 0, 0]
    ensures AddToTop(SeqState(2).open + [A.Leaf(A.ProdNode(SeqRule(2)), None)], A.Leaf(A.EpsNode, None))
            == [A.Leaf(A.RootNode("Root"), None), SeqS(), SeqT()]
  {
    var open := SeqState(2).open + [A.Leaf(A.ProdNode(SeqRule(2)), None)];
    assert open[..2] == SeqState(2).open;
    assert A.AddChild(open[2], A.Leaf(A.EpsNode, None)) == SeqT();
  }

  lemma SeqFromStep3(steps: nat)
    requires steps >= 1
    ensures Run(SeqTable(), Terms(SeqGrammar()), map[], SeqTokens(), SeqState(2), steps, false) == Finish(SeqState(3))
  {
    SeqTerms();
    assert "a" != EOI && "a" != UNK && "x" != EOI && "x" != UNK;
    SeqStep3(false);
    RunStep(SeqTable(), Terms(SeqGrammar()), map[], SeqTokens(), SeqState(2), steps, false, SeqState(3));
    RunFinish(SeqTable(), Terms(SeqGrammar()), map[], SeqTokens(), SeqState(3), steps - 1, false);
  }

  lemma SeqFromStep2()
    ensures Run(SeqTable(), Terms(SeqGrammar()), map[], SeqTokens(), SeqState(1), 2, false) == Finish(SeqState(3))
  {
    SeqTerms();
    assert "a" != EOI && "a" != UNK && "x" != EOI && "x" != UNK;
    SeqStep2(false);
    RunStep(SeqTable(), Terms(SeqGrammar()), map[], SeqTokens(), SeqState(1), 2, false, SeqState(2));
    SeqFromStep3(1);
  }

  lemma SeqFromStep1()
    ensures Run(SeqTable(), Terms(SeqGrammar()), map[], SeqTokens(), SeqState(0), 3, false) == Finish(SeqState(3))
  {
    SeqTerms();
    assert "a" != EOI && "a" != UNK && "x" != EOI && "x" != UNK;
    SeqStep1(false);
    RunStep(SeqTable(), Terms(SeqGrammar()), map[], SeqTokens(), SeqState(0), 3, false, SeqState(1));
    SeqFromStep2();
  }

  lemma SeqFinish()
    ensures Finish(SeqState(3)) == Success(A.Node(A.ProdNode(SeqRule(0)), None, [A.Leaf(A.TokNode(TokenOf("a")), None), SeqT()]))
  {
    assert A.AddChild(SeqS(), SeqT()) == A.Node(A.ProdNode(SeqRule(0)), None, [A.Leaf(A.TokNode(TokenOf("a")), None), SeqT()]);
  }

  /** On `a x EOI` the source's loop returns `S(a, T(ε))`: `T` expands to
      epsilon on `x`, which completes `S` and ends the loop, and `x` is
      never consumed. No error reports the unread input. */
  lemma TrailingInputIgnored(steps: nat)
    requires steps >= 3
    ensures Run(SeqTable(), Terms(SeqGrammar()), map[], SeqTokens(), Init(SeqGrammar(), None), steps, false)
            == Success(A.Node(A.ProdNode(SeqRule(0)), None,
                              [A.Leaf(A.TokNode(TokenOf("a")), None), SeqT()]))
  {
    assert Init(SeqGrammar(), None) == SeqState(0);
    SeqFromStep1();
    SeqFinish();
    RunMoreSteps(SeqTable(), Terms(SeqGrammar()), map[], SeqTokens(), SeqState(0), 3, steps, false);
  }
}
