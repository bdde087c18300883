/** The syntax tree of `parsepy/parser/ast.py` and of the older `AST` class
    in `parser.py`: a node holds a value (the root's name, a production, a
    token, or the epsilon marker), an optional evaluation function and its
    children in order. The two generations differ only in what they pass
    to the evaluation function and in the default function. */
module Ast {
  import opened Symbols
  import opened Grammar
  import L = Lexer

  /** What a node stands for. `RootNode` is the `AST('Root')` node the
      driver starts from, `EpsNode` the leaf under an epsilon production. */
  datatype NodeValue = RootNode(name: string) | ProdNode(p: Prod) | TokNode(t: L.Token) | EpsNode

  /** An evaluation function (a semantic action): it receives the argument
      list and returns the node's value. */
  type EvalFn = seq<Value> -> Value

  /** A node: its value, its own evaluation function if one was given, and
      its children. */
  datatype Ast = Node(value: NodeValue, evalfn: Option<EvalFn>, kids: seq<Ast>)

  /** Why evaluation fails: the default evaluation function of the node
      reads the `token` field of a value that has none. */
  datatype AstError = MissingToken

  /** A node without children, as `AST(value, evalfn)` creates it. */
  function Leaf(v: NodeValue, f: Option<EvalFn>): (t: Ast)
    ensures t.value == v && t.evalfn == f && t.kids == []
  {
    Node(v, f, [])
  }

  /** `add_child`: the child goes after the existing children. */
  function AddChild(t: Ast, c: Ast): (r: Ast)
    ensures r.value == t.value && r.evalfn == t.evalfn
    ensures |r.kids| == |t.kids| + 1 && r.kids[..|t.kids|] == t.kids && r.kids[|t.kids|] == c
  {
    t.(kids := t.kids + [c])
  }

  /** `__getitem__`: Python indexing of the children, negative indices
      counting from the end; `None` for an `IndexError`. */
  function GetItem(t: Ast, i: int): (r: Option<Ast>)
    ensures r.Some? <==> -|t.kids| <= i < |t.kids|
    ensures 0 <= i < |t.kids| ==> r == Some(t.kids[i])
    ensures -|t.kids| <= i < 0 ==> r == Some(t.kids[|t.kids| + i])
  {
    if 0 <= i < |t.kids| then Some(t.kids[i])
    else if -|t.kids| <= i < 0 then Some(t.kids[|t.kids| + i])
    else None
  }

  /** The newest child is at index -1 and the earlier ones keep their
      indices. */
  lemma AddChildIndex(t: Ast, c: Ast)
    ensures GetItem(AddChild(t, c), -1) == Some(c)
    ensures GetItem(AddChild(t, c), |t.kids|) == Some(c)
    ensures forall i :: 0 <= i < |t.kids| ==> GetItem(AddChild(t, c), i) == GetItem(t, i)
  {
  }

  /** The default evaluation function chosen by the constructor when none is
      given. The package returns `None` for a production and for a falsy
      value, else the token's value; the older class returns `None` only for
      a falsy value (an epsilon production or the epsilon marker), so a
      truthy production there reads a missing `token` field. The root's
      name is a non-empty string, which has no `token` field either. */
  function Default(d: Dialect, v: NodeValue): (r: Result<Value, AstError>)
    ensures v.TokNode? ==> r == Success(v.t.value)
    ensures v.EpsNode? ==> r == Success(Nil)
    ensures v.ProdNode? && d == Package ==> r == Success(Nil)
    ensures v.ProdNode? && d == Legacy ==> (r.Success? <==> !v.p.Truthy()) && (r.Success? ==> r.value == Nil)
  {
    match v
    case RootNode(name) => if name == "" then Success(Nil) else Failure(MissingToken)
    case ProdNode(p) => if d == Package || !p.Truthy() then Success(Nil) else Failure(MissingToken)
    case TokNode(tok) => Success(tok.value)
    case EpsNode => Success(Nil)
  }

  /** Calls the node's function, or the default one, on `args`. */
  function Apply(d: Dialect, t: Ast, args: seq<Value>): Result<Value, AstError> {
    match t.evalfn
    case Some(f) => Success(f(args))
    case None => Default(d, t.value)
  }

  /** The argument list of a node: the package puts the node first (here
      the placeholder `SelfNode`, which carries nothing of the node),
      followed by the children's values; the older class passes only the
      children's values. */
  function Args(d: Dialect, vs: seq<Value>): (r: seq<Value>)
    ensures d == Package ==> |r| == |vs| + 1 && r[0] == SelfNode && r[1..] == vs
    ensures d == Legacy ==> r == vs
  {
    if d == Package then [SelfNode] + vs else vs
  }

  /** `eval`: evaluates the children left to right (the first failure
      stops), then applies the node's function to the argument list. */
  function Eval(d: Dialect, t: Ast): Result<Value, AstError>
    decreases t, 1
  {
    match EvalKids(d, t, 0)
    case Failure(e) => Failure(e)
    case Success(vs) => Apply(d, t, Args(d, vs))
  }

  /** The values of the children of `t` from position `n` on. */
  function EvalKids(d: Dialect, t: Ast, n: nat): Result<seq<Value>, AstError>
    requires n <= |t.kids|
    decreases t, 0, |t.kids| - n
  {
    if n == |t.kids| then Success([])
    else
      match Eval(d, t.kids[n])
      case Failure(e) => Failure(e)
      case Success(v) =>
        match EvalKids(d, t, n + 1)
        case Failure(e) => Failure(e)
        case Success(rest) => Success([v] + rest)
  }

  /** The children's values succeed exactly when every child evaluates,
      and then they are those values in order. */
  lemma {:induction false} EvalKidsSpec(d: Dialect, t: Ast, n: nat)
    requires n <= |t.kids|
    ensures EvalKids(d, t, n).Success? <==> forall i :: n <= i < |t.kids| ==> Eval(d, t.kids[i]).Success?
    ensures EvalKids(d, t, n).Success? ==> |EvalKids(d, t, n).value| == |t.kids| - n
    ensures EvalKids(d, t, n).Success? ==>
      forall i :: n <= i < |t.kids| ==> EvalKids(d, t, n).value[i - n] == Eval(d, t.kids[i]).value
    decreases |t.kids| - n
  {
    if n < |t.kids| {
      EvalKidsSpec(d, t, n + 1);
      if EvalKids(d, t, n).Success? {
        var vs := EvalKids(d, t, n).value;
        var rest := EvalKids(d, t, n + 1).value;
        assert vs == [Eval(d, t.kids[n]).value] + rest;
        forall i | n <= i < |t.kids| ensures vs[i - n] == Eval(d, t.kids[i]).value {
          if i > n {
            assert vs[i - n] == rest[i - (n + 1)];
          }
        }
      }
    }
  }

  /** A failure is that of the first child that fails. */
  lemma {:induction false} EvalKidsFirstError(d: Dialect, t: Ast, n: nat, i: nat)
    requires n <= i < |t.kids|
    requires forall j :: n <= j < i ==> Eval(d, t.kids[j]).Success?
    requires Eval(d, t.kids[i]).Failure?
    ensures EvalKids(d, t, n) == Failure(Eval(d, t.kids[i]).error)
    decreases i - n
  {
    if n < i {
      EvalKidsFirstError(d, t, n + 1, i);
    }
  }

  /** A node with its own function returns that function applied to the
      argument list of its children's values. */
  lemma EvalWithAction(d: Dialect, t: Ast, f: EvalFn, vs: seq<Value>)
    requires t.evalfn == Some(f)
    requires |vs| == |t.kids| && forall i :: 0 <= i < |t.kids| ==> Eval(d, t.kids[i]) == Success(vs[i])
    ensures Eval(d, t) == Success(f(Args(d, vs)))
  {
    EvalKidsSpec(d, t, 0);
    assert EvalKids(d, t, 0).value == vs;
  }

  /** Leaves without their own function: a token leaf evaluates to the
      token's value and an epsilon leaf to `None`, in both generations. */
  lemma EvalLeaves(d: Dialect, tok: L.Token)
    ensures Eval(d, Leaf(TokNode(tok), None)) == Success(tok.value)
    ensures Eval(d, Leaf(EpsNode, None)) == Success(Nil)
  {
  }

  /** A production node without its own function: `None` in the package
      once its children evaluate; in the older class the evaluation of a
      truthy production fails even when every child evaluates. */
  lemma EvalDefaultProd(d: Dialect, t: Ast)
    requires t.value.ProdNode? && t.evalfn.None?
    requires forall i :: 0 <= i < |t.kids| ==> Eval(d, t.kids[i]).Success?
    ensures d == Package ==> Eval(d, t) == Success(Nil)
    ensures d == Legacy ==> (Eval(d, t).Success? <==> !t.value.p.Truthy())
  {
    EvalKidsSpec(d, t, 0);
  }

  /** Adding a child extends the children's values by that child's value. */
  lemma {:induction false} AddChildEval(d: Dialect, t: Ast, c: Ast, n: nat)
    requires n <= |t.kids|
    requires EvalKids(d, t, n).Success? && Eval(d, c).Success?
    ensures EvalKids(d, AddChild(t, c), n) == Success(EvalKids(d, t, n).value + [Eval(d, c).value])
    decreases |t.kids| - n
  {
    var r := AddChild(t, c);
    if n == |t.kids| {
      assert r.kids[n] == c;
      assert EvalKids(d, r, n + 1) == Success([]);
      assert EvalKids(d, t, n) == Success([]);
      assert EvalKids(d, r, n) == Success([Eval(d, c).value] + []);
      assert [Eval(d, c).value] + [] == [] + [Eval(d, c).value];
    } else {
      assert r.kids[n] == t.kids[n];
      AddChildEval(d, t, c, n + 1);
      var v := Eval(d, t.kids[n]).value;
      var rest := EvalKids(d, t, n + 1).value;
      assert Eval(d, r.kids[n]) == Success(v);
      assert EvalKids(d, t, n).value == [v] + rest;
      assert EvalKids(d, r, n) == Success([v] + (rest + [Eval(d, c).value]));
      assert [v] + (rest + [Eval(d, c).value]) == ([v] + rest) + [Eval(d, c).value];
    }
  }

  // ----- equality -----

  /** `self.value != other.value` for node values, or `None` when the
      comparison itself fails: a token compares kind and value and reads
      the `type` field of the other side, which only tokens have.
      Productions compare as values. */
  function ValueNe(a: NodeValue, b: NodeValue): (r: Option<bool>)
    ensures (a.TokNode? != b.TokNode?) <==> r.None?
    ensures a.TokNode? && b.TokNode? ==> r == Some(!L.TokenEq(a.t, b.t))
    ensures !a.TokNode? && !b.TokNode? ==> r == Some(a != b)
  {
    if a.TokNode? && b.TokNode? then Some(!L.TokenEq(a.t, b.t))
    else if a.TokNode? || b.TokNode? then None
    else Some(a != b)
  }

  /** `__eq__`: the values are equal and every child of `a` equals the child
      of `b` at the same position (children of `b` beyond those of `a` are
      not looked at); `None` when a comparison fails. */
  function Eq(a: Ast, b: Ast): Option<bool>
    decreases a, 1
  {
    match ValueNe(a.value, b.value)
    case None => None
    case Some(ne) => if ne then Some(false) else KidsEq(a, b, 0)
  }

  /** The children of `a` from position `n` on against those of `b`. */
  function KidsEq(a: Ast, b: Ast, n: nat): Option<bool>
    requires n <= |a.kids|
    decreases a, 0, |a.kids| - n
  {
    if n == |a.kids| then Some(true)
    else if n >= |b.kids| then Some(false)
    else
      match Eq(a.kids[n], b.kids[n])
      case None => None
      case Some(e) => if !e then Some(false) else KidsEq(a, b, n + 1)
  }

  /** `__ne__`: the negation of `__eq__`. */
  function Ne(a: Ast, b: Ast): (r: Option<bool>)
    ensures r.Some? <==> Eq(a, b).Some?
    ensures r.Some? ==> r.value == !Eq(a, b).value
  {
    match Eq(a, b)
    case None => None
    case Some(e) => Some(!e)
  }

  /** A tree equals itself. */
  lemma {:induction false} EqReflexive(a: Ast)
    ensures Eq(a, a) == Some(true)
    decreases a, 1
  {
    KidsEqReflexive(a, 0);
  }

  lemma {:induction false} KidsEqReflexive(a: Ast, n: nat)
    requires n <= |a.kids|
    ensures KidsEq(a, a, n) == Some(true)
    decreases a, 0, |a.kids| - n
  {
    if n < |a.kids| {
      EqReflexive(a.kids[n]);
      KidsEqReflexive(a, n + 1);
    }
  }

  /** Equality holds exactly when the values compare equal and `a` has no
      more children than `b`, each equal to `b`'s child at its position. */
  lemma {:induction false} EqMeans(a: Ast, b: Ast)
    ensures Eq(a, b) == Some(true) <==>
      && ValueNe(a.value, b.value) == Some(false)
      && |a.kids| <= |b.kids|
      && forall i :: 0 <= i < |a.kids| ==> Eq(a.kids[i], b.kids[i]) == Some(true)
  {
    if ValueNe(a.value, b.value) == Some(false) {
      KidsEqMeans(a, b, 0);
    }
  }

  lemma {:induction false} KidsEqMeans(a: Ast, b: Ast, n: nat)
    requires n <= |a.kids| && n <= |b.kids|
    ensures KidsEq(a, b, n) == Some(true) <==>
      && |a.kids| <= |b.kids|
      && forall i :: n <= i < |a.kids| ==> Eq(a.kids[i], b.kids[i]) == Some(true)
    decreases |a.kids| - n
  {
    if n < |a.kids| && n < |b.kids| {
      KidsEqMeans(a, b, n + 1);
    }
  }

  /** Equality is not symmetric: a node equals the same node with an extra
      child, but not the other way round. */
  lemma EqAsymmetric(a: Ast, c: Ast)
    ensures Eq(a, AddChild(a, c)) == Some(true)
    ensures Eq(AddChild(a, c), a) == Some(false)
  {
    var b := AddChild(a, c);
    EqReflexive(a);
    EqMeans(a, a);
    EqMeans(a, b);
    assert forall i :: 0 <= i < |a.kids| ==> b.kids[i] == a.kids[i];
    assert ValueNe(b.value, a.value) == Some(false);
    KidsEqStops(b, a);
  }

  /** More children than the other side, with every shared position equal,
      gives `False`. */
  lemma KidsEqStops(a: Ast, b: Ast)
    requires |a.kids| > |b.kids|
    requires forall i :: 0 <= i < |b.kids| ==> Eq(a.kids[i], b.kids[i]) == Some(true)
    ensures KidsEq(a, b, 0) == Some(false)
  {
    var n := |b.kids|;
    assert KidsEq(a, b, n) == Some(false);
    var k := n;
    while k > 0
      invariant 0 <= k <= n
      invariant KidsEq(a, b, k) == Some(false)
    {
      k := k - 1;
    }
  }

  /** Comparing a token leaf with an epsilon leaf fails rather than
      answering. */
  lemma EqTokenAgainstEps(tok: L.Token)
    ensures Eq(Leaf(TokNode(tok), None), Leaf(EpsNode, None)) == None
    ensures Eq(Leaf(EpsNode, None), Leaf(TokNode(tok), None)) == None
  {
  }
}
