/** FIRST, FOLLOW and SELECT sets of `parsepy/parser/cfg.py` (and of the
    older `parser.py`, through `Dialect`). The source recurses without cycle
    protection, so each function carries a `fuel` bound standing for the
    interpreter's recursion limit; running out is `RecursionLimit`. */
module FirstFollow {
  import opened Symbols
  import opened Grammar

  type Sets = Result<set<Symbol>, CfgError>

  // ----- FIRST -----

  /** `first(NonTerm(name))`: the union over `name`'s productions, in order. */
  function FirstRule(d: Dialect, g: CFG, fuel: nat, name: string): Sets
    decreases fuel, 0, 0
  {
    if fuel == 0 then Failure(RecursionLimit)
    else if !IsRule(g, name) then Failure(NotARule(name))
    else FirstProds(d, g, fuel - 1, name, 0)
  }

  /** The contributions of productions `i ..` owned by `name`: `{Eps}` for
      an epsilon production, otherwise `FirstItems` of the body. */
  function FirstProds(d: Dialect, g: CFG, fuel: nat, name: string, i: nat): Sets
    requires i <= |g.productions|
    decreases fuel, 4, |g.productions| - i
  {
    if i == |g.productions| then Success({})
    else
      var p := g.productions[i];
      if p.rule != name then FirstProds(d, g, fuel, name, i + 1)
      else if !p.Truthy() then
        match FirstProds(d, g, fuel, name, i + 1)
        case Failure(e) => Failure(e)
        case Success(rest) => Success({Eps} + rest)
      else
        match FirstItems(d, g, fuel, p.body)
        case Failure(e) => Failure(e)
        case Success(f) =>
          match FirstProds(d, g, fuel, name, i + 1)
          case Failure(e) => Failure(e)
          case Success(rest) => Success(f + rest)
  }

  /** The per-production loop of `first` on a non-terminal: FIRST of each
      item is added, `Eps` included, up to the first item whose FIRST lacks
      `Eps`; `Eps` is added when no such item exists. */
  function FirstItems(d: Dialect, g: CFG, fuel: nat, xs: seq<Symbol>): Sets
    decreases fuel, 2, |xs|
  {
    if xs == [] then Success({Eps})
    else
      match FirstSym(d, g, fuel, xs[0])
      case Failure(e) => Failure(e)
      case Success(f) =>
        if Eps in f then
          match FirstItems(d, g, fuel, xs[1..])
          case Failure(e) => Failure(e)
          case Success(rest) => Success(f + rest)
        else Success(f)
  }

  /** `first` of a single symbol. A string naming a rule is that rule in the
      package; in the older `parser.py` a string is always its own FIRST. */
  function FirstSym(d: Dialect, g: CFG, fuel: nat, x: Symbol): Sets
    decreases fuel, 1, 0
  {
    match x
    case Eps => Success({Eps})
    case Terminal(n) => if d == Package && IsRule(g, n) then FirstRule(d, g, fuel, n) else Success({x})
    case NonTerm(n) => FirstRule(d, g, fuel, n)
  }

  /** `first` of a list: the FIRST sets minus `Eps` up to and including the
      first non-nullable element, plus `Eps` when every element is nullable. */
  function FirstSeq(d: Dialect, g: CFG, fuel: nat, xs: seq<Symbol>): Sets
    decreases fuel, 2, |xs|
  {
    if xs == [] then Success({Eps})
    else
      match FirstSym(d, g, fuel, xs[0])
      case Failure(e) => Failure(e)
      case Success(f) =>
        if Eps in f then
          match FirstSeq(d, g, fuel, xs[1..])
          case Failure(e) => Failure(e)
          case Success(rest) => Success((f - {Eps}) + rest)
        else Success(f)
  }

  // ----- FOLLOW and SELECT -----

  /** `follow(NonTerm(name))`: `EOI` for the start rule, plus what each
      occurrence of `name` in a body contributes. */
  function FollowRule(d: Dialect, g: CFG, fuel: nat, name: string): Sets
    decreases fuel, 0, 0
  {
    if fuel == 0 then Failure(RecursionLimit)
    else if !IsRule(g, name) then Failure(NotARule(name))
    else
      match FollowProds(d, g, fuel - 1, name, 0)
      case Failure(e) => Failure(e)
      case Success(rest) => Success((if g.start == name then {EndOfInput} else {}) + rest)
  }

  /** The contributions of productions `i ..`. */
  function FollowProds(d: Dialect, g: CFG, fuel: nat, name: string, i: nat): Sets
    requires i <= |g.productions|
    decreases fuel, 2, |g.productions| - i
  {
    if i == |g.productions| then Success({})
    else
      match FollowAt(d, g, fuel, name, i, 0)
      case Failure(e) => Failure(e)
      case Success(f) =>
        match FollowProds(d, g, fuel, name, i + 1)
        case Failure(e) => Failure(e)
        case Success(rest) => Success(f + rest)
  }

  /** The contributions of positions `k .. len(prod)` of production `i`: at
      an occurrence of `name` that ends the body, FOLLOW of the owner (unless
      the owner is `name`); elsewhere FIRST of the rest of the body minus
      `Eps`, and FOLLOW of the owner when that FIRST holds `Eps` (same
      exception). An epsilon production has length 0 and contributes
      nothing. */
  function FollowAt(d: Dialect, g: CFG, fuel: nat, name: string, i: nat, k: nat): Sets
    requires i < |g.productions|
    decreases fuel, 1, g.productions[i].Len() - k
  {
    var p := g.productions[i];
    if k >= p.Len() then Success({})
    else
      var here: Sets :=
        if p.body[k] != NonTerm(name) then Success({})
        else if k + 1 == p.Len() then
          if name != p.rule then FollowRule(d, g, fuel, p.rule) else Success({})
        else
          match FirstSeq(d, g, fuel, p.body[k + 1..])
          case Failure(e) => Failure(e)
          case Success(f) =>
            if Eps in f && name != p.rule then
              match FollowRule(d, g, fuel, p.rule)
              case Failure(e) => Failure(e)
              case Success(fo) => Success(fo + (f - {Eps}))
            else Success(f - {Eps});
      match here
      case Failure(e) => Failure(e)
      case Success(h) =>
        match FollowAt(d, g, fuel, name, i, k + 1)
        case Failure(e) => Failure(e)
        case Success(rest) => Success(h + rest)
  }

  /** `follow` on what a caller passes: the package accepts a string naming
      a rule; anything else that is not a non-terminal is refused, as is
      every string in the older `parser.py`. */
  function Follow(d: Dialect, g: CFG, fuel: nat, x: Symbol): Sets {
    match x
    case NonTerm(n) => FollowRule(d, g, fuel, n)
    case Terminal(n) => if d == Package && IsRule(g, n) then FollowRule(d, g, fuel, n) else Failure(UnsupportedType)
    case Eps => Failure(UnsupportedType)
  }

  /** `select(prod)`: FIRST of the body, with `Eps` replaced by FOLLOW of
      the owner. */
  function Select(d: Dialect, g: CFG, fuel: nat, p: Prod): Sets {
    match FirstSeq(d, g, fuel, p.body)
    case Failure(e) => Failure(e)
    case Success(f) =>
      if Eps in f then
        match FollowRule(d, g, fuel, p.rule)
        case Failure(e) => Failure(e)
        case Success(fo) => Success((f - {Eps}) + fo)
      else Success(f)
  }

  // ----- properties -----

  /** FIRST of `x` succeeds and holds `Eps`. */
  ghost predicate Nullable(d: Dialect, g: CFG, fuel: nat, x: Symbol) {
    FirstSym(d, g, fuel, x).Success? && Eps in FirstSym(d, g, fuel, x).value
  }

  /** In the package, FIRST of a terminal string is itself unless the string
      names a rule, in which case it is that rule's FIRST; FIRST of `Eps` is
      `{Eps}`, FIRST of `[]` is `{Eps}`. */
  lemma FirstOfAtoms(g: CFG, fuel: nat, n: string)
    ensures !IsRule(g, n) ==> FirstSym(Package, g, fuel, Terminal(n)) == Success({Terminal(n)})
    ensures IsRule(g, n) ==> FirstSym(Package, g, fuel, Terminal(n)) == FirstRule(Package, g, fuel, n)
    ensures FirstSym(Package, g, fuel, Eps) == Success({Eps})
    ensures FirstSeq(Package, g, fuel, []) == Success({Eps})
  {
  }

  /** In the older `parser.py` a string is always its own FIRST, even when it
      names a rule: the name is looked up in a set of non-terminals. */
  lemma LegacyFirstString(g: CFG, fuel: nat, n: string)
    ensures FirstSym(Legacy, g, fuel, Terminal(n)) == Success({Terminal(n)})
  {
  }

  /** The older `follow` refuses every string. */
  lemma LegacyFollowString(g: CFG, fuel: nat, n: string)
    ensures Follow(Legacy, g, fuel, Terminal(n)) == Failure(UnsupportedType)
  {
  }

  /** The package's `follow` takes a string naming a rule as that rule and
      refuses other strings and `Eps`. */
  lemma FollowOfAtoms(g: CFG, fuel: nat, n: string)
    ensures IsRule(g, n) ==> Follow(Package, g, fuel, Terminal(n)) == FollowRule(Package, g, fuel, n)
    ensures !IsRule(g, n) ==> Follow(Package, g, fuel, Terminal(n)) == Failure(UnsupportedType)
    ensures Follow(Package, g, fuel, Eps) == Failure(UnsupportedType)
    ensures Follow(Package, g, fuel, NonTerm(n)) == FollowRule(Package, g, fuel, n)
  {
  }

  /** FIRST of a list holds `Eps` exactly when every element is nullable. */
  lemma {:induction false} FirstSeqNullable(d: Dialect, g: CFG, fuel: nat, xs: seq<Symbol>)
    requires FirstSeq(d, g, fuel, xs).Success?
    ensures Eps in FirstSeq(d, g, fuel, xs).value <==> forall i :: 0 <= i < |xs| ==> Nullable(d, g, fuel, xs[i])
    decreases |xs|
  {
    if xs != [] {
      var f := FirstSym(d, g, fuel, xs[0]).value;
      if Eps in f {
        FirstSeqNullable(d, g, fuel, xs[1..]);
        assert forall i :: 1 <= i < |xs| ==> xs[i] == xs[1..][i - 1];
      }
    }
  }

  /** Apart from `Eps`, FIRST of a list is the union of the FIRST sets of its
      elements up to and including the first non-nullable one. */
  lemma {:induction false} FirstSeqMembers(d: Dialect, g: CFG, fuel: nat, xs: seq<Symbol>, x: Symbol)
    requires FirstSeq(d, g, fuel, xs).Success? && x != Eps
    ensures x in FirstSeq(d, g, fuel, xs).value <==>
      exists i :: 0 <= i < |xs| && (forall j :: 0 <= j < i ==> Nullable(d, g, fuel, xs[j]))
                 && FirstSym(d, g, fuel, xs[i]).Success? && x in FirstSym(d, g, fuel, xs[i]).value
    decreases |xs|
  {
    if xs != [] {
      var f := FirstSym(d, g, fuel, xs[0]).value;
      if Eps in f {
        FirstSeqMembers(d, g, fuel, xs[1..], x);
        if x in FirstSeq(d, g, fuel, xs).value && x !in f {
          var i :| 0 <= i < |xs[1..]| && (forall j :: 0 <= j < i ==> Nullable(d, g, fuel, xs[1..][j]))
                   && FirstSym(d, g, fuel, xs[1..][i]).Success? && x in FirstSym(d, g, fuel, xs[1..][i]).value;
          assert forall j :: 1 <= j < i + 1 ==> xs[j] == xs[1..][j - 1];
          assert xs[i + 1] == xs[1..][i];
        }
        if exists i :: 0 <= i < |xs| && (forall j :: 0 <= j < i ==> Nullable(d, g, fuel, xs[j]))
                       && FirstSym(d, g, fuel, xs[i]).Success? && x in FirstSym(d, g, fuel, xs[i]).value {
          var i :| 0 <= i < |xs| && (forall j :: 0 <= j < i ==> Nullable(d, g, fuel, xs[j]))
                   && FirstSym(d, g, fuel, xs[i]).Success? && x in FirstSym(d, g, fuel, xs[i]).value;
          if i > 0 {
            assert xs[1..][i - 1] == xs[i];
            assert forall j :: 0 <= j < i - 1 ==> xs[1..][j] == xs[j + 1];
          }
        }
      } else {
        if exists i :: 0 <= i < |xs| && (forall j :: 0 <= j < i ==> Nullable(d, g, fuel, xs[j]))
                       && FirstSym(d, g, fuel, xs[i]).Success? && x in FirstSym(d, g, fuel, xs[i]).value {
          var i :| 0 <= i < |xs| && (forall j :: 0 <= j < i ==> Nullable(d, g, fuel, xs[j]))
                   && FirstSym(d, g, fuel, xs[i]).Success? && x in FirstSym(d, g, fuel, xs[i]).value;
          assert i == 0 || !Nullable(d, g, fuel, xs[0]);
        }
      }
    }
  }

  /** The per-production loop of FIRST on a non-terminal and FIRST of the
      same list agree except for `Eps`: they succeed together and have the
      same non-`Eps` members, but the loop's result holds `Eps` as soon as
      the first item is nullable, whatever follows. */
  lemma {:induction false} FirstItemsLeak(d: Dialect, g: CFG, fuel: nat, xs: seq<Symbol>)
    ensures FirstItems(d, g, fuel, xs).Success? <==> FirstSeq(d, g, fuel, xs).Success?
    ensures FirstItems(d, g, fuel, xs).Success? ==>
      && FirstItems(d, g, fuel, xs).value - {Eps} == FirstSeq(d, g, fuel, xs).value - {Eps}
      && (Eps in FirstItems(d, g, fuel, xs).value <==> xs == [] || Nullable(d, g, fuel, xs[0]))
    decreases |xs|
  {
    if xs != [] {
      FirstItemsLeak(d, g, fuel, xs[1..]);
      var f := FirstSym(d, g, fuel, xs[0]);
      if f.Success? && Eps in f.value {
        var ri := FirstItems(d, g, fuel, xs[1..]);
        var rs := FirstSeq(d, g, fuel, xs[1..]);
        if ri.Success? {
          assert (f.value + ri.value) - {Eps} == (f.value - {Eps}) + (ri.value - {Eps});
          assert ((f.value - {Eps}) + rs.value) - {Eps} == (f.value - {Eps}) + (rs.value - {Eps});
        }
      }
    }
  }

  /** FIRST of a rule holds `Eps` exactly when one of its productions is an
      epsilon production, has an empty body, or starts with a nullable
      item. */
  lemma {:induction false} FirstProdsEps(d: Dialect, g: CFG, fuel: nat, name: string, i: nat)
    requires i <= |g.productions| && FirstProds(d, g, fuel, name, i).Success?
    ensures Eps in FirstProds(d, g, fuel, name, i).value <==>
      exists j :: i <= j < |g.productions| && g.productions[j].rule == name &&
        (!g.productions[j].Truthy() || g.productions[j].body == [] || Nullable(d, g, fuel, g.productions[j].body[0]))
    decreases |g.productions| - i
  {
    if i < |g.productions| {
      var p := g.productions[i];
      FirstProdsEps(d, g, fuel, name, i + 1);
      if p.rule == name && p.Truthy() {
        FirstItemsLeak(d, g, fuel, p.body);
      }
    }
  }

  /** FOLLOW never holds `Eps`. */
  lemma {:induction false} FollowRuleNoEps(d: Dialect, g: CFG, fuel: nat, name: string)
    requires FollowRule(d, g, fuel, name).Success?
    ensures Eps !in FollowRule(d, g, fuel, name).value
    decreases fuel, 0, 0
  {
    FollowProdsNoEps(d, g, fuel - 1, name, 0);
  }

  lemma {:induction false} FollowProdsNoEps(d: Dialect, g: CFG, fuel: nat, name: string, i: nat)
    requires i <= |g.productions| && FollowProds(d, g, fuel, name, i).Success?
    ensures Eps !in FollowProds(d, g, fuel, name, i).value
    decreases fuel, 2, |g.productions| - i
  {
    if i < |g.productions| {
      FollowAtNoEps(d, g, fuel, name, i, 0);
      FollowProdsNoEps(d, g, fuel, name, i + 1);
    }
  }

  lemma {:induction false} FollowAtNoEps(d: Dialect, g: CFG, fuel: nat, name: string, i: nat, k: nat)
    requires i < |g.productions| && FollowAt(d, g, fuel, name, i, k).Success?
    ensures Eps !in FollowAt(d, g, fuel, name, i, k).value
    decreases fuel, 1, g.productions[i].Len() - k
  {
    var p := g.productions[i];
    if k < p.Len() {
      FollowAtNoEps(d, g, fuel, name, i, k + 1);
      if p.body[k] == NonTerm(name) && name != p.rule {
        if k + 1 == p.Len() {
          FollowRuleNoEps(d, g, fuel, p.rule);
        } else {
          var f := FirstSeq(d, g, fuel, p.body[k + 1..]);
          if f.Success? && Eps in f.value {
            FollowRuleNoEps(d, g, fuel, p.rule);
          }
        }
      }
    }
  }

  /** FOLLOW of the start rule holds `EOI`. */
  lemma FollowStart(d: Dialect, g: CFG, fuel: nat)
    requires FollowRule(d, g, fuel, g.start).Success?
    ensures EndOfInput in FollowRule(d, g, fuel, g.start).value
  {
  }

  /** SELECT is FIRST of the body when that lacks `Eps`, and otherwise FIRST
      minus `Eps` joined with FOLLOW of the owner; it never holds `Eps`. */
  lemma SelectShape(d: Dialect, g: CFG, fuel: nat, p: Prod)
    requires Select(d, g, fuel, p).Success?
    ensures FirstSeq(d, g, fuel, p.body).Success?
    ensures var f := FirstSeq(d, g, fuel, p.body).value;
      Eps in f ==> (FollowRule(d, g, fuel, p.rule).Success?
        && Select(d, g, fuel, p).value == (f - {Eps}) + FollowRule(d, g, fuel, p.rule).value)
    ensures Eps !in FirstSeq(d, g, fuel, p.body).value ==> Select(d, g, fuel, p).value == FirstSeq(d, g, fuel, p.body).value
    ensures Eps !in Select(d, g, fuel, p).value
  {
    if Eps in FirstSeq(d, g, fuel, p.body).value {
      FollowRuleNoEps(d, g, fuel, p.rule);
    }
  }

  /** SELECT of an epsilon production is FOLLOW of its owner. */
  lemma SelectEpsilon(d: Dialect, g: CFG, fuel: nat, p: Prod)
    requires !p.Truthy() && p.body == [Eps]
    ensures Select(d, g, fuel, p) == FollowRule(d, g, fuel, p.rule)
  {
    assert p.body[1..] == [];
    assert FirstSym(d, g, fuel, p.body[0]) == Success({Eps});
    assert FirstSeq(d, g, fuel, p.body[1..]) == Success({Eps});
    assert ({Eps} - {Eps}) + {Eps} == {Eps};
    assert FirstSeq(d, g, fuel, p.body) == Success({Eps});
    match FollowRule(d, g, fuel, p.rule)
    case Failure(_) =>
    case Success(fo) => assert ({Eps} - {Eps}) + fo == fo;
  }

  // ----- the recursion bound -----

  /** More recursion depth changes nothing once the computation finished
      within the bound: any outcome other than running out of depth is the
      same for every larger bound. */
  lemma {:induction false} FirstRuleFuel(d: Dialect, g: CFG, fuel: nat, more: nat, name: string)
    requires fuel <= more && FirstRule(d, g, fuel, name) != Failure(RecursionLimit)
    ensures FirstRule(d, g, more, name) == FirstRule(d, g, fuel, name)
    decreases fuel, 0, 0
  {
    if IsRule(g, name) {
      FirstProdsFuel(d, g, fuel - 1, more - 1, name, 0);
    }
  }

  lemma {:induction false} FirstProdsFuel(d: Dialect, g: CFG, fuel: nat, more: nat, name: string, i: nat)
    requires i <= |g.productions|
    requires fuel <= more && FirstProds(d, g, fuel, name, i) != Failure(RecursionLimit)
    ensures FirstProds(d, g, more, name, i) == FirstProds(d, g, fuel, name, i)
    decreases fuel, 4, |g.productions| - i
  {
    if i < |g.productions| {
      var p := g.productions[i];
      if p.rule != name || !p.Truthy() {
        FirstProdsFuel(d, g, fuel, more, name, i + 1);
      } else {
        FirstItemsFuel(d, g, fuel, more, p.body);
        if FirstItems(d, g, fuel, p.body).Success? {
          FirstProdsFuel(d, g, fuel, more, name, i + 1);
        }
      }
    }
  }

  lemma {:induction false} FirstItemsFuel(d: Dialect, g: CFG, fuel: nat, more: nat, xs: seq<Symbol>)
    requires fuel <= more && FirstItems(d, g, fuel, xs) != Failure(RecursionLimit)
    ensures FirstItems(d, g, more, xs) == FirstItems(d, g, fuel, xs)
    decreases fuel, 2, |xs|
  {
    if xs != [] {
      FirstSymFuel(d, g, fuel, more, xs[0]);
      var f := FirstSym(d, g, fuel, xs[0]);
      if f.Success? && Eps in f.value {
        FirstItemsFuel(d, g, fuel, more, xs[1..]);
      }
    }
  }

  lemma {:induction false} FirstSeqFuel(d: Dialect, g: CFG, fuel: nat, more: nat, xs: seq<Symbol>)
    requires fuel <= more && FirstSeq(d, g, fuel, xs) != Failure(RecursionLimit)
    ensures FirstSeq(d, g, more, xs) == FirstSeq(d, g, fuel, xs)
    decreases fuel, 2, |xs|
  {
    if xs != [] {
      FirstSymFuel(d, g, fuel, more, xs[0]);
      var f := FirstSym(d, g, fuel, xs[0]);
      if f.Success? && Eps in f.value {
        FirstSeqFuel(d, g, fuel, more, xs[1..]);
      }
    }
  }

  lemma {:induction false} FirstSymFuel(d: Dialect, g: CFG, fuel: nat, more: nat, x: Symbol)
    requires fuel <= more && FirstSym(d, g, fuel, x) != Failure(RecursionLimit)
    ensures FirstSym(d, g, more, x) == FirstSym(d, g, fuel, x)
    decreases fuel, 1, 0
  {
    match x
    case Eps =>
    case Terminal(n) =>
      if d == Package && IsRule(g, n) {
        FirstRuleFuel(d, g, fuel, more, n);
      }
    case NonTerm(n) => FirstRuleFuel(d, g, fuel, more, n);
  }

  lemma {:induction false} FollowRuleFuel(d: Dialect, g: CFG, fuel: nat, more: nat, name: string)
    requires fuel <= more && FollowRule(d, g, fuel, name) != Failure(RecursionLimit)
    ensures FollowRule(d, g, more, name) == FollowRule(d, g, fuel, name)
    decreases fuel, 0, 0
  {
    if IsRule(g, name) {
      FollowProdsFuel(d, g, fuel - 1, more - 1, name, 0);
    }
  }

  lemma {:induction false} FollowProdsFuel(d: Dialect, g: CFG, fuel: nat, more: nat, name: string, i: nat)
    requires i <= |g.productions|
    requires fuel <= more && FollowProds(d, g, fuel, name, i) != Failure(RecursionLimit)
    ensures FollowProds(d, g, more, name, i) == FollowProds(d, g, fuel, name, i)
    decreases fuel, 2, |g.productions| - i
  {
    if i < |g.productions| {
      FollowAtFuel(d, g, fuel, more, name, i, 0);
      if FollowAt(d, g, fuel, name, i, 0).Success? {
        FollowProdsFuel(d, g, fuel, more, name, i + 1);
      }
    }
  }

  lemma {:induction false} FollowAtFuel(d: Dialect, g: CFG, fuel: nat, more: nat, name: string, i: nat, k: nat)
    requires i < |g.productions|
    requires fuel <= more && FollowAt(d, g, fuel, name, i, k) != Failure(RecursionLimit)
    ensures FollowAt(d, g, more, name, i, k) == FollowAt(d, g, fuel, name, i, k)
    decreases fuel, 1, g.productions[i].Len() - k
  {
    var p := g.productions[i];
    if k < p.Len() {
      var ok := true;
      if p.body[k] == NonTerm(name) {
        if k + 1 == p.Len() {
          if name != p.rule {
            FollowRuleFuel(d, g, fuel, more, p.rule);
            ok := FollowRule(d, g, fuel, p.rule).Success?;
          }
        } else {
          var f := FirstSeq(d, g, fuel, p.body[k + 1..]);
          FirstSeqFuel(d, g, fuel, more, p.body[k + 1..]);
          ok := f.Success?;
          if f.Success? && Eps in f.value && name != p.rule {
            FollowRuleFuel(d, g, fuel, more, p.rule);
            ok := FollowRule(d, g, fuel, p.rule).Success?;
          }
        }
      }
      if ok {
        FollowAtFuel(d, g, fuel, more, name, i, k + 1);
      }
    }
  }

  // ----- the epsilon leak -----

  /** `S -> A d`, `A -> B c`, `B -> ε`. */
  function LeakGrammar(): CFG {
    CFG([Prod("S", [NonTerm("A"), Terminal("d")], 0),
         Prod("A", [NonTerm("B"), Terminal("c")], 1),
         Prod("B", [Eps], 2)], "S")
  }

  /** FIRST of `B` is `{Eps}`. */
  lemma LeakFirstB()
    ensures FirstRule(Package, LeakGrammar(), 2, "B") == Success({Eps})
  {
    var g := LeakGrammar();
    assert !g.productions[2].Truthy();
    assert FirstProds(Package, g, 1, "B", 3).Success? && FirstProds(Package, g, 1, "B", 3).value == {};
    assert FirstProds(Package, g, 1, "B", 2).Success? && FirstProds(Package, g, 1, "B", 2).value == {Eps};
    assert FirstProds(Package, g, 1, "B", 0).Success? && FirstProds(Package, g, 1, "B", 0).value == {Eps};
    assert NonTerm("B") == NonTerm(g.productions[2].rule);
  }

  /** FIRST of `A` computed by the rule loop is `{Eps, c}`. */
  lemma LeakFirstA()
    ensures FirstRule(Package, LeakGrammar(), 3, "A") == Success({Eps, Terminal("c")})
  {
    var g := LeakGrammar();
    LeakFirstB();
    assert !IsRule(g, "c");
    assert FirstItems(Package, g, 2, [Terminal("c")]).Success? && FirstItems(Package, g, 2, [Terminal("c")]).value == {Terminal("c")};
    assert [NonTerm("B"), Terminal("c")][1..] == [Terminal("c")];
    var fa := FirstItems(Package, g, 2, [NonTerm("B"), Terminal("c")]);
    assert fa.Success? && fa.value == {Eps, Terminal("c")};
    assert FirstProds(Package, g, 2, "A", 2).Success? && FirstProds(Package, g, 2, "A", 2).value == {};
    assert FirstProds(Package, g, 2, "A", 0).Success? && FirstProds(Package, g, 2, "A", 0).value == {Eps, Terminal("c")};
    assert NonTerm("A") == NonTerm(g.productions[1].rule);
  }

  /** FIRST of `A` holds `Eps` although `A` derives only `c`: the nullable
      `B` leaks its `Eps` into the rule's set, while FIRST of the body
      `B c` is `{c}`. As a consequence `d` lands in SELECT of `S -> A d`,
      which a correct FIRST would not give. */
  lemma EpsilonLeak()
    ensures FirstRule(Package, LeakGrammar(), 3, "A") == Success({Eps, Terminal("c")})
    ensures FirstSeq(Package, LeakGrammar(), 3, [NonTerm("B"), Terminal("c")]) == Success({Terminal("c")})
    ensures Select(Package, LeakGrammar(), 3, LeakGrammar().productions[0]).Success?
    ensures Terminal("d") in Select(Package, LeakGrammar(), 3, LeakGrammar().productions[0]).value
  {
    var g := LeakGrammar();
    LeakFirstA();
    LeakFirstB();
    FirstRuleFuel(Package, g, 2, 3, "B");
    assert IsRule(g, "B") by {
      assert NonTerm("B") == NonTerm(g.productions[2].rule);
    }
    assert !IsRule(g, "c") && !IsRule(g, "d");
    assert [NonTerm("B"), Terminal("c")][1..] == [Terminal("c")];
    var fb := FirstSeq(Package, g, 3, [NonTerm("B"), Terminal("c")]);
    assert fb.Success? && fb.value == {Terminal("c")};
    assert [NonTerm("A"), Terminal("d")][1..] == [Terminal("d")];
    var f := FirstSeq(Package, g, 3, [NonTerm("A"), Terminal("d")]);
    assert f.Success? && Terminal("d") in f.value;
  }

}
