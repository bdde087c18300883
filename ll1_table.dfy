/** Construction of the LL(1) parse table, `LL1.__init__` of
    `parsepy/parser/ll1.py` (the same code is in `parser.py` and
    `parsepy/LL1.py`): one row per rule, and in the row of a production's
    owner an entry for every symbol of the production's SELECT set. A
    symbol claimed twice in one row makes the grammar ambiguous. */
module LL1Table {
  import opened Symbols
  import opened Grammar
  import opened FirstFollow
  import L = Lexer
  import A = Ast
  import PC = ParserConfig

  /** The parse table: rule, then lookahead symbol, to production. */
  type Table = map<Symbol, map<Symbol, Prod>>

  /** Why the table or the parser cannot be built. */
  datatype BuildError =
    | Config(c: PC.ConfigError)  // `Parser.__init__` refused the combination
    | SelectFailed(e: CfgError)  // computing a SELECT set failed
    | Ambiguous(rule: string)    // two productions of `rule` share a lookahead

  /** A configured parser together with its table. */
  datatype LL1 = LL1(parser: PC.Parser, table: Table)

  /** SELECT of the production at position `i`. */
  function Sel(d: Dialect, g: CFG, fuel: nat, i: nat): Sets
    requires i < |g.productions|
  {
    Select(d, g, fuel, g.productions[i])
  }

  /** The productions before position `n` have SELECT sets. */
  ghost predicate SelectsOk(d: Dialect, g: CFG, fuel: nat, n: nat)
    requires n <= |g.productions|
  {
    forall i :: 0 <= i < n ==> Sel(d, g, fuel, i).Success?
  }

  /** Productions `i < j` of the same rule share a lookahead symbol. */
  ghost predicate Clash(d: Dialect, g: CFG, fuel: nat, i: nat, j: nat)
    requires i < j < |g.productions|
  {
    && g.productions[i].rule == g.productions[j].rule
    && Sel(d, g, fuel, i).Success? && Sel(d, g, fuel, j).Success?
    && Sel(d, g, fuel, i).value * Sel(d, g, fuel, j).value != {}
  }

  /** The productions before position `n` have SELECT sets and no two of
      them clash. */
  ghost predicate Clean(d: Dialect, g: CFG, fuel: nat, n: nat)
    requires n <= |g.productions|
  {
    && SelectsOk(d, g, fuel, n)
    && forall i, j :: 0 <= i < j < n ==> !Clash(d, g, fuel, i, j)
  }

  /** Production `j` is where construction stops with error `e`: its SELECT
      set fails, or it clashes with an earlier production of its rule. */
  ghost predicate Offends(d: Dialect, g: CFG, fuel: nat, j: nat, e: BuildError)
    requires j < |g.productions|
  {
    || (Sel(d, g, fuel, j).Failure? && e == SelectFailed(Sel(d, g, fuel, j).error))
    || ((exists i :: 0 <= i < j && Clash(d, g, fuel, i, j)) && e == Ambiguous(g.productions[j].rule))
  }

  /** Every entry of the table comes from a production of that row's rule
      whose SELECT set holds the entry's symbol, among the first `n`. */
  ghost predicate Sound(d: Dialect, g: CFG, fuel: nat, n: nat, t: Table)
    requires n <= |g.productions|
  {
    forall rl, s :: rl in t && s in t[rl] ==>
      exists k :: 0 <= k < n && g.productions[k] == t[rl][s]
        && rl == NonTerm(g.productions[k].rule) && Sel(d, g, fuel, k).Success? && s in Sel(d, g, fuel, k).value
  }

  /** Every symbol of the SELECT set of each of the first `n` productions
      leads, in its owner's row, to that production. */
  ghost predicate Complete(d: Dialect, g: CFG, fuel: nat, n: nat, t: Table)
    requires n <= |g.productions|
  {
    forall k, s :: 0 <= k < n && Sel(d, g, fuel, k).Success? && s in Sel(d, g, fuel, k).value ==>
      NonTerm(g.productions[k].rule) in t && s in t[NonTerm(g.productions[k].rule)]
      && t[NonTerm(g.productions[k].rule)][s] == g.productions[k]
  }

  /** The inner loop of `LL1.__init__`: enters `p` under every symbol of
      `sel`, stopping at the first symbol the row already holds. */
  method EnterRow(row: map<Symbol, Prod>, sel: set<Symbol>, p: Prod) returns (clash: Option<Symbol>, r: map<Symbol, Prod>)
    ensures clash.Some? ==> clash.value in sel && clash.value in row
    ensures clash.None? ==> (forall s :: s in sel ==> s !in row) && r == row + map s | s in sel :: p
  {
    r := row;
    var rest := sel;
    while rest != {}
      invariant rest <= sel
      invariant forall s :: s in sel - rest ==> s !in row
      invariant r == row + map s | s in sel - rest :: p
      decreases rest
    {
      var s :| s in rest;
      if s in r {
        return Some(s), r;
      }
      r := r[s := p];
      rest := rest - {s};
    }
    assert sel - rest == sel;
    clash := None;
  }

  /** `LL1.__init__` after the configuration checks: an empty row per rule,
      then, production by production, the SELECT set's symbols entered in
      the owner's row; a symbol already present is an ambiguity. */
  method BuildTable(d: Dialect, g: CFG, fuel: nat) returns (r: Result<Table, BuildError>)
    ensures r.Success? <==> Clean(d, g, fuel, |g.productions|)
    ensures r.Success? ==> r.value.Keys == Rules(g)
    ensures r.Success? ==> Sound(d, g, fuel, |g.productions|, r.value) && Complete(d, g, fuel, |g.productions|, r.value)
    ensures r.Failure? ==> exists j :: 0 <= j < |g.productions| && Clean(d, g, fuel, j) && Offends(d, g, fuel, j, r.error)
  {
    var prods := g.productions;
    var table: Table := map rl | rl in Rules(g) :: map[];
    var i := 0;
    while i < |prods|
      invariant 0 <= i <= |prods|
      invariant Built(d, g, fuel, i, table)
    {
      var p := prods[i];
      var rl := NonTerm(p.rule);
      assert rl in Rules(g);
      var sel := Select(d, g, fuel, p);
      if sel.Failure? {
        assert Offends(d, g, fuel, i, SelectFailed(sel.error));
        return Failure(SelectFailed(sel.error));
      }
      var clash, row := EnterRow(table[rl], sel.value, p);
      if clash.Some? {
        ClashFound(d, g, fuel, i, table, clash.value);
        return Failure(Ambiguous(p.rule));
      }
      var next := table[rl := row];
      BuiltStep(d, g, fuel, i, table, next);
      table := next;
      i := i + 1;
    }
    r := Success(table);
  }

  /** The loop invariant after the first `i` productions: a row per rule,
      no clash so far, and exactly the entries those productions call for. */
  ghost predicate Built(d: Dialect, g: CFG, fuel: nat, i: nat, t: Table)
    requires i <= |g.productions|
  {
    t.Keys == Rules(g) && Clean(d, g, fuel, i) && Sound(d, g, fuel, i, t) && Complete(d, g, fuel, i, t)
  }

  /** Entering production `i` under its SELECT set, when none of those
      symbols is in the row yet, keeps the invariant. */
  lemma BuiltStep(d: Dialect, g: CFG, fuel: nat, i: nat, t: Table, next: Table)
    requires i < |g.productions| && Built(d, g, fuel, i, t) && Sel(d, g, fuel, i).Success?
    requires NonTerm(g.productions[i].rule) in t
    requires forall s :: s in Sel(d, g, fuel, i).value ==> s !in t[NonTerm(g.productions[i].rule)]
    requires next == t[NonTerm(g.productions[i].rule) :=
               t[NonTerm(g.productions[i].rule)] + map s | s in Sel(d, g, fuel, i).value :: g.productions[i]]
    ensures Built(d, g, fuel, i + 1, next)
  {
    NoClashHere(d, g, fuel, i, t);
    SoundStep(d, g, fuel, i, t, next);
    CompleteStep(d, g, fuel, i, t, next);
  }

  /** A symbol of production `i`'s SELECT set already in the owner's row
      belongs to an earlier production of that rule: a clash. */
  lemma ClashFound(d: Dialect, g: CFG, fuel: nat, i: nat, t: Table, s: Symbol)
    requires i < |g.productions| && Clean(d, g, fuel, i) && Sound(d, g, fuel, i, t)
    requires Sel(d, g, fuel, i).Success? && s in Sel(d, g, fuel, i).value
    requires NonTerm(g.productions[i].rule) in t && s in t[NonTerm(g.productions[i].rule)]
    ensures Offends(d, g, fuel, i, Ambiguous(g.productions[i].rule))
  {
    var rl := NonTerm(g.productions[i].rule);
    var k :| 0 <= k < i && g.productions[k] == t[rl][s] && rl == NonTerm(g.productions[k].rule)
             && Sel(d, g, fuel, k).Success? && s in Sel(d, g, fuel, k).value;
    assert s in Sel(d, g, fuel, k).value * Sel(d, g, fuel, i).value;
    assert Clash(d, g, fuel, k, i);
  }

  /** When no symbol of production `i`'s SELECT set is in the owner's row,
      it clashes with no earlier production. */
  lemma NoClashHere(d: Dialect, g: CFG, fuel: nat, i: nat, t: Table)
    requires i < |g.productions| && Clean(d, g, fuel, i) && Complete(d, g, fuel, i, t)
    requires Sel(d, g, fuel, i).Success?
    requires NonTerm(g.productions[i].rule) in t
    requires forall s :: s in Sel(d, g, fuel, i).value ==> s !in t[NonTerm(g.productions[i].rule)]
    ensures Clean(d, g, fuel, i + 1)
  {
    var rl := NonTerm(g.productions[i].rule);
    forall a | 0 <= a < i && g.productions[a].rule == g.productions[i].rule
      ensures Sel(d, g, fuel, a).value * Sel(d, g, fuel, i).value == {}
    {
      forall s | s in Sel(d, g, fuel, a).value ensures s !in Sel(d, g, fuel, i).value {
        assert s in t[rl];
      }
    }
  }

  /** Entering the row of production `i` keeps every entry justified. */
  lemma SoundStep(d: Dialect, g: CFG, fuel: nat, i: nat, t: Table, next: Table)
    requires i < |g.productions| && Sel(d, g, fuel, i).Success?
    requires Sound(d, g, fuel, i, t)
    requires NonTerm(g.productions[i].rule) in t
    requires next == t[NonTerm(g.productions[i].rule) :=
               t[NonTerm(g.productions[i].rule)] + map s | s in Sel(d, g, fuel, i).value :: g.productions[i]]
    ensures Sound(d, g, fuel, i + 1, next)
  {
    var rl := NonTerm(g.productions[i].rule);
    var sel := Sel(d, g, fuel, i).value;
    forall x, s | x in next && s in next[x]
      ensures exists k :: (0 <= k < i + 1 && g.productions[k] == next[x][s]
        && x == NonTerm(g.productions[k].rule) && Sel(d, g, fuel, k).Success? && s in Sel(d, g, fuel, k).value)
    {
      if x == rl && s in sel {
        assert next[x][s] == g.productions[i];
      } else {
        assert next[x][s] == t[x][s];
      }
    }
  }

  /** Entering the row of production `i` keeps the earlier productions'
      entries and adds those of production `i`. */
  lemma CompleteStep(d: Dialect, g: CFG, fuel: nat, i: nat, t: Table, next: Table)
    requires i < |g.productions| && Sel(d, g, fuel, i).Success?
    requires Complete(d, g, fuel, i, t)
    requires NonTerm(g.productions[i].rule) in t
    requires forall s :: s in Sel(d, g, fuel, i).value ==> s !in t[NonTerm(g.productions[i].rule)]
    requires next == t[NonTerm(g.productions[i].rule) :=
               t[NonTerm(g.productions[i].rule)] + map s | s in Sel(d, g, fuel, i).value :: g.productions[i]]
    ensures Complete(d, g, fuel, i + 1, next)
  {
  }

  /** `LL1.__init__`: the configuration checks of `Parser.__init__`, then
      the table. */
  method NewLL1(d: Dialect, lx: L.Lexer, g: CFG, actions: map<int, A.EvalFn>, fuel: nat) returns (r: Result<LL1, BuildError>)
    ensures PC.Configure(lx, g, actions).Failure? ==> r == Failure(Config(PC.Configure(lx, g, actions).error))
    ensures PC.Configure(lx, g, actions).Success? ==>
      (r.Success? <==> Clean(d, g, fuel, |g.productions|))
    ensures r.Success? ==>
      && r.value.parser == PC.Parser(lx, g, actions)
      && r.value.table.Keys == Rules(g)
      && Sound(d, g, fuel, |g.productions|, r.value.table) && Complete(d, g, fuel, |g.productions|, r.value.table)
  {
    var p := PC.Configure(lx, g, actions);
    if p.Failure? {
      return Failure(Config(p.error));
    }
    var t := BuildTable(d, g, fuel);
    if t.Failure? {
      return Failure(t.error);
    }
    r := Success(LL1(p.value, t.value));
  }

  // ----- properties of a successfully built table -----

  /** In a clean grammar each row maps a symbol to at most one production:
      the entry is the unique production of that rule whose SELECT set
      holds the symbol. */
  lemma EntryUnique(d: Dialect, g: CFG, fuel: nat, t: Table, k: nat, s: Symbol)
    requires Clean(d, g, fuel, |g.productions|)
    requires Sound(d, g, fuel, |g.productions|, t) && Complete(d, g, fuel, |g.productions|, t)
    requires k < |g.productions| && s in Sel(d, g, fuel, k).value
    ensures t[NonTerm(g.productions[k].rule)][s] == g.productions[k]
    ensures forall j :: 0 <= j < |g.productions| && j != k && g.productions[j].rule == g.productions[k].rule
              ==> s !in Sel(d, g, fuel, j).value
  {
    forall j | 0 <= j < |g.productions| && j != k && g.productions[j].rule == g.productions[k].rule
      ensures s !in Sel(d, g, fuel, j).value
    {
      if s in Sel(d, g, fuel, j).value {
        assert s in Sel(d, g, fuel, j).value * Sel(d, g, fuel, k).value;
        if j < k {
          assert Clash(d, g, fuel, j, k);
        } else {
          assert Clash(d, g, fuel, k, j);
        }
      }
    }
  }

  /** The grammar determines the table: two tables with the same rows that
      are both sound and complete for it are equal. */
  lemma TableDetermined(d: Dialect, g: CFG, fuel: nat, t1: Table, t2: Table)
    requires t1.Keys == t2.Keys
    requires Sound(d, g, fuel, |g.productions|, t1) && Complete(d, g, fuel, |g.productions|, t1)
    requires Sound(d, g, fuel, |g.productions|, t2) && Complete(d, g, fuel, |g.productions|, t2)
    ensures t1 == t2
  {
    var n := |g.productions|;
    forall rl | rl in t1 ensures t1[rl] == t2[rl] {
      forall s | s in t1[rl] ensures s in t2[rl] && t2[rl][s] == t1[rl][s] {
        var k :| 0 <= k < n && g.productions[k] == t1[rl][s]
                 && rl == NonTerm(g.productions[k].rule) && Sel(d, g, fuel, k).Success? && s in Sel(d, g, fuel, k).value;
      }
      forall s | s in t2[rl] ensures s in t1[rl] {
        var k :| 0 <= k < n && g.productions[k] == t2[rl][s]
                 && rl == NonTerm(g.productions[k].rule) && Sel(d, g, fuel, k).Success? && s in Sel(d, g, fuel, k).value;
      }
      assert t1[rl].Keys == t2[rl].Keys;
    }
  }

  /** No table entry is keyed by `Eps`: SELECT sets never hold it. */
  lemma NoEpsilonEntries(d: Dialect, g: CFG, fuel: nat, t: Table)
    requires Sound(d, g, fuel, |g.productions|, t)
    ensures forall rl :: rl in t ==> Eps !in t[rl]
  {
    forall rl | rl in t && Eps in t[rl] ensures false {
      var k :| 0 <= k < |g.productions| && g.productions[k] == t[rl][Eps]
               && rl == NonTerm(g.productions[k].rule) && Sel(d, g, fuel, k).Success? && Eps in Sel(d, g, fuel, k).value;
      SelectShape(d, g, fuel, g.productions[k]);
    }
  }
}
