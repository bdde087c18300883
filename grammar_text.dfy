/** `CFG.parse` of `parsepy/parser/cfg.py` (identical in `parser.py`):
    grammar text, one rule per line in the form `A -> x y | z | ε`, read
    into a grammar. */
module GrammarText {
  import opened Symbols
  import opened Grammar
  import opened Text

  const ARROW: string := "->"
  const BAR: string := "|"

  /** The body of one alternative: `[Eps]` when it has no words or one of
      its words is `ε`, otherwise its words as strings. */
  function AltBody(alt: string): (b: seq<Symbol>)
    ensures |b| >= 1 && forall k :: 0 <= k < |b| ==> !b[k].NonTerm?
  {
    var ws := Words(alt);
    if ws == [] || EPSILON_GLYPH in ws then [Eps]
    else seq(|ws|, k requires 0 <= k < |ws| => Terminal(ws[k]))
  }

  /** One production per alternative, in order, owned by `rl`. */
  function AltProds(rl: string, alts: seq<string>): (ps: seq<Prod>)
    ensures |ps| == |alts|
    ensures forall a :: 0 <= a < |alts| ==> ps[a] == Prod(rl, AltBody(alts[a]), 0)
  {
    seq(|alts|, a requires 0 <= a < |alts| => Prod(rl, AltBody(alts[a]), 0))
  }

  /** The productions of one line, before any string becomes a non-terminal;
      a line without exactly one `->` is refused. */
  function LineProds(line: string): Result<seq<Prod>, CfgError> {
    var parts := Split(line, ARROW);
    if |parts| != 2 then Failure(BadRuleLine(line))
    else Success(AltProds(Strip(parts[0]), Split(parts[1], BAR)))
  }

  /** What a line with one `->` gives. */
  lemma LineProdsOk(line: string)
    requires |Split(line, ARROW)| == 2
    ensures LineProds(line) == Success(AltProds(Strip(Split(line, ARROW)[0]), Split(Split(line, ARROW)[1], BAR)))
  {
  }

  /** A line is refused exactly when it has not one `->`. */
  lemma LineOk(line: string)
    ensures LineProds(line).Success? <==> |Split(line, ARROW)| == 2
    ensures LineProds(line).Failure? ==> LineProds(line).error == BadRuleLine(line)
  {
  }

  /** The outcome of each line. */
  function Outcomes(lines: seq<string>): (r: seq<Result<seq<Prod>, CfgError>>)
    ensures |r| == |lines| && forall j :: 0 <= j < |lines| ==> r[j] == LineProds(lines[j])
  {
    seq(|lines|, j requires 0 <= j < |lines| => LineProds(lines[j]))
  }

  /** The outcomes joined in order; the first failure is reported. */
  function Collect(outs: seq<Result<seq<Prod>, CfgError>>): Result<seq<Prod>, CfgError> {
    if outs == [] then Success([])
    else
      match Collect(outs[..|outs| - 1])
      case Failure(e) => Failure(e)
      case Success(ps) =>
        match outs[|outs| - 1]
        case Failure(e) => Failure(e)
        case Success(qs) => Success(ps + qs)
  }

  /** The productions of all lines in order; the first bad line is
      reported. */
  function RawProds(lines: seq<string>): Result<seq<Prod>, CfgError> {
    Collect(Outcomes(lines))
  }

  /** The left-hand side of the first line, which becomes the start rule
      (the empty name when there is no line, which no rule can match). */
  function StartOf(lines: seq<string>): string {
    if lines == [] then "" else Strip(Split(lines[0], ARROW)[0])
  }

  /** The left-hand sides. */
  function Lhs(ps: seq<Prod>): (r: set<string>)
    ensures forall n :: n in r <==> exists i :: 0 <= i < |ps| && ps[i].rule == n
  {
    set i | 0 <= i < |ps| :: ps[i].rule
  }

  /** A string naming a left-hand side becomes that non-terminal. */
  function Promote(x: Symbol, names: set<string>): Symbol {
    if x.Terminal? && x.name in names then NonTerm(x.name) else x
  }

  function PromoteBody(b: seq<Symbol>, names: set<string>): (r: seq<Symbol>)
    ensures |r| == |b| && forall k :: 0 <= k < |b| ==> r[k] == Promote(b[k], names)
  {
    seq(|b|, k requires 0 <= k < |b| => Promote(b[k], names))
  }

  /** The productions with every body promoted. */
  function Promoted(ps: seq<Prod>): (r: seq<Prod>)
    ensures |r| == |ps|
    ensures forall i :: 0 <= i < |ps| ==> r[i] == ps[i].(body := PromoteBody(ps[i].body, Lhs(ps)))
  {
    seq(|ps|, i requires 0 <= i < |ps| => ps[i].(body := PromoteBody(ps[i].body, Lhs(ps))))
  }

  /** `CFG.parse` on the lines of the text: collects the productions line by
      line, promotes the strings that name a left-hand side, and hands the
      list and the first left-hand side to the grammar constructor. Text
      that reads without error can fail only for want of a line: no
      dangling non-terminal can arise. */
  method Parse(lines: seq<string>) returns (r: Result<CFG, CfgError>)
    ensures RawProds(lines).Failure? ==> r == Failure(RawProds(lines).error)
    ensures RawProds(lines).Success? ==>
      && (r.Success? <==> lines != [])
      && (r.Success? ==> r.value == CFG(Renumbered(Promoted(RawProds(lines).value)), StartOf(lines)))
      && (r.Failure? ==> r.error == InvalidStart(""))
  {
    var read := ReadLines(lines);
    if read.Failure? {
      return Failure(read.error);
    }
    var (raw, start) := read.value;
    var prods := PromoteAll(raw);
    RawPlain(lines);
    ParsedClosed(raw);
    RulesLhs(raw);
    if lines != [] {
      RawStart(lines);
    }
    r := Build(prods, if start.Some? then start.value else "");
  }

  /** The `for rule in rules` loop of `CFG.parse`: one production per
      alternative of each line, and the first left-hand side. */
  method ReadLines(lines: seq<string>) returns (r: Result<(seq<Prod>, Option<string>), CfgError>)
    ensures RawProds(lines).Failure? ==> r == Failure(RawProds(lines).error)
    ensures RawProds(lines).Success? ==>
      r == Success((RawProds(lines).value, if lines == [] then None else Some(StartOf(lines))))
  {
    ghost var outs := Outcomes(lines);
    var start: Option<string> := None;
    var prods: seq<Prod> := [];
    var j := 0;
    while j < |lines|
      invariant 0 <= j <= |lines|
      invariant Collect(outs[..j]) == Success(prods)
      invariant start.None? <==> j == 0
      invariant j > 0 ==> start == Some(StartOf(lines))
    {
      var parts := Split(lines[j], ARROW);
      if |parts| != 2 {
        CollectFailure(outs, j);
        return Failure(BadRuleLine(lines[j]));
      }
      var rl := Strip(parts[0]);
      if start.None? {
        assert rl == StartOf(lines);
        start := Some(rl);
      }
      var alts := Split(parts[1], BAR);
      ghost var before := prods;
      var a := 0;
      while a < |alts|
        invariant 0 <= a <= |alts|
        invariant prods == before + AltProds(rl, alts)[..a]
      {
        assert AltProds(rl, alts)[..a + 1] == AltProds(rl, alts)[..a] + [Prod(rl, AltBody(alts[a]), 0)];
        prods := prods + [Prod(rl, AltBody(alts[a]), 0)];
        a := a + 1;
      }
      assert AltProds(rl, alts)[..a] == AltProds(rl, alts);
      LineProdsOk(lines[j]);
      CollectStep(outs, j);
      j := j + 1;
    }
    assert outs[..j] == outs;
    r := Success((prods, start));
  }

  /** The `enumerate(prods)` loop of `CFG.parse`: every body promoted in
      place against the set of left-hand sides. */
  method PromoteAll(raw: seq<Prod>) returns (prods: seq<Prod>)
    ensures prods == Promoted(raw)
  {
    prods := raw;
    var rls := set i | 0 <= i < |prods| :: prods[i].rule;
    assert rls == Lhs(raw);
    var n := 0;
    while n < |prods|
      invariant 0 <= n <= |prods| && |prods| == |raw|
      invariant forall i :: 0 <= i < n ==> prods[i] == Promoted(raw)[i]
      invariant forall i :: n <= i < |prods| ==> prods[i] == raw[i]
    {
      prods := prods[n := prods[n].(body := PromoteBody(prods[n].body, rls))];
      n := n + 1;
    }
  }

  // ----- joining the outcomes of the lines -----

  lemma CollectStep(outs: seq<Result<seq<Prod>, CfgError>>, j: nat)
    requires j < |outs| && Collect(outs[..j]).Success? && outs[j].Success?
    ensures Collect(outs[..j + 1]) == Success(Collect(outs[..j]).value + outs[j].value)
  {
    assert outs[..j + 1][..j] == outs[..j];
  }

  /** Once a prefix fails, the whole fails the same way. */
  lemma {:induction false} CollectSticks(outs: seq<Result<seq<Prod>, CfgError>>, j: nat)
    requires j <= |outs| && Collect(outs[..j]).Failure?
    ensures Collect(outs) == Collect(outs[..j])
    decreases |outs|
  {
    if j < |outs| {
      var init := outs[..|outs| - 1];
      assert init[..j] == outs[..j];
      CollectSticks(init, j);
    } else {
      assert outs[..j] == outs;
    }
  }

  /** The first failing outcome is the result. */
  lemma CollectFailure(outs: seq<Result<seq<Prod>, CfgError>>, j: nat)
    requires j < |outs| && Collect(outs[..j]).Success? && outs[j].Failure?
    ensures Collect(outs) == Failure(outs[j].error)
  {
    assert outs[..j + 1][..j] == outs[..j];
    CollectSticks(outs, j + 1);
  }

  lemma {:induction false} CollectAll(outs: seq<Result<seq<Prod>, CfgError>>)
    ensures Collect(outs).Success? <==> forall j :: 0 <= j < |outs| ==> outs[j].Success?
    decreases |outs|
  {
    if outs != [] {
      var init := outs[..|outs| - 1];
      CollectAll(init);
      assert forall j :: 0 <= j < |init| ==> init[j] == outs[j];
    }
  }

  lemma {:induction false} CollectFirst(outs: seq<Result<seq<Prod>, CfgError>>)
    requires |outs| > 0 && Collect(outs).Success? && outs[0].Success? && |outs[0].value| > 0
    ensures |Collect(outs).value| > 0 && Collect(outs).value[0] == outs[0].value[0]
    decreases |outs|
  {
    var init := outs[..|outs| - 1];
    if |outs| == 1 {
      assert init == [];
    } else {
      assert init[0] == outs[0];
      CollectFirst(init);
    }
  }

  lemma PlainAppend(ps: seq<Prod>, qs: seq<Prod>)
    requires Plain(ps) && Plain(qs)
    ensures Plain(ps + qs)
  {
    forall i, k | 0 <= i < |ps + qs| && 0 <= k < |(ps + qs)[i].body| ensures !(ps + qs)[i].body[k].NonTerm? {
      if i >= |ps| {
        assert (ps + qs)[i] == qs[i - |ps|];
      }
    }
  }

  lemma {:induction false} CollectPlain(outs: seq<Result<seq<Prod>, CfgError>>)
    requires Collect(outs).Success?
    requires forall j :: 0 <= j < |outs| && outs[j].Success? ==> Plain(outs[j].value)
    ensures Plain(Collect(outs).value)
    decreases |outs|
  {
    if outs != [] {
      var init := outs[..|outs| - 1];
      CollectPlain(init);
      PlainAppend(Collect(init).value, outs[|outs| - 1].value);
    }
  }

  // ----- properties of reading -----

  /** No body mentions a non-terminal: what reading text gives before
      promotion. */
  ghost predicate Plain(ps: seq<Prod>) {
    forall i, k :: 0 <= i < |ps| && 0 <= k < |ps[i].body| ==> !ps[i].body[k].NonTerm?
  }

  lemma LinePlain(line: string)
    requires LineProds(line).Success?
    ensures Plain(LineProds(line).value)
  {
  }

  lemma RawPlain(lines: seq<string>)
    requires RawProds(lines).Success?
    ensures Plain(RawProds(lines).value)
  {
    var outs := Outcomes(lines);
    forall j | 0 <= j < |outs| && outs[j].Success? ensures Plain(outs[j].value) {
      LinePlain(lines[j]);
    }
    CollectPlain(outs);
  }

  /** The productions of the first line come first, so the first production
      is owned by the start name. */
  lemma RawStart(lines: seq<string>)
    requires lines != [] && RawProds(lines).Success?
    ensures |RawProds(lines).value| > 0 && RawProds(lines).value[0].rule == StartOf(lines)
  {
    var outs := Outcomes(lines);
    CollectAll(outs);
    assert outs[0].Success?;
    CollectFirst(outs);
  }

  /** Reading succeeds exactly when every line has exactly two pieces around
      `->`; otherwise the first line that has not is reported. */
  lemma RawShape(lines: seq<string>)
    ensures RawProds(lines).Success? <==> forall j :: 0 <= j < |lines| ==> |Split(lines[j], ARROW)| == 2
    ensures forall j ::
      (0 <= j < |lines| && |Split(lines[j], ARROW)| != 2 && (forall i :: 0 <= i < j ==> |Split(lines[i], ARROW)| == 2))
      ==> RawProds(lines) == Failure(BadRuleLine(lines[j]))
  {
    var outs := Outcomes(lines);
    CollectAll(outs);
    forall j | 0 <= j < |lines| ensures outs[j].Success? <==> |Split(lines[j], ARROW)| == 2 {
      LineOk(lines[j]);
    }
    forall j | 0 <= j < |lines| && |Split(lines[j], ARROW)| != 2 && (forall i :: 0 <= i < j ==> |Split(lines[i], ARROW)| == 2)
      ensures RawProds(lines) == Failure(BadRuleLine(lines[j]))
    {
      CollectAll(outs[..j]);
      assert forall i :: 0 <= i < j ==> outs[..j][i] == outs[i];
      LineOk(lines[j]);
      CollectFailure(outs, j);
    }
  }

  /** After promotion every non-terminal in a body is a left-hand side, so
      the constructor's dangling check cannot fire on parsed text. */
  lemma ParsedClosed(raw: seq<Prod>)
    requires Plain(raw)
    ensures NoDangling(Promoted(raw))
  {
    var ps := Promoted(raw);
    forall i, k | 0 <= i < |ps| && 0 <= k < |ps[i].body| && ps[i].body[k].NonTerm?
      ensures ps[i].body[k] in RulesOf(ps)
    {
      var y := ps[i].body[k];
      assert y == Promote(raw[i].body[k], Lhs(raw));
      assert y.name in Lhs(raw);
      var j :| 0 <= j < |raw| && raw[j].rule == y.name;
      assert y == NonTerm(ps[j].rule);
    }
  }

  /** The left-hand sides of the read productions survive promotion as
      rules. */
  lemma RulesLhs(raw: seq<Prod>)
    ensures forall n :: NonTerm(n) in RulesOf(Promoted(raw)) <==> n in Lhs(raw)
  {
    var ps := Promoted(raw);
    forall n | n in Lhs(raw) ensures NonTerm(n) in RulesOf(ps) {
      var i :| 0 <= i < |raw| && raw[i].rule == n;
      assert NonTerm(n) == NonTerm(ps[i].rule);
    }
  }

  /** An alternative is an epsilon production exactly when it is blank or
      one of its words is `ε`; otherwise its body is its words as strings,
      each non-empty, holding exactly its non-space characters. */
  lemma AltBodyShape(alt: string)
    ensures AltBody(alt) == [Eps] <==> (forall k :: 0 <= k < |alt| ==> IsSpace(alt[k])) || EPSILON_GLYPH in Words(alt)
    ensures AltBody(alt) != [Eps] ==>
      && |AltBody(alt)| == |Words(alt)|
      && (forall k :: 0 <= k < |Words(alt)| ==> AltBody(alt)[k] == Terminal(Words(alt)[k]) && |Words(alt)[k]| > 0)
      && Concat(Words(alt)) == NonSpace(alt)
  {
    WordsEmpty(alt);
    WordsShape(alt);
    var ws := Words(alt);
    if ws != [] && EPSILON_GLYPH !in ws {
      assert AltBody(alt)[0] == Terminal(ws[0]);
    }
  }

  /** One line gives one production per `|`-separated piece of its right-hand
      side, in order, all owned by the stripped left-hand side; the pieces
      joined with `|` are the right-hand side again. */
  lemma LineShape(line: string)
    requires LineProds(line).Success?
    ensures var parts := Split(line, ARROW);
      var alts := Split(parts[1], BAR);
      var ps := LineProds(line).value;
      && |parts| == 2 && Join(parts, ARROW) == line
      && |ps| == |alts| >= 1 && Join(alts, BAR) == parts[1]
      && forall a :: 0 <= a < |ps| ==> ps[a].rule == Strip(parts[0]) && ps[a].body == AltBody(alts[a])
  {
    LineProdsOk(line);
    SplitJoin(line, ARROW);
    SplitJoin(Split(line, ARROW)[1], BAR);
  }

  /** Read text: the first left-hand side is the start rule and owns the
      first production, and a body symbol is a non-terminal exactly when it
      names a left-hand side. */
  lemma ParseStart(lines: seq<string>)
    requires RawProds(lines).Success? && lines != []
    ensures var ps := Promoted(RawProds(lines).value);
      && |ps| > 0 && ps[0].rule == StartOf(lines)
      && NonTerm(StartOf(lines)) in RulesOf(ps)
      && forall i, k :: 0 <= i < |ps| && 0 <= k < |ps[i].body| && ps[i].body[k] != Eps ==>
           (ps[i].body[k].NonTerm? <==> ps[i].body[k].name in Lhs(ps))
  {
    var raw := RawProds(lines).value;
    RawStart(lines);
    RawPlain(lines);
    var ps := Promoted(raw);
    assert NonTerm(StartOf(lines)) == NonTerm(ps[0].rule);
    assert Lhs(ps) == Lhs(raw) by {
      forall n | n in Lhs(raw) ensures n in Lhs(ps) {
        var i :| 0 <= i < |raw| && raw[i].rule == n;
        assert ps[i].rule == n;
      }
    }
  }
}
