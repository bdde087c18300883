/** The longest-match tokenizer of `parsepy/lexer/lexer.py`: tokens, the
    lexer value (ordered patterns plus per-kind transforms), the matching
    step `get_token`, and the cursor object `Lexer.Iter` that yields the
    token stream lazily. */
module Lexer {
  import opened Symbols

  /** A token: kind, transformed value, matched text, 1-based position and
      source name. */
  datatype Token = Token(kind: string, value: Value, text: string, line: int, col: int, file: string)

  /** `Token.__eq__`: only kind and value take part. */
  predicate TokenEq(a: Token, b: Token) {
    a.kind == b.kind && a.value == b.value
  }

  /** `Token.__ne__` is the exact negation of `Token.__eq__`, and neither
      looks at text, line, column or file. */
  lemma TokenEquality(a: Token, text: string, line: int, col: int, file: string)
    ensures TokenEq(a, a.(text := text, line := line, col := col, file := file))
    ensures forall b: Token :: TokenEq(a, b) <==> !(a.kind != b.kind || a.value != b.value)
  {
  }

  /** A compiled pattern, as an oracle: the length of the match anchored at
      the start of the string, if any. */
  type Pattern = string -> Option<nat>

  /** A per-kind transform applied to the matched text; `Nil` discards. */
  type Transform = string -> Value

  datatype TokenRule = TokenRule(kind: string, pattern: Pattern)


  /** A lexer: the token patterns in dictionary order (the dictionary's keys
      are the kinds) and the transforms. */
  datatype Lexer = Lexer(rules: seq<TokenRule>, actions: map<string, Transform>) {

    /** The `tokens` property: the set of token kinds. */
    function Kinds(): (r: set<string>)
      ensures forall i :: 0 <= i < |rules| ==> rules[i].kind in r
      ensures forall k :: k in r ==> exists i :: 0 <= i < |rules| && rules[i].kind == k
    {
      set i | 0 <= i < |rules| :: rules[i].kind
    }
  }

  /** The result of one matching step: kind, value, text and length. */
  datatype Lexeme = Lexeme(kind: string, value: Value, text: string, length: nat)

  /** Length of the match of `r` anchored at the start of `s`, 0 when it
      does not match. Only a non-empty prefix counts as a match. */
  function MatchLen(r: TokenRule, s: string): (n: nat)
    ensures n <= |s|
  {
    var m := r.pattern(s);
    if m.Some? && 1 <= m.value <= |s| then m.value else 0
  }

  /** Every match of every pattern is a non-empty prefix of the string it
      is applied to; a regular expression that matches the empty string
      breaks this (the source's cursor would then stop advancing). */
  ghost predicate NonEmptyMatches(lx: Lexer) {
    forall r, s :: r in lx.rules && r.pattern(s).Some? ==> 1 <= r.pattern(s).value <= |s|
  }

  /** Under `NonEmptyMatches`, `MatchLen` is exactly the pattern's answer. */
  lemma MatchLenAgrees(lx: Lexer, r: TokenRule, s: string)
    requires NonEmptyMatches(lx) && r in lx.rules
    ensures MatchLen(r, s) == if r.pattern(s).Some? then r.pattern(s).value else 0
  {
  }

  /** The greedy scan of `get_token` from pattern `i` on, given the best
      `(kind, len)` so far: a match replaces the best when the best is still
      `unknown` or strictly shorter. */
  function PickFrom(rules: seq<TokenRule>, s: string, i: nat, kind: string, len: nat): (string, nat)
    requires i <= |rules|
    decreases |rules| - i
  {
    if i == |rules| then (kind, len)
    else
      var m := MatchLen(rules[i], s);
      if m > 0 && (kind == UNK || len < m) then PickFrom(rules, s, i + 1, rules[i].kind, m)
      else PickFrom(rules, s, i + 1, kind, len)
  }

  lemma {:induction false} PickBounds(rules: seq<TokenRule>, s: string, i: nat, kind: string, len: nat)
    requires i <= |rules| && 1 <= len <= |s|
    ensures 1 <= PickFrom(rules, s, i, kind, len).1 <= |s|
    decreases |rules| - i
  {
    if i < |rules| {
      var m := MatchLen(rules[i], s);
      if m > 0 && (kind == UNK || len < m) {
        PickBounds(rules, s, i + 1, rules[i].kind, m);
      } else {
        PickBounds(rules, s, i + 1, kind, len);
      }
    }
  }

  /** The value of `get_token`: the winner of the greedy scan, its text, and
      the transform's value when the winning kind has one, else the text. */
  function Match(lx: Lexer, s: string): (m: Lexeme)
    requires |s| >= 1
    ensures 1 <= m.length <= |s| && m.text == s[..m.length] && |m.text| == m.length
    ensures m.value == if m.kind in lx.actions then lx.actions[m.kind](m.text) else Str(m.text)
  {
    PickBounds(lx.rules, s, 0, UNK, 1);
    var (k, n) := PickFrom(lx.rules, s, 0, UNK, 1);
    var text := s[..n];
    Lexeme(k, if k in lx.actions then lx.actions[k](text) else Str(text), text, n)
  }

  /** `Lexer.get_token`: scans every pattern in order, keeping the longest
      match; with no match the result is `unknown` over the first character. */
  method GetToken(lx: Lexer, s: string) returns (kind: string, value: Value, text: string, length: nat)
    requires |s| >= 1
    ensures Lexeme(kind, value, text, length) == Match(lx, s)
  {
    kind, text := UNK, s[..1];
    var i := 0;
    while i < |lx.rules|
      invariant 0 <= i <= |lx.rules|
      invariant 1 <= |text| <= |s| && text == s[..|text|]
      invariant PickFrom(lx.rules, s, i, kind, |text|) == PickFrom(lx.rules, s, 0, UNK, 1)
    {
      var m := MatchLen(lx.rules[i], s);
      if m > 0 && (kind == UNK || |text| < m) {
        kind, text := lx.rules[i].kind, s[..m];
      }
      i := i + 1;
    }
    length := |text|;
    value := if kind in lx.actions then lx.actions[kind](text) else Str(text);
  }

  /** Pattern `j` wins among the first `i`: it matches, no pattern among
      them matches longer, and every earlier one matches strictly shorter. */
  ghost predicate Winner(rules: seq<TokenRule>, s: string, i: nat, j: nat)
    requires j < i <= |rules|
  {
    && MatchLen(rules[j], s) >= 1
    && (forall k :: 0 <= k < i ==> MatchLen(rules[k], s) <= MatchLen(rules[j], s))
    && (forall k :: 0 <= k < j ==> MatchLen(rules[k], s) < MatchLen(rules[j], s))
  }

  /** `(kind, len)` is the longest-match choice among the first `i`
      patterns: the kind and match length of the winner, or `unknown` with
      length 1 when none of them matches. */
  ghost predicate IsBest(rules: seq<TokenRule>, s: string, i: nat, kind: string, len: nat)
    requires i <= |rules|
  {
    if forall k :: 0 <= k < i ==> MatchLen(rules[k], s) == 0 then kind == UNK && len == 1
    else exists j :: 0 <= j < i && Winner(rules, s, i, j) && kind == rules[j].kind && len == MatchLen(rules[j], s)
  }

  /** One step of the greedy scan keeps `IsBest`. */
  lemma PickStep(rules: seq<TokenRule>, s: string, i: nat, kind: string, len: nat)
    requires i < |rules| && IsBest(rules, s, i, kind, len)
    requires forall k :: 0 <= k < |rules| ==> rules[k].kind != UNK
    ensures var m := MatchLen(rules[i], s);
      if m > 0 && (kind == UNK || len < m) then IsBest(rules, s, i + 1, rules[i].kind, m)
      else IsBest(rules, s, i + 1, kind, len)
  {
    var m := MatchLen(rules[i], s);
    var none := forall k :: 0 <= k < i ==> MatchLen(rules[k], s) == 0;
    if !none {
      var j :| 0 <= j < i && Winner(rules, s, i, j) && kind == rules[j].kind && len == MatchLen(rules[j], s);
      if m > 0 && len < m {
        assert Winner(rules, s, i + 1, i);
      } else {
        assert Winner(rules, s, i + 1, j);
      }
    } else if m > 0 {
      assert Winner(rules, s, i + 1, i);
    }
  }

  lemma {:induction false} PickIsBest(rules: seq<TokenRule>, s: string, i: nat, kind: string, len: nat,
                                      rk: string, rl: nat)
    requires i <= |rules| && IsBest(rules, s, i, kind, len)
    requires forall k :: 0 <= k < |rules| ==> rules[k].kind != UNK
    requires (rk, rl) == PickFrom(rules, s, i, kind, len)
    ensures IsBest(rules, s, |rules|, rk, rl)
    decreases |rules| - i
  {
    if i < |rules| {
      PickStep(rules, s, i, kind, len);
      var m := MatchLen(rules[i], s);
      if m > 0 && (kind == UNK || len < m) {
        PickIsBest(rules, s, i + 1, rules[i].kind, m, rk, rl);
      } else {
        PickIsBest(rules, s, i + 1, kind, len, rk, rl);
      }
    } else {
      assert i == |rules|;
    }
  }

  /** `get_token` returns the longest anchored match over all patterns; on
      equal length the pattern met first in dictionary order wins; with no
      match it is `unknown` over the first character. (Stated for lexers
      that do not themselves declare a kind named `unknown`.) */
  lemma LongestMatch(lx: Lexer, s: string)
    requires |s| >= 1
    requires forall k :: 0 <= k < |lx.rules| ==> lx.rules[k].kind != UNK
    ensures IsBest(lx.rules, s, |lx.rules|, Match(lx, s).kind, Match(lx, s).length)
    ensures Match(lx, s).kind == UNK <==> forall k :: 0 <= k < |lx.rules| ==> MatchLen(lx.rules[k], s) == 0
  {
    PickIsBest(lx.rules, s, 0, UNK, 1, PickFrom(lx.rules, s, 0, UNK, 1).0, PickFrom(lx.rules, s, 0, UNK, 1).1);
  }

  /** A pattern the lexer itself names `unknown` counts as "no match yet":
      with `unknown` matching three characters and `b` one, the later and
      shorter `b` wins, so `LongestMatch`'s earliest-longest promise needs
      its restriction. */
  lemma UnknownNamedPattern()
    ensures var lx := Lexer([TokenRule(UNK, (s: string) => Some(3)), TokenRule("b", (s: string) => Some(1))], map[]);
      && MatchLen(lx.rules[0], "bbb") == 3
      && Match(lx, "bbb").kind == "b" && Match(lx, "bbb").length == 1
  {
    var lx := Lexer([TokenRule(UNK, (s: string) => Some(3)), TokenRule("b", (s: string) => Some(1))], map[]);
    assert MatchLen(lx.rules[0], "bbb") == 3;
    assert MatchLen(lx.rules[1], "bbb") == 1;
    assert PickFrom(lx.rules, "bbb", 2, "b", 1) == ("b", 1);
    assert PickFrom(lx.rules, "bbb", 1, UNK, 3) == ("b", 1);
    assert PickFrom(lx.rules, "bbb", 0, UNK, 1) == ("b", 1);
  }

  lemma {:induction false} PickKind(rules: seq<TokenRule>, s: string, i: nat, kind: string, len: nat)
    requires i <= |rules|
    ensures PickFrom(rules, s, i, kind, len).0 == kind
         || exists k :: i <= k < |rules| && PickFrom(rules, s, i, kind, len).0 == rules[k].kind
    decreases |rules| - i
  {
    if i < |rules| {
      var m := MatchLen(rules[i], s);
      if m > 0 && (kind == UNK || len < m) {
        PickKind(rules, s, i + 1, rules[i].kind, m);
      } else {
        PickKind(rules, s, i + 1, kind, len);
      }
    }
  }

  /** A sequence of offsets in strictly increasing order. */
  ghost predicate Increasing(xs: seq<int>) {
    forall a, b :: 0 <= a < b < |xs| ==> xs[a] < xs[b]
  }

  /** The line starts among offsets `i ..` of `s`: offset 0 and every offset
      right after a newline, below `|s|`. */
  function Starts(s: string, i: nat): seq<int>
    decreases |s| - i
  {
    if i >= |s| then []
    else (if i == 0 || s[i - 1] == '\n' then [i] else []) + Starts(s, i + 1)
  }

  lemma {:induction false} StartsMembers(s: string, i: nat)
    ensures forall k :: k in Starts(s, i) <==> i <= k < |s| && (k == 0 || s[k - 1] == '\n')
    decreases |s| - i
  {
    if i < |s| {
      StartsMembers(s, i + 1);
    }
  }

  lemma {:induction false} StartsIncreasing(s: string, i: nat)
    ensures Increasing(Starts(s, i))
    ensures forall a :: 0 <= a < |Starts(s, i)| ==> i <= Starts(s, i)[a]
    decreases |s| - i
  {
    if i < |s| {
      StartsIncreasing(s, i + 1);
    }
  }

  /** `Iter.line_idx`: the line-start table, `[-1]` for the empty input. */
  function LineStarts(s: string): (r: seq<int>)
    ensures |r| > 0 && r[0] <= 0
    ensures |s| == 0 <==> r == [-1]
  {
    if |s| == 0 then [-1] else Starts(s, 0)
  }

  /** The line-start table holds exactly offset 0 and every offset right
      after a newline (an offset equal to `|s|` is left out), ascending. */
  lemma LineStartsSpec(s: string)
    requires |s| > 0
    ensures LineStarts(s)[0] == 0 && Increasing(LineStarts(s))
    ensures forall k :: k in LineStarts(s) <==> 0 <= k < |s| && (k == 0 || s[k - 1] == '\n')
  {
    StartsMembers(s, 0);
    StartsIncreasing(s, 0);
  }

  /** The index in the line-start table of the last line start at or before
      offset `n` (the `line_idx.index(max(...))` lookup). */
  function LastStartAtOrBefore(idx: seq<int>, n: int): (j: nat)
    requires |idx| > 0 && idx[0] <= n
    ensures j < |idx| && idx[j] <= n
    ensures forall k :: j < k < |idx| ==> idx[k] > n
    decreases |idx|
  {
    if |idx| == 1 || idx[|idx| - 1] <= n then |idx| - 1
    else LastStartAtOrBefore(idx[..|idx| - 1], n)
  }

  /** The token emitted for the lexeme `m` found at offset `n`, given the
      line-start table `idx`. */
  function TokenAt(idx: seq<int>, file: string, n: nat, m: Lexeme): Token
    requires |idx| > 0 && idx[0] <= n
  {
    var line := LastStartAtOrBefore(idx, n);
    Token(m.kind, m.value, m.text, line + 1, n - idx[line] + 1, file)
  }

  /** The single end-of-input token: value `Nil`, empty text, positioned at
      (number of lines, offset from the last line start), or (-1, -1) for the
      empty input. */
  function EndToken(text: string, idx: seq<int>, file: string): (t: Token)
    requires |idx| > 0
    ensures t.kind == EOI && t.value == Nil && t.text == ""
    ensures |text| == 0 ==> t.line == -1 && t.col == -1
  {
    if |text| > 0 then Token(EOI, Nil, "", |idx|, |text| - idx[|idx| - 1], file)
    else Token(EOI, Nil, "", -1, -1, file)
  }

  /** Every lexeme matched from offset `n` to the end, discarded ones
      included. */
  function Scan(lx: Lexer, text: string, n: nat): seq<Lexeme>
    requires n <= |text|
    decreases |text| - n
  {
    if n == |text| then []
    else
      var m := Match(lx, text[n..]);
      [m] + Scan(lx, text, n + m.length)
  }

  /** The tokens emitted from offset `n` before end of input: the lexemes
      whose value is not `Nil`, positioned. */
  function Emitted(lx: Lexer, text: string, idx: seq<int>, file: string, n: nat): seq<Token>
    requires n <= |text| && |idx| > 0 && idx[0] <= 0
    decreases |text| - n
  {
    if n == |text| then []
    else
      var m := Match(lx, text[n..]);
      (if m.value != Nil then [TokenAt(idx, file, n, m)] else []) + Emitted(lx, text, idx, file, n + m.length)
  }

  /** One matching step of `Emitted`. */
  lemma EmittedStep(lx: Lexer, text: string, idx: seq<int>, file: string, n: nat)
    requires n < |text| && |idx| > 0 && idx[0] <= 0
    ensures var m := Match(lx, text[n..]);
      Emitted(lx, text, idx, file, n)
        == (if m.value != Nil then [TokenAt(idx, file, n, m)] else []) + Emitted(lx, text, idx, file, n + m.length)
  {
  }

  /** The whole token stream of `text`: the emitted tokens, then one EOI. */
  function Stream(lx: Lexer, text: string, file: string): seq<Token>
      {
    var idx := LineStarts(text);
    Emitted(lx, text, idx, file, 0) + [EndToken(text, idx, file)]
  }

  /** What a cursor at offset `n` still yields, or nothing once stopped. */
  function Remaining(lx: Lexer, text: string, idx: seq<int>, file: string, n: nat, stop: bool): seq<Token>
    requires n <= |text| && |idx| > 0 && idx[0] <= 0
  {
    if stop then [] else Emitted(lx, text, idx, file, n) + [EndToken(text, idx, file)]
  }

  /** One matching step of a running cursor. */
  lemma RemainingStep(lx: Lexer, text: string, idx: seq<int>, file: string, n: nat)
    requires n < |text| && |idx| > 0 && idx[0] <= 0
    ensures var m := Match(lx, text[n..]);
      && (m.value == Nil ==> Remaining(lx, text, idx, file, n, false) == Remaining(lx, text, idx, file, n + m.length, false))
      && (m.value != Nil ==> Remaining(lx, text, idx, file, n, false)
                               == [TokenAt(idx, file, n, m)] + Remaining(lx, text, idx, file, n + m.length, false))
  {
    EmittedStep(lx, text, idx, file, n);
  }

  /** The source name `tokenize` records: the caller's, or the `repr` of the
      input's class when none is given. */
  function SourceName(file: string): (r: string)
    ensures file != "" ==> r == file
    ensures r != ""
  {
    if file == "" then "<class 'str'>" else file
  }

  /** `Lexer.Iter`: a cursor over one input. */
  class Iter {
    const lexer: Lexer
    const text: string
    const file: string
    const lineIdx: seq<int>
    var n: int
    var stop: bool

    ghost predicate Valid()
      reads this
    {
      && |lineIdx| > 0 && lineIdx[0] <= 0
      && 0 <= n <= |text|
      && (stop ==> n == |text|)
    }

    /** What the remaining calls of `__next__` return, in order, before
        `StopIteration`. */
    ghost function Pending(): seq<Token>
      reads this
      requires Valid()
    {
      Remaining(lexer, text, lineIdx, file, n, stop)
    }

    /** `Iter.__init__`: builds the line-start table; the cursor is at 0. */
    constructor (lexer: Lexer, text: string, file: string)
      ensures Valid()
      ensures this.lexer == lexer && this.text == text && this.file == file
      ensures lineIdx == LineStarts(text)
      ensures n == 0 && !stop
      ensures Pending() == Stream(lexer, text, file)
    {
      this.lexer := lexer;
      this.text := text;
      this.file := file;
      this.lineIdx := LineStarts(text);
      this.n := 0;
      this.stop := false;
    }

    /** `Iter.__iter__`: rewinds the cursor, so the stream starts over. */
    method Restart()
      requires Valid() && lineIdx == LineStarts(text)
      modifies this
      ensures Valid() && n == 0 && !stop
      ensures Pending() == Stream(lexer, text, file)
    {
      n := 0;
      stop := false;
    }

    /** `Iter.__next__`: skips lexemes whose value is `Nil`, returns the next
        token, then one EOI token, then `None` (for `StopIteration`). */
    method Next() returns (r: Option<Token>)
      requires Valid()
      modifies this
      ensures Valid()
      ensures old(Pending()) == [] ==> r == None && Pending() == []
      ensures old(Pending()) != [] ==> r == Some(old(Pending())[0]) && Pending() == old(Pending())[1..]
    {
      ghost var pending := Pending();
      while true
        invariant Valid()
        invariant Remaining(lexer, text, lineIdx, file, n, stop) == pending
        decreases |text| - n
      {
        if n >= |text| {
          if stop {
            return None;
          }
          stop := true;
          var t := if |text| > 0 then Token(EOI, Nil, "", |lineIdx|, n - lineIdx[|lineIdx| - 1], file)
                   else Token(EOI, Nil, "", -1, -1, file);
          assert pending == [t];
          return Some(t);
        }
        var kind, value, lexeme, length := GetToken(lexer, text[n..]);
        RemainingStep(lexer, text, lineIdx, file, n);
        ghost var rest := Remaining(lexer, text, lineIdx, file, n + length, false);
        var at := n;
        n := n + length;
        if value != Nil {
          var line := LastStartAtOrBefore(lineIdx, at);
          var t := Token(kind, value, lexeme, line + 1, at - lineIdx[line] + 1, file);
          assert pending == [t] + rest;
          assert ([t] + rest)[1..] == rest;
          return Some(t);
        }
      }
    }
  }

  /** `Lexer.tokenize`: a fresh cursor over `text`; an empty source name is
      replaced by the `repr` of the input's class. */
  method Tokenize(lx: Lexer, text: string, file: string) returns (it: Iter)
    ensures fresh(it) && it.Valid() && it.lexer == lx && it.text == text
    ensures it.lineIdx == LineStarts(text)
    ensures it.file == SourceName(file)
    ensures it.Pending() == Stream(lx, text, SourceName(file))
  {
    it := new Iter(lx, text, SourceName(file));
  }

  // ----- properties of the token stream -----

  lemma {:induction false} EmittedNeverNil(lx: Lexer, text: string, idx: seq<int>, file: string, n: nat)
    requires n <= |text| && |idx| > 0 && idx[0] <= 0
    ensures forall k :: 0 <= k < |Emitted(lx, text, idx, file, n)| ==>
              Emitted(lx, text, idx, file, n)[k].value != Nil
    decreases |text| - n
  {
    if n < |text| {
      var m := Match(lx, text[n..]);
      EmittedNeverNil(lx, text, idx, file, n + m.length);
    }
  }

  lemma {:induction false} EmittedKinds(lx: Lexer, text: string, idx: seq<int>, file: string, n: nat)
    requires n <= |text| && |idx| > 0 && idx[0] <= 0
    ensures forall k :: 0 <= k < |Emitted(lx, text, idx, file, n)| ==>
              Emitted(lx, text, idx, file, n)[k].kind in lx.Kinds() + {UNK}
    decreases |text| - n
  {
    if n < |text| {
      var m := Match(lx, text[n..]);
      PickKind(lx.rules, text[n..], 0, UNK, 1);
      EmittedKinds(lx, text, idx, file, n + m.length);
    }
  }

  /** The stream ends with exactly one EOI token (value `Nil`, empty text),
      no token before it has value `Nil`, and — when the lexer declares no
      kind named `EOI` — no token before it has kind `EOI`. */
  lemma StreamShape(lx: Lexer, text: string, file: string)
        ensures var s := Stream(lx, text, file);
      && |s| >= 1 && s[|s| - 1] == EndToken(text, LineStarts(text), file)
      && s[|s| - 1].kind == EOI && s[|s| - 1].value == Nil && s[|s| - 1].text == ""
      && (forall k :: 0 <= k < |s| - 1 ==> s[k].value != Nil)
      && (EOI !in lx.Kinds() ==> forall k :: 0 <= k < |s| - 1 ==> s[k].kind != EOI)
  {
    var s := Stream(lx, text, file);
    var idx := LineStarts(text);
    var e := Emitted(lx, text, idx, file, 0);
    assert s[..|s| - 1] == e;
    EmittedNeverNil(lx, text, idx, file, 0);
    EmittedKinds(lx, text, idx, file, 0);
    forall k | 0 <= k < |s| - 1 ensures s[k] == e[k] { }
  }

  /** Tokenizing the empty string yields exactly one token, the EOI token at
      (-1, -1). */
  lemma EmptyInput(lx: Lexer, file: string)
        ensures Stream(lx, "", file) == [Token(EOI, Nil, "", -1, -1, file)]
  {
  }

  function Texts(ms: seq<Lexeme>): string {
    if ms == [] then "" else ms[0].text + Texts(ms[1..])
  }

  function KeptTexts(ms: seq<Lexeme>): string {
    if ms == [] then "" else (if ms[0].value != Nil then ms[0].text else "") + KeptTexts(ms[1..])
  }

  function TokenTexts(ts: seq<Token>): string {
    if ts == [] then "" else ts[0].text + TokenTexts(ts[1..])
  }

  /** The lexemes of a scan, concatenated, give back the input from `n` on:
      nothing is skipped or duplicated. */
  lemma {:induction false} ScanRoundTrip(lx: Lexer, text: string, n: nat)
    requires n <= |text|
    ensures Texts(Scan(lx, text, n)) == text[n..]
    decreases |text| - n
  {
    if n < |text| {
      var m := Match(lx, text[n..]);
      ScanRoundTrip(lx, text, n + m.length);
      assert text[n..] == text[n..][..m.length] + text[n + m.length..];
    }
  }

  lemma TokenTextsCons(t: Token, rest: seq<Token>)
    ensures TokenTexts([t] + rest) == t.text + TokenTexts(rest)
  {
    assert ([t] + rest)[1..] == rest;
  }

  /** The emitted tokens' texts, concatenated, are the input with the
      discarded lexemes removed, in the original order. */
  lemma {:induction false} EmittedTexts(lx: Lexer, text: string, idx: seq<int>, file: string, n: nat)
    requires n <= |text| && |idx| > 0 && idx[0] <= 0
    ensures TokenTexts(Emitted(lx, text, idx, file, n)) == KeptTexts(Scan(lx, text, n))
    decreases |text| - n
  {
    if n < |text| {
      var m := Match(lx, text[n..]);
      EmittedTexts(lx, text, idx, file, n + m.length);
      EmittedStep(lx, text, idx, file, n);
      var sc := Scan(lx, text, n + m.length);
      assert Scan(lx, text, n) == [m] + sc;
      assert ([m] + sc)[1..] == sc;
      var rest := Emitted(lx, text, idx, file, n + m.length);
      if m.value != Nil {
        TokenTextsCons(TokenAt(idx, file, n, m), rest);
        assert KeptTexts(Scan(lx, text, n)) == m.text + KeptTexts(sc);
      } else {
        assert Emitted(lx, text, idx, file, n) == rest;
        assert KeptTexts(Scan(lx, text, n)) == KeptTexts(sc);
      }
    }
  }

  /** The offset a token's (line, column) designates, given the line-start
      table `idx`. */
  function Offset(idx: seq<int>, t: Token): int
    requires 1 <= t.line <= |idx|
  {
    idx[t.line - 1] + t.col - 1
  }

  /** Whether `t`, read at its (line, column), is found in `text` at or
      after offset `n`, with no newline between its line start and itself. */
  ghost predicate Located(text: string, idx: seq<int>, n: nat, t: Token) {
    && 1 <= t.line <= |idx| && t.col >= 1
    && n <= Offset(idx, t) && Offset(idx, t) + |t.text| <= |text|
    && text[Offset(idx, t)..Offset(idx, t) + |t.text|] == t.text
    && (forall k :: 0 <= Offset(idx, t) - t.col + 1 <= k < Offset(idx, t) ==> text[k] != '\n')
  }

  lemma TokenAtLocated(lx: Lexer, text: string, idx: seq<int>, file: string, n: nat)
    requires n < |text| && idx == LineStarts(text)
    ensures Located(text, idx, n, TokenAt(idx, file, n, Match(lx, text[n..])))
  {
    var m := Match(lx, text[n..]);
    var t := TokenAt(idx, file, n, m);
    LineStartsSpec(text);
    var line := LastStartAtOrBefore(idx, n);
    assert Offset(idx, t) == n;
    assert text[n..n + |t.text|] == text[n..][..m.length];
    forall k | idx[line] <= k < n ensures text[k] != '\n' {
      forall a | 0 <= a < |idx| ensures idx[a] != k + 1 {
        if a <= line {
          assert a == line || idx[a] < idx[line];
        }
      }
      assert k + 1 !in idx;
    }
  }

  /** Every emitted token is located by its 1-based (line, column): the
      text at that offset is the token's text, and no newline lies between
      the start of its line and the token. */
  lemma {:induction false} TokensLocated(lx: Lexer, text: string, idx: seq<int>, file: string, n: nat)
    requires n <= |text| && idx == LineStarts(text)
    ensures forall t :: t in Emitted(lx, text, idx, file, n) ==> Located(text, idx, n, t)
    decreases |text| - n
  {
    if n < |text| {
      var m := Match(lx, text[n..]);
      TokensLocated(lx, text, idx, file, n + m.length);
      if m.value != Nil {
        TokenAtLocated(lx, text, idx, file, n);
      }
    }
  }
}
