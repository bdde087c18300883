/** The older tokenizer of `parsepy/lexer.py`. It shares the matching rule
    of the package tokenizer but feeds it one character at a time, keeps no
    token text, and tests for end of input only on entry to `__next__`. */
module LegacyLexer {
  import opened Symbols
  import L = Lexer

  /** A legacy token: kind, value and 1-based position (no text). */
  datatype LToken = LToken(kind: string, value: Value, line: int, col: int)

  /** `Token.__eq__`/`__ne__`: kind and value only. */
  predicate LTokenEq(a: LToken, b: LToken) {
    a.kind == b.kind && a.value == b.value
  }

  lemma LTokenEquality(a: LToken, line: int, col: int)
    ensures LTokenEq(a, a.(line := line, col := col))
    ensures forall b: LToken :: LTokenEq(a, b) <==> !(a.kind != b.kind || a.value != b.value)
  {
  }

  /** `Lexer.get_token` of this generation: the same fold as the package
      version, returning kind, value and length only. */
  method GetToken(lx: L.Lexer, s: string) returns (kind: string, value: Value, length: nat)
    requires |s| >= 1
    ensures kind == L.Match(lx, s).kind && value == L.Match(lx, s).value && length == L.Match(lx, s).length
  {
    var text;
    kind, value, text, length := L.GetToken(lx, s);
  }

  /** The one-character match always has length 1: no legacy token covers
      more than one character of the input. */
  lemma SingleCharacter(lx: L.Lexer, c: char)
    ensures L.Match(lx, [c]).length == 1
    ensures L.Match(lx, [c]).value == if L.Match(lx, [c]).kind in lx.actions then lx.actions[L.Match(lx, [c]).kind]([c]) else Str([c])
  {
    assert [c][..1] == [c];
  }

  /** Whether the character at offset `k` gives a token that is kept. */
  predicate Kept(lx: L.Lexer, text: string, k: nat)
    requires k < |text|
  {
    L.Match(lx, [text[k]]).value != Nil
  }

  /** The first offset at or after `n` whose character is kept, or `|text|`. */
  function FirstKept(lx: L.Lexer, text: string, n: nat): (j: nat)
    requires n <= |text|
    ensures n <= j <= |text|
    ensures j < |text| ==> Kept(lx, text, j)
    ensures forall k :: n <= k < j ==> !Kept(lx, text, k)
    decreases |text| - n
  {
    if n == |text| then n
    else if Kept(lx, text, n) then n
    else FirstKept(lx, text, n + 1)
  }

  /** What one call of `__next__` produces: a token, `StopIteration`, or a
      crash (an `IndexError` escaping from `__next__`). */
  datatype Step = Emit(token: LToken) | Stop | Crash

  /** The legacy line-start table: offset 0 and each offset after a newline;
      no `[-1]` entry for the empty input. */
  function LegacyLineStarts(text: string): (r: seq<int>)
    ensures |text| == 0 <==> r == []
    ensures |text| > 0 ==> r[0] == 0
  {
    L.Starts(text, 0)
  }

  /** The outcome of one `__next__` call from cursor `(n, stop)`, with the
      cursor afterwards. Before end of input the kept character found first
      is emitted; if none is left before the end, reading `str_in[n]` fails.
      At end of input the EOI token is emitted once (reading the last line
      start fails when the table is empty), then `StopIteration`. */
  function NextSpec(lx: L.Lexer, text: string, idx: seq<int>, n: nat, stop: bool): (s: (Step, nat, bool))
    requires n <= |text| && (|idx| > 0 ==> idx[0] <= 0) && (|text| > 0 ==> |idx| > 0)
  {
    if n == |text| then
      if stop then (Stop, n, stop)
      else if |idx| == 0 then (Crash, n, true)
      else (Emit(LToken(EOI, Nil, |idx|, n - idx[|idx| - 1])), n, true)
    else
      var j := FirstKept(lx, text, n);
      if j == |text| then (Crash, |text|, stop)
      else
        var m := L.Match(lx, [text[j]]);
        var line := L.LastStartAtOrBefore(idx, j);
        (Emit(LToken(m.kind, m.value, line + 1, j - idx[line] + 1)), j + 1, stop)
  }

  /** `Lexer.Iter` of this generation. */
  class Iter {
    const lexer: L.Lexer
    const text: string
    const lineIdx: seq<int>
    var n: int
    var stop: bool

    ghost predicate Valid()
      reads this
    {
      && (|text| == 0 <==> |lineIdx| == 0)
      && (|lineIdx| > 0 ==> lineIdx[0] == 0)
      && 0 <= n <= |text|
    }

    /** `Iter.__init__` (reached through `Lexer.tokenize`). */
    constructor (lexer: L.Lexer, text: string)
      ensures Valid()
      ensures this.lexer == lexer && this.text == text && lineIdx == LegacyLineStarts(text)
      ensures n == 0 && !stop
    {
      this.lexer := lexer;
      this.text := text;
      this.lineIdx := LegacyLineStarts(text);
      this.n := 0;
      this.stop := false;
    }

    /** `Iter.__iter__`: rewinds the cursor. */
    method Restart()
      requires Valid()
      modifies this
      ensures Valid() && n == 0 && !stop
    {
      n := 0;
      stop := false;
    }

    /** `Iter.__next__`, as written: end of input is checked once, before the
        skipping loop, and the loop indexes the input without a bound test. */
    method Next() returns (r: Step)
      requires Valid()
      modifies this
      ensures Valid()
      ensures (r, n, stop) == NextSpec(lexer, text, lineIdx, old(n), old(stop))
    {
      if n >= |text| {
        if stop {
          return Stop;
        }
        stop := true;
        if |lineIdx| == 0 {
          return Crash;
        }
        return Emit(LToken(EOI, Nil, |lineIdx|, n - lineIdx[|lineIdx| - 1]));
      }
      ghost var start := n;
      var token := Nil;
      var out := LToken(EOI, Nil, 0, 0);
      while token == Nil
        invariant start <= n <= |text| && Valid() && stop == old(stop)
        invariant token == Nil ==> FirstKept(lexer, text, start) == FirstKept(lexer, text, n)
        invariant token != Nil ==> NextSpec(lexer, text, lineIdx, start, stop) == (Emit(out), n, stop)
        decreases |text| - n, if token == Nil then 1 else 0
      {
        if n >= |text| {
          return Crash;
        }
        var kind, value, length := GetToken(lexer, [text[n]]);
        token := value;
        if value != Nil {
          var line := L.LastStartAtOrBefore(lineIdx, n);
          out := LToken(kind, value, line + 1, n - lineIdx[line] + 1);
        }
        n := n + length;
      }
      return Emit(out);
    }
  }

  /** `Lexer.tokenize` of this generation. */
  method Tokenize(lx: L.Lexer, text: string) returns (it: Iter)
    ensures fresh(it) && it.Valid() && it.lexer == lx && it.text == text && it.n == 0 && !it.stop
    ensures it.lineIdx == LegacyLineStarts(text)
  {
    it := new Iter(lx, text);
  }

  // ----- the crash on a trailing discarded character -----

  /** A lexer with identifiers `a` and discarded blanks. */
  function Sample(): L.Lexer {
    L.Lexer([L.TokenRule("id", s => if |s| >= 1 && s[0] == 'a' then Some(1) else None),
             L.TokenRule("ws", s => if |s| >= 1 && s[0] == ' ' then Some(1) else None)],
            map["ws" := s => Nil])
  }

  /** On `"a "` the first call emits `a`; the second call skips the blank,
      runs off the end of the input and fails, so the EOI token is never
      produced. */
  lemma TrailingBlankCrashes()
    ensures var idx := LegacyLineStarts("a ");
      && NextSpec(Sample(), "a ", idx, 0, false) == (Emit(LToken("id", Str("a"), 1, 1)), 1, false)
      && NextSpec(Sample(), "a ", idx, 1, false).0 == Crash
  {
    var lx := Sample();
    var idx := LegacyLineStarts("a ");
    assert idx == [0] by {
      assert L.Starts("a ", 2) == [];
      assert L.Starts("a ", 1) == [];
    }
    assert L.MatchLen(lx.rules[0], "a") == 1;
    assert L.MatchLen(lx.rules[1], "a") == 0;
    assert L.MatchLen(lx.rules[0], " ") == 0;
    assert L.MatchLen(lx.rules[1], " ") == 1;
    assert L.Match(lx, ['a']).kind == "id";
    assert L.Match(lx, [' ']).kind == "ws";
    assert L.Match(lx, ['a']).value == Str("a");
    assert Kept(lx, "a ", 0);
    assert FirstKept(lx, "a ", 0) == 0;
    assert L.LastStartAtOrBefore(idx, 0) == 0;
    assert !Kept(lx, "a ", 1);
    assert FirstKept(lx, "a ", 1) == 2;
  }

  /** On the empty input the first call already fails (the line-start table
      is empty). */
  lemma EmptyInputCrashes(lx: L.Lexer)
    ensures NextSpec(lx, "", LegacyLineStarts(""), 0, false).0 == Crash
  {
  }

  /** The package tokenizer on the same input: `a`, then EOI. */
  lemma TrailingBlankPackage(file: string)
    ensures var s := L.Stream(Sample(), "a ", file);
      && |s| == 2 && s[0].kind == "id" && s[0].value == Str("a") && s[1].kind == EOI
  {
    var lx := Sample();
    assert L.MatchLen(lx.rules[0], "a ") == 1;
    assert L.MatchLen(lx.rules[1], "a ") == 0;
    assert L.MatchLen(lx.rules[0], " ") == 0;
    assert L.MatchLen(lx.rules[1], " ") == 1;
    var idx := L.LineStarts("a ");
    assert idx == [0] by {
      assert L.Starts("a ", 2) == [];
      assert L.Starts("a ", 1) == [];
    }
    L.EmittedStep(lx, "a ", idx, file, 0);
    L.EmittedStep(lx, "a ", idx, file, 1);
    assert "a "[1..] == " ";
  }
}
