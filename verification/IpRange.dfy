/** ParseList from text to ranges, and the round trip through any spelling of a list. */
module IpRange {
  import opened IpNet
  import opened IpTables
  import opened IpGrammar
  import opened IpLex
  import opened IpAutomaton
  import opened IpParser

  datatype ParseResult = Parsed(list: seq<AddressRange>) | Invalid | Crashed

  /** What a text means: the ranges of the one list that its tokens derive. */
  function Meaning(text: seq<Decoded>): ParseResult
  {
    match ReadList(Tokens(LexState(text, EOF), 0))
    case Complete(l) => Parsed(Ranges(l))
    case Malformed => Invalid
    case Overflow(_) => Crashed
  }

  lemma {:induction false} TokensHaveNoEnd(st: LexState, num: Byte)
    ensures NoEnd(Tokens(st, num))
    decreases Size(st)
  {
    var l := LexOne(st, num);
    if l.code > 0 {
      TokenNumbers(l.code);
      TokensHaveNoEnd(l.state, l.num);
    }
  }

  method ParseList(text: seq<Decoded>) returns (r: ParseResult)
    ensures r == Meaning(text)
  {
    var lex := new Lexer(text);
    var parser := new Parser();
    var end := parser.Parse(lex);
    TokensHaveNoEnd(LexState(text, EOF), 0);
    ListRun(Tokens(LexState(text, EOF), 0));
    match end
    case Panicked => r := Crashed;
    case Returned(code) =>
      if code != 0 || lex.err { return Invalid; }
      r := Parsed(lex.output);
  }

  /** The first range of the list; a parsed list is never empty. */
  method Parse(text: seq<Decoded>) returns (r: ParseResult)
    ensures match Meaning(text)
            case Parsed(l) => |l| > 0 && r == Parsed([l[0]])
            case other => r == other
  {
    r := ParseList(text);
    if r.Parsed? {
      r := Parsed([r.list[0]]);
    }
  }

  /** One range for each target, in order. */
  lemma {:induction false} RangesInOrder(l: List)
    requires AllFit(l)
    ensures |Ranges(l)| == |Targets(l)| > 0
    ensures forall i :: 0 <= i < |Targets(l)| ==> Fits(Targets(l)[i]) && Ranges(l)[i] == TargetRange(Targets(l)[i])
  {
    if l.More? { RangesInOrder(l.front); }
  }

  function Targets(l: List): seq<Target> {
    match l
    case One(t) => [t]
    case More(front, _, t) => Targets(front) + [t]
  }

  // ----- Spelling tokens as text

  function Runes(codes: seq<nat>): (line: seq<Decoded>)
    ensures |line| == |codes| && forall i :: 0 <= i < |codes| ==> line[i] == Rune(codes[i])
  {
    seq(|codes|, i requires 0 <= i < |codes| => Rune(codes[i]))
  }

  function MarkCode(kind: int): nat
  {
    if kind == T_COMMA then 44 else if kind == T_SPACE then 32 else if kind == T_SLASH then 47
    else if kind == T_DOT then 46 else if kind == T_STAR then 42 else 45
  }

  /** A numeral for an octet: any digits whose value fits 32 bits and is n modulo 256. */
  ghost predicate NumeralFor(ds: seq<nat>, n: Byte)
  {
    ds != [] && IsNumeral(ds) && Decimal(ds) <= MAX_WORD && Decimal(ds) % 256 == n
  }

  /** `words` spells `ts` token by token. */
  ghost predicate Spells(words: seq<seq<nat>>, ts: seq<Token>)
  {
    && |words| == |ts|
    && (forall i :: 0 <= i < |ts| ==> T_NUM <= ts[i].kind <= T_DASH)
    && (forall i :: 0 <= i < |ts| && ts[i].kind == T_NUM ==> NumeralFor(words[i], ts[i].num))
    && (forall i :: 0 <= i < |ts| && ts[i].kind != T_NUM ==> words[i] == [MarkCode(ts[i].kind)])
    && Separated(ts)
  }

  /** No two numbers stand next to each other. */
  predicate Separated(ts: seq<Token>) {
    forall i :: 0 < i < |ts| ==> ts[i - 1].kind != T_NUM || ts[i].kind != T_NUM
  }

  function Text(words: seq<seq<nat>>): seq<nat> { if words == [] then [] else words[0] + Text(words[1..]) }

  /** A rune pushed back is as good as a rune not yet read. */
  lemma {:induction false} PushedBack(c: nat, rest: seq<nat>, num: Byte)
    requires c != EOF
    ensures LexOne(LexState(Runes(rest), c), num) == LexOne(LexState(Runes([c] + rest), EOF), num)
    ensures Tokens(LexState(Runes(rest), c), num) == Tokens(LexState(Runes([c] + rest), EOF), num)
  {
    assert Runes([c] + rest)[1..] == Runes(rest);
  }

  predicate EndsNumber(rest: seq<nat>) { rest == [] || (rest[0] != EOF && !IsDigit(rest[0])) }

  lemma {:induction false} ScanNumeral(ds: seq<nat>, rest: seq<nat>, acc: seq<nat>)
    requires IsNumeral(ds) && IsNumeral(acc) && EndsNumber(rest)
    ensures ScanDigits(LexState(Runes(ds + rest), EOF), acc) ==
            Scanned(acc + ds, if rest == [] then LexState([], EOF) else LexState(Runes(rest[1..]), rest[0]))
  {
    if ds == [] {
      assert ds + rest == rest && acc + ds == acc;
      if rest != [] { assert Runes(rest)[1..] == Runes(rest[1..]); }
    } else {
      assert Runes(ds + rest)[1..] == Runes(ds[1..] + rest);
      assert acc + [ds[0]] + ds[1..] == acc + ds;
      ScanNumeral(ds[1..], rest, acc + [ds[0]]);
    }
  }

  lemma {:induction false} LexNumeral(ds: seq<nat>, rest: seq<nat>, num: Byte, n: Byte)
    requires NumeralFor(ds, n) && EndsNumber(rest)
    ensures Tokens(LexState(Runes(ds + rest), EOF), num) == [Token(T_NUM, n)] + Tokens(LexState(Runes(rest), EOF), n)
  {
    var st := LexState(Runes(ds + rest), EOF);
    assert Runes(ds + rest)[1..] == Runes(ds[1..] + rest);
    ScanNumeral(ds[1..], rest, [ds[0]]);
    assert [ds[0]] + ds[1..] == ds;
    TokenNumbers(NUM);
    if rest == [] {
      assert Runes(rest) == [];
    } else {
      PushedBack(rest[0], rest[1..], n);
      assert [rest[0]] + rest[1..] == rest;
    }
  }

  lemma {:induction false} LexMark(kind: int, rest: seq<nat>, num: Byte)
    requires T_NUM < kind <= T_DASH
    ensures Tokens(LexState(Runes([MarkCode(kind)] + rest), EOF), num) ==
            [Token(kind, num)] + Tokens(LexState(Runes(rest), EOF), num)
  {
    TokenNumbers(MarkCode(kind));
    assert Runes([MarkCode(kind)] + rest)[1..] == Runes(rest);
  }

  /** Text at which the lexer reports the end of input. */
  ghost predicate ReadsAsEnd(tail: seq<nat>) { forall num: Byte :: Tokens(LexState(Runes(tail), EOF), num) == [] }

  predicate EndsInNumber(ts: seq<Token>) { ts != [] && ts[|ts| - 1].kind == T_NUM }

  lemma {:induction false} SpellsTail(words: seq<seq<nat>>, ts: seq<Token>, tail: seq<nat>)
    requires Spells(words, ts) && ts != []
    requires EndsInNumber(ts) ==> EndsNumber(tail)
    ensures Spells(words[1..], ts[1..])
    ensures ts[0].kind == T_NUM ==> EndsNumber(Text(words[1..]) + tail)
  {
    forall i | 0 < i < |ts| - 1 ensures ts[1..][i - 1].kind != T_NUM || ts[1..][i].kind != T_NUM {
      assert ts[(i + 1) - 1].kind != T_NUM || ts[i + 1].kind != T_NUM;
    }
    if |ts| > 1 {
      assert ts[1 - 1].kind != T_NUM || ts[1].kind != T_NUM;
    } else {
      assert Text(words[1..]) + tail == tail;
    }
  }

  lemma EraseHead(t: Token, ts: seq<Token>)
    ensures Erase([t] + ts) == [Forget(t)] + Erase(ts)
  {
  }

  /** Lexing undoes spelling, and goes on with what follows. */
  lemma {:induction false} LexSpellingOn(words: seq<seq<nat>>, ts: seq<Token>, tail: seq<nat>, num: Byte)
    returns (left: Byte)
    requires Spells(words, ts)
    requires EndsInNumber(ts) ==> EndsNumber(tail)
    ensures Erase(Tokens(LexState(Runes(Text(words) + tail), EOF), num)) ==
            Erase(ts) + Erase(Tokens(LexState(Runes(tail), EOF), left))
  {
    if ts == [] {
      assert Text(words) + tail == tail;
      left := num;
    } else {
      var rest := Text(words[1..]) + tail;
      var next := if ts[0].kind == T_NUM then ts[0].num else num;
      assert Text(words) + tail == words[0] + rest;
      SpellsTail(words, ts, tail);
      if ts[0].kind == T_NUM {
        LexNumeral(words[0], rest, num, ts[0].num);
      } else {
        LexMark(ts[0].kind, rest, num);
      }
      left := LexSpellingOn(words[1..], ts[1..], tail, next);
      EraseHead(Token(ts[0].kind, next), Tokens(LexState(Runes(rest), EOF), next));
      EraseHead(ts[0], ts[1..]);
      assert ts == [ts[0]] + ts[1..];
      Assoc([Forget(ts[0])], Erase(ts[1..]), Erase(Tokens(LexState(Runes(tail), EOF), left)));
    }
  }

  /** Lexing undoes spelling. */
  lemma {:induction false} LexSpelling(words: seq<seq<nat>>, ts: seq<Token>, tail: seq<nat>, num: Byte)
    requires Spells(words, ts) && ReadsAsEnd(tail)
    requires EndsInNumber(ts) ==> EndsNumber(tail)
    ensures Erase(Tokens(LexState(Runes(Text(words) + tail), EOF), num)) == Erase(ts)
  {
    var left := LexSpellingOn(words, ts, tail, num);
    assert Erase([]) == [];
  }

  // ----- Every list can be spelled, and is read back

  /** The usual decimal numeral. */
  function Digits(n: nat): (ds: seq<nat>)
    ensures ds != [] && IsNumeral(ds) && Decimal(ds) == n
  {
    if n < 10 then
      assert Decimal([48 + n]) == n by { assert [48 + n][..0] == []; }
      [48 + n]
    else
      var ds := Digits(n / 10) + [48 + n % 10];
      assert ds[..|ds| - 1] == Digits(n / 10);
      ds
  }

  function Words(ts: seq<Token>): (words: seq<seq<nat>>)
    ensures |words| == |ts|
  {
    seq(|ts|, i requires 0 <= i < |ts| => if ts[i].kind == T_NUM then Digits(ts[i].num) else [MarkCode(ts[i].kind)])
  }

  function Print(l: List): seq<Decoded> { Runes(Text(Words(Yield(l)))) }

  /** Tokens that occur in derivations, with a mark or nothing on the side named by the flags. */
  predicate Tidy(ts: seq<Token>) {
    && (forall i :: 0 <= i < |ts| ==> T_NUM <= ts[i].kind <= T_DASH && Forget(ts[i]) == ts[i])
    && Separated(ts)
  }

  lemma {:induction false} TidyConcat(a: seq<Token>, b: seq<Token>)
    requires Tidy(a) && Tidy(b)
    requires a == [] || b == [] || a[|a| - 1].kind != T_NUM || b[0].kind != T_NUM
    ensures Tidy(a + b)
  {
    forall i | 0 < i < |a + b| ensures (a + b)[i - 1].kind != T_NUM || (a + b)[i].kind != T_NUM {
      if i < |a| {
        assert a[i - 1].kind != T_NUM || a[i].kind != T_NUM;
      } else if i > |a| {
        assert b[i - |a| - 1].kind != T_NUM || b[i - |a|].kind != T_NUM;
      }
    }
  }

  lemma TidyTerm(t: Term)
    ensures Tidy(YieldTerm(t))
  {
  }

  lemma {:induction false} TidyDotTerm(t: Term, tail: seq<Token>)
    requires Tidy(tail) && (tail == [] || tail[0].kind != T_NUM)
    ensures Tidy(Mark(T_DOT) + (YieldTerm(t) + tail))
  {
    TidyTerm(t);
    TidyConcat(YieldTerm(t), tail);
    TidyConcat(Mark(T_DOT), YieldTerm(t) + tail);
  }

  lemma {:induction false} TidyAddress(a: Address)
    ensures Tidy(YieldAddress(a))
  {
    TidyTerm(a.t1);
    TidyDotTerm(a.t4, []);
    assert YieldTerm(a.t4) + [] == YieldTerm(a.t4);
    var tail3 := Mark(T_DOT) + YieldTerm(a.t4);
    TidyDotTerm(a.t3, tail3);
    var tail2 := Mark(T_DOT) + (YieldTerm(a.t3) + tail3);
    TidyDotTerm(a.t2, tail2);
    TidyConcat(YieldTerm(a.t1), Mark(T_DOT) + (YieldTerm(a.t2) + tail2));
  }

  lemma {:induction false} TidyTarget(t: Target)
    ensures Tidy(YieldTarget(t))
  {
    TidyAddress(t.address);
    if t.Block? {
      TidyConcat(YieldAddress(t.address), Mark(T_SLASH) + Number(t.ones));
    }
  }

  lemma {:induction false} TidyList(l: List)
    ensures Tidy(Yield(l))
  {
    TidyTarget(l.target);
    if l.More? {
      TidyList(l.front);
      TidyConcat(YieldComma(l.comma), YieldTarget(l.target));
      TidyConcat(Yield(l.front), YieldComma(l.comma) + YieldTarget(l.target));
    }
  }

  /** Any spelling of a list, with any numerals that fit 32 bits, parses to the ranges of the list. */
  lemma {:induction false} SpellingParses(l: List, words: seq<seq<nat>>)
    requires AllFit(l) && Spells(words, Yield(l))
    ensures Meaning(Runes(Text(words))) == Parsed(Ranges(l))
  {
    assert Runes([]) == [];
    assert Text(words) + [] == Text(words);
    SpellingWithTail(l, words, []);
  }

  lemma {:induction false} SpellingWithTail(l: List, words: seq<seq<nat>>, tail: seq<nat>)
    requires AllFit(l) && Spells(words, Yield(l)) && ReadsAsEnd(tail)
    requires EndsInNumber(Yield(l)) ==> EndsNumber(tail)
    ensures Meaning(Runes(Text(words) + tail)) == Parsed(Ranges(l))
  {
    TidyList(l);
    LexSpelling(words, Yield(l), tail, 0);
    assert Erase(Yield(l)) == Yield(l);
    ReadingIsDerivation(Tokens(LexState(Runes(Text(words) + tail), EOF), 0), l);
  }

  lemma WordsSpell(ts: seq<Token>)
    requires Tidy(ts)
    ensures Spells(Words(ts), ts)
  {
  }

  /** Printing a list and parsing it again gives its ranges. */
  lemma {:induction false} PrintParses(l: List)
    requires AllFit(l)
    ensures Meaning(Print(l)) == Parsed(Ranges(l))
  {
    TidyList(l);
    WordsSpell(Yield(l));
    SpellingParses(l, Words(Yield(l)));
  }

  /** A text parses to `out` exactly when its tokens derive a list that means `out`. */
  lemma {:induction false} MeaningIsDerivation(text: seq<Decoded>, out: seq<AddressRange>)
    ensures Meaning(text) == Parsed(out) <==>
            exists l: List :: AllFit(l) && Yield(l) == Erase(Tokens(LexState(text, EOF), 0)) && Ranges(l) == out
  {
    var ts := Tokens(LexState(text, EOF), 0);
    ListSound(ts);
    forall l: List ensures AllFit(l) && Yield(l) == Erase(ts) ==> ReadList(ts) == Complete(l) {
      ReadingIsDerivation(ts, l);
    }
  }

  /** Text that follows a run of digits. */
  predicate StopsDigits(rest: seq<nat>) { rest == [] || !IsDigit(rest[0]) }

  lemma {:induction false} ScanStops(ds: seq<nat>, rest: seq<nat>, acc: seq<nat>)
    requires IsNumeral(ds) && IsNumeral(acc) && StopsDigits(rest)
    ensures ScanDigits(LexState(Runes(ds + rest), EOF), acc).digits == acc + ds
  {
    if ds == [] {
      assert ds + rest == rest && acc + ds == acc;
    } else {
      assert Runes(ds + rest)[1..] == Runes(ds[1..] + rest);
      assert acc + [ds[0]] + ds[1..] == acc + ds;
      ScanStops(ds[1..], rest, acc + [ds[0]]);
    }
  }

  /** The lexer reports the end of input at a number above 2^32-1, whatever stands behind it. */
  lemma {:induction false} OversizedReadsAsEnd(ds: seq<nat>, rest: seq<nat>)
    requires ds != [] && IsNumeral(ds) && Decimal(ds) > MAX_WORD && StopsDigits(rest)
    ensures ReadsAsEnd(ds + rest)
  {
    assert Runes(ds + rest)[1..] == Runes(ds[1..] + rest);
    ScanStops(ds[1..], rest, [ds[0]]);
    assert [ds[0]] + ds[1..] == ds;
  }

  /** A number above 2^32-1 reads as the end of input: it and everything behind it are ignored instead of being
    * rejected, so the text means what it would mean without them. */
  lemma {:induction false} OversizedNumberIsIgnored(words: seq<seq<nat>>, ts: seq<Token>, ds: seq<nat>, rest: seq<nat>)
    requires Spells(words, ts) && !EndsInNumber(ts)
    requires ds != [] && IsNumeral(ds) && Decimal(ds) > MAX_WORD && StopsDigits(rest)
    ensures Meaning(Runes(Text(words) + (ds + rest))) == Meaning(Runes(Text(words)))
  {
    assert Runes([]) == [];
    assert Text(words) + [] == Text(words);
    OversizedReadsAsEnd(ds, rest);
    LexSpelling(words, ts, ds + rest, 0);
    LexSpelling(words, ts, [], 0);
    ReadingErases(Tokens(LexState(Runes(Text(words) + (ds + rest)), EOF), 0),
                  Tokens(LexState(Runes(Text(words)), EOF), 0));
  }

  /** Such a text is accepted exactly when the tokens in front of the number derive a list. */
  lemma {:induction false} OversizedNumberAcceptedIff(words: seq<seq<nat>>, ts: seq<Token>, ds: seq<nat>,
                                                      rest: seq<nat>, out: seq<AddressRange>)
    requires Spells(words, ts) && !EndsInNumber(ts)
    requires ds != [] && IsNumeral(ds) && Decimal(ds) > MAX_WORD && StopsDigits(rest)
    ensures Meaning(Runes(Text(words) + (ds + rest))) == Parsed(out) <==>
            exists l: List :: AllFit(l) && Yield(l) == Erase(ts) && Ranges(l) == out
  {
    OversizedReadsAsEnd(ds, rest);
    LexSpelling(words, ts, ds + rest, 0);
    MeaningIsDerivation(Runes(Text(words) + (ds + rest)), out);
  }

  /** Parsing crashes exactly when some beginning of the tokens derives a list whose last prefix length, modulo 256, is
    * above 32 while the others are not. */
  lemma {:induction false} CrashIsOverflow(text: seq<Decoded>)
    ensures Meaning(text) == Crashed <==>
            exists l: List :: LastOverflows(l) && Yield(l) <= Erase(Tokens(LexState(text, EOF), 0))
  {
    var ts := Tokens(LexState(text, EOF), 0);
    ListSound(ts);
    forall l: List ensures LastOverflows(l) && Yield(l) <= Erase(ts) ==> ReadList(ts) == Overflow(l) {
      ReadingIsDerivation(ts, l);
    }
  }

  // ----- Which texts parse

  /** The valid runes of a text; invalid bytes are skipped. */
  function Visible(text: seq<Decoded>): seq<nat>
  {
    if text == [] then []
    else (match text[0] case Rune(c) => [c] case Bad => []) + Visible(text[1..])
  }

  function Seen(st: LexState): LexState { st.(line := Runes(Visible(st.line))) }

  lemma {:induction false} SeenNext(st: LexState)
    ensures var g := NextRune(st); NextRune(Seen(st)) == Got(g.rune, Seen(g.state))
    decreases |st.line|
  {
    if st.peek == EOF && st.line != [] {
      if st.line[0].Bad? {
        assert Visible(st.line) == Visible(st.line[1..]);
        SeenNext(st.(line := st.line[1..]));
      } else {
        assert Runes(Visible(st.line))[1..] == Runes(Visible(st.line[1..]));
      }
    }
  }

  lemma {:induction false} SeenDigits(st: LexState, ds: seq<nat>)
    requires IsNumeral(ds)
    ensures var r := ScanDigits(st, ds); ScanDigits(Seen(st), ds) == Scanned(r.digits, Seen(r.state))
    decreases Size(st)
  {
    SeenNext(st);
    var g := NextRune(st);
    if IsDigit(g.rune) { SeenDigits(g.state, ds + [g.rune]); }
  }

  lemma {:induction false} SeenLexeme(st: LexState, num: Byte)
    ensures var l := LexOne(st, num); LexOne(Seen(st), num) == Lexeme(l.code, l.num, Seen(l.state))
  {
    SeenNext(st);
    var g := NextRune(st);
    if IsDigit(g.rune) { SeenDigits(g.state, [g.rune]); }
  }

  /** Invalid bytes make no difference. */
  lemma {:induction false} SeenTokens(st: LexState, num: Byte)
    ensures Tokens(Seen(st), num) == Tokens(st, num)
    decreases Size(st)
  {
    SeenLexeme(st, num);
    var l := LexOne(st, num);
    if l.code > 0 { SeenTokens(l.state, l.num); }
  }

  /** Neither NUL, which reads as the end, nor the private rune that reads as a number. */
  predicate Plain(codes: seq<nat>) { forall i :: 0 <= i < |codes| ==> codes[i] != EOF && codes[i] != NUM }

  /** The digits at the start of a text. */
  lemma {:induction false} CutDigits(codes: seq<nat>) returns (ds: seq<nat>, rest: seq<nat>)
    ensures codes == ds + rest && IsNumeral(ds) && StopsDigits(rest)
    ensures codes != [] && IsDigit(codes[0]) ==> ds != []
  {
    if codes == [] || !IsDigit(codes[0]) {
      ds, rest := [], codes;
    } else {
      var ds', rest' := CutDigits(codes[1..]);
      ds, rest := [codes[0]] + ds', rest';
      assert codes == [codes[0]] + codes[1..];
    }
  }

  lemma {:induction false} FirstIsNoNumber(rest: seq<nat>, num: Byte)
    requires Plain(rest) && EndsNumber(rest)
    ensures var ts := Tokens(LexState(Runes(rest), EOF), num); ts != [] ==> ts[0].kind != T_NUM
  {
    if rest != [] { TokenNumbers(rest[0]); }
  }

  lemma {:induction false} LexOther(c: nat, rest: seq<nat>, num: Byte)
    requires c != EOF && c != NUM && !IsDigit(c)
    ensures Tokens(LexState(Runes([c] + rest), EOF), num) ==
            [Token(TokenNumber(c), num)] + Tokens(LexState(Runes(rest), EOF), num)
    ensures T_NUM <= TokenNumber(c) <= T_DASH ==> TokenNumber(c) != T_NUM && MarkCode(TokenNumber(c)) == c
  {
    assert Runes([c] + rest)[1..] == Runes(rest);
    TokenNumbers(c);
  }

  lemma {:induction false} SpellsMore(w: seq<nat>, words: seq<seq<nat>>, t: Token, ts: seq<Token>)
    requires Spells(words, ts) && T_NUM <= t.kind <= T_DASH
    requires if t.kind == T_NUM then NumeralFor(w, t.num) else w == [MarkCode(t.kind)]
    requires t.kind == T_NUM && ts != [] ==> ts[0].kind != T_NUM
    ensures Spells([w] + words, [t] + ts) && Text([w] + words) == w + Text(words)
  {
    var all, tokens := [w] + words, [t] + ts;
    assert all[1..] == words;
    forall i | 0 < i < |tokens| ensures tokens[i - 1].kind != T_NUM || tokens[i].kind != T_NUM {
      if i > 1 { assert ts[(i - 1) - 1].kind != T_NUM || ts[i - 1].kind != T_NUM; }
    }
  }

  /** Text and tokens after the first token. */
  lemma {:induction false} FirstToken(codes: seq<nat>, num: Byte) returns (w: seq<nat>, rest: seq<nat>, left: Byte)
    requires Plain(codes) && Tokens(LexState(Runes(codes), EOF), num) != []
    requires T_NUM <= Tokens(LexState(Runes(codes), EOF), num)[0].kind <= T_DASH
    ensures var ts := Tokens(LexState(Runes(codes), EOF), num);
      && codes == w + rest && w != []
      && ts == [ts[0]] + Tokens(LexState(Runes(rest), EOF), left)
      && (if ts[0].kind == T_NUM then NumeralFor(w, ts[0].num) && EndsNumber(rest) else w == [MarkCode(ts[0].kind)])
  {
    assert codes != [];
    if IsDigit(codes[0]) {
      w, rest := CutDigits(codes);
      if rest != [] { assert codes[|w|] == rest[0]; }
      if Decimal(w) > MAX_WORD {
        OversizedReadsAsEnd(w, rest);
        assert false;
      } else {
        left := Decimal(w) % 256;
        LexNumeral(w, rest, num, left);
      }
    } else {
      w, rest, left := [codes[0]], codes[1..], num;
      assert codes == w + rest;
      LexOther(codes[0], rest, num);
    }
  }

  lemma {:induction false} PlainSuffix(a: seq<nat>, b: seq<nat>)
    requires Plain(a + b)
    ensures Plain(b)
  {
    forall i | 0 <= i < |b| ensures b[i] != EOF && b[i] != NUM { assert (a + b)[|a| + i] == b[i]; }
  }

  lemma {:induction false} CutTokens(ts: seq<Token>, more: seq<Token>, k: nat)
    requires ts != [] && ts == [ts[0]] + more && 0 < k <= |ts|
    ensures forall i :: 0 <= i < k - 1 ==> more[i] == ts[i + 1]
    ensures ts[..k] == [ts[0]] + more[..k - 1] && ts[k..] == more[k - 1..]
  {
  }

  /** Every text spells the tokens that are read off it, as long as they occur in lists. */
  lemma {:induction false} Unlex(codes: seq<nat>, num: Byte, k: nat)
    returns (words: seq<seq<nat>>, tail: seq<nat>, left: Byte)
    requires Plain(codes) && k <= |Tokens(LexState(Runes(codes), EOF), num)|
    requires forall i :: 0 <= i < k ==> T_NUM <= Tokens(LexState(Runes(codes), EOF), num)[i].kind <= T_DASH
    ensures var ts := Tokens(LexState(Runes(codes), EOF), num);
      && codes == Text(words) + tail && Spells(words, ts[..k])
      && (EndsInNumber(ts[..k]) ==> EndsNumber(tail))
      && Tokens(LexState(Runes(tail), EOF), left) == ts[k..]
    decreases k
  {
    var ts := Tokens(LexState(Runes(codes), EOF), num);
    if k == 0 {
      words, tail, left := [], codes, num;
      assert Text(words) + tail == codes;
    } else {
      var w, rest, next := FirstToken(codes, num);
      var more := Tokens(LexState(Runes(rest), EOF), next);
      PlainSuffix(w, rest);
      CutTokens(ts, more, k);
      var words';
      words', tail, left := Unlex(rest, next, k - 1);
      if ts[0].kind == T_NUM { FirstIsNoNumber(rest, next); }
      SpellsMore(w, words', ts[0], more[..k - 1]);
      words := [w] + words';
      Assoc(w, Text(words'), tail);
      if k == 1 { assert rest == tail; }
    }
  }

  /** A number above 2^32-1, and any text. */
  ghost predicate Oversized(tail: seq<nat>) {
    exists n: nat :: 0 < n <= |tail| && IsNumeral(tail[..n]) && Decimal(tail[..n]) > MAX_WORD && StopsDigits(tail[n..])
  }

  lemma {:induction false} NothingRead(tail: seq<nat>, num: Byte)
    requires Plain(tail) && Tokens(LexState(Runes(tail), EOF), num) == []
    ensures tail == [] || Oversized(tail)
  {
    if tail != [] {
      if IsDigit(tail[0]) {
        var ds, rest := CutDigits(tail);
        if rest != [] { assert tail[|ds|] == rest[0]; }
        if Decimal(ds) <= MAX_WORD {
          LexNumeral(ds, rest, num, Decimal(ds) % 256);
        } else {
          assert tail[..|ds|] == ds && tail[|ds|..] == rest;
        }
      }
    }
  }

  /** The text begins with a spelling of the list. */
  ghost predicate BeginsWith(codes: seq<nat>, l: List, words: seq<seq<nat>>, tail: seq<nat>) {
    && codes == Text(words) + tail && Spells(words, Yield(l))
    && (EndsInNumber(Yield(l)) ==> EndsNumber(tail))
  }

  /** The text is a spelling of the list, perhaps with an oversized number and anything behind it. */
  ghost predicate SpellsList(codes: seq<nat>, l: List) {
    exists words: seq<seq<nat>>, tail: seq<nat> ::
      BeginsWith(codes, l, words, tail) && (tail == [] || Oversized(tail))
  }

  ghost predicate BeginsWithList(codes: seq<nat>, l: List) {
    exists words: seq<seq<nat>>, tail: seq<nat> :: BeginsWith(codes, l, words, tail)
  }

  /** Spelling what was read. */
  lemma {:induction false} SpellRead(codes: seq<nat>, l: List)
    returns (words: seq<seq<nat>>, tail: seq<nat>, left: Byte)
    requires Plain(codes) && Yield(l) <= Erase(Tokens(LexState(Runes(codes), EOF), 0))
    ensures BeginsWith(codes, l, words, tail)
    ensures Tokens(LexState(Runes(tail), EOF), left) == Tokens(LexState(Runes(codes), EOF), 0)[|Yield(l)|..]
  {
    var ts, k := Tokens(LexState(Runes(codes), EOF), 0), |Yield(l)|;
    TidyList(l);
    forall i | 0 <= i < k ensures ts[i].kind == Yield(l)[i].kind && Forget(ts[i]) == Yield(l)[i] {
      assert Erase(ts)[i] == Yield(l)[i];
    }
    words, tail, left := Unlex(codes, 0, k);
    SpellsErased(words, ts[..k], Yield(l));
  }

  lemma {:induction false} SpellsErased(words: seq<seq<nat>>, ts: seq<Token>, ys: seq<Token>)
    requires Spells(words, ts) && |ys| == |ts| && forall i :: 0 <= i < |ts| ==> Forget(ts[i]) == ys[i]
    ensures Spells(words, ys) && (EndsInNumber(ys) <==> EndsInNumber(ts))
  {
    forall i | 0 < i < |ys| ensures ys[i - 1].kind != T_NUM || ys[i].kind != T_NUM {
      assert Forget(ts[i - 1]) == ys[i - 1] && Forget(ts[i]) == ys[i];
      assert ts[i - 1].kind != T_NUM || ts[i].kind != T_NUM;
    }
  }

  lemma {:induction false} OversizedIsEnd(tail: seq<nat>)
    requires tail == [] || Oversized(tail)
    ensures ReadsAsEnd(tail)
  {
    if tail == [] {
      assert Runes([]) == [];
    } else {
      var n: nat :| 0 < n <= |tail| && IsNumeral(tail[..n]) && Decimal(tail[..n]) > MAX_WORD && StopsDigits(tail[n..]);
      OversizedReadsAsEnd(tail[..n], tail[n..]);
      assert tail[..n] + tail[n..] == tail;
    }
  }

  lemma {:induction false} SpelledParses(codes: seq<nat>, l: List)
    requires AllFit(l) && SpellsList(codes, l)
    ensures Meaning(Runes(codes)) == Parsed(Ranges(l))
  {
    var words: seq<seq<nat>>, tail: seq<nat> :| BeginsWith(codes, l, words, tail) && (tail == [] || Oversized(tail));
    OversizedIsEnd(tail);
    SpellingWithTail(l, words, tail);
  }

  lemma {:induction false} ParsedIsSpelled(codes: seq<nat>, l: List)
    requires Plain(codes) && Yield(l) == Erase(Tokens(LexState(Runes(codes), EOF), 0))
    ensures SpellsList(codes, l)
  {
    var words, tail, left := SpellRead(codes, l);
    PlainSuffix(Text(words), tail);
    NothingRead(tail, left);
    assert BeginsWith(codes, l, words, tail);
  }

  /** Exactly the spellings of lists parse, to the ranges of the list; an oversized number hides what follows it.  Every
    * other text is rejected, or crashes. */
  lemma {:induction false} ParsesIff(text: seq<Decoded>, out: seq<AddressRange>)
    requires Plain(Visible(text))
    ensures Meaning(text) == Parsed(out) <==>
            exists l: List :: AllFit(l) && SpellsList(Visible(text), l) && Ranges(l) == out
  {
    var codes := Visible(text);
    SeenTokens(LexState(text, EOF), 0);
    assert Meaning(text) == Meaning(Runes(codes));
    MeaningIsDerivation(Runes(codes), out);
    if Meaning(text) == Parsed(out) {
      var l: List :|
        AllFit(l) && Yield(l) == Erase(Tokens(LexState(Runes(codes), EOF), 0)) && Ranges(l) == out;
      ParsedIsSpelled(codes, l);
    }
    forall l: List | AllFit(l) && SpellsList(codes, l) ensures Meaning(Runes(codes)) == Parsed(Ranges(l)) {
      SpelledParses(codes, l);
    }
  }

  /** Exactly the texts crash that begin with a spelling of a list whose last prefix length is the first above 32. */
  lemma {:induction false} CrashesIff(text: seq<Decoded>)
    requires Plain(Visible(text))
    ensures Meaning(text) == Crashed <==> exists l: List :: LastOverflows(l) && BeginsWithList(Visible(text), l)
  {
    var codes := Visible(text);
    SeenTokens(LexState(text, EOF), 0);
    CrashIsOverflow(Runes(codes));
    var ts := Tokens(LexState(Runes(codes), EOF), 0);
    if Meaning(text) == Crashed {
      var l: List :| LastOverflows(l) && Yield(l) <= Erase(ts);
      var words, tail, left := SpellRead(codes, l);
      assert BeginsWithList(codes, l);
    }
    forall l: List | LastOverflows(l) && BeginsWithList(codes, l) ensures Yield(l) <= Erase(ts) {
      BeginningIsRead(codes, l);
    }
  }

  lemma {:induction false} BeginningIsRead(codes: seq<nat>, l: List)
    requires BeginsWithList(codes, l)
    ensures Yield(l) <= Erase(Tokens(LexState(Runes(codes), EOF), 0))
  {
    var words: seq<seq<nat>>, tail: seq<nat> :| BeginsWith(codes, l, words, tail);
    var left := LexSpellingOn(words, Yield(l), tail, 0);
    TidyList(l);
    assert Erase(Yield(l)) == Yield(l);
  }
}
