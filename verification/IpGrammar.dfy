/** The grammar of address lists, its meaning, and a recursive-descent reading of it.
  *
  * A value of the datatypes below is a derivation: there is one constructor for each production with a choice
  * behind it, and `Yield` spells out the right-hand sides.  Token values matter only on numbers, so `Erase`
  * forgets them on punctuation.
  */
module IpGrammar {
  import opened IpNet
  import opened IpTables

  datatype Token = Token(kind: int, num: Byte)

  datatype OctetRange = OctetRange(min: Byte, max: Byte)

  datatype Term =
    | Num(n: Byte)               // 8: term -> num
    | Star                       // 9: term -> '*'
    | Span(lo: Byte, hi: Byte)   // 10: term -> range, 11: range -> num '-' num
  datatype Address = Address(t1: Term, t2: Term, t3: Term, t4: Term)  // 7
  datatype Target =
    | Block(address: Address, ones: Byte)  // 5: target -> address '/' num
    | Plain(address: Address)              // 6: target -> address
  datatype Comma =
    | Tight    // 3: comma -> ','
    | Spaced   // 4: comma -> ',' ' '
  datatype List =
    | One(target: Target)                                // 1: result -> target
    | More(front: List, comma: Comma, target: Target)    // 2: result -> result comma target

  // ----- What a derivation spells

  function Mark(kind: int): seq<Token> { [Token(kind, 0)] }
  function Number(n: Byte): seq<Token> { [Token(T_NUM, n)] }

  function YieldTerm(t: Term): (ts: seq<Token>)
    ensures |ts| > 0
  {
    match t
    case Num(n) => Number(n)
    case Star => Mark(T_STAR)
    case Span(lo, hi) => Number(lo) + Mark(T_DASH) + Number(hi)
  }

  function YieldAddress(a: Address): seq<Token> {
    var dot := Mark(T_DOT);
    YieldTerm(a.t1) + (dot + (YieldTerm(a.t2) + (dot + (YieldTerm(a.t3) + (dot + YieldTerm(a.t4))))))
  }

  function YieldTarget(t: Target): seq<Token> {
    match t
    case Block(a, n) => YieldAddress(a) + (Mark(T_SLASH) + Number(n))
    case Plain(a) => YieldAddress(a)
  }

  function YieldComma(c: Comma): seq<Token> {
    match c
    case Tight => Mark(T_COMMA)
    case Spaced => Mark(T_COMMA) + Mark(T_SPACE)
  }

  function Yield(l: List): seq<Token> {
    match l
    case One(t) => YieldTarget(t)
    case More(front, c, t) => Yield(front) + (YieldComma(c) + YieldTarget(t))
  }

  function Forget(t: Token): Token { if t.kind == T_NUM then t else Token(t.kind, 0) }

  function Erase(ts: seq<Token>): (es: seq<Token>)
    ensures |es| == |ts| && forall i :: 0 <= i < |ts| ==> es[i] == Forget(ts[i])
  {
    seq(|ts|, i requires 0 <= i < |ts| => Forget(ts[i]))
  }

  // ----- What a derivation means

  function TermRange(t: Term): OctetRange {
    match t
    case Num(n) => OctetRange(n, n)
    case Star => OctetRange(0, 255)
    case Span(lo, hi) => OctetRange(lo, hi)
  }

  function LowAddress(a: Address): (ip: IP)
    ensures IsIPv4(ip)
  {
    [TermRange(a.t1).min, TermRange(a.t2).min, TermRange(a.t3).min, TermRange(a.t4).min]
  }

  function HighAddress(a: Address): (ip: IP)
    ensures IsIPv4(ip)
  {
    [TermRange(a.t1).max, TermRange(a.t2).max, TermRange(a.t3).max, TermRange(a.t4).max]
  }

  /** net.CIDRMask knows no mask of more than 32 ones. */
  predicate Fits(t: Target) { t.Block? ==> t.ones <= 32 }

  predicate AllFit(l: List) { Fits(l.target) && (l.More? ==> AllFit(l.front)) }

  /** The last target is the first one with a prefix length above 32. */
  predicate LastOverflows(l: List) { !Fits(l.target) && (l.More? ==> AllFit(l.front)) }

  function TargetRange(t: Target): AddressRange
    requires Fits(t)
  {
    match t
    case Block(a, n) => CidrRange(LowAddress(a), n)
    case Plain(a) => AddressRange(LowAddress(a), HighAddress(a))
  }

  function Ranges(l: List): seq<AddressRange>
    requires AllFit(l)
  {
    match l
    case One(t) => [TargetRange(t)]
    case More(front, _, t) => Ranges(front) + [TargetRange(t)]
  }

  // ----- Reading tokens from left to right

  datatype Read<T> = Fail | Ok(value: T, rest: seq<Token>)

  function Lookahead(input: seq<Token>): int { if input == [] then T_END else input[0].kind }

  function ReadTerm(input: seq<Token>): (r: Read<Term>)
    ensures r.Ok? ==> |r.rest| < |input|
  {
    if Lookahead(input) == T_STAR then Ok(Star, input[1..])
    else if Lookahead(input) != T_NUM then Fail
    else if Lookahead(input[1..]) != T_DASH then Ok(Num(input[0].num), input[1..])
    else if Lookahead(input[2..]) != T_NUM then Fail
    else Ok(Span(input[0].num, input[2].num), input[3..])
  }

  function ReadDotTerm(input: seq<Token>): (r: Read<Term>)
    ensures r.Ok? ==> |r.rest| < |input|
  {
    if Lookahead(input) != T_DOT then Fail else ReadTerm(input[1..])
  }

  function ReadAddress(input: seq<Token>): (r: Read<Address>)
    ensures r.Ok? ==> |r.rest| < |input|
  {
    var r1 := ReadTerm(input);
    if r1.Fail? then Fail else
    var r2 := ReadDotTerm(r1.rest);
    if r2.Fail? then Fail else
    var r3 := ReadDotTerm(r2.rest);
    if r3.Fail? then Fail else
    var r4 := ReadDotTerm(r3.rest);
    if r4.Fail? then Fail else Ok(Address(r1.value, r2.value, r3.value, r4.value), r4.rest)
  }

  function ReadTarget(input: seq<Token>): (r: Read<Target>)
    ensures r.Ok? ==> |r.rest| < |input|
  {
    var r := ReadAddress(input);
    if r.Fail? then Fail
    else if Lookahead(r.rest) != T_SLASH then Ok(Plain(r.value), r.rest)
    else if Lookahead(r.rest[1..]) != T_NUM then Fail
    else Ok(Block(r.value, r.rest[1].num), r.rest[2..])
  }

  function ReadComma(input: seq<Token>): (r: Read<Comma>)
    ensures r.Ok? ==> |r.rest| < |input|
  {
    if Lookahead(input) != T_COMMA then Fail
    else if Lookahead(input[1..]) == T_SPACE then Ok(Spaced, input[2..])
    else Ok(Tight, input[1..])
  }

  /** The list that was read; the list up to and including the first oversized prefix; or a syntax error. */
  datatype Reading = Complete(list: List) | Overflow(list: List) | Malformed

  function ReadList(input: seq<Token>): (r: Reading)
    ensures r.Complete? ==> AllFit(r.list)
  {
    match ReadTarget(input)
    case Fail => Malformed
    case Ok(t, rest) => if Fits(t) then ReadMore(One(t), rest) else Overflow(One(t))
  }

  function ReadMore(front: List, input: seq<Token>): (r: Reading)
    requires AllFit(front)
    ensures r.Complete? ==> AllFit(r.list)
    decreases |input|
  {
    if input == [] then Complete(front)
    else match ReadComma(input)
      case Fail => Malformed
      case Ok(c, rest) =>
        match ReadTarget(rest)
        case Fail => Malformed
        case Ok(t, rest') => if Fits(t) then ReadMore(More(front, c, t), rest') else Overflow(More(front, c, t))
  }

  // ----- What is read is what was spelled

  lemma EraseSplit(input: seq<Token>, k: nat)
    requires k <= |input|
    ensures Erase(input) == Erase(input[..k]) + Erase(input[k..])
  {
  }

  lemma TermSound(input: seq<Token>)
    ensures var r := ReadTerm(input); r.Ok? ==> Erase(input) == YieldTerm(r.value) + Erase(r.rest)
  {
  }

  lemma {:induction false} DotTermSound(input: seq<Token>)
    ensures var r := ReadDotTerm(input); r.Ok? ==> Erase(input) == Mark(T_DOT) + (YieldTerm(r.value) + Erase(r.rest))
  {
    if Lookahead(input) == T_DOT {
      TermSound(input[1..]);
      EraseSplit(input, 1);
    }
  }

  lemma Assoc<T>(a: seq<T>, b: seq<T>, c: seq<T>)
    ensures a + (b + c) == (a + b) + c
  {
  }

  lemma Regroup<T>(a: seq<T>, b: seq<T>, c: seq<T>, d: seq<T>)
    ensures a + (b + (c + d)) == (a + (b + c)) + d
  {
  }

  lemma {:induction false} AddressSound(input: seq<Token>)
    ensures var r := ReadAddress(input); r.Ok? ==> Erase(input) == YieldAddress(r.value) + Erase(r.rest)
  {
    var r := ReadAddress(input);
    if r.Ok? {
      var r1 := ReadTerm(input);
      var r2 := ReadDotTerm(r1.rest);
      var r3 := ReadDotTerm(r2.rest);
      TermSound(input);
      DotTermSound(r1.rest);
      DotTermSound(r2.rest);
      DotTermSound(r3.rest);
      var a := r.value;
      var dot, e := Mark(T_DOT), Erase(r.rest);
      var tail4 := dot + YieldTerm(a.t4);
      var tail3 := dot + (YieldTerm(a.t3) + tail4);
      var tail2 := dot + (YieldTerm(a.t2) + tail3);
      assert Erase(r3.rest) == tail4 + e by { Assoc(dot, YieldTerm(a.t4), e); }
      assert Erase(r2.rest) == tail3 + e by { Regroup(dot, YieldTerm(a.t3), tail4, e); }
      assert Erase(r1.rest) == tail2 + e by { Regroup(dot, YieldTerm(a.t2), tail3, e); }
      Assoc(YieldTerm(a.t1), tail2, e);
    }
  }

  lemma {:induction false} SlashNumberSound(input: seq<Token>)
    requires Lookahead(input) == T_SLASH && Lookahead(input[1..]) == T_NUM
    ensures Erase(input) == (Mark(T_SLASH) + Number(input[1].num)) + Erase(input[2..])
  {
    EraseSplit(input, 2);
  }

  lemma {:induction false} TargetSound(input: seq<Token>)
    ensures var r := ReadTarget(input); r.Ok? ==> Erase(input) == YieldTarget(r.value) + Erase(r.rest)
  {
    var a := ReadAddress(input);
    var r := ReadTarget(input);
    if r.Ok? {
      AddressSound(input);
      if r.value.Block? {
        SlashNumberSound(a.rest);
        Assoc(YieldAddress(a.value), Mark(T_SLASH) + Number(r.value.ones), Erase(r.rest));
      }
    }
  }

  lemma CommaSound(input: seq<Token>)
    ensures var r := ReadComma(input); r.Ok? ==> Erase(input) == YieldComma(r.value) + Erase(r.rest)
  {
  }

  /** Whatever ReadMore answers is spelled by the whole input, of which `front` is what came before. */
  lemma {:induction false} MoreSound(front: List, input: seq<Token>, whole: seq<Token>)
    requires AllFit(front) && whole == Yield(front) + Erase(input)
    ensures var r := ReadMore(front, input);
            && (r.Complete? ==> AllFit(r.list) && Yield(r.list) == whole)
            && (r.Overflow? ==> LastOverflows(r.list) && Yield(r.list) <= whole)
    decreases |input|
  {
    var c := ReadComma(input);
    if input != [] && c.Ok? {
      var t := ReadTarget(c.rest);
      if t.Ok? {
        CommaSound(input);
        TargetSound(c.rest);
        var list := More(front, c.value, t.value);
        Regroup(Yield(front), YieldComma(c.value), YieldTarget(t.value), Erase(t.rest));
        if Fits(t.value) {
          MoreSound(list, t.rest, whole);
        }
      }
    }
  }

  lemma {:induction false} ListSound(input: seq<Token>)
    ensures var r := ReadList(input);
            && (r.Complete? ==> AllFit(r.list) && Yield(r.list) == Erase(input))
            && (r.Overflow? ==> LastOverflows(r.list) && Yield(r.list) <= Erase(input))
  {
    var t := ReadTarget(input);
    TargetSound(input);
    if t.Ok? && Fits(t.value) {
      MoreSound(One(t.value), t.rest, Erase(input));
    }
  }

  // ----- What was spelled is what is read

  lemma {:induction false} TermComplete(t: Term, head: seq<Token>, rest: seq<Token>)
    requires Erase(head) == YieldTerm(t)
    requires t.Num? ==> Lookahead(rest) != T_DASH
    ensures ReadTerm(head + rest) == Ok(t, rest)
  {
    var input := head + rest;
    assert forall i :: 0 <= i < |head| ==> Forget(input[i]) == YieldTerm(t)[i];
    assert input[|head|..] == rest;
  }

  lemma {:induction false} DotTermComplete(t: Term, head: seq<Token>, rest: seq<Token>)
    requires Erase(head) == Mark(T_DOT) + YieldTerm(t)
    requires t.Num? ==> Lookahead(rest) != T_DASH
    ensures ReadDotTerm(head + rest) == Ok(t, rest)
    ensures Lookahead(head + rest) == T_DOT
  {
    var input := head + rest;
    assert Forget(input[0]) == Token(T_DOT, 0);
    assert input[1..] == head[1..] + rest;
    assert Erase(head[1..]) == YieldTerm(t);
    TermComplete(t, head[1..], rest);
  }

  /** Cuts off the tokens of `y` at the start of `head`. */
  lemma {:induction false} Cut(head: seq<Token>, y: seq<Token>, z: seq<Token>,
                               rest: seq<Token>) returns (front: seq<Token>, back: seq<Token>)
    requires Erase(head) == y + z
    ensures head == front + back && Erase(front) == y && Erase(back) == z
    ensures head + rest == front + (back + rest)
  {
    front, back := head[..|y|], head[|y|..];
  }

  lemma {:induction false} GroupDots(a: seq<Token>, dot: seq<Token>, b: seq<Token>, c: seq<Token>, d: seq<Token>)
    ensures a + (dot + (b + (dot + (c + (dot + d))))) == a + ((dot + b) + ((dot + c) + (dot + d)))
  {
    Assoc(dot, c, dot + d);
    Assoc(dot, b, (dot + c) + (dot + d));
  }

  lemma {:induction false} CutAddress(a: Address, head: seq<Token>, rest: seq<Token>)
    returns (h1: seq<Token>, h2: seq<Token>, h3: seq<Token>, h4: seq<Token>)
    requires Erase(head) == YieldAddress(a)
    ensures Erase(h1) == YieldTerm(a.t1) && Erase(h2) == Mark(T_DOT) + YieldTerm(a.t2)
    ensures Erase(h3) == Mark(T_DOT) + YieldTerm(a.t3) && Erase(h4) == Mark(T_DOT) + YieldTerm(a.t4)
    ensures head + rest == h1 + (h2 + (h3 + (h4 + rest)))
  {
    var dot := Mark(T_DOT);
    var y2, y3, y4 := dot + YieldTerm(a.t2), dot + YieldTerm(a.t3), dot + YieldTerm(a.t4);
    GroupDots(YieldTerm(a.t1), dot, YieldTerm(a.t2), YieldTerm(a.t3), YieldTerm(a.t4));
    var r1, r2;
    h1, r1 := Cut(head, YieldTerm(a.t1), y2 + (y3 + y4), rest);
    h2, r2 := Cut(r1, y2, y3 + y4, rest);
    h3, h4 := Cut(r2, y3, y4, rest);
  }

  lemma {:induction false} AddressComplete(a: Address, head: seq<Token>, rest: seq<Token>)
    requires Erase(head) == YieldAddress(a)
    requires Lookahead(rest) != T_DASH
    ensures ReadAddress(head + rest) == Ok(a, rest)
  {
    var h1, h2, h3, h4 := CutAddress(a, head, rest);
    DotTermComplete(a.t4, h4, rest);
    DotTermComplete(a.t3, h3, h4 + rest);
    DotTermComplete(a.t2, h2, h3 + (h4 + rest));
    TermComplete(a.t1, h1, h2 + (h3 + (h4 + rest)));
  }

  lemma {:induction false} TargetComplete(t: Target, head: seq<Token>, rest: seq<Token>)
    requires Erase(head) == YieldTarget(t)
    requires t.Plain? ==> Lookahead(rest) != T_DASH && Lookahead(rest) != T_SLASH
    ensures ReadTarget(head + rest) == Ok(t, rest)
  {
    match t
    case Plain(a) => AddressComplete(a, head, rest);
    case Block(a, n) =>
      var h, m := Cut(head, YieldAddress(a), Mark(T_SLASH) + Number(n), rest);
      assert Forget(m[0]) == Token(T_SLASH, 0) && Forget(m[1]) == Token(T_NUM, n);
      AddressComplete(a, h, m + rest);
      assert (m + rest)[2..] == rest;
  }

  lemma TargetStart(t: Target)
    ensures |YieldTarget(t)| > 0 && YieldTarget(t)[0].kind in {T_NUM, T_STAR}
  {
  }

  lemma {:induction false} CommaTargetComplete(c: Comma, t: Target, head: seq<Token>, rest: seq<Token>)
    requires Erase(head) == YieldComma(c) + YieldTarget(t)
    requires t.Plain? ==> Lookahead(rest) != T_DASH && Lookahead(rest) != T_SLASH
    ensures head + rest != [] && Lookahead(head + rest) == T_COMMA
    ensures var r := ReadComma(head + rest); r.Ok? && r.value == c && ReadTarget(r.rest) == Ok(t, rest)
  {
    var hc, ht := Cut(head, YieldComma(c), YieldTarget(t), rest);
    TargetStart(t);
    TargetComplete(t, ht, rest);
    assert Forget(ht[0]) == YieldTarget(t)[0];
    CommaComplete(c, hc, ht + rest);
  }

  lemma {:induction false} CommaComplete(c: Comma, head: seq<Token>, rest: seq<Token>)
    requires Erase(head) == YieldComma(c)
    requires Lookahead(rest) != T_SPACE
    ensures ReadComma(head + rest) == Ok(c, rest)
  {
    assert forall i :: 0 <= i < |head| ==> Forget(head[i]) == YieldComma(c)[i];
    assert (head + rest)[|head|..] == rest;
  }

  /** Reading the tokens of `l` gets as far as reading on after `l`. */
  lemma {:induction false} ListComplete(l: List, head: seq<Token>, rest: seq<Token>)
    requires Erase(head) == Yield(l)
    requires AllFit(l) || LastOverflows(l)
    requires l.target.Plain? ==> rest == [] || Lookahead(rest) == T_COMMA
    ensures ReadList(head + rest) == if AllFit(l) then ReadMore(l, rest) else Overflow(l)
  {
    match l
    case One(t) => TargetComplete(t, head, rest);
    case More(front, c, t) =>
      var h, m := Cut(head, Yield(front), YieldComma(c) + YieldTarget(t), rest);
      CommaTargetComplete(c, t, m, rest);
      ListComplete(front, h, m + rest);
  }

  lemma {:induction false} CompleteIsDerivation(input: seq<Token>, l: List)
    ensures ReadList(input) == Complete(l) <==> AllFit(l) && Yield(l) == Erase(input)
  {
    ListSound(input);
    if AllFit(l) && Yield(l) == Erase(input) {
      ListComplete(l, input, []);
      assert input + [] == input;
    }
  }

  lemma {:induction false} OverflowIsDerivation(input: seq<Token>, l: List)
    ensures ReadList(input) == Overflow(l) <==> LastOverflows(l) && Yield(l) <= Erase(input)
  {
    ListSound(input);
    if LastOverflows(l) && Yield(l) <= Erase(input) { OverflowIsRead(input, l); }
  }

  lemma {:induction false} CutStart(input: seq<Token>, y: seq<Token>) returns (head: seq<Token>, rest: seq<Token>)
    requires y <= Erase(input)
    ensures input == head + rest && Erase(head) == y
  {
    head, rest := input[..|y|], input[|y|..];
    forall i | 0 <= i < |y| ensures Erase(head)[i] == y[i] { assert Erase(input)[i] == y[i]; }
  }

  lemma OverflowsDoNotFit(l: List)
    requires LastOverflows(l)
    ensures !AllFit(l) && l.target.Block?
  {
  }

  lemma {:induction false} OverflowIsRead(input: seq<Token>, l: List)
    requires LastOverflows(l) && Yield(l) <= Erase(input)
    ensures ReadList(input) == Overflow(l)
  {
    var head, rest := CutStart(input, Yield(l));
    OverflowsDoNotFit(l);
    ListComplete(l, head, rest);
  }

  /** The readings of a token sequence are exactly its derivations; in particular the grammar is unambiguous. */
  lemma {:induction false} ReadingIsDerivation(input: seq<Token>, l: List)
    ensures ReadList(input) == Complete(l) <==> AllFit(l) && Yield(l) == Erase(input)
    ensures ReadList(input) == Overflow(l) <==> LastOverflows(l) && Yield(l) <= Erase(input)
  {
    CompleteIsDerivation(input, l);
    OverflowIsDerivation(input, l);
  }

  /** Values left over on tokens that are not numbers do not matter to the reading. */
  lemma {:induction false} ReadingErases(a: seq<Token>, b: seq<Token>)
    requires Erase(a) == Erase(b)
    ensures ReadList(a) == ReadList(b)
  {
    var ra, rb := ReadList(a), ReadList(b);
    if !ra.Malformed? {
      ReadingIsDerivation(a, ra.list);
      ReadingIsDerivation(b, ra.list);
    }
    if !rb.Malformed? {
      ReadingIsDerivation(b, rb.list);
      ReadingIsDerivation(a, rb.list);
    }
  }
}
