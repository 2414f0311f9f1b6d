/** What the table-driven parser does, as a function of its stack and its remaining tokens, and the proof that it
  * reads exactly the lists of IpGrammar.
  */
module IpAutomaton {
  import opened IpNet
  import opened IpTables
  import opened IpGrammar

  /** A stack slot: a state and the semantic value of the symbol that led to it. */
  datatype Sym = Sym(yys: int, num: Byte, octRange: OctetRange, addrRange: AddressRange, result: seq<AddressRange>)

  const NO_OCTETS := OctetRange(0, 0)

  /** How a parse ends: `ret0` with the last output, `ret1`, or a run-time panic. */
  datatype Exit = Ret0(output: seq<AddressRange>) | Ret1 | Panic

  function Shifted(t: Token, s: int): Sym { Sym(s, t.num, NO_OCTETS, NO_RANGE, []) }

  /** State t may lie directly above state s on the stack. */
  predicate Edge(s: int, t: int) {
    match t
    case 1 | 2 => s == 0
    case 3 | 4 => s == 0 || s == 8
    case 5 | 6 | 7 => s == 0 || s == 8 || s == 11 || s == 18 || s == 20
    case 8 | 9 => s == 1
    case 10 => s == 3
    case 11 => s == 4
    case 12 => s == 5
    case 13 => s == 8
    case 14 => s == 9
    case 15 => s == 10
    case 16 => s == 11
    case 17 => s == 12
    case 18 => s == 16
    case 19 => s == 18
    case 20 => s == 19
    case 21 => s == 20
    case _ => false
  }

  /** Slots of state 3 hold an address. */
  predicate Typed(x: Sym) { x.yys == 3 ==> IsIPv4(x.addrRange.min) && IsIPv4(x.addrRange.max) }

  ghost predicate ValidStack(stack: seq<Sym>) {
    && |stack| > 0
    && stack[0].yys == 0
    && (forall i :: 0 <= i < |stack| ==> IsState(stack[i].yys) && Typed(stack[i]))
    && (forall i :: 0 < i < |stack| ==> Edge(stack[i - 1].yys, stack[i].yys))
  }

  function Top(stack: seq<Sym>): int
    requires |stack| > 0
  {
    stack[|stack| - 1].yys
  }

  /** Least and greatest stack index of a state. */
  function Deepest(s: int): int {
    match s
    case 0 => 0
    case 1 | 2 => 1
    case 8 | 9 => 2
    case 3 | 4 | 13 | 14 => 3
    case 10 | 11 => 4
    case 15 | 16 => 5
    case 18 => 6
    case 19 => 7
    case 20 => 8
    case 12 => 10
    case 17 => 11
    case _ => 9
  }

  function Shallowest(s: int): int {
    match s
    case 0 => 0
    case 1 | 2 | 3 | 4 | 5 | 6 | 7 => 1
    case 8 | 9 | 10 | 11 | 12 => 2
    case 13 | 14 | 15 | 16 | 17 => 3
    case 18 => 4
    case 19 => 5
    case 20 => 6
    case _ => 7
  }

  /** The stack never grows past index 11, and a state is deep enough for what is popped from it. */
  lemma {:induction false} StackDepth(stack: seq<Sym>, i: nat)
    requires ValidStack(stack) && i < |stack|
    ensures Shallowest(stack[i].yys) <= i <= Deepest(stack[i].yys) <= 11
  {
    if i > 0 {
      StackDepth(stack, i - 1);
      assert Edge(stack[i - 1].yys, stack[i].yys);
    }
  }

  /** State s holds a complete right-hand side of production p. */
  predicate Completes(s: int, p: int) {
    match p
    case 1 => s == 2
    case 2 => s == 13
    case 3 => s == 9
    case 4 => s == 14
    case 5 => s == 15
    case 6 => s == 3
    case 7 => s == 21
    case 8 => s == 5
    case 9 => s == 6
    case 10 => s == 7
    case 11 => s == 17
    case _ => false
  }

  function Below(stack: seq<Sym>, p: int): seq<Sym>
    requires Length(p) <= |stack|
  {
    stack[..|stack| - Length(p)]
  }

  function Handle(stack: seq<Sym>, p: int): seq<Sym>
    requires Length(p) <= |stack|
  {
    stack[|stack| - Length(p)..]
  }

  /** A complete right-hand side can be popped, and what it was pushed on is a state where its production begins. */
  lemma {:induction false} HandleIsPoppable(stack: seq<Sym>, p: int)
    requires ValidStack(stack) && Completes(Top(stack), p)
    ensures Length(p) < |stack|
    ensures ValidStack(Below(stack, p)) && Begins(p, Top(Below(stack, p)))
    ensures p == 5 ==> Handle(stack, p)[0].yys == 3
    ensures p == 2 ==> Handle(stack, p)[0].yys == 1
  {
    var n := |stack| - 1;
    StackDepth(stack, n);
    if p == 7 {
      assert stack[n - 1].yys == 20 && stack[n - 2].yys == 19 && stack[n - 3].yys == 18;
      assert stack[n - 4].yys == 16 && stack[n - 5].yys == 11 && stack[n - 6].yys == 4;
      assert Edge(stack[n - 7].yys, stack[n - 6].yys);
    } else if Length(p) == 3 {
      assert Edge(stack[n - 1].yys, stack[n].yys);
      assert Edge(stack[n - 2].yys, stack[n - 1].yys);
      assert Edge(stack[n - 3].yys, stack[n - 2].yys);
    } else if p == 4 {
      assert Edge(stack[n - 1].yys, stack[n].yys);
      assert Edge(stack[n - 2].yys, stack[n - 1].yys);
    } else {
      assert Edge(stack[n - 1].yys, stack[n].yys);
    }
  }

  /** The semantic action of production p on the values of its right-hand side; `None` is a panic. */
  datatype Value = None | Some(sym: Sym)

  function SemanticAction(p: int, d: seq<Sym>): (v: Value)
    requires |d| == Length(p)
    requires p == 5 ==> Typed(d[0]) && d[0].yys == 3
    ensures p == 7 && v.Some? ==> IsIPv4(v.sym.addrRange.min) && IsIPv4(v.sym.addrRange.max)
  {
    match p
    case 1 => Some(d[0].(result := d[0].result + [d[0].addrRange]))
    case 2 => Some(d[0].(result := d[0].result + [d[2].addrRange]))
    case 5 => if d[2].num > 32 then None else Some(d[0].(addrRange := CidrRange(d[0].addrRange.min, d[2].num)))
    case 7 =>
      Some(d[0].(addrRange := AddressRange(
                   [d[0].octRange.min, d[2].octRange.min, d[4].octRange.min, d[6].octRange.min],
                   [d[0].octRange.max, d[2].octRange.max, d[4].octRange.max, d[6].octRange.max])))
    case 8 => Some(d[0].(octRange := OctetRange(d[0].num, d[0].num)))
    case 9 => Some(d[0].(octRange := OctetRange(0, 255)))
    case 11 => Some(d[0].(octRange := OctetRange(d[0].num, d[2].num)))
    case _ => Some(d[0])
  }

  /** Reductions of one symbol climb this order. */
  function Rank(s: int): nat {
    match s
    case 5 | 6 | 7 => 2
    case 4 | 16 | 19 | 21 | 2 | 13 | 9 => 1
    case 3 => 2
    case _ => 0
  }

  lemma PushKeepsValid(stack: seq<Sym>, x: Sym)
    requires ValidStack(stack) && IsState(x.yys) && Edge(Top(stack), x.yys) && Typed(x)
    ensures ValidStack(stack + [x])
  {
  }

  lemma ShiftIsEdge(s: int, tok: int)
    requires IsState(s) && Action(s, tok).Shift?
    ensures IsState(Action(s, tok).state) && Edge(s, Action(s, tok).state) && Action(s, tok).state != 3 && tok != T_END
  {
  }

  lemma GotoIsEdge(s: int, p: int)
    requires IsState(s) && Begins(p, s)
    ensures IsState(Goto(s, p)) && Edge(s, Goto(s, p)) && (Goto(s, p) == 3 <==> p == 7)
  {
  }

  lemma ReduceCompletes(s: int, tok: int)
    requires IsState(s) && Action(s, tok).Reduce?
    ensures Completes(s, Action(s, tok).production)
  {
  }

  /** The parse from `stack` on: one call per pass through `ipstack`. */
  ghost function Run(stack: seq<Sym>, input: seq<Token>, output: seq<AddressRange>): Exit
    requires ValidStack(stack)
    decreases |input|, |stack|, Rank(Top(stack))
  {
    match Action(Top(stack), Lookahead(input))
    case Accept => Ret0(output)
    case SyntaxError => Ret1
    case Shift(s) =>
      ShiftIsEdge(Top(stack), Lookahead(input));
      PushKeepsValid(stack, Shifted(input[0], s));
      Run(stack + [Shifted(input[0], s)], input[1..], output)
    case Reduce(p) =>
      ReduceCompletes(Top(stack), Lookahead(input));
      HandleIsPoppable(stack, p);
      var below := Below(stack, p);
      match SemanticAction(p, Handle(stack, p))
      case None => Panic
      case Some(v) =>
        GotoIsEdge(Top(below), p);
        var x := v.(yys := Goto(Top(below), p));
        PushKeepsValid(below, x);
        Run(below + [x], input, if p == 1 || p == 2 then x.result else output)
  }

  // ----- The automaton follows the recursive-descent reading

  lemma {:induction false} ShiftStep(stack: seq<Sym>, input: seq<Token>, output: seq<AddressRange>, s: int)
    requires ValidStack(stack) && Action(Top(stack), Lookahead(input)) == Shift(s)
    ensures input != [] && ValidStack(stack + [Shifted(input[0], s)])
    ensures Run(stack, input, output) == Run(stack + [Shifted(input[0], s)], input[1..], output)
  {
    ShiftIsEdge(Top(stack), Lookahead(input));
    PushKeepsValid(stack, Shifted(input[0], s));
  }

  lemma AcceptStep(stack: seq<Sym>, input: seq<Token>, output: seq<AddressRange>)
    requires ValidStack(stack) && Action(Top(stack), Lookahead(input)) == Accept
    ensures Run(stack, input, output) == Ret0(output)
  {
  }

  lemma ErrorStep(stack: seq<Sym>, input: seq<Token>, output: seq<AddressRange>)
    requires ValidStack(stack) && Action(Top(stack), Lookahead(input)) == SyntaxError
    ensures Run(stack, input, output) == Ret1
  {
  }

  /** A reduction pops a complete right-hand side and pushes the value that the semantic action computes. */
  lemma {:induction false} ReduceRun(stack: seq<Sym>, p: int, input: seq<Token>, output: seq<AddressRange>)
    requires ValidStack(stack) && Action(Top(stack), Lookahead(input)) == Reduce(p)
    ensures Length(p) < |stack| && ValidStack(Below(stack, p)) && Begins(p, Top(Below(stack, p)))
    ensures p == 5 ==> Handle(stack, p)[0].yys == 3 && Typed(Handle(stack, p)[0])
    ensures Length(p) == 1 ==> Rank(Goto(Top(Below(stack, p)), p)) < Rank(Top(stack))
    ensures match SemanticAction(p, Handle(stack, p))
            case None => Run(stack, input, output) == Panic
            case Some(v) =>
              var x := v.(yys := Goto(Top(Below(stack, p)), p));
              && ValidStack(Below(stack, p) + [x])
              && Run(stack, input, output) ==
                 Run(Below(stack, p) + [x], input, if p == 1 || p == 2 then x.result else output)
  {
    ReduceCompletes(Top(stack), Lookahead(input));
    HandleIsPoppable(stack, p);
    GotoIsEdge(Top(Below(stack, p)), p);
    var v := SemanticAction(p, Handle(stack, p));
    if v.Some? { PushKeepsValid(Below(stack, p), v.sym.(yys := Goto(Top(Below(stack, p)), p))); }
  }

  lemma {:induction false} ReduceStep(below: seq<Sym>, d: seq<Sym>, p: int, v: Sym, input: seq<Token>,
                                      output: seq<AddressRange>)
    requires ValidStack(below + d) && ValidStack(below) && |d| == Length(p)
    requires Action(Top(below + d), Lookahead(input)) == Reduce(p)
    requires p == 5 ==> Typed(d[0]) && d[0].yys == 3
    requires SemanticAction(p, d) == Some(v)
    ensures var x := v.(yys := Goto(Top(below), p));
            && ValidStack(below + [x])
            && Run(below + d, input, output) == Run(below + [x], input, if p == 1 || p == 2 then x.result else output)
  {
    assert Below(below + d, p) == below && Handle(below + d, p) == d;
    ReduceRun(below + d, p, input, output);
  }

  lemma {:induction false} PanicStep(below: seq<Sym>, d: seq<Sym>, input: seq<Token>, output: seq<AddressRange>)
    requires ValidStack(below + d) && |d| == 3 && d[2].yys == 15 && d[2].num > 32
    ensures Run(below + d, input, output) == Panic
  {
    assert Handle(below + d, 5) == d;
  }

  function TermSym(s: int, first: Token, r: OctetRange): Sym { Sym(s, first.num, r, NO_RANGE, []) }

  /** A term is read off and its octet range pushed, or the parse fails. */
  lemma {:induction false} TermRun(stack: seq<Sym>, input: seq<Token>, output: seq<AddressRange>)
    requires ValidStack(stack) && Begins(8, Top(stack))
    ensures match ReadTerm(input)
            case Fail => Run(stack, input, output) == Ret1
            case Ok(t, rest) =>
              var x := TermSym(Goto(Top(stack), 8), input[0], TermRange(t));
              && ValidStack(stack + [x])
              && Run(stack, input, output) == Run(stack + [x], rest, output)
  {
    var tok := Lookahead(input);
    if tok == T_STAR {
      ShiftStep(stack, input, output, 6);
      var x := Shifted(input[0], 6);
      ReduceStep(stack, [x], 9, x.(octRange := OctetRange(0, 255)), input[1..], output);
    } else if tok == T_NUM {
      ShiftStep(stack, input, output, 5);
      var x := Shifted(input[0], 5);
      if Lookahead(input[1..]) == T_DASH {
        SpanRun(stack, input, output);
      } else {
        ReduceStep(stack, [x], 8, x.(octRange := OctetRange(x.num, x.num)), input[1..], output);
      }
    }
  }

  lemma {:induction false} SpanRun(stack: seq<Sym>, input: seq<Token>, output: seq<AddressRange>)
    requires ValidStack(stack) && Begins(8, Top(stack))
    requires Lookahead(input) == T_NUM && Lookahead(input[1..]) == T_DASH
    ensures if Lookahead(input[2..]) != T_NUM then Run(stack, input, output) == Ret1
            else var x := TermSym(Goto(Top(stack), 8), input[0], OctetRange(input[0].num, input[2].num));
              && ValidStack(stack + [x])
              && Run(stack, input, output) == Run(stack + [x], input[3..], output)
  {
    var x5, x12 := Shifted(input[0], 5), Shifted(input[1], 12);
    ShiftStep(stack, input, output, 5);
    ShiftStep(stack + [x5], input[1..], output, 12);
    assert input[1..][1..] == input[2..];
    if Lookahead(input[2..]) == T_NUM {
      ShiftStep(stack + [x5] + [x12], input[2..], output, 17);
      assert input[2..][1..] == input[3..];
      SpanReduce(stack, x5, x12, Shifted(input[2], 17), input[3..], output);
    }
  }

  lemma {:induction false} SpanOnly(stack: seq<Sym>, x5: Sym, x12: Sym, x17: Sym, input: seq<Token>,
                                    output: seq<AddressRange>)
    returns (v: Sym)
    requires ValidStack(stack) && Begins(8, Top(stack)) && ValidStack(stack + [x5] + [x12] + [x17]) && x17.yys == 17
    ensures v == x5.(yys := 7, octRange := OctetRange(x5.num, x17.num)) && ValidStack(stack + [v])
    ensures Run(stack + [x5] + [x12] + [x17], input, output) == Run(stack + [v], input, output)
  {
    var d := [x5, x12, x17];
    assert stack + [x5] + [x12] + [x17] == stack + d;
    v := x5.(octRange := OctetRange(x5.num, x17.num));
    ReduceStep(stack, d, 11, v, input, output);
    v := v.(yys := 7);
  }

  lemma {:induction false} SpanReduce(stack: seq<Sym>, x5: Sym, x12: Sym, x17: Sym, input: seq<Token>,
                                      output: seq<AddressRange>)
    requires ValidStack(stack) && Begins(8, Top(stack)) && ValidStack(stack + [x5] + [x12] + [x17]) && x17.yys == 17
    ensures var x := x5.(yys := Goto(Top(stack), 8), octRange := OctetRange(x5.num, x17.num));
            && ValidStack(stack + [x])
            && Run(stack + [x5] + [x12] + [x17], input, output) == Run(stack + [x], input, output)
  {
    var v := SpanOnly(stack, x5, x12, x17, input, output);
    ReduceStep(stack, [v], 10, v, input, output);
  }

  /** The states entered on a dot and on the term after it. */
  function DotState(s: int): int { if s == 4 then 11 else if s == 16 then 18 else 20 }
  function NextTermState(s: int): int { if s == 4 then 16 else if s == 16 then 19 else 21 }

  function DotTermSyms(s: int, input: seq<Token>, t: Term): seq<Sym>
    requires |input| >= 2
  {
    [Shifted(input[0], DotState(s)), TermSym(NextTermState(s), input[1], TermRange(t))]
  }

  lemma {:induction false} DotTermRun(stack: seq<Sym>, input: seq<Token>, output: seq<AddressRange>)
    requires ValidStack(stack) && Top(stack) in {4, 16, 19}
    ensures match ReadDotTerm(input)
            case Fail => Run(stack, input, output) == Ret1
            case Ok(t, rest) =>
              && |input| >= 2
              && ValidStack(stack + DotTermSyms(Top(stack), input, t))
              && Run(stack, input, output) == Run(stack + DotTermSyms(Top(stack), input, t), rest, output)
  {
    if Lookahead(input) == T_DOT {
      var dot := Shifted(input[0], DotState(Top(stack)));
      ShiftStep(stack, input, output, dot.yys);
      TermRun(stack + [dot], input[1..], output);
      var r := ReadTerm(input[1..]);
      if r.Ok? {
        assert stack + [dot] + [TermSym(NextTermState(Top(stack)), input[1], TermRange(r.value))] ==
               stack + DotTermSyms(Top(stack), input, r.value);
      }
    }
  }

  function AddressSym(s: int, first: Token, a: Address, r: AddressRange): Sym {
    Sym(s, first.num, TermRange(a.t1), r, [])
  }

  /** An address is read off and its range pushed, or the parse fails. */
  lemma {:induction false} AddressRun(stack: seq<Sym>, input: seq<Token>, output: seq<AddressRange>)
    requires ValidStack(stack) && Begins(7, Top(stack))
    ensures match ReadAddress(input)
            case Fail => Run(stack, input, output) == Ret1
            case Ok(a, rest) =>
              var x := AddressSym(3, input[0], a, AddressRange(LowAddress(a), HighAddress(a)));
              && ValidStack(stack + [x])
              && Run(stack, input, output) == Run(stack + [x], rest, output)
  {
    TermRun(stack, input, output);
    var r1 := ReadTerm(input);
    if r1.Ok? {
      var x1 := TermSym(4, input[0], TermRange(r1.value));
      DotTermRun(stack + [x1], r1.rest, output);
      var r2 := ReadDotTerm(r1.rest);
      if r2.Ok? {
        var d2 := DotTermSyms(4, r1.rest, r2.value);
        DotTermRun(stack + [x1] + d2, r2.rest, output);
        var r3 := ReadDotTerm(r2.rest);
        if r3.Ok? {
          var d3 := DotTermSyms(16, r2.rest, r3.value);
          DotTermRun(stack + [x1] + d2 + d3, r3.rest, output);
          var r4 := ReadDotTerm(r3.rest);
          if r4.Ok? {
            var d4 := DotTermSyms(19, r3.rest, r4.value);
            AddressReduce(stack, x1, d2, d3, d4, r4.rest, output);
          }
        }
      }
    }
  }

  lemma {:induction false} AddressReduce(stack: seq<Sym>, x1: Sym, d2: seq<Sym>, d3: seq<Sym>, d4: seq<Sym>,
                      rest: seq<Token>, output: seq<AddressRange>)
    requires ValidStack(stack) && ValidStack(stack + [x1] + d2 + d3 + d4)
    requires Begins(7, Top(stack)) && |d2| == |d3| == |d4| == 2 && d4[1].yys == 21
    ensures var r2, r3, r4 := d2[1].octRange, d3[1].octRange, d4[1].octRange;
            var x := x1.(yys := 3, addrRange := AddressRange([x1.octRange.min, r2.min, r3.min, r4.min],
                                                             [x1.octRange.max, r2.max, r3.max, r4.max]));
            && ValidStack(stack + [x])
            && Run(stack + [x1] + d2 + d3 + d4, rest, output) == Run(stack + [x], rest, output)
  {
    var d := [x1] + d2 + d3 + d4;
    assert stack + [x1] + d2 + d3 + d4 == stack + d;
    assert d[0] == x1 && d[2] == d2[1] && d[4] == d3[1] && d[6] == d4[1];
    ReduceStep(stack, d, 7, SemanticAction(7, d).sym, rest, output);
  }

  /** A target is read off and its range pushed, an oversized prefix panics, or the parse fails. */
  lemma {:induction false} TargetRun(stack: seq<Sym>, input: seq<Token>, output: seq<AddressRange>)
    requires ValidStack(stack) && Begins(5, Top(stack))
    ensures match ReadTarget(input)
            case Fail => Run(stack, input, output) == Ret1
            case Ok(t, rest) =>
              if Fits(t) then
                var x := AddressSym(Goto(Top(stack), 5), input[0], t.address, TargetRange(t));
                && ValidStack(stack + [x])
                && Run(stack, input, output) == Run(stack + [x], rest, output)
              else
                Run(stack, input, output) == Panic
  {
    AddressRun(stack, input, output);
    var r := ReadAddress(input);
    if r.Ok? {
      var x := AddressSym(3, input[0], r.value, AddressRange(LowAddress(r.value), HighAddress(r.value)));
      if Lookahead(r.rest) != T_SLASH {
        ReduceStep(stack, [x], 6, x, r.rest, output);
      } else {
        BlockRun(stack, x, r.rest, output);
      }
    }
  }

  lemma {:induction false} BlockShifts(stack: seq<Sym>, x: Sym, input: seq<Token>, output: seq<AddressRange>)
    requires ValidStack(stack + [x]) && x.yys == 3
    requires Lookahead(input) == T_SLASH && Lookahead(input[1..]) == T_NUM
    ensures var d := [x, Shifted(input[0], 10), Shifted(input[1], 15)];
            ValidStack(stack + d) && Run(stack + [x], input, output) == Run(stack + d, input[2..], output)
  {
    var x10, x15 := Shifted(input[0], 10), Shifted(input[1], 15);
    ShiftStep(stack + [x], input, output, 10);
    ShiftStep(stack + [x] + [x10], input[1..], output, 15);
    assert input[1..][1..] == input[2..];
    assert stack + [x] + [x10] + [x15] == stack + [x, x10, x15];
  }

  lemma {:induction false} BlockRun(stack: seq<Sym>, x: Sym, input: seq<Token>, output: seq<AddressRange>)
    requires ValidStack(stack) && ValidStack(stack + [x]) && x.yys == 3 && Typed(x) && Begins(5, Top(stack))
    requires Lookahead(input) == T_SLASH
    ensures if Lookahead(input[1..]) != T_NUM then Run(stack + [x], input, output) == Ret1
            else if input[1].num > 32 then Run(stack + [x], input, output) == Panic
            else var y := x.(yys := Goto(Top(stack), 5), addrRange := CidrRange(x.addrRange.min, input[1].num));
              && ValidStack(stack + [y])
              && Run(stack + [x], input, output) == Run(stack + [y], input[2..], output)
  {
    ShiftStep(stack + [x], input, output, 10);
    if Lookahead(input[1..]) == T_NUM {
      var d := [x, Shifted(input[0], 10), Shifted(input[1], 15)];
      BlockShifts(stack, x, input, output);
      if input[1].num > 32 {
        PanicStep(stack, d, input[2..], output);
      } else {
        ReduceStep(stack, d, 5, SemanticAction(5, d).sym, input[2..], output);
      }
    }
  }

  function CommaSym(first: Token): Sym { Shifted(first, 8) }

  lemma {:induction false} CommaRun(stack: seq<Sym>, input: seq<Token>, output: seq<AddressRange>)
    requires ValidStack(stack) && Top(stack) == 1
    requires Lookahead(input) != T_END
    ensures var r := ReadComma(input);
            if r.Fail? then Run(stack, input, output) == Ret1
            else
              && ValidStack(stack + [CommaSym(input[0])])
              && Run(stack, input, output) == Run(stack + [CommaSym(input[0])], r.rest, output)
  {
    if Lookahead(input) == T_COMMA {
      var x9 := Shifted(input[0], 9);
      ShiftStep(stack, input, output, 9);
      if Lookahead(input[1..]) == T_SPACE {
        var x14 := Shifted(input[1], 14);
        ShiftStep(stack + [x9], input[1..], output, 14);
        assert input[1..][1..] == input[2..];
        assert stack + [x9] + [x14] == stack + [x9, x14];
        ReduceStep(stack, [x9, x14], 4, x9, input[2..], output);
      } else {
        ReduceStep(stack, [x9], 3, x9, input[1..], output);
      }
    }
  }

  /** No token in the input stands for its end. */
  predicate NoEnd(input: seq<Token>) { forall i :: 0 <= i < |input| ==> input[i].kind != T_END }

  lemma {:induction false} NoEndAfter(input: seq<Token>, rest: seq<Token>, y: seq<Token>)
    requires NoEnd(input) && Erase(input) == y + Erase(rest)
    ensures NoEnd(rest)
  {
    forall i | 0 <= i < |rest| ensures rest[i].kind != T_END {
      assert Erase(input)[|y| + i] == Erase(rest)[i];
    }
  }

  lemma {:induction false} NoEndAfterTarget(input: seq<Token>)
    requires NoEnd(input) && ReadTarget(input).Ok?
    ensures NoEnd(ReadTarget(input).rest)
  {
    TargetSound(input);
    NoEndAfter(input, ReadTarget(input).rest, YieldTarget(ReadTarget(input).value));
  }

  lemma {:induction false} NoEndAfterComma(input: seq<Token>)
    requires NoEnd(input) && ReadComma(input).Ok?
    ensures NoEnd(ReadComma(input).rest)
  {
    CommaSound(input);
    NoEndAfter(input, ReadComma(input).rest, YieldComma(ReadComma(input).value));
  }

  /** Production 2 appends the range of the target to the list. */
  lemma {:induction false} AppendReduce(bottom: Sym, x: Sym, comma: Sym, y: Sym, input: seq<Token>,
                                        output: seq<AddressRange>)
    requires ValidStack([bottom]) && ValidStack([bottom] + [x] + [comma] + [y])
    requires x.yys == 1 && y.yys == 13
    ensures var x' := x.(result := x.result + [y.addrRange]);
            && ValidStack([bottom] + [x'])
            && Run([bottom] + [x] + [comma] + [y], input, output) == Run([bottom] + [x'], input, x'.result)
  {
    var d := [x, comma, y];
    assert [bottom] + [x] + [comma] + [y] == [bottom] + d;
    ReduceStep([bottom], d, 2, x.(result := x.result + [y.addrRange]), input, output);
  }

  /** Production 1 starts the list with the range of the target. */
  lemma {:induction false} StartReduce(bottom: Sym, y: Sym, input: seq<Token>, output: seq<AddressRange>)
    requires ValidStack([bottom]) && ValidStack([bottom] + [y])
    requires y.yys == 2
    ensures var x := y.(yys := 1, result := y.result + [y.addrRange]);
            && ValidStack([bottom] + [x])
            && Run([bottom] + [y], input, output) == Run([bottom] + [x], input, x.result)
  {
    ReduceStep([bottom], [y], 1, y.(result := y.result + [y.addrRange]), input, output);
  }

  /** How a reading ends the parse. */
  function ExitOf(r: Reading): Exit
    requires r.Complete? ==> AllFit(r.list)
  {
    match r
    case Complete(l) => Ret0(Ranges(l))
    case Overflow(_) => Panic
    case Malformed => Ret1
  }

  /** With a list and its ranges on the stack, the parse ends the way the reading ends. */
  lemma {:induction false} MoreRun(bottom: Sym, x: Sym, front: List, input: seq<Token>)
    requires ValidStack([bottom]) && ValidStack([bottom] + [x]) && x.yys == 1
    requires AllFit(front) && x.result == Ranges(front) && NoEnd(input)
    ensures Run([bottom] + [x], input, x.result) == ExitOf(ReadMore(front, input))
    decreases |input|
  {
    var stack := [bottom] + [x];
    if input != [] {
      CommaRun(stack, input, x.result);
      var c := ReadComma(input);
      if c.Ok? {
        NoEndAfterComma(input);
        var comma := CommaSym(input[0]);
        TargetRun(stack + [comma], c.rest, x.result);
        var t := ReadTarget(c.rest);
        if t.Ok? && Fits(t.value) {
          NoEndAfterTarget(c.rest);
          var y := AddressSym(13, c.rest[0], t.value.address, TargetRange(t.value));
          AppendReduce(bottom, x, comma, y, t.rest, x.result);
          MoreRun(bottom, x.(result := x.result + [y.addrRange]), More(front, c.value, t.value), t.rest);
        }
      }
    }
  }

  const BOTTOM := Sym(0, 0, NO_OCTETS, NO_RANGE, [])

  lemma {:induction false} ListRun(input: seq<Token>)
    requires NoEnd(input)
    ensures ValidStack([BOTTOM]) && Run([BOTTOM], input, []) == ExitOf(ReadList(input))
  {
    TargetRun([BOTTOM], input, []);
    var t := ReadTarget(input);
    if t.Ok? && Fits(t.value) {
      NoEndAfterTarget(input);
      var y := AddressSym(2, input[0], t.value.address, TargetRange(t.value));
      StartReduce(BOTTOM, y, t.rest, []);
      MoreRun(BOTTOM, y.(yys := 1, result := y.result + [y.addrRange]), One(t.value), t.rest);
    }
  }

  /** The parse of a token sequence.  It succeeds exactly on the sequences that derive from the grammar with every
    * prefix length at most 32, and yields the meaning of the derivation; it panics exactly when a prefix of the
    * tokens derives a list whose last target is the first with a longer prefix. */
  lemma {:induction false} ParseMeetsGrammar(input: seq<Token>, l: List)
    requires NoEnd(input)
    ensures ValidStack([BOTTOM])
    ensures Run([BOTTOM], input, []).Ret0? <==> exists d: List :: AllFit(d) && Yield(d) == Erase(input)
    ensures AllFit(l) && Yield(l) == Erase(input) ==> Run([BOTTOM], input, []) == Ret0(Ranges(l))
    ensures Run([BOTTOM], input, []).Panic? <==> exists d: List :: LastOverflows(d) && Yield(d) <= Erase(input)
  {
    ListRun(input);
    var r := ReadList(input);
    ListSound(input);
    if r.Complete? { ReadingIsDerivation(input, r.list); }
    if r.Overflow? { ReadingIsDerivation(input, r.list); }
    forall d: List
      ensures AllFit(d) && Yield(d) == Erase(input) ==> r == Complete(d)
      ensures LastOverflows(d) && Yield(d) <= Erase(input) ==> r == Overflow(d)
    {
      ReadingIsDerivation(input, d);
    }
  }
}
