/** The yacc driver: a loop over packed tables with an array for its stack. */
module IpParser {
  import opened IpNet
  import opened IpTables
  import opened IpGrammar
  import opened IpLex
  import opened IpAutomaton

  const INITIAL_STACK_SIZE := 16

  /** How Parse ends: it returns a code, or a semantic action panics. */
  datatype ParseEnd = Returned(code: int) | Panicked

  class Parser {
    var lval: Sym
    var lookahead: int
    const stack: array<Sym>

    constructor ()
      ensures lval == BOTTOM && fresh(stack) && stack.Length == INITIAL_STACK_SIZE
    {
      lval := BOTTOM;
      lookahead := -1;
      stack := new Sym[INITIAL_STACK_SIZE](_ => BOTTOM);
    }

    /** The tokens that are still to be shifted, the current lookahead first. */
    ghost function Pending(token: int, lex: Lexer): seq<Token>
      reads this`lval, this`lookahead, lex`line, lex`peek
    {
      if lookahead < 0 then Tokens(lex.State(), lval.num)
      else if lookahead == 0 then []
      else [Token(token, lval.num)] + Tokens(lex.State(), lval.num)
    }

    ghost predicate LooksAhead(token: int)
      reads this`lookahead
    {
      lookahead >= 0 ==> token == TokenNumber(lookahead)
    }

    /** Reads the next token unless there is a lookahead already. */
    method Lex1(lex: Lexer, token: int) returns (token': int)
      requires LooksAhead(token)
      modifies this`lval, this`lookahead, lex`line, lex`peek
      ensures LooksAhead(token') && lookahead >= 0
      ensures Pending(token', lex) == old(Pending(token, lex))
      ensures token' == Lookahead(Pending(token', lex))
      ensures lval == old(lval).(num := lval.num)
    {
      token' := token;
      if lookahead < 0 {
        var num;
        lookahead, num := lex.Lex(lval.num);
        lval := lval.(num := num);
        token' := TokenNumber(lookahead);
      }
    }

    /** The switch over semantic actions; `top` is the index of the last symbol of the right-hand side. */
    method Act(p: int, top: nat) returns (v: Value)
      requires 0 < p < PRODUCTIONS
      requires Length(p) <= top + 1 <= stack.Length
      requires p == 5 ==> Typed(stack[top - 2]) && stack[top - 2].yys == 3
      ensures v == SemanticAction(p, stack[top + 1 - Length(p)..top + 1])
    {
      var val := stack[top + 1 - Length(p)];
      match p {
      case 1 => val := val.(result := val.result + [stack[top].addrRange]);
      case 2 => val := val.(result := stack[top - 2].result + [stack[top].addrRange]);
      case 5 =>
        if stack[top].num > 32 { return None; }
        val := val.(addrRange := CidrRange(stack[top - 2].addrRange.min, stack[top].num));
      case 6 => val := val.(addrRange := stack[top].addrRange);
      case 7 =>
        var r1, r2 := stack[top - 6].octRange, stack[top - 4].octRange;
        var r3, r4 := stack[top - 2].octRange, stack[top].octRange;
        val := val.(addrRange := AddressRange([r1.min, r2.min, r3.min, r4.min], [r1.max, r2.max, r3.max, r4.max]));
      case 8 => val := val.(octRange := OctetRange(stack[top].num, stack[top].num));
      case 9 => val := val.(octRange := OctetRange(0, 255));
      case 10 => val := val.(octRange := stack[top].octRange);
      case 11 => val := val.(octRange := OctetRange(stack[top - 2].num, stack[top].num));
      case _ =>
      }
      return Some(val);
    }

    /** The stack once the pending value is pushed in the pending state. */
    ghost function Pushed(ipp: int, val: Sym, state: int): seq<Sym>
      requires -1 <= ipp < stack.Length
      reads stack
    {
      stack[..ipp + 1] + [val.(yys := state)]
    }

    /** `ipnewstate` and `ipdefault`: the next token is read only if the state needs it. */
    method NextMove(lex: Lexer, token: int, state: int) returns (move: Move, token': int)
      requires IsState(state) && LooksAhead(token)
      modifies this`lval, this`lookahead, lex`line, lex`peek
      ensures LooksAhead(token') && lval == old(lval).(num := lval.num)
      ensures Pending(token', lex) == old(Pending(token, lex))
      ensures move == Action(state, Lookahead(Pending(token', lex)))
      ensures move.Shift? ==> lookahead >= 0
    {
      token' := token;
      if PACT[state] > FLAG {
        token' := Lex1(lex, token);
      } else {
        SimpleStateIgnoresToken(state, token, Lookahead(Pending(token, lex)));
      }
      move := TableAction(state, token');
      PendingIsToken(token', lex);
      TablesEncodeAction(state, Lookahead(Pending(token', lex)));
    }

    lemma {:induction false} PendingIsToken(token: int, lex: Lexer)
      requires LooksAhead(token)
      ensures T_END <= Lookahead(Pending(token, lex)) <= T_DASH
    {
      TokenNumbers(lookahead);
      TokenNumbers(LexOne(lex.State(), lval.num).code);
    }

    /** Looks for a state on the stack that can shift the error token; there is none. */
    method Recover(top: nat)
      requires top < stack.Length
      requires forall i :: 0 <= i <= top ==> IsState(stack[i].yys)
      ensures forall i :: 0 <= i <= top ==> !Action(stack[i].yys, T_ERROR).Shift?
    {
      var ipp := top;
      while ipp >= 0
        invariant -1 <= ipp <= top
        invariant forall i :: ipp < i <= top ==> !Action(stack[i].yys, T_ERROR).Shift?
      {
        TablesEncodeAction(stack[ipp].yys, T_ERROR);
        var n := PACT[stack[ipp].yys] + T_ERROR;
        if 0 <= n < LAST {
          ChecksOfActions(n);
          var state := ACT[n];
          if CHK[state] == T_ERROR { assert false; }
        }
        ipp := ipp - 1;
      }
    }

    /** The stack entry under the right-hand side, and the state that follows it. */
    method Uncover(top: nat, p: int) returns (ipp: nat, state: int)
      requires top < stack.Length && Length(p) < top + 1 && 0 < p < PRODUCTIONS
      requires var under := Top(Below(stack[..top + 1], p)); IsState(under) && Begins(p, under)
      ensures ipp == top - Length(p) && state == Goto(Top(Below(stack[..top + 1], p)), p)
      ensures stack[ipp + 1..top + 1] == Handle(stack[..top + 1], p)
      ensures stack[..ipp + 1] == Below(stack[..top + 1], p)
    {
      TablesEncodeLength(p);
      ipp := top - R2[p];
      TablesEncodeGoto(stack[ipp].yys, p);
      state := TableGoto(stack[ipp].yys, p);
    }

    /** Pops the right-hand side of production p and finds the value and the state to push; nothing if the semantic
      * action panics. */
    method ReduceBy(lex: Lexer, top: nat, p: int, ghost input: seq<Token>) returns (ipp: int, val: Sym, state: int,
                    ok: bool)
      requires top < stack.Length && ValidStack(stack[..top + 1])
      requires Action(stack[top].yys, Lookahead(input)) == Reduce(p)
      modifies lex`output
      ensures -1 <= ipp < top && ipp == top - Length(p)
      ensures Length(p) == 1 ==> Rank(state) < Rank(stack[top].yys)
      ensures ok ==> ValidStack(Pushed(ipp, val, state))
      ensures Run(stack[..top + 1], input, old(lex.output)) ==
              if ok then Run(Pushed(ipp, val, state), input, lex.output) else Panic
    {
      ReduceRun(stack[..top + 1], p, input, lex.output);
      ipp, state := Uncover(top, p);
      var v := Act(p, top);
      if v.None? { return ipp, BOTTOM, state, false; }
      val, ok := v.sym, true;
      if p == 1 || p == 2 { lex.output := val.result; }
    }

    /** `ipstack`: puts a state and value onto the stack, which never needs to grow. */
    method Push(ipp: int, val: Sym, state: int) returns (top: nat)
      requires -1 <= ipp < stack.Length == INITIAL_STACK_SIZE && ValidStack(Pushed(ipp, val, state))
      modifies stack
      ensures top == ipp + 1 < stack.Length && stack[..top + 1] == old(Pushed(ipp, val, state))
      ensures stack[top].yys == state && IsState(state)
    {
      top := ipp + 1;
      StackDepth(Pushed(ipp, val, state), top);
      if top >= stack.Length { assert false; }
      stack[top] := val.(yys := state);
    }

    /** A valid shift consumes the lookahead. */
    method ShiftTo(lex: Lexer, top: nat, token: int, n: int)
      requires top < stack.Length && ValidStack(stack[..top + 1])
      requires lval == BOTTOM.(num := lval.num) && LooksAhead(token) && lookahead >= 0
      requires Action(stack[top].yys, Lookahead(Pending(token, lex))) == Shift(n)
      modifies this`lookahead
      ensures LooksAhead(-1) && |Pending(-1, lex)| < old(|Pending(token, lex)|)
      ensures ValidStack(Pushed(top, lval, n))
      ensures old(Run(stack[..top + 1], Pending(token, lex), lex.output)) ==
              Run(Pushed(top, lval, n), Pending(-1, lex), lex.output)
    {
      ShiftStep(stack[..top + 1], Pending(token, lex), lex.output, n);
      assert lval.(yys := n) == Shifted(Pending(token, lex)[0], n);
      lookahead := -1;
    }

    /** The driver's variables between two visits to `ipstack`. */
    ghost predicate Consistent(lex: Lexer, token: int, ipp: int, val: Sym, state: int)
      reads this`lval, this`lookahead, stack, lex`err
    {
      && -1 <= ipp < stack.Length == INITIAL_STACK_SIZE && !lex.err
      && LooksAhead(token) && lval == BOTTOM.(num := lval.num)
      && ValidStack(Pushed(ipp, val, state))
    }

    /** How the parse ends from here. */
    ghost function Remaining(lex: Lexer, token: int, ipp: int, val: Sym, state: int): Exit
      requires Consistent(lex, token, ipp, val, state)
      reads this, stack, lex
    {
      Run(Pushed(ipp, val, state), Pending(token, lex), lex.output)
    }

    ghost predicate Ends(lex: Lexer, r: ParseEnd, exit: Exit)
      reads lex`output, lex`err
    {
      match exit
      case Ret0(out) => r == Returned(0) && lex.output == out && !lex.err
      case Ret1 => r == Returned(1) && lex.err
      case Panic => r == Panicked
    }

    /** Carries out a shift or a reduction; only a reduction can end the parse, by a panic. */
    method Follow(lex: Lexer, token: int, top: nat, move: Move)
      returns (token': int, ipp: int, val: Sym, state: int, ok: bool)
      requires top < stack.Length == INITIAL_STACK_SIZE && !lex.err && ValidStack(stack[..top + 1])
      requires LooksAhead(token) && lval == BOTTOM.(num := lval.num)
      requires move == Action(stack[top].yys, Lookahead(Pending(token, lex)))
      requires move.Reduce? || (move.Shift? && lookahead >= 0)
      modifies this`lookahead, lex`output
      ensures !ok ==> old(Run(stack[..top + 1], Pending(token, lex), lex.output)) == Panic
      ensures ok ==> Consistent(lex, token', ipp, val, state)
      ensures ok ==>
                Remaining(lex, token', ipp, val, state) == old(Run(stack[..top + 1], Pending(token, lex), lex.output))
      ensures ok ==> Progress(old(|Pending(token, lex)|), top - 1, stack[top].yys, |Pending(token', lex)|, ipp, state)
    {
      if move.Shift? {
        ShiftTo(lex, top, token, move.state);
        return -1, top, lval, move.state, true;
      }
      ipp, val, state, ok := ReduceBy(lex, top, move.production, Pending(token, lex));
      token' := token;
    }

    lemma {:induction false} LastMove(lex: Lexer, token: int, top: nat, move: Move)
      requires top < stack.Length && ValidStack(stack[..top + 1])
      requires LooksAhead(token) && move == Action(stack[top].yys, Lookahead(Pending(token, lex)))
      ensures var exit := Run(stack[..top + 1], Pending(token, lex), lex.output);
        && (move.Accept? ==> exit == Ret0(lex.output))
        && (move.SyntaxError? ==> exit == Ret1)
    {
      var symbols, input := stack[..top + 1], Pending(token, lex);
      assert Top(symbols) == stack[top].yys;
      if move.Accept? { AcceptStep(symbols, input, lex.output); }
      if move.SyntaxError? { ErrorStep(symbols, input, lex.output); }
    }

    lemma {:induction false} StatesOnStack(top: nat)
      requires top < stack.Length && ValidStack(stack[..top + 1])
      ensures forall i :: 0 <= i <= top ==> IsState(stack[i].yys)
    {
      forall i | 0 <= i <= top ensures IsState(stack[i].yys) { assert stack[..top + 1][i] == stack[i]; }
    }

    method Report(lex: Lexer, top: nat, accept: bool, ghost exit: Exit) returns (end: ParseEnd)
      requires top < stack.Length && !lex.err && forall i :: 0 <= i <= top ==> IsState(stack[i].yys)
      requires exit == if accept then Ret0(lex.output) else Ret1
      modifies lex`err
      ensures Ends(lex, end, exit)
    {
      if accept { return Returned(0); }
      Recover(top);
      lex.Error();
      return Returned(1);
    }

    /** Accepts, or reports the first syntax error. */
    method Finish(lex: Lexer, token: int, top: nat, move: Move) returns (end: ParseEnd)
      requires top < stack.Length && !lex.err && ValidStack(stack[..top + 1])
      requires LooksAhead(token) && move == Action(stack[top].yys, Lookahead(Pending(token, lex)))
      requires move.Accept? || move.SyntaxError?
      modifies lex`err
      ensures Ends(lex, end, old(Run(stack[..top + 1], Pending(token, lex), lex.output)))
    {
      ghost var exit := Run(stack[..top + 1], Pending(token, lex), lex.output);
      LastMove(lex, token, top, move);
      StatesOnStack(top);
      end := Report(lex, top, move.Accept?, exit);
    }

    /** From one visit to `ipstack` to the next, or to the end. */
    method Pass(lex: Lexer, token: int, ipp: int, val: Sym, state: int)
      returns (token': int, ipp': int, val': Sym, state': int, end: ParseEnd, ended: bool)
      requires Consistent(lex, token, ipp, val, state)
      modifies this, stack, lex
      ensures ended ==> Ends(lex, end, old(Remaining(lex, token, ipp, val, state)))
      ensures !ended ==> Consistent(lex, token', ipp', val', state')
      ensures !ended ==> Remaining(lex, token', ipp', val', state') == old(Remaining(lex, token, ipp, val, state))
      ensures !ended ==> Progress(old(|Pending(token, lex)|), ipp, state, |Pending(token', lex)|, ipp', state')
    {
      var top := Push(ipp, val, state);
      var move;
      move, token' := NextMove(lex, token, state);
      if move.Accept? || move.SyntaxError? {
        end := Finish(lex, token', top, move);
        return token', ipp, val, state, end, true;
      }
      var ok;
      token', ipp', val', state', ok := Follow(lex, token', top, move);
      end, ended := Panicked, !ok;
    }

    /** Fewer tokens, or a lower stack, or a symbol that is closer to the start symbol. */
    predicate Progress(tokens: nat, ipp: int, state: int, tokens': nat, ipp': int, state': int) {
      tokens' < tokens || (tokens' == tokens && (ipp' < ipp || (ipp' == ipp && Rank(state') < Rank(state))))
    }

    /** Parses the tokens of `lex`.  Every table and stack index is in range, the stack needs no growing, and the
      * first syntax error is final. */
    method Parse(lex: Lexer) returns (r: ParseEnd)
      requires lval == BOTTOM && stack.Length == INITIAL_STACK_SIZE
      requires !lex.err && lex.output == []
      modifies this, stack, lex
      ensures ValidStack([BOTTOM])
      ensures Ends(lex, r, Run([BOTTOM], Tokens(old(lex.State()), BOTTOM.num), []))
    {
      var val, state, token, ipp, ended := BOTTOM, 0, -1, -1, false;
      lookahead, r := -1, Panicked;
      assert Pushed(ipp, val, state) == [BOTTOM];
      ghost var exit := Remaining(lex, token, ipp, val, state);
      while !ended
        invariant if ended then Ends(lex, r, exit)
                  else Consistent(lex, token, ipp, val, state) && Remaining(lex, token, ipp, val, state) == exit
        decreases !ended, |Pending(token, lex)|, ipp + 1, Rank(state)
      {
        token, ipp, val, state, r, ended := Pass(lex, token, ipp, val, state);
      }
    }
  }
}
