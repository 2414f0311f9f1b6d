/** The packed LALR tables of the address-list parser and the automaton they encode.
  *
  * `TableAction` and `TableGoto` are the driver's own lookups; `Action` and `Goto` are the
  * automaton written out state by state.  `TablesEncodeAction` and `TablesEncodeGoto` show that they agree.
  */
module IpTables {

  // Internal token numbers.
  const T_END := 1
  const T_ERROR := 2
  const T_UNKNOWN := 3
  const T_NUM := 4
  const T_COMMA := 5
  const T_SPACE := 6
  const T_SLASH := 7
  const T_DOT := 8
  const T_STAR := 9
  const T_DASH := 10

  const FLAG := -1000
  const LAST := 22
  const STATES := 22
  const PRODUCTIONS := 12

  const EXCA: seq<int> := [-1, 1, 1, -1, -2, 0]
  const ACT: seq<int> := [4, 5, 12, 20, 2, 10, 6, 18, 11, 14, 9, 17, 16, 13, 15, 8, 1, 7, 3, 19, 0, 21]
  const PACT: seq<int> := [-3, 5, -1000, -2, 0, -8, -1000, -1000, -3, 3, 10, -3, 7, -1000, -1000, -1000, -1, -1000,
                           -3, -5, -3, -1000]
  const PGO: seq<int> := [0, 18, 4, 0, 17, 16, 15]
  const R1: seq<int> := [0, 5, 5, 6, 6, 2, 2, 1, 3, 3, 3, 4]
  const R2: seq<int> := [0, 1, 3, 1, 2, 3, 1, 7, 1, 1, 1, 3]
  const CHK: seq<int> := [-1000, -5, -2, -1, -3, 4, 9, -4, -6, 5, 7, 8, 10, -2, 6, 4, -3, 4, 8, -3, 8, -3]
  const DEF: seq<int> := [0, -2, 1, 6, 0, 8, 9, 10, 0, 3, 0, 0, 0, 2, 4, 5, 0, 11, 0, 0, 0, 7]

  datatype Move = Shift(state: int) | Reduce(production: int) | Accept | SyntaxError

  predicate IsState(s: int) { 0 <= s < STATES }

  /** The action the driver reads off the packed tables, with `tok` as lookahead. */
  function TableAction(s: int, tok: int): Move
    requires IsState(s)
  {
    var n := PACT[s] + tok;
    if PACT[s] > FLAG && 0 <= n < LAST && CHK[ACT[n]] == tok then Shift(ACT[n])
    else
      var d := if DEF[s] == -2 then Exception(ExceptionRow(0, s), tok) else DEF[s];
      if d < 0 then Accept else if d == 0 then SyntaxError else Reduce(d)
  }

  /** Index of the first pair after the header `-1, s` in the exception table. */
  function ExceptionRow(xi: nat, s: int): nat
    decreases |EXCA| - xi
  {
    if xi + 1 < |EXCA| && !(EXCA[xi] == -1 && EXCA[xi + 1] == s) then ExceptionRow(xi + 2, s) else xi + 2
  }

  /** The entry for `tok` in the row that starts at `xi`, or the row's default. */
  function Exception(xi: nat, tok: int): int
    decreases |EXCA| - xi
  {
    if xi + 1 >= |EXCA| then 0
    else if EXCA[xi] < 0 || EXCA[xi] == tok then EXCA[xi + 1]
    else Exception(xi + 2, tok)
  }

  /** The state entered after production `p` is reduced on top of state `s`. */
  function TableGoto(s: int, p: int): int
    requires IsState(s) && 0 < p < PRODUCTIONS
  {
    var g := PGO[R1[p]];
    var j := g + s + 1;
    if j >= LAST then ACT[g]
    else if CHK[ACT[j]] != -R1[p] then ACT[g]
    else ACT[j]
  }

  /** The automaton's action, state by state. */
  function Action(s: int, tok: int): Move
    requires IsState(s)
  {
    match s
    case 0 | 8 | 11 | 18 | 20 =>
      if tok == T_NUM then Shift(5) else if tok == T_STAR then Shift(6) else SyntaxError
    case 1 => if tok == T_COMMA then Shift(9) else if tok == T_END then Accept else SyntaxError
    case 2 => Reduce(1)
    case 3 => if tok == T_SLASH then Shift(10) else Reduce(6)
    case 4 => if tok == T_DOT then Shift(11) else SyntaxError
    case 5 => if tok == T_DASH then Shift(12) else Reduce(8)
    case 6 => Reduce(9)
    case 7 => Reduce(10)
    case 9 => if tok == T_SPACE then Shift(14) else Reduce(3)
    case 10 => if tok == T_NUM then Shift(15) else SyntaxError
    case 12 => if tok == T_NUM then Shift(17) else SyntaxError
    case 13 => Reduce(2)
    case 14 => Reduce(4)
    case 15 => Reduce(5)
    case 16 => if tok == T_DOT then Shift(18) else SyntaxError
    case 17 => Reduce(11)
    case 19 => if tok == T_DOT then Shift(20) else SyntaxError
    case _ => Reduce(7)
  }

  /** The automaton's goto; `s` is a state in which production `p` can begin. */
  function Goto(s: int, p: int): int
  {
    match p
    case 1 | 2 => 1
    case 3 | 4 => 8
    case 5 | 6 => if s == 8 then 13 else 2
    case 7 => 3
    case 11 => 7
    case _ => if s == 11 then 16 else if s == 18 then 19 else if s == 20 then 21 else 4
  }

  /** Length of the right-hand side of production `p`. */
  function Length(p: int): nat
  {
    match p
    case 2 | 5 | 11 => 3
    case 4 => 2
    case 7 => 7
    case _ => 1
  }

  /** Production `p` can be reduced down to state `s`: `s` is where its left-hand side may begin. */
  predicate Begins(p: int, s: int)
  {
    match p
    case 1 | 2 => s == 0
    case 3 | 4 => s == 1
    case 5 | 6 | 7 => s == 0 || s == 8
    case 8 | 9 | 10 | 11 => s == 0 || s == 8 || s == 11 || s == 18 || s == 20
    case _ => false
  }

  /** The symbol recorded for each slot of the action table. */
  const CHECKED: seq<int> := [-3, 4, 10, 8, -2, 7, 9, 8, 8, 6, 5, 4, -3, -2, 4, -6, -5, -4, -1, -3, -1000, -3]

  lemma ChecksOfActions(n: int)
    requires 0 <= n < LAST
    ensures CHK[ACT[n]] == CHECKED[n]
  {
  }

  /** States that reduce without looking at the next token. */
  lemma {:induction false} SimpleStates(s: int, tok: int)
    requires s in {2, 6, 7, 13, 14, 15, 17, 21}
    ensures TableAction(s, tok) == Action(s, tok)
  {
    match s {
    case 2 =>
    case 6 =>
    case 7 =>
    case 13 =>
    case 14 =>
    case 15 =>
    case 17 =>
    case 21 =>
    }
  }

  /** States in which a term begins. */
  lemma {:induction false} TermStates(s: int, tok: int)
    requires s in {0, 8, 11, 18, 20} && T_END <= tok <= T_DASH
    ensures TableAction(s, tok) == Action(s, tok)
  {
    if 0 <= PACT[s] + tok < LAST { ChecksOfActions(PACT[s] + tok); }
    match s {
    case 0 =>
    case 8 =>
    case 11 =>
    case 18 =>
    case 20 =>
    }
  }

  /** States that shift one token and reduce on every other. */
  lemma {:induction false} OptionalStates(s: int, tok: int)
    requires s in {3, 5, 9} && T_END <= tok <= T_DASH
    ensures TableAction(s, tok) == Action(s, tok)
  {
    if 0 <= PACT[s] + tok < LAST { ChecksOfActions(PACT[s] + tok); }
    match s {
    case 3 =>
    case 5 =>
    case 9 =>
    }
  }

  /** States that can only shift a dot. */
  lemma {:induction false} DotStates(s: int, tok: int)
    requires s in {4, 16, 19} && T_END <= tok <= T_DASH
    ensures TableAction(s, tok) == Action(s, tok)
  {
    if 0 <= PACT[s] + tok < LAST { ChecksOfActions(PACT[s] + tok); }
    match s {
    case 4 =>
    case 16 =>
    case 19 =>
    }
  }

  /** States that can only shift a number. */
  lemma {:induction false} NumberStates(s: int, tok: int)
    requires s in {10, 12} && T_END <= tok <= T_DASH
    ensures TableAction(s, tok) == Action(s, tok)
  {
    if 0 <= PACT[s] + tok < LAST { ChecksOfActions(PACT[s] + tok); }
    match s {
    case 10 =>
    case 12 =>
    }
  }

  /** The only state with a row in the exception table. */
  lemma {:induction false} AcceptingState(tok: int)
    requires T_END <= tok <= T_DASH
    ensures TableAction(1, tok) == Action(1, tok)
  {
    if 0 <= PACT[1] + tok < LAST { ChecksOfActions(PACT[1] + tok); }
  }

  lemma {:induction false} TablesEncodeAction(s: int, tok: int)
    requires IsState(s) && T_END <= tok <= T_DASH
    ensures TableAction(s, tok) == Action(s, tok)
  {
    if s in {2, 6, 7, 13, 14, 15, 17, 21} {
      SimpleStates(s, tok);
    } else if s in {0, 8, 11, 18, 20} {
      TermStates(s, tok);
    } else if s == 1 {
      AcceptingState(tok);
    } else if s in {3, 5, 9} {
      OptionalStates(s, tok);
    } else if s in {4, 16, 19} {
      DotStates(s, tok);
    } else {
      NumberStates(s, tok);
    }
  }

  lemma TablesEncodeGoto(s: int, p: int)
    requires IsState(s) && Begins(p, s)
    ensures TableGoto(s, p) == Goto(s, p)
  {
  }

  lemma TablesEncodeLength(p: int)
    requires 0 < p < PRODUCTIONS
    ensures R2[p] == Length(p)
  {
  }

  /** A state without table entries does not look at the next token. */
  lemma {:induction false} SimpleStateIgnoresToken(s: int, tok: int, tok': int)
    requires IsState(s) && PACT[s] <= FLAG
    ensures TableAction(s, tok) == TableAction(s, tok') && !TableAction(s, tok).Shift?
  {
    assert DEF[s] != -2;
  }
}
