/** The lexer of address lists: runes, one rune of pushback, numbers.
  *
  * The input is what utf8.DecodeRune yields, one item at a time.
  */
module IpLex {
  import opened IpNet
  import opened IpTables
  import opened IpGrammar

  /** A decoded rune, or a byte that is not valid UTF-8 and is skipped. */
  datatype Decoded = Rune(code: nat) | Bad

  const EOF := 0
  /** The character code under which the lexer returns a number. */
  const NUM := 57346
  const PRIVATE := 57344

  const TOK1: seq<int> := [1, 3, 3, 3, 3, 3, 3, 3, 3, 3] + [3, 3, 3, 3, 3, 3, 3, 3, 3, 3] +
                          [3, 3, 3, 3, 3, 3, 3, 3, 3, 3] + [3, 3, 6, 3, 3, 3, 3, 3, 3, 3] +
                          [3, 3, 9, 3, 5, 10, 8, 7]
  const TOK2: seq<int> := [2, 3, 4]
  const TOK3: seq<int> := [0]

  /** What is left to lex: the undecoded line and the rune pushed back, if it is not 0. */
  datatype LexState = LexState(line: seq<Decoded>, peek: nat)

  function Size(st: LexState): nat { |st.line| + if st.peek != EOF then 1 else 0 }

  datatype Got = Got(rune: nat, state: LexState)

  function NextRune(st: LexState): (g: Got)
    ensures if g.rune == EOF then Size(g.state) <= Size(st) else Size(g.state) < Size(st)
    decreases |st.line|
  {
    if st.peek != EOF then Got(st.peek, st.(peek := EOF))
    else if st.line == [] then Got(EOF, st)
    else if st.line[0].Bad? then NextRune(st.(line := st.line[1..]))
    else Got(st.line[0].code, st.(line := st.line[1..]))
  }

  predicate IsDigit(c: int) { 48 <= c <= 57 }

  predicate IsNumeral(ds: seq<nat>) { forall i :: 0 <= i < |ds| ==> IsDigit(ds[i]) }

  /** The decimal value of a digit string. */
  function Decimal(ds: seq<nat>): nat
    requires IsNumeral(ds)
  {
    if ds == [] then 0 else Decimal(ds[..|ds| - 1]) * 10 + (ds[|ds| - 1] - 48)
  }

  datatype Scanned = Scanned(digits: seq<nat>, state: LexState)

  /** Collects digits; the rune after them is pushed back unless it reads as the end of input. */
  function ScanDigits(st: LexState, ds: seq<nat>): (r: Scanned)
    requires IsNumeral(ds)
    ensures IsNumeral(r.digits) && Size(r.state) <= Size(st)
    decreases Size(st)
  {
    var g := NextRune(st);
    if IsDigit(g.rune) then ScanDigits(g.state, ds + [g.rune])
    else Scanned(ds, if g.rune != EOF then g.state.(peek := g.rune) else g.state)
  }

  datatype Lexeme = Lexeme(code: int, num: Byte, state: LexState)

  /** One call of Lex.  A number that does not fit 32 bits reads as the end of input. */
  function LexOne(st: LexState, num: Byte): (l: Lexeme)
    ensures l.code >= 0
    ensures l.code > 0 ==> Size(l.state) < Size(st)
  {
    var g := NextRune(st);
    if IsDigit(g.rune) then
      var s := ScanDigits(g.state, [g.rune]);
      if Decimal(s.digits) > MAX_WORD then Lexeme(EOF, num, s.state)
      else Lexeme(NUM, Decimal(s.digits) % 256, s.state)
    else Lexeme(g.rune, num, g.state)
  }

  /** The internal token number of a character code. */
  function TokenNumber(code: int): int
  {
    var token := if code <= 0 then TOK1[0]
                 else if code < |TOK1| then TOK1[code]
                 else if PRIVATE <= code < PRIVATE + |TOK2| then TOK2[code - PRIVATE]
                 else TOK3[0];
    if token == 0 then TOK2[1] else token
  }

  lemma TokenNumbers(code: int)
    ensures TokenNumber(code) ==
            if code <= 0 then T_END
            else if code == 32 then T_SPACE  // ' '
            else if code == 42 then T_STAR  // '*'
            else if code == 44 then T_COMMA  // ','
            else if code == 45 then T_DASH  // '-'
            else if code == 46 then T_DOT  // '.'
            else if code == 47 then T_SLASH  // '/'
            else if code == PRIVATE then T_ERROR
            else if code == NUM then T_NUM
            else T_UNKNOWN
  {
  }

  /** The tokens up to the end of input; `num` is the value left by the last number. */
  function Tokens(st: LexState, num: Byte): seq<Token>
    decreases Size(st)
  {
    var l := LexOne(st, num);
    if l.code <= 0 then [] else [Token(TokenNumber(l.code), l.num)] + Tokens(l.state, l.num)
  }

  class Lexer {
    var line: seq<Decoded>
    var peek: nat
    var output: seq<AddressRange>
    var err: bool

    constructor (line: seq<Decoded>)
      ensures State() == LexState(line, EOF) && output == [] && !err
    {
      this.line, peek, output, err := line, EOF, [], false;
    }

    function State(): LexState
      reads this`line, this`peek
    {
      LexState(line, peek)
    }

    method Next() returns (c: nat)
      modifies this`line, this`peek
      ensures Got(c, State()) == NextRune(old(State()))
      decreases |line|
    {
      if peek != EOF {
        c := peek;
        peek := EOF;
        return;
      }
      if |line| == 0 { return EOF; }
      var d := line[0];
      line := line[1..];
      if d.Bad? {
        c := Next();
        return;
      }
      c := d.code;
    }

    /** Reads the number that starts with digit c. */
    method ReadByte(c: nat, num: Byte) returns (code: int, num': Byte)
      requires IsDigit(c)
      modifies this`line, this`peek
      ensures var s := ScanDigits(old(State()), [c]);
              && State() == s.state
              && (if Decimal(s.digits) > MAX_WORD then code == EOF && num' == num
                  else code == NUM && num' == Decimal(s.digits) % 256)
    {
      var b := [c];
      var c' := Next();
      while IsDigit(c')
        invariant IsNumeral(b)
        invariant ScanDigits(old(State()), [c]) ==
                  (if IsDigit(c') then ScanDigits(State(), b + [c'])
                   else Scanned(b, if c' != EOF then State().(peek := c') else State()))
        decreases Size(State()) + if IsDigit(c') then 1 else 0
      {
        b := b + [c'];
        c' := Next();
      }
      if c' != EOF { peek := c'; }
      var octet := ParseUint(b);
      if octet > MAX_WORD { return EOF, num; }
      return NUM, octet % 256;
    }

    method Lex(num: Byte) returns (code: int, num': Byte)
      modifies this`line, this`peek
      ensures Lexeme(code, num', State()) == LexOne(old(State()), num)
    {
      var c := Next();
      if c == EOF { return EOF, num; }
      if IsDigit(c) {
        code, num' := ReadByte(c, num);
        return;
      }
      return c, num;
    }

    method Error()
      modifies this`err
      ensures err
    {
      err := true;
    }
  }

  /** The value of a digit string, digit by digit. */
  method ParseUint(ds: seq<nat>) returns (v: nat)
    requires IsNumeral(ds)
    ensures v == Decimal(ds)
  {
    v := 0;
    var i := 0;
    while i < |ds|
      invariant 0 <= i <= |ds| && v == Decimal(ds[..i])
    {
      assert ds[..i + 1][..i] == ds[..i];
      v := v * 10 + (ds[i] - 48);
      i := i + 1;
    }
    assert ds[..i] == ds;
  }
}
