/** From text to addresses: what a list that was parsed expands to. */
module IpAddresses {
  import opened IpNet
  import opened IpGrammar
  import opened IpLex
  import opened IpRange
  import IpExpand

  // ----- What targets name, without ranges and masks

  /** The octets of a term; a span that counts down goes on from 255 to 0. */
  predicate InTerm(x: Byte, t: Term) {
    match t
    case Num(n) => x == n
    case Star => true
    case Span(lo, hi) => if lo <= hi then lo <= x <= hi else x >= lo || x <= hi
  }

  predicate InTerms(ip: IP, a: Address)
    requires IsIPv4(ip)
  {
    InTerm(ip[0], a.t1) && InTerm(ip[1], a.t2) && InTerm(ip[2], a.t3) && InTerm(ip[3], a.t4)
  }

  /** A block names the addresses that share its leading bits. */
  predicate Names(t: Target, ip: IP) {
    && IsIPv4(ip)
    && match t
       case Plain(a) => InTerms(ip, a)
       case Block(a, n) => n <= 32 && Uint32(ip) / Pow2(32 - n) == Uint32(LowAddress(a)) / Pow2(32 - n)
  }

  predicate NamesSome(l: List, ip: IP) {
    match l
    case One(t) => Names(t, ip)
    case More(front, _, t) => NamesSome(front, ip) || Names(t, ip)
  }

  // ----- Ranges hold what targets name

  lemma InTermIsStep(x: Byte, t: Term)
    ensures var r := TermRange(t);
            InTerm(x, t) <==> IpExpand.Step(r.min, x) <= IpExpand.Step(r.min, r.max)
  {
  }

  lemma {:induction false} PlainMembers(a: Address, ip: IP)
    ensures IpExpand.InRange(ip, AddressRange(LowAddress(a), HighAddress(a))) <==> IsIPv4(ip) && InTerms(ip, a)
  {
    IpExpand.RangeIsSteps(ip, AddressRange(LowAddress(a), HighAddress(a)));
    if IsIPv4(ip) {
      InTermIsStep(ip[0], a.t1);
      InTermIsStep(ip[1], a.t2);
      InTermIsStep(ip[2], a.t3);
      InTermIsStep(ip[3], a.t4);
    }
  }

  lemma {:induction false} TargetMembers(t: Target, ip: IP)
    requires Fits(t)
    ensures var r := TargetRange(t);
            IsIPv4(r.min) && IsIPv4(r.max) && (IpExpand.InRange(ip, r) <==> Names(t, ip))
  {
    match t
    case Plain(a) => PlainMembers(a, ip);
    case Block(a, n) => IpExpand.ExpandedBlock(ip, LowAddress(a), n);
  }

  /** What parsing yields is fit to be expanded. */
  lemma {:induction false} RangesAreIPv4(l: List)
    requires AllFit(l)
    ensures Ranges(l) != [] && IpExpand.AllRangesIPv4(Ranges(l))
  {
    TargetMembers(l.target, []);
    match l
    case One(t) => assert Ranges(l)[0] == TargetRange(t);
    case More(front, _, t) =>
      RangesAreIPv4(front);
      IpExpand.MoreRanges(Ranges(front), TargetRange(t));
  }

  /** The ranges of a list hold exactly the addresses that its targets name. */
  lemma {:induction false} ListMembers(l: List, ip: IP)
    requires AllFit(l) && IpExpand.AllRangesIPv4(Ranges(l))
    ensures IpExpand.InSome(ip, Ranges(l)) <==> NamesSome(l, ip)
  {
    TargetMembers(l.target, ip);
    match l
    case One(t) => assert Ranges(l)[0] == TargetRange(t);
    case More(front, _, t) =>
      RangesAreIPv4(front);
      IpExpand.SomeOfMore(ip, Ranges(front), TargetRange(t));
      ListMembers(front, ip);
  }

  // ----- Parsing, then expanding

  ghost predicate Spells(text: seq<Decoded>, l: List) {
    AllFit(l) && Yield(l) == Erase(Tokens(LexState(text, EOF), 0))
  }

  /** A text that parses expands without a crash, to the addresses that its list names, in ascending order. */
  method ExpandText(text: seq<Decoded>) returns (parsed: ParseResult, ips: seq<IP>)
    ensures parsed == Meaning(text)
    ensures parsed.Parsed? ==> IpExpand.AllIPv4(ips) && IpExpand.Ascending(ips)
    ensures parsed.Parsed? ==>
              exists l: List :: Spells(text, l) && forall ip: IP :: ip in ips <==> NamesSome(l, ip)
  {
    ips := [];
    parsed := ParseList(text);
    if parsed.Parsed? {
      ghost var l := Derivation(text, parsed.list);
      RangesAreIPv4(l);
      var expanded := IpExpand.ExpandList(parsed.list);
      ips := expanded.ips;
      forall ip: IP ensures ip in ips <==> NamesSome(l, ip) { ListMembers(l, ip); }
    }
  }

  lemma {:induction false} Derivation(text: seq<Decoded>, out: seq<AddressRange>) returns (l: List)
    requires Meaning(text) == Parsed(out)
    ensures Spells(text, l) && Ranges(l) == out
  {
    MeaningIsDerivation(text, out);
    l :| AllFit(l) && Yield(l) == Erase(Tokens(LexState(text, EOF), 0)) && Ranges(l) == out;
  }
}
