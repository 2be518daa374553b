/** Base64 as section 4 of RFC 4648 writes it and as Python's lenient decoder reads it. */
module Base64 {
  import opened Wrappers

  newtype byte = x: int | 0 <= x < 256

  type sextet = n: nat | n < 64

  function Symbol(v: sextet): char {
    if v < 26 then ('A' as int + v) as char
    else if v < 52 then ('a' as int + (v - 26)) as char
    else if v < 62 then ('0' as int + (v - 52)) as char
    else if v == 62 then '+' else '/'
  }

  /** None for a character outside the alphabet. */
  function SextetOf(c: char): Option<sextet> {
    if 'A' <= c <= 'Z' then Some(c as int - 'A' as int)
    else if 'a' <= c <= 'z' then Some(c as int - 'a' as int + 26)
    else if '0' <= c <= '9' then Some(c as int - '0' as int + 52)
    else if c == '+' then Some(62) else if c == '/' then Some(63) else None
  }

  lemma SymbolReadsBack(v: sextet)
    ensures SextetOf(Symbol(v)) == Some(v) && Symbol(v) != '='
  {
  }

  /** The alphabet of table 1 in section 4 of RFC 4648: A to Z, a to z, 0 to 9, plus and slash. */
  lemma Alphabet(v: sextet)
    ensures Symbol(0) == 'A' && Symbol(25) == 'Z' && Symbol(26) == 'a' && Symbol(51) == 'z'
    ensures Symbol(52) == '0' && Symbol(61) == '9' && Symbol(62) == '+' && Symbol(63) == '/'
    ensures v < 61 && v != 25 && v != 51 ==> Symbol(v + 1) as int == Symbol(v) as int + 1
  {
  }

  /** Three bytes make four symbols; one or two left over are padded. */
  function Encode(bs: seq<byte>): string {
    if |bs| == 0 then ""
    else if |bs| == 1 then
      var a := bs[0] as int;
      [Symbol(a / 4), Symbol(a % 4 * 16), '=', '=']
    else if |bs| == 2 then
      var a, b := bs[0] as int, bs[1] as int;
      [Symbol(a / 4), Symbol(a % 4 * 16 + b / 16), Symbol(b % 16 * 4), '=']
    else
      var a, b, c := bs[0] as int, bs[1] as int, bs[2] as int;
      [Symbol(a / 4), Symbol(a % 4 * 16 + b / 16), Symbol(b % 16 * 4 + c / 64), Symbol(c % 64)] + Encode(bs[3..])
  }

  /** State of the decoder: symbols read of the current quad, bits kept from the last one, pads seen since. */
  datatype State = State(quad: nat, left: nat, pads: nat)

  predicate StateOk(st: State) {
    (st.quad == 0 && st.left == 0) || (st.quad == 1 && st.left < 64) || (st.quad == 2 && st.left < 16)
      || (st.quad == 3 && st.left < 4)
  }

  function Cons(b: int, rest: Option<seq<byte>>): Option<seq<byte>>
    requires 0 <= b < 256
  {
    if rest.None? then None else Some([b as byte] + rest.value)
  }

  /** The byte that the symbol completes, and the state behind it; the first symbol of a quad completes none. */
  function Out(st: State, v: sextet): (b: int)
    requires StateOk(st)
    ensures 0 <= b < 256
  {
    if st.quad == 0 then 0
    else if st.quad == 1 then st.left * 4 + v / 16
    else if st.quad == 2 then st.left * 16 + v / 4
    else st.left * 64 + v
  }

  function Next(st: State, v: sextet): (next: State)
    requires StateOk(st)
    ensures StateOk(next)
  {
    if st.quad == 0 then State(1, v, 0)
    else if st.quad == 1 then State(2, v % 16, 0)
    else if st.quad == 2 then State(3, v % 4, 0)
    else START
  }

  /** Characters outside the alphabet are skipped; a completed padding ends the input; a quad left open is an error. */
  function Decode(s: string, st: State): Option<seq<byte>>
    requires StateOk(st)
    decreases |s|
  {
    if s == "" then (if st.quad == 0 then Some([]) else None)
    else if s[0] == '=' then
      if st.quad >= 2 && st.quad + st.pads + 1 >= 4 then Some([])
      else Decode(s[1..], if st.quad >= 2 then st.(pads := st.pads + 1) else st)
    else
      match SextetOf(s[0])
      case None => Decode(s[1..], st)
      case Some(v) => Emit(st, v, Decode(s[1..], Next(st, v)))
  }

  function Emit(st: State, v: sextet, rest: Option<seq<byte>>): Option<seq<byte>>
    requires StateOk(st)
  {
    if st.quad == 0 then rest else Cons(Out(st, v), rest)
  }

  const START := State(0, 0, 0)

  lemma ReadSymbol(v: sextet, s: string, st: State)
    requires StateOk(st)
    ensures Decode([Symbol(v)] + s, st) == Emit(st, v, Decode(s, Next(st, v)))
  {
    SymbolReadsBack(v);
    hide Symbol, SextetOf, Emit, Next, StateOk;
    assert ([Symbol(v)] + s)[1..] == s && ([Symbol(v)] + s)[0] == Symbol(v);
  }

  /** The bits of each byte, split over two symbols, come together again. */
  lemma FirstByte(a: int, b: int)
    requires 0 <= a < 256 && 0 <= b < 256
    ensures a / 4 < 64 && 0 <= a % 4 * 16 + b / 16 < 64
    ensures a / 4 * 4 + (a % 4 * 16 + b / 16) / 16 == a && (a % 4 * 16 + b / 16) % 16 == b / 16
  {
  }

  lemma SecondByte(b: int, c: int)
    requires 0 <= b < 256 && 0 <= c < 256
    ensures 0 <= b % 16 * 4 + c / 64 < 64
    ensures b / 16 * 16 + (b % 16 * 4 + c / 64) / 4 == b && (b % 16 * 4 + c / 64) % 4 == c / 64
  {
  }

  /** The first two symbols give the first byte. */
  lemma ReadFirst(a: int, b: int, s: string)
    requires 0 <= a < 256 && 0 <= b < 256
    ensures a / 4 < 64 && 0 <= a % 4 * 16 + b / 16 < 64
    ensures Decode([Symbol(a / 4), Symbol(a % 4 * 16 + b / 16)] + s, START) == Cons(a, Decode(s, State(2, b / 16, 0)))
  {
    FirstByte(a, b);
    var v, w: sextet := a / 4, a % 4 * 16 + b / 16;
    assert [Symbol(v), Symbol(w)] + s == [Symbol(v)] + ([Symbol(w)] + s);
    hide Decode, Symbol;
    ReadSymbol(v, [Symbol(w)] + s, START);
    ReadSymbol(w, s, State(1, v, 0));
  }

  lemma ReadSecond(b: int, c: int, s: string)
    requires 0 <= b < 256 && 0 <= c < 256
    ensures 0 <= b % 16 * 4 + c / 64 < 64
    ensures Decode([Symbol(b % 16 * 4 + c / 64)] + s, State(2, b / 16, 0)) == Cons(b, Decode(s, State(3, c / 64, 0)))
  {
    SecondByte(b, c);
    hide Decode, Symbol;
    ReadSymbol(b % 16 * 4 + c / 64, s, State(2, b / 16, 0));
  }

  lemma ReadThird(c: int, s: string)
    requires 0 <= c < 256
    ensures Decode([Symbol(c % 64)] + s, State(3, c / 64, 0)) == Cons(c, Decode(s, START))
  {
    assert c / 64 * 64 + c % 64 == c;
    hide Decode, Symbol;
    ReadSymbol(c % 64, s, State(3, c / 64, 0));
  }

  lemma ReadQuad(a: int, b: int, c: int, s: string)
    requires 0 <= a < 256 && 0 <= b < 256 && 0 <= c < 256
    ensures 0 <= a % 4 * 16 + b / 16 < 64 && 0 <= b % 16 * 4 + c / 64 < 64
    ensures Decode([Symbol(a / 4), Symbol(a % 4 * 16 + b / 16), Symbol(b % 16 * 4 + c / 64), Symbol(c % 64)] + s, START)
         == Cons(a, Cons(b, Cons(c, Decode(s, START))))
  {
    FirstByte(a, b);
    SecondByte(b, c);
    var v, w, x, y: sextet := a / 4, a % 4 * 16 + b / 16, b % 16 * 4 + c / 64, c % 64;
    hide Decode, Symbol, Cons;
    assert [Symbol(v), Symbol(w), Symbol(x), Symbol(y)] + s
      == [Symbol(v), Symbol(w)] + ([Symbol(x)] + ([Symbol(y)] + s));
    ReadFirst(a, b, [Symbol(x)] + ([Symbol(y)] + s));
    ReadSecond(b, c, [Symbol(y)] + s);
    ReadThird(c, s);
  }

  lemma Padding()
    ensures Decode("==", State(2, 0, 0)) == Some([]) && Decode("=", State(3, 0, 0)) == Some([])
  {
    assert "=="[1..] == "=";
  }

  lemma EncodeOne(bs: seq<byte>)
    requires |bs| == 1
    ensures 0 <= bs[0] as int % 4 * 16 + 0 / 16 < 64
    ensures Encode(bs) == [Symbol(bs[0] as int / 4), Symbol(bs[0] as int % 4 * 16 + 0 / 16)] + "=="
    ensures Cons(bs[0] as int, Some([])) == Some(bs)
  {
    FirstByte(bs[0] as int, 0);
    hide Symbol;
    assert bs == [bs[0]] + [];
  }

  lemma OneByteLeft(bs: seq<byte>)
    requires |bs| == 1
    ensures Decode(Encode(bs), START) == Some(bs)
  {
    Padding();
    hide Decode, Symbol, Encode, Cons;
    EncodeOne(bs);
    ReadFirst(bs[0] as int, 0, "==");
  }

  lemma ReadSecondLast(b: int)
    requires 0 <= b < 256
    ensures Decode([Symbol(b % 16 * 4)] + "=", State(2, b / 16, 0)) == Cons(b, Some([]))
  {
    ReadSecond(b, 0, "=");
    Padding();
    hide Decode;
  }

  lemma EncodeTwo(bs: seq<byte>)
    requires |bs| == 2
    ensures 0 <= bs[0] as int % 4 * 16 + bs[1] as int / 16 < 64
    ensures Encode(bs) == [Symbol(bs[0] as int / 4), Symbol(bs[0] as int % 4 * 16 + bs[1] as int / 16)]
                          + ([Symbol(bs[1] as int % 16 * 4)] + "=")
  {
    FirstByte(bs[0] as int, bs[1] as int);
  }

  lemma ConsTwo(bs: seq<byte>)
    requires |bs| == 2
    ensures Cons(bs[0] as int, Cons(bs[1] as int, Some([]))) == Some(bs)
  {
    assert bs == [bs[0]] + ([bs[1]] + []);
  }

  lemma TwoBytesLeft(bs: seq<byte>)
    requires |bs| == 2
    ensures Decode(Encode(bs), START) == Some(bs)
  {
    hide Decode, Symbol, Encode;
    EncodeTwo(bs);
    ReadFirst(bs[0] as int, bs[1] as int, [Symbol(bs[1] as int % 16 * 4)] + "=");
    ReadSecondLast(bs[1] as int);
    ConsTwo(bs);
  }

  lemma EncodeThree(bs: seq<byte>)
    requires |bs| >= 3
    ensures 0 <= bs[0] as int % 4 * 16 + bs[1] as int / 16 < 64 && 0 <= bs[1] as int % 16 * 4 + bs[2] as int / 64 < 64
    ensures Encode(bs) == [Symbol(bs[0] as int / 4), Symbol(bs[0] as int % 4 * 16 + bs[1] as int / 16),
                           Symbol(bs[1] as int % 16 * 4 + bs[2] as int / 64), Symbol(bs[2] as int % 64)]
           + Encode(bs[3..])
  {
    FirstByte(bs[0] as int, bs[1] as int);
    SecondByte(bs[1] as int, bs[2] as int);
    hide Symbol;
  }

  lemma ConsThree(bs: seq<byte>)
    requires |bs| >= 3
    ensures Cons(bs[0] as int, Cons(bs[1] as int, Cons(bs[2] as int, Some(bs[3..])))) == Some(bs)
  {
    assert bs == [bs[0]] + ([bs[1]] + ([bs[2]] + bs[3..]));
  }

  lemma Sextet(n: int, q: int, r: int)
    requires n == q * 64 + r && 0 <= r < 64
    ensures n / 64 == q && n % 64 == r
  {
  }

  lemma UpperBits(a: int, b: int, c: int)
    requires 0 <= a < 256 && 0 <= b < 256 && 0 <= c < 256
    ensures var n := a * 65536 + b * 256 + c; n / 262144 == a / 4 && n / 4096 % 64 == a % 4 * 16 + b / 16
  {
    var n := a * 65536 + b * 256 + c;
    assert n == a / 4 * 262144 + (a % 4 * 65536 + b * 256 + c);
    assert n == (a * 16 + b / 16) * 4096 + (b % 16 * 256 + c);
    Sextet(a * 16 + b / 16, a / 4, a % 4 * 16 + b / 16);
  }

  lemma LowerBits(a: int, b: int, c: int)
    requires 0 <= a < 256 && 0 <= b < 256 && 0 <= c < 256
    ensures var n := a * 65536 + b * 256 + c; n / 64 % 64 == b % 16 * 4 + c / 64 && n % 64 == c % 64
  {
    LastSextets(a * 1024 + b * 4, b / 16 + a * 16, b % 16, c / 64, c % 64, a * 65536 + b * 256 + c);
  }

  lemma LastSextets(high: int, q: int, low: int, ch: int, cl: int, n: int)
    requires high == q * 64 + low * 4 && 0 <= low < 16 && 0 <= ch < 4 && 0 <= cl < 64
    requires n == (high + ch) * 64 + cl
    ensures n / 64 % 64 == low * 4 + ch && n % 64 == cl
  {
    Sextet(n, high + ch, cl);
    Sextet(high + ch, q, low * 4 + ch);
  }

  /** The symbols of three bytes are the four groups of six bits, in order; one or two bytes that are left are filled
      with zero bits, and the group is padded. */
  lemma BitGroups(bs: seq<byte>)
    requires bs != []
    ensures
      var a := bs[0] as int;
      var b, c := if |bs| > 1 then bs[1] as int else 0, if |bs| > 2 then bs[2] as int else 0;
      var n, e := a * 65536 + b * 256 + c, Encode(bs);
      && |e| >= 4 && e[0] == Symbol(n / 262144) && e[1] == Symbol(n / 4096 % 64)
      && e[2] == (if |bs| > 1 then Symbol(n / 64 % 64) else '=')
      && e[3] == (if |bs| > 2 then Symbol(n % 64) else '=')
      && e[4..] == if |bs| > 3 then Encode(bs[3..]) else []
  {
    var a := bs[0] as int;
    var b, c := if |bs| > 1 then bs[1] as int else 0, if |bs| > 2 then bs[2] as int else 0;
    UpperBits(a, b, c);
    LowerBits(a, b, c);
    hide Symbol;
  }

  /** Decoding what was encoded gives back the bytes. */
  lemma {:induction false} RoundTrip(bs: seq<byte>)
    ensures Decode(Encode(bs), START) == Some(bs)
  {
    if |bs| == 0 {
    } else if |bs| == 1 {
      OneByteLeft(bs);
    } else if |bs| == 2 {
      TwoBytesLeft(bs);
    } else {
      hide Decode, Encode, Symbol, Cons;
      EncodeThree(bs);
      ConsThree(bs);
      ReadQuad(bs[0] as int, bs[1] as int, bs[2] as int, Encode(bs[3..]));
      RoundTrip(bs[3..]);
    }
  }
}
