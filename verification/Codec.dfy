/**
 The two text forms an announcement carries: the sha256 in hexadecimal and the
 signature in base64. Text is a sequence of ASCII characters, one byte each.
 */
module Codec {

  type Byte = b: int | 0 <= b < 256

  datatype Fault = WrongLength(length: nat) | NotHexadecimal | NotBase64 | Empty

  datatype Result<+T> = Ok(value: T) | Err(fault: Fault)

  // ---------------------------------------------------------------- case

  function Lower(c: char): char {
    if 'A' <= c <= 'Z' then (c as int + 32) as char else c
  }

  function Fold(text: string): string {
    seq(|text|, i requires 0 <= i < |text| => Lower(text[i]))
  }

  /** `eq_ignore_ascii_case`. */
  predicate Same(a: string, b: string) {
    Fold(a) == Fold(b)
  }

  // ----------------------------------------------------------------- hex

  predicate IsHex(c: char) {
    '0' <= c <= '9' || 'a' <= c <= 'f' || 'A' <= c <= 'F'
  }

  function HexValue(c: char): nat
    requires IsHex(c)
  {
    if c <= '9' then c as int - '0' as int
    else if c <= 'F' then c as int - 'A' as int + 10
    else c as int - 'a' as int + 10
  }

  function Nibble(value: nat): char
    requires value < 16
  {
    if value < 10 then (value + '0' as int) as char else (value - 10 + 'a' as int) as char
  }

  /** Lower case, two digits a byte. */
  function Hex(bytes: seq<Byte>): (text: string)
    ensures |text| == 2 * |bytes|
    ensures forall i :: 0 <= i < |text| ==> IsHex(text[i]) && Lower(text[i]) == text[i]
  {
    if bytes == [] then "" else [Nibble(bytes[0] / 16), Nibble(bytes[0] % 16)] + Hex(bytes[1..])
  }

  predicate IsSpace(c: char) {
    c == ' ' || 9 <= c as int <= 13
  }

  function TrimStart(text: string): string {
    if text != "" && IsSpace(text[0]) then TrimStart(text[1..]) else text
  }

  function TrimEnd(text: string): string {
    if text != "" && IsSpace(text[|text| - 1]) then TrimEnd(text[..|text| - 1]) else text
  }

  function Trim(text: string): string {
    TrimEnd(TrimStart(text))
  }

  /** `u8::from_str_radix(pair, 16)`, which also takes a leading plus sign. */
  function FromRadix16(first: char, second: char): Result<Byte> {
    if first == '+' then
      if IsHex(second) then Ok(HexValue(second)) else Err(NotHexadecimal)
    else if IsHex(first) && IsHex(second) then Ok(16 * HexValue(first) + HexValue(second))
    else Err(NotHexadecimal)
  }

  function Pairs(text: string): (r: Result<seq<Byte>>)
    requires |text| % 2 == 0
    ensures r.Ok? ==> 2 * |r.value| == |text|
  {
    if text == "" then Ok([])
    else
      match FromRadix16(text[0], text[1])
      case Err(fault) => Err(fault)
      case Ok(first) =>
        match Pairs(text[2..])
        case Err(fault) => Err(fault)
        case Ok(rest) => Ok([first] + rest)
  }

  function Unhex(text: string): (r: Result<seq<Byte>>)
    ensures r.Ok? ==> |r.value| == 32
  {
    var trimmed := Trim(text);
    if |trimmed| != 64 then Err(WrongLength(|trimmed|)) else Pairs(trimmed)
  }

  /** Exactly 64 hexadecimal digits and nothing around them. */
  predicate Canonical(text: string) {
    |text| == 64 && forall i :: 0 <= i < 64 ==> IsHex(text[i])
  }

  lemma TrimNothing(text: string)
    requires forall i :: 0 <= i < |text| ==> !IsSpace(text[i])
    ensures Trim(text) == text
  {}

  lemma {:induction false} PairsOfHex(bytes: seq<Byte>)
    ensures Pairs(Hex(bytes)) == Ok(bytes)
  {
    if bytes == [] {
    } else {
      PairsOfHex(bytes[1..]);
      assert Hex(bytes)[2..] == Hex(bytes[1..]);
      assert [bytes[0]] + bytes[1..] == bytes;
    }
  }

  /** `unhex` inverts `hex` on every digest. */
  lemma UnhexInvertsHex(bytes: seq<Byte>)
    requires |bytes| == 32
    ensures Unhex(Hex(bytes)) == Ok(bytes)
  {
    TrimNothing(Hex(bytes));
    PairsOfHex(bytes);
  }

  lemma HexOfPair(first: char, second: char)
    requires IsHex(first) && IsHex(second)
    ensures var value := 16 * HexValue(first) + HexValue(second);
            FromRadix16(first, second) == Ok(value) && Hex([value]) == [Lower(first), Lower(second)]
  {
    var value := 16 * HexValue(first) + HexValue(second);
    assert value / 16 == HexValue(first) && value % 16 == HexValue(second);
    assert Hex([value][1..]) == "";
  }

  lemma HexOfRest(first: Byte, rest: seq<Byte>)
    ensures Hex([first] + rest) == Hex([first]) + Hex(rest)
  {
    assert ([first] + rest)[1..] == rest && [first][1..] == [];
  }

  lemma {:induction false} HexOfPairs(text: string)
    requires |text| % 2 == 0
    requires forall i :: 0 <= i < |text| ==> IsHex(text[i])
    ensures Pairs(text).Ok? && Hex(Pairs(text).value) == Fold(text)
  {
    if text == "" {
    } else {
      HexOfPairs(text[2..]);
      HexOfPair(text[0], text[1]);
      HexOfRest(FromRadix16(text[0], text[1]).value, Pairs(text[2..]).value);
      assert Fold(text) == [Lower(text[0]), Lower(text[1])] + Fold(text[2..]);
    }
  }

  /**
   `hex` inverts `unhex` up to letter case exactly on canonical text. Around
   white space, and a plus sign inside a pair, are accepted and lost.
   */
  lemma HexInvertsUnhexIffCanonical(text: string)
    requires Unhex(text).Ok?
    ensures Same(text, Hex(Unhex(text).value)) <==> Canonical(text)
  {
    var bytes := Unhex(text).value;
    FoldOfHex(bytes);
    if Canonical(text) {
      TrimNothing(text);
      HexOfPairs(text);
    }
    if Same(text, Hex(bytes)) {
      FoldedDigits(text, Hex(bytes));
    }
  }

  lemma CanonicalIsRead(text: string)
    requires Canonical(text)
    ensures Unhex(text).Ok?
  {
    TrimNothing(text);
    HexOfPairs(text);
  }

  lemma FoldOfHex(bytes: seq<Byte>)
    ensures Fold(Hex(bytes)) == Hex(bytes)
  {}

  lemma FoldedDigits(text: string, digits: string)
    requires Same(text, digits) && |digits| == 64
    requires forall i :: 0 <= i < 64 ==> IsHex(digits[i])
    ensures Canonical(text)
  {
    assert |Fold(text)| == |text|;
    forall i | 0 <= i < 64 ensures IsHex(text[i]) {
      assert Fold(text)[i] == Lower(text[i]) && Fold(digits)[i] == Lower(digits[i]);
    }
  }

  // -------------------------------------------------------------- base64

  predicate Ignored(c: char) {
    c == '=' || c == '\n' || c == '\r' || c == ' ' || c == '\t'
  }

  predicate InAlphabet(c: char) {
    'A' <= c <= 'Z' || 'a' <= c <= 'z' || '0' <= c <= '9' || c == '+' || c == '/'
  }

  /** Read only for a character in the alphabet. */
  function Sextet(c: char): (value: nat)
    ensures value < 64
  {
    if 'A' <= c <= 'Z' then c as int - 'A' as int
    else if 'a' <= c <= 'z' then c as int - 'a' as int + 26
    else if '0' <= c <= '9' then c as int - '0' as int + 52
    else if c == '+' then 62 else 63
  }

  function Symbol(value: nat): (c: char)
    requires value < 64
    ensures InAlphabet(c) && Sextet(c) == value
  {
    if value < 26 then (value + 'A' as int) as char
    else if value < 52 then (value - 26 + 'a' as int) as char
    else if value < 62 then (value - 52 + '0' as int) as char
    else if value == 62 then '+' else '/'
  }

  /** `count` characters in a row. */
  function From(first: char, count: nat): (text: string)
    requires first as int + count <= 128
    ensures |text| == count && forall i :: 0 <= i < count ==> text[i] as int == first as int + i
  {
    if count == 0 then "" else From(first, count - 1) + [(first as int + count - 1) as char]
  }

  /** Table 1 of RFC 4648: A to Z, a to z, 0 to 9, plus, and slash. */
  function Alphabet(): string {
    From('A', 26) + From('a', 26) + From('0', 10) + "+/"
  }

  /** Each symbol is the standard's, with its own value. */
  lemma SymbolIsStandard(value: nat)
    requires value < 64
    ensures |Alphabet()| == 64 && Symbol(value) == Alphabet()[value]
  {
    var upper, lower, digits := From('A', 26), From('a', 26), From('0', 10);
    if value < 26 {
      assert Alphabet()[value] == upper[value];
    } else if value < 52 {
      assert Alphabet()[value] == lower[value - 26];
    } else if value < 62 {
      assert Alphabet()[value] == digits[value - 52];
    }
  }

  /** And no other character is read, nor passed over but padding and white space. */
  lemma AlphabetIsStandard(c: char)
    ensures InAlphabet(c) <==> exists value :: 0 <= value < 64 && Alphabet()[value] == c
    ensures InAlphabet(c) ==> Alphabet()[Sextet(c)] == c
    ensures Ignored(c) <==> c in "=\n\r \t"
  {
    if InAlphabet(c) {
      SymbolIsStandard(Sextet(c));
    }
    if value :| 0 <= value < 64 && Alphabet()[value] == c {
      SymbolIsStandard(value);
    }
  }

  /** What the decoder reads once padding and white space are gone. */
  function Significant(text: string): string {
    if text == "" then ""
    else if Ignored(text[|text| - 1]) then Significant(text[..|text| - 1])
    else Significant(text[..|text| - 1]) + [text[|text| - 1]]
  }

  predicate Readable(text: string) {
    forall i :: 0 <= i < |text| ==> Ignored(text[i]) || InAlphabet(text[i])
  }

  // Shifts, spelled as doubling and halving.

  function ShiftLeft(n: nat, k: nat): nat {
    if k == 0 then n else 2 * ShiftLeft(n, k - 1)
  }

  function ShiftRight(n: nat, k: nat): nat {
    if k == 0 then n else ShiftRight(n / 2, k - 1)
  }

  function LowBits(n: nat, k: nat): nat {
    if k == 0 then 0 else 2 * LowBits(n / 2, k - 1) + n % 2
  }

  /** The bit stream a run of symbols stands for, as one number. */
  function Bits(symbols: string): nat
  {
    if symbols == "" then 0 else 64 * Bits(symbols[..|symbols| - 1]) + Sextet(symbols[|symbols| - 1])
  }

  /** A byte string as one number, most significant byte first. */
  function Number(bytes: seq<Byte>): nat {
    if bytes == [] then 0 else 256 * Number(bytes[..|bytes| - 1]) + bytes[|bytes| - 1]
  }

  /** The `count` low bytes of a number, most significant first. */
  function Digits(number: nat, count: nat): (bytes: seq<Byte>)
    ensures |bytes| == count
  {
    if count == 0 then [] else Digits(number / 256, count - 1) + [number % 256]
  }

  /**
   Section 4 of RFC 4648 read as arithmetic: the symbols are one number, the
   bits past the last whole byte are dropped, and the rest is cut into bytes.
   */
  function Whole(symbols: string): Result<seq<Byte>>
  {
    var count := 6 * |symbols| / 8;
    if count == 0 then Err(Empty)
    else Ok(Digits(ShiftRight(Bits(symbols), 6 * |symbols| % 8), count))
  }

  function Decoded(text: string): Result<seq<Byte>> {
    if !Readable(text) then Err(NotBase64)
    else Whole(Significant(text))
  }

  lemma {:induction false} DigitsOfNumber(bytes: seq<Byte>)
    ensures Digits(Number(bytes), |bytes|) == bytes
  {
    if bytes == [] {
    } else {
      DigitsOfNumber(bytes[..|bytes| - 1]);
    }
  }

  lemma {:induction false} ShiftSplits(n: nat, a: nat, b: nat)
    ensures ShiftLeft(n, a + b) == ShiftLeft(ShiftLeft(n, a), b)
  {
    if b == 0 {
    } else {
      ShiftSplits(n, a, b - 1);
    }
  }

  lemma {:induction false} ShiftAdds(m: nat, n: nat, k: nat)
    ensures ShiftLeft(m + n, k) == ShiftLeft(m, k) + ShiftLeft(n, k)
  {
    if k == 0 {
    } else {
      ShiftAdds(m, n, k - 1);
    }
  }

  lemma ShiftGrows(m: nat, n: nat, k: nat)
    ensures m <= n ==> ShiftLeft(m, k) <= ShiftLeft(n, k)
  {}

  /** A number is its high bits shifted back over its low ones. */
  lemma {:induction false} HighAndLow(n: nat, k: nat)
    ensures n == ShiftLeft(ShiftRight(n, k), k) + LowBits(n, k)
    ensures LowBits(n, k) < ShiftLeft(1, k)
  {
    if k == 0 {
    } else {
      HighAndLow(n / 2, k - 1);
    }
  }

  /** Bits shifted in at the bottom fall off again when shifted out. */
  lemma {:induction false} ShiftBack(n: nat, held: nat, k: nat)
    requires held < ShiftLeft(1, k)
    ensures ShiftRight(ShiftLeft(n, k) + held, k) == n
  {
    if k == 0 {
    } else {
      ShiftBack(n, held / 2, k - 1);
      assert (2 * ShiftLeft(n, k - 1) + held) / 2 == ShiftLeft(n, k - 1) + held / 2;
    }
  }

  lemma Shift2(n: nat)
    ensures ShiftLeft(n, 2) == 4 * n
  {
    assert ShiftLeft(n, 1) == 2 * n;
  }

  lemma Shift6(n: nat)
    ensures ShiftLeft(n, 6) == 64 * n && ShiftLeft(n, 4) == 16 * n
  {
    Shift2(n);
    ShiftSplits(n, 2, 2);
    Shift2(4 * n);
    ShiftSplits(n, 4, 2);
    Shift2(16 * n);
  }

  lemma Shift8(n: nat)
    ensures ShiftLeft(n, 8) == 256 * n
  {
    Shift6(n);
    ShiftSplits(n, 6, 2);
    Shift2(64 * n);
  }

  lemma SignificantStep(text: string, k: nat)
    requires k < |text|
    ensures Significant(text[..k + 1]) ==
            Significant(text[..k]) + if Ignored(text[k]) then "" else [text[k]]
  {
    assert text[..k + 1][..k] == text[..k];
  }

  /** `held` is the undelivered tail, `bits` long, of the stream `symbols` stand for. */
  ghost predicate Tail(symbols: string, out: seq<Byte>, bits: nat, held: nat) {
    && held < ShiftLeft(1, bits)
    && 8 * |out| + bits == 6 * |symbols|
    && Bits(symbols) == ShiftLeft(Number(out), bits) + held
  }

  lemma BitsOfConcat(symbols: string, c: char)
    ensures Bits(symbols + [c]) == 64 * Bits(symbols) + Sextet(c)
  {}

  /** One symbol in. */
  lemma Absorb(symbols: string, c: char, out: seq<Byte>, bits: nat, held: nat)
    requires Tail(symbols, out, bits, held)
    ensures Tail(symbols + [c], out, bits + 6, ShiftLeft(held, 6) + Sextet(c))
  {
    BitsOfConcat(symbols, c);
    Shift6(held);
    Shift6(ShiftLeft(Number(out), bits));
    ShiftSplits(Number(out), bits, 6);
    Shift6(ShiftLeft(1, bits));
    ShiftSplits(1, bits, 6);
  }

  /** A number too small for `k + 8` bits has less than a byte above its low `k`. */
  lemma OneByte(held: nat, k: nat)
    requires held < ShiftLeft(1, k + 8)
    ensures ShiftRight(held, k) < 256
  {
    Shift8(1);
    ShiftSplits(1, 8, k);
    HighAndLow(held, k);
    ShiftGrows(256, ShiftRight(held, k), k);
  }

  /** Eight bits out. */
  lemma Deliver(symbols: string, out: seq<Byte>, bits: nat, held: nat)
    requires Tail(symbols, out, bits + 8, held)
    ensures ShiftRight(held, bits) < 256
    ensures Tail(symbols, out + [ShiftRight(held, bits)], bits, LowBits(held, bits))
  {
    OneByte(held, bits);
    var byte: Byte := ShiftRight(held, bits);
    assert (out + [byte])[..|out|] == out;
    HighAndLow(held, bits);
    Shift8(Number(out));
    ShiftSplits(Number(out), 8, bits);
    ShiftAdds(256 * Number(out), byte, bits);
  }

  lemma WholeBytes(symbols: nat, bytes: nat, bits: nat)
    requires 8 * bytes + bits == 6 * symbols && bits < 8
    ensures 6 * symbols / 8 == bytes && 6 * symbols % 8 == bits
  {}

  /** What the tail leaves behind is exactly what the arithmetic drops. */
  lemma TailIsDropped(symbols: string, out: seq<Byte>, bits: nat, held: nat)
    requires bits < 8 && Tail(symbols, out, bits, held)
    ensures Whole(symbols) == if out == [] then Err(Empty) else Ok(out)
  {
    DigitsOfNumber(out);
    WholeBytes(|symbols|, |out|, bits);
    ShiftBack(Number(out), held, bits);
  }

  lemma BadCharacter(text: string, k: nat)
    requires k < |text| && !Ignored(text[k]) && !InAlphabet(text[k])
    ensures Decoded(text) == Err(NotBase64)
  {}

  /** The accumulator after one more character: what it delivers, and what it then holds. */
  lemma Read(text: string, k: nat, out: seq<Byte>, bits: nat, held: nat)
    requires k < |text| && Tail(Significant(text[..k]), out, bits, held)
    ensures Ignored(text[k]) ==> Tail(Significant(text[..k + 1]), out, bits, held)
    ensures !Ignored(text[k]) && InAlphabet(text[k]) ==>
              && Tail(Significant(text[..k + 1]), out, bits + 6, ShiftLeft(held, 6) + Sextet(text[k]))
              && ShiftLeft(held, 6) + Sextet(text[k]) < ShiftLeft(1, bits + 6)
  {
    SignificantStep(text, k);
    var symbols := Significant(text[..k]);
    if Ignored(text[k]) {
      assert symbols + "" == symbols;
    } else if InAlphabet(text[k]) {
      Absorb(symbols, text[k], out, bits, held);
    }
  }

  /**
   The decoder. `bits` never passes 12 and `held` is below 2 to that power, so
   the 32 bits the device gives it never overflow.
   */
  method Unbase64(text: string) returns (r: Result<seq<Byte>>)
    ensures r == Decoded(text)
  {
    var bits: nat := 0;
    var held: nat := 0;
    var out: seq<Byte> := [];
    for k := 0 to |text|
      invariant forall i :: 0 <= i < k ==> Ignored(text[i]) || InAlphabet(text[i])
      invariant bits < 8 && bits % 2 == 0
      invariant Tail(Significant(text[..k]), out, bits, held)
    {
      var c := text[k];
      Read(text, k, out, bits, held);
      if Ignored(c) {
        continue;
      }
      if !InAlphabet(c) {
        BadCharacter(text, k);
        return Err(NotBase64);
      }
      held := ShiftLeft(held, 6) + Sextet(c);
      bits := bits + 6;
      if bits >= 8 {
        bits := bits - 8;
        Deliver(Significant(text[..k + 1]), out, bits, held);
        out := out + [ShiftRight(held, bits)];
        held := LowBits(held, bits);
      }
    }
    assert text[..|text|] == text;
    TailIsDropped(Significant(text), out, bits, held);
    if out == [] {
      return Err(Empty);
    }
    return Ok(out);
  }

  // ------------------------------------------------- the encoder's group

  /** One group of up to three bytes packed into 24 bits. */
  function Packed(bytes: seq<Byte>): (packed: nat)
    requires 1 <= |bytes| <= 3
    ensures packed < 16777216
  {
    var first: int := bytes[0];
    var second: int := if |bytes| > 1 then bytes[1] else 0;
    var third: int := if |bytes| > 2 then bytes[2] else 0;
    first * 65536 + second * 256 + third
  }

  /** The group as four symbols, the ones past its last byte being padding. */
  function Group(bytes: seq<Byte>): string
    requires 1 <= |bytes| <= 3
  {
    var packed := Packed(bytes);
    [Symbol(packed / 262144), Symbol(packed / 4096 % 64)]
    + [if |bytes| > 1 then Symbol(packed / 64 % 64) else '=']
    + [if |bytes| > 2 then Symbol(packed % 64) else '=']
  }

  /** The encoding of section 4 of RFC 4648: groups of three bytes, the last one perhaps shorter. */
  function Base64(bytes: seq<Byte>): string {
    if bytes == [] then ""
    else
      var split := |bytes| - Last(|bytes|);
      Base64(bytes[..split]) + Group(bytes[split..])
  }

  lemma {:induction false} SignificantOfConcat(a: string, b: string)
    ensures Significant(a + b) == Significant(a) + Significant(b)
  {
    if b == "" {
      assert a + b == a;
    } else {
      SignificantOfConcat(a, b[..|b| - 1]);
      assert (a + b)[..|a + b| - 1] == a + b[..|b| - 1];
    }
  }

  lemma SignificantOfGroup(group: seq<Byte>)
    requires 1 <= |group| <= 3
    ensures Significant(Group(group)) == Group(group)[..|group| + 1]
  {
    var text := Group(group);
    SignificantStep(text, 0);
    SignificantStep(text, 1);
    SignificantStep(text, 2);
    SignificantStep(text, 3);
    assert text[..4] == text && text[..0] == "";
  }

  /** The four sextets of a group, put back together. */
  lemma Repacked(packed: nat)
    requires packed < 16777216
    ensures packed / 262144 < 64
    ensures 64 * (packed / 262144) + packed / 4096 % 64 == packed / 4096
    ensures 64 * (packed / 4096) + packed / 64 % 64 == packed / 64
    ensures 64 * (packed / 64) + packed % 64 == packed
  {}

  lemma SextetsOfGroup(group: seq<Byte>)
    requires 1 <= |group| <= 3
    ensures Sextet(Group(group)[0]) == Packed(group) / 262144
    ensures Sextet(Group(group)[1]) == Packed(group) / 4096 % 64
    ensures |group| >= 2 ==> Sextet(Group(group)[2]) == Packed(group) / 64 % 64
    ensures |group| == 3 ==> Sextet(Group(group)[3]) == Packed(group) % 64
  {}

  lemma Stream(symbols: string, text: string)
    requires |text| > 0
    ensures Bits(symbols + text) == 64 * Bits(symbols + text[..|text| - 1]) + Sextet(text[|text| - 1])
  {
    var last := |text| - 1;
    BitsOfConcat(symbols + text[..last], text[last]);
    assert symbols + text[..last] + [text[last]] == symbols + text;
  }

  lemma StreamOfTwo(symbols: string, text: string)
    requires |text| == 2
    ensures Bits(symbols + text) == 64 * (64 * Bits(symbols) + Sextet(text[0])) + Sextet(text[1])
  {
    Stream(symbols, text);
    Stream(symbols, text[..1]);
    assert symbols + text[..1][..0] == symbols;
  }

  /** A byte string as one number, a group longer. */
  lemma {:induction false} NumberOfConcat(bytes: seq<Byte>, group: seq<Byte>)
    requires 1 <= |group| <= 3
    ensures |group| == 1 ==> Number(bytes + group) == 256 * Number(bytes) + group[0]
    ensures |group| == 2 ==> Number(bytes + group) == 256 * (256 * Number(bytes) + group[0]) + group[1]
    ensures |group| == 3 ==>
              Number(bytes + group) == 256 * (256 * (256 * Number(bytes) + group[0]) + group[1]) + group[2]
  {
    var last := |group| - 1;
    assert (bytes + group)[..|bytes| + last] == bytes + group[..last];
    if last == 0 {
      assert bytes + group[..0] == bytes;
    } else {
      NumberOfConcat(bytes, group[..last]);
    }
  }

  /** Bits past the last whole byte, after a stream of `count` whole bytes. */
  function Padding(count: nat): nat {
    if count % 3 == 1 then 4 else if count % 3 == 2 then 2 else 0
  }

  lemma OneByteGroup(group: seq<Byte>, n: nat)
    requires |group| == 1
    ensures 64 * (64 * n + Packed(group) / 262144) + Packed(group) / 4096 % 64 == 16 * (256 * n + group[0])
  {}

  lemma TwoByteGroup(group: seq<Byte>, n: nat)
    requires |group| == 2
    ensures 64 * (64 * (64 * n + Packed(group) / 262144) + Packed(group) / 4096 % 64) + Packed(group) / 64 % 64
            == 4 * (256 * (256 * n + group[0]) + group[1])
  {
    Repacked(Packed(group));
    assert Packed(group) / 64 == 4 * (256 * (group[0] as int) + group[1]);
  }

  lemma ThreeByteGroup(group: seq<Byte>, n: nat)
    requires |group| == 3
    ensures var p := Packed(group);
            64 * (64 * (64 * (64 * n + p / 262144) + p / 4096 % 64) + p / 64 % 64) + p % 64
            == 256 * (256 * (256 * n + group[0]) + group[1]) + group[2]
  {
    Repacked(Packed(group));
  }

  /** What a group adds to the stream: its bytes, then a shift for what it pads. */
  lemma StreamOfGroup(symbols: string, group: seq<Byte>, n: nat)
    requires 1 <= |group| <= 3
    requires Bits(symbols) == n
    ensures |group| == 1 ==> Bits(symbols + Group(group)[..2]) == 16 * (256 * n + group[0])
    ensures |group| == 2 ==> Bits(symbols + Group(group)[..3]) == 4 * (256 * (256 * n + group[0]) + group[1])
    ensures |group| == 3 ==>
              Bits(symbols + Group(group)) == 256 * (256 * (256 * n + group[0]) + group[1]) + group[2]
  {
    var text := Group(group);
    SextetsOfGroup(group);
    StreamOfTwo(symbols, text[..2]);
    if |group| == 1 {
      OneByteGroup(group, n);
    } else {
      Stream(symbols, text[..3]);
      assert text[..3][..2] == text[..2];
      if |group| == 2 {
        TwoByteGroup(group, n);
      } else {
        Stream(symbols, text);
        ThreeByteGroup(group, n);
      }
    }
  }

  /** `symbols` are `bytes` and then the bits that pad the last group. */
  ghost predicate Encodes(symbols: string, bytes: seq<Byte>) {
    && 6 * |symbols| == 8 * |bytes| + Padding(|bytes|)
    && Bits(symbols) == ShiftLeft(Number(bytes), Padding(|bytes|))
  }

  lemma PaddingOfGroup(whole: nat, tail: nat)
    requires whole % 3 == 0 && 1 <= tail <= 3
    ensures Padding(whole) == 0
    ensures Padding(whole + tail) == if tail == 1 then 4 else if tail == 2 then 2 else 0
  {}

  lemma EncodedGroup(front: seq<Byte>, group: seq<Byte>, symbols: string)
    requires |front| % 3 == 0 && 1 <= |group| <= 3
    requires Encodes(symbols, front)
    ensures Encodes(symbols + Group(group)[..|group| + 1], front + group)
  {
    PaddingOfGroup(|front|, |group|);
    StreamOfGroup(symbols, group, Number(front));
    NumberOfConcat(front, group);
    if |group| == 1 {
      Shift6(Number(front + group));
    } else if |group| == 2 {
      Shift2(Number(front + group));
    } else {
      assert Group(group)[..4] == Group(group);
    }
  }

  /** How many bytes the encoder leaves for its last group. */
  function Last(count: nat): (tail: nat)
    requires count > 0
    ensures 1 <= tail <= 3 && tail <= count && (count - tail) % 3 == 0
  {
    if count % 3 == 0 then 3 else count % 3
  }

  /** The last group's symbols come after those of the rest. */
  lemma SignificantOfLast(text: string, group: seq<Byte>)
    requires 1 <= |group| <= 3
    ensures Significant(text + Group(group)) == Significant(text) + Group(group)[..|group| + 1]
  {
    SignificantOfConcat(text, Group(group));
    SignificantOfGroup(group);
  }

  lemma Rejoined(bytes: seq<Byte>, split: nat)
    requires split <= |bytes|
    ensures bytes[..split] + bytes[split..] == bytes
  {}

  /** The stream the encoder writes is the bytes' number, shifted by the bits it pads. */
  lemma {:induction false} EncodedBits(bytes: seq<Byte>)
    ensures Encodes(Significant(Base64(bytes)), bytes)
  {
    if bytes == [] {
    } else {
      var split := |bytes| - Last(|bytes|);
      var front, group := bytes[..split], bytes[split..];
      EncodedBits(front);
      EncodedGroup(front, group, Significant(Base64(front)));
      SignificantOfLast(Base64(front), group);
      Rejoined(bytes, split);
    }
  }

  /**
   The decoder inverts the encoder on every byte string but the empty one,
   with padding and white space present, missing or scattered anywhere.
   */
  lemma DecodedInvertsBase64(bytes: seq<Byte>, text: string)
    requires bytes != []
    requires Readable(text) && Significant(text) == Significant(Base64(bytes))
    ensures Decoded(text) == Ok(bytes)
  {
    EncodedBits(bytes);
    HighAndLow(0, Padding(|bytes|));
    TailIsDropped(Significant(text), bytes, Padding(|bytes|), 0);
  }
}
