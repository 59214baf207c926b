/** The standard Base64 alphabet and padding of section 4 of RFC 4648, as
    `base64.b64encode` produces it, with a decoder as its partner. */
module Base64 {
  import opened Results
  import opened Fs

  type sextet = x: int | 0 <= x < 64

  /** Table 1 of RFC 4648: A-Z, a-z, 0-9, '+', '/'. */
  function Symbol(v: sextet): (c: char)
    ensures c != '='
  {
    if v < 26 then (('A' as int) + v) as char
    else if v < 52 then (('a' as int) + v - 26) as char
    else if v < 62 then (('0' as int) + v - 52) as char
    else if v == 62 then '+'
    else '/'
  }

  /** The inverse of `Symbol`; `None` for '=' and for every other character. */
  function SymbolValue(c: char): (r: Option<nat>)
    ensures r.Some? ==> r.value < 64 && Symbol(r.value) == c
  {
    if 'A' <= c <= 'Z' then Some((c as int) - ('A' as int))
    else if 'a' <= c <= 'z' then Some((c as int) - ('a' as int) + 26)
    else if '0' <= c <= '9' then Some((c as int) - ('0' as int) + 52)
    else if c == '+' then Some(62)
    else if c == '/' then Some(63)
    else None
  }

  lemma SymbolValueOfSymbol(v: sextet)
    ensures SymbolValue(Symbol(v)) == Some(v)
  {
  }

  /** Three bytes become four symbols. */
  function EncodeGroup(b0: byte, b1: byte, b2: byte): string {
    [Symbol(b0 / 4), Symbol((b0 % 4) * 16 + b1 / 16), Symbol((b1 % 16) * 4 + b2 / 64), Symbol(b2 % 64)]
  }

  /** `base64.b64encode(data)`, as text. */
  function Encode(data: Bytes): (s: string)
    ensures |s| == 4 * ((|data| + 2) / 3)
    decreases |data|
  {
    if |data| == 0 then ""
    else if |data| == 1 then [Symbol(data[0] / 4), Symbol((data[0] % 4) * 16), '=', '=']
    else if |data| == 2 then
      [Symbol(data[0] / 4), Symbol((data[0] % 4) * 16 + data[1] / 16), Symbol((data[1] % 16) * 4), '=']
    else EncodeGroup(data[0], data[1], data[2]) + Encode(data[3..])
  }

  /** The bytes of one group of four symbols without padding. */
  function DecodeGroup(q: string): Option<Bytes>
    requires |q| == 4
  {
    match (SymbolValue(q[0]), SymbolValue(q[1]), SymbolValue(q[2]), SymbolValue(q[3]))
    case (Some(c0), Some(c1), Some(c2), Some(c3)) =>
      var bytes: Bytes := [c0 * 4 + c1 / 16, (c1 % 16) * 16 + c2 / 4, (c2 % 4) * 64 + c3];
      Some(bytes)
    case _ => None
  }

  /** The bytes of the final group, which may end in "=" or "==". */
  function DecodeLastGroup(q: string): Option<Bytes>
    requires |q| == 4
  {
    if q[2] == '=' && q[3] == '=' then
      match (SymbolValue(q[0]), SymbolValue(q[1]))
      case (Some(c0), Some(c1)) =>
        var bytes: Bytes := [c0 * 4 + c1 / 16];
        if c1 % 16 == 0 then Some(bytes) else None
      case _ => None
    else if q[3] == '=' then
      match (SymbolValue(q[0]), SymbolValue(q[1]), SymbolValue(q[2]))
      case (Some(c0), Some(c1), Some(c2)) =>
        var bytes: Bytes := [c0 * 4 + c1 / 16, (c1 % 16) * 16 + c2 / 4];
        if c2 % 4 == 0 then Some(bytes) else None
      case _ => None
    else DecodeGroup(q)
  }

  /** Strict Base64 decoding: `None` for a length that is not a multiple of
      four, a character outside the alphabet, or misplaced padding. */
  function Decode(s: string): Option<Bytes>
    decreases |s|
  {
    if s == "" then Some([])
    else if |s| < 4 then None
    else if |s| == 4 then DecodeLastGroup(s)
    else
      match (DecodeGroup(s[..4]), Decode(s[4..]))
      case (Some(g), Some(rest)) => Some(g + rest)
      case _ => None
  }

  /** Four symbols decode to the bytes their sextets spell. */
  lemma DecodeSymbols(c0: sextet, c1: sextet, c2: sextet, c3: sextet)
    ensures DecodeGroup([Symbol(c0), Symbol(c1), Symbol(c2), Symbol(c3)])
      == Some([c0 * 4 + c1 / 16, (c1 % 16) * 16 + c2 / 4, (c2 % 4) * 64 + c3])
  {
    var q := [Symbol(c0), Symbol(c1), Symbol(c2), Symbol(c3)];
    SymbolValueOfSymbol(c0);
    SymbolValueOfSymbol(c1);
    SymbolValueOfSymbol(c2);
    SymbolValueOfSymbol(c3);
    assert SymbolValue(q[0]) == Some(c0) && SymbolValue(q[1]) == Some(c1);
    assert SymbolValue(q[2]) == Some(c2) && SymbolValue(q[3]) == Some(c3);
  }

  lemma DecodeEncodeGroup(b0: byte, b1: byte, b2: byte)
    ensures DecodeGroup(EncodeGroup(b0, b1, b2)) == Some([b0, b1, b2])
  {
    var c1 := (b0 % 4) * 16 + b1 / 16;
    var c2 := (b1 % 16) * 4 + b2 / 64;
    assert c1 / 16 == b0 % 4 && c1 % 16 == b1 / 16;
    assert c2 / 4 == b1 % 16 && c2 % 4 == b2 / 64;
    assert EncodeGroup(b0, b1, b2) == [Symbol(b0 / 4), Symbol(c1), Symbol(c2), Symbol(b2 % 64)];
    DecodeSymbols(b0 / 4, c1, c2, b2 % 64);
    assert (b0 / 4) * 4 + c1 / 16 == b0;
    assert (c1 % 16) * 16 + c2 / 4 == b1;
    assert (c2 % 4) * 64 + b2 % 64 == b2;
    assert [(b0 / 4) * 4 + c1 / 16, (c1 % 16) * 16 + c2 / 4, (c2 % 4) * 64 + b2 % 64] == [b0, b1, b2];
  }

  lemma DecodeEncodeOne(b0: byte)
    ensures Decode(Encode([b0])) == Some([b0])
  {
    SymbolValueOfSymbol(b0 / 4);
    SymbolValueOfSymbol((b0 % 4) * 16);
  }

  lemma DecodeEncodeTwo(b0: byte, b1: byte)
    ensures Decode(Encode([b0, b1])) == Some([b0, b1])
  {
    var c1 := (b0 % 4) * 16 + b1 / 16;
    var c2 := (b1 % 16) * 4;
    assert c1 / 16 == b0 % 4 && c1 % 16 == b1 / 16;
    assert c2 % 4 == 0 && c2 / 4 == b1 % 16;
    SymbolValueOfSymbol(b0 / 4);
    SymbolValueOfSymbol(c1);
    SymbolValueOfSymbol(c2);
  }

  /** Decoding the encoding gives back the original bytes. */
  lemma {:induction false} DecodeEncode(data: Bytes)
    ensures Decode(Encode(data)) == Some(data)
    decreases |data|
  {
    if |data| == 1 {
      DecodeEncodeOne(data[0]);
      assert data == [data[0]];
    } else if |data| == 2 {
      DecodeEncodeTwo(data[0], data[1]);
      assert data == [data[0], data[1]];
    } else if |data| >= 3 {
      var g := EncodeGroup(data[0], data[1], data[2]);
      var rest := Encode(data[3..]);
      assert Encode(data) == g + rest;
      DecodeEncodeGroup(data[0], data[1], data[2]);
      assert [data[0], data[1], data[2]] + data[3..] == data;
      if |data| == 3 {
        assert rest == "" && g + rest == g;
        assert Decode(g) == DecodeLastGroup(g) == DecodeGroup(g);
        assert data == [data[0], data[1], data[2]];
      } else {
        DecodeEncode(data[3..]);
        DecodeThenRest(g, rest);
      }
    }
  }

  /** A full group followed by more text decodes to the group's bytes
      followed by the rest's. */
  lemma DecodeThenRest(g: string, rest: string)
    requires |g| == 4 && rest != ""
    requires DecodeGroup(g).Some? && Decode(rest).Some?
    ensures Decode(g + rest) == Some(DecodeGroup(g).value + Decode(rest).value)
  {
    var s := g + rest;
    assert s[..4] == g && s[4..] == rest;
  }

  /** Encoding never produces more than two padding characters, and only at the end. */
  lemma {:induction false} EncodeAlphabet(data: Bytes, i: nat)
    requires i < |Encode(data)| - 2
    ensures Encode(data)[i] != '='
    decreases |data|
  {
    if |data| >= 3 && i >= 4 {
      EncodeAlphabet(data[3..], i - 4);
    }
  }
}
