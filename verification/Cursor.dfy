/** Page cursors: base64url without padding, section 5 of RFC 4648, around a UTF-8 string. */
module Cursor {
  import opened Wrappers

  type Byte = n: int | 0 <= n < 256
  type Sextet = n: int | 0 <= n < 64

  /** The URL-safe alphabet. */
  function Symbol(n: Sextet): char {
    if n < 26 then ('A' as int + n) as char
    else if n < 52 then ('a' as int + (n - 26)) as char
    else if n < 62 then ('0' as int + (n - 52)) as char
    else if n == 62 then '-'
    else '_'
  }

  function Value(c: char): Option<Sextet> {
    if 'A' <= c <= 'Z' then Some(c as int - 'A' as int)
    else if 'a' <= c <= 'z' then Some(c as int - 'a' as int + 26)
    else if '0' <= c <= '9' then Some(c as int - '0' as int + 52)
    else if c == '-' then Some(62)
    else if c == '_' then Some(63)
    else None
  }

  lemma SymbolValue(n: Sextet, c: char)
    ensures Value(c) == Some(n) <==> c == Symbol(n)
  {
  }

  /** The symbols are those of table 2 of RFC 4648: the capital letters, the small ones, the
      digits, each in order, and two marks. */
  lemma UrlSafeAlphabet(n: Sextet)
    ensures Symbol(0) == 'A' && Symbol(25) == 'Z' && Symbol(26) == 'a' && Symbol(51) == 'z'
    ensures Symbol(52) == '0' && Symbol(61) == '9' && Symbol(62) == '-' && Symbol(63) == '_'
    ensures n < 61 && n != 25 && n != 51 ==> Symbol(n + 1) as int == Symbol(n) as int + 1
  {
  }

  // Three bytes are four sextets.  A missing byte counts as 0.

  function Split0(b0: Byte): Sextet { b0 / 4 }
  function Split1(b0: Byte, b1: Byte): Sextet { b0 % 4 * 16 + b1 / 16 }
  function Split2(b1: Byte, b2: Byte): Sextet { b1 % 16 * 4 + b2 / 64 }
  function Split3(b2: Byte): Sextet { b2 % 64 }

  function Join0(v0: Sextet, v1: Sextet): Byte { v0 * 4 + v1 / 16 }
  function Join1(v1: Sextet, v2: Sextet): Byte { v1 % 16 * 16 + v2 / 4 }
  function Join2(v2: Sextet, v3: Sextet): Byte { v2 % 4 * 64 + v3 }

  lemma Regroup(b0: Byte, b1: Byte, b2: Byte)
    ensures Join0(Split0(b0), Split1(b0, b1)) == b0
    ensures Join1(Split1(b0, b1), Split2(b1, b2)) == b1
    ensures Join2(Split2(b1, b2), Split3(b2)) == b2
  {
  }

  lemma Ungroup(v0: Sextet, v1: Sextet, v2: Sextet, v3: Sextet)
    ensures var b0, b1, b2 := Join0(v0, v1), Join1(v1, v2), Join2(v2, v3);
            Split0(b0) == v0 && Split1(b0, b1) == v1 && Split2(b1, b2) == v2 && Split3(b2) == v3
  {
  }

  function Encode(b: seq<Byte>): string {
    if |b| == 0 then ""
    else if |b| == 1 then [Symbol(Split0(b[0])), Symbol(Split1(b[0], 0))]
    else if |b| == 2 then [Symbol(Split0(b[0])), Symbol(Split1(b[0], b[1])), Symbol(Split2(b[1], 0))]
    else
      [Symbol(Split0(b[0])), Symbol(Split1(b[0], b[1])), Symbol(Split2(b[1], b[2])), Symbol(Split3(b[2]))] + Encode(b[3..])
  }

  /** A decoder that accepts no padding and no stray bits: joined with nothing, what is left
      of the last sextet after the last byte must be 0. */
  function Decode(s: string): Option<seq<Byte>> {
    if |s| == 0 then Some([])
    else if |s| == 1 then None
    else
      var v0, v1 := Value(s[0]), Value(s[1]);
      if v0.None? || v1.None? then None
      else
        var b0 := Join0(v0.value, v1.value);
        if |s| == 2 then if Join1(v1.value, 0) == 0 then Some([b0]) else None
        else
          var v2 := Value(s[2]);
          if v2.None? then None
          else
            var b1 := Join1(v1.value, v2.value);
            if |s| == 3 then if Join2(v2.value, 0) == 0 then Some([b0, b1]) else None
            else
              var v3, rest := Value(s[3]), Decode(s[4..]);
              if v3.None? || rest.None? then None
              else Some([b0, b1, Join2(v2.value, v3.value)] + rest.value)
  }

  lemma ZeroSplits()
    ensures Split2(0, 0) == 0 && Split3(0) == 0
  {
  }

  /** What is encoded decodes to itself. */
  lemma {:induction false} EncodeThenDecode(b: seq<Byte>)
    ensures Decode(Encode(b)) == Some(b)
  {
    var e := Encode(b);
    ZeroSplits();
    hide Symbol, Value, Split0, Split1, Split2, Split3, Join0, Join1, Join2;
    var b0, b1, b2 := if |b| > 0 then b[0] else 0, if |b| > 1 then b[1] else 0, if |b| > 2 then b[2] else 0;
    Regroup(b0, b1, b2);
    SymbolValue(Split0(b0), Symbol(Split0(b0)));
    SymbolValue(Split1(b0, b1), Symbol(Split1(b0, b1)));
    SymbolValue(Split2(b1, b2), Symbol(Split2(b1, b2)));
    SymbolValue(Split3(b2), Symbol(Split3(b2)));
    if |b| >= 3 {
      EncodeThenDecode(b[3..]);
      assert e[4..] == Encode(b[3..]);
      assert b == [b0, b1, b2] + b[3..];
    } else if |b| == 2 {
      assert Decode(e) == Some([b0, b1]);
      assert b == [b0, b1];
    } else if |b| == 1 {
      assert Decode(e) == Some([b0]);
      assert b == [b0];
    }
  }

  /** Nothing else decodes: every accepted string is the one encoding of what it decodes to. */
  lemma {:induction false} DecodeThenEncode(s: string)
    requires Decode(s).Some?
    ensures Encode(Decode(s).value) == s
  {
    hide Symbol, Value, Split0, Split1, Split2, Split3, Join0, Join1, Join2;
    if |s| >= 4 {
      DecodeThenEncode(s[4..]);
      DecodeBlock(s);
    } else if |s| >= 2 {
      DecodeTail(s);
    }
  }

  lemma DecodeTail(s: string)
    requires 2 <= |s| <= 3 && Decode(s).Some?
    ensures Encode(Decode(s).value) == s
  {
    hide Symbol, Value, Split0, Split1, Split2, Split3, Join0, Join1, Join2;
    var v0, v1 := Value(s[0]).value, Value(s[1]).value;
    SymbolValue(v0, s[0]);
    SymbolValue(v1, s[1]);
    if |s| == 2 {
      Ungroup(v0, v1, 0, 0);
    } else {
      var v2 := Value(s[2]).value;
      SymbolValue(v2, s[2]);
      Ungroup(v0, v1, v2, 0);
    }
  }

  lemma DecodeBlock(s: string)
    requires |s| >= 4 && Decode(s).Some? && Decode(s[4..]).Some? && Encode(Decode(s[4..]).value) == s[4..]
    ensures Encode(Decode(s).value) == s
  {
    hide Symbol, Value, Split0, Split1, Split2, Split3, Join0, Join1, Join2;
    var v0, v1, v2, v3 := Value(s[0]).value, Value(s[1]).value, Value(s[2]).value, Value(s[3]).value;
    SymbolValue(v0, s[0]);
    SymbolValue(v1, s[1]);
    SymbolValue(v2, s[2]);
    SymbolValue(v3, s[3]);
    Ungroup(v0, v1, v2, v3);
    var b := Decode(s).value;
    assert b[3..] == Decode(s[4..]).value;
    hide Decode;
    assert s == [s[0], s[1], s[2], s[3]] + s[4..];
  }

  /** `decode_cursor`: `utf8` says which byte strings are UTF-8. */
  function DecodeCursor(s: string, utf8: seq<Byte> -> bool): Option<seq<Byte>> {
    var bytes := Decode(s);
    if bytes.Some? && utf8(bytes.value) then bytes else None
  }

  /** A cursor is read as a name exactly when it is that name's cursor. */
  lemma CursorRoundTrip(s: string, name: seq<Byte>, utf8: seq<Byte> -> bool)
    ensures DecodeCursor(s, utf8) == Some(name) <==> utf8(name) && s == Encode(name)
  {
    EncodeThenDecode(name);
    if Decode(s).Some? {
      DecodeThenEncode(s);
    }
  }
}
