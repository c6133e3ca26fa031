/**
 The two text encodings that pkg/security and pkg/tus rely on: base64 with the standard alphabet
 (section 4 of RFC 4648) and the escaping of query strings. Go strings are sequences of bytes.
 */
module TextCodec {
  import opened Basics

  // ----- base64 -----

  /** The character of a number below 64. */
  function Symbol(d: int): (c: char)
    requires 0 <= d < 64
    ensures c != '=' && '+' <= c <= 'z' && c != ','
    ensures SymbolValue(c) == Some(d)
  {
    if d < 26 then 'A' + d as char
    else if d < 52 then 'a' + (d - 26) as char
    else if d < 62 then '0' + (d - 52) as char
    else if d == 62 then '+' else '/'
  }

  function SymbolValue(c: char): (r: Option<int>)
    ensures r.Some? ==> 0 <= r.value < 64
  {
    if 'A' <= c <= 'Z' then Some(c as int - 'A' as int)
    else if 'a' <= c <= 'z' then Some(c as int - 'a' as int + 26)
    else if '0' <= c <= '9' then Some(c as int - '0' as int + 52)
    else if c == '+' then Some(62)
    else if c == '/' then Some(63)
    else None
  }

  /** The 24 bits of three bytes, six bits at a time. */
  function Six(a: bv8, b: bv8, c: bv8, i: nat): (d: bv8)
    requires i < 4
    ensures d < 64
  {
    if i == 0 then a >> 2
    else if i == 1 then ((a & 3) << 4) | (b >> 4)
    else if i == 2 then ((b & 15) << 2) | (c >> 6)
    else c & 63
  }

  function Joined(d: bv8, e: bv8, i: nat): bv8
    requires i < 3
  {
    if i == 0 then (d << 2) | (e >> 4) else if i == 1 then (d << 4) | (e >> 2) else (d << 6) | e
  }

  lemma SixJoined(a: bv8, b: bv8, c: bv8)
    ensures Joined(Six(a, b, c, 0), Six(a, b, c, 1), 0) == a
    ensures Joined(Six(a, b, c, 1), Six(a, b, c, 2), 1) == b
    ensures Joined(Six(a, b, c, 2), Six(a, b, c, 3), 2) == c
  {}

  function Char(d: bv8): char
    requires d < 64
  {
    Symbol(d as int)
  }

  function Value(c: char): Option<bv8>
  {
    var r := SymbolValue(c);
    if r.Some? then Some(r.value as bv8) else None
  }

  lemma ValueOfChar(d: bv8)
    requires d < 64
    ensures Value(Char(d)) == Some(d) && Char(d) != '='
  {
    assert (d as int) as bv8 == d;
  }

  function Encode64(s: Bytes): string
  {
    if |s| == 0 then ""
    else if |s| == 1 then [Char(Six(s[0], 0, 0, 0)), Char(Six(s[0], 0, 0, 1)), '=', '=']
    else if |s| == 2 then [Char(Six(s[0], s[1], 0, 0)), Char(Six(s[0], s[1], 0, 1)), Char(Six(s[0], s[1], 0, 2)), '=']
    else
      [Char(Six(s[0], s[1], s[2], 0)), Char(Six(s[0], s[1], s[2], 1)), Char(Six(s[0], s[1], s[2], 2)), Char(Six(s[0], s[1], s[2], 3))]
      + Encode64(s[3..])
  }

  /** Line breaks are skipped wherever they are. */
  function Unbroken(s: string): string
  {
    if s == "" then ""
    else if s[0] == '\n' || s[0] == '\r' then Unbroken(s[1..])
    else [s[0]] + Unbroken(s[1..])
  }

  function DecodeGroups(s: string): Option<Bytes>
  {
    if |s| == 0 then Some([])
    else if |s| < 4 then None
    else
      var d, e := Value(s[0]), Value(s[1]);
      if d.None? || e.None? then None
      else
        var x := Joined(d.value, e.value, 0);
        if s[2] == '=' then if s[3] == '=' && |s| == 4 then Some([x]) else None
        else
          var f := Value(s[2]);
          if f.None? then None
          else
            var y := Joined(e.value, f.value, 1);
            if s[3] == '=' then if |s| == 4 then Some([x, y]) else None
            else
              var g, rest := Value(s[3]), DecodeGroups(s[4..]);
              if g.None? || rest.None? then None else Some([x, y, Joined(f.value, g.value, 2)] + rest.value)
  }

  /** base64.StdEncoding.DecodeString; None for an error. */
  function Decode64(s: string): Option<Bytes>
  {
    DecodeGroups(Unbroken(s))
  }

  lemma {:induction false} GroupsRoundTrip(s: Bytes)
    ensures DecodeGroups(Encode64(s)) == Some(s)
  {
    hide Six, Joined, Char, Value;
    if s == [] {
    } else if |s| == 1 {
      Group(s[0], 0, 0);
      assert s == [s[0]];
    } else if |s| == 2 {
      Group(s[0], s[1], 0);
      assert s == [s[0], s[1]];
    } else {
      Group(s[0], s[1], s[2]);
      GroupsRoundTrip(s[3..]);
      assert Encode64(s)[4..] == Encode64(s[3..]);
      assert s == [s[0], s[1], s[2]] + s[3..];
    }
  }

  lemma Group(a: bv8, b: bv8, c: bv8)
    ensures forall i: nat :: i < 4 ==> Value(Char(Six(a, b, c, i))) == Some(Six(a, b, c, i)) && Char(Six(a, b, c, i)) != '='
    ensures Joined(Six(a, b, c, 0), Six(a, b, c, 1), 0) == a
    ensures Joined(Six(a, b, c, 1), Six(a, b, c, 2), 1) == b
    ensures Joined(Six(a, b, c, 2), Six(a, b, c, 3), 2) == c
  {
    SixJoined(a, b, c);
    forall i: nat | i < 4
      ensures Value(Char(Six(a, b, c, i))) == Some(Six(a, b, c, i)) && Char(Six(a, b, c, i)) != '='
    {
      ValueOfChar(Six(a, b, c, i));
    }
  }

  /** No blanks, commas or line breaks. */
  predicate Plain(s: string)
  {
    forall i :: 0 <= i < |s| ==> '+' <= s[i] <= 'z' && s[i] != ','
  }

  lemma {:induction false} EncodedIsPlain(s: Bytes)
    ensures Plain(Encode64(s)) && (s != [] ==> Encode64(s) != "")
  {
    hide Six;
    if |s| <= 2 {
    } else {
      EncodedIsPlain(s[3..]);
    }
  }

  lemma {:induction false} PlainUnbroken(s: string)
    requires Plain(s)
    ensures Unbroken(s) == s
  {
    if s == "" {
    } else {
      assert Plain(s[1..]);
      PlainUnbroken(s[1..]);
    }
  }

  lemma Base64RoundTrip(s: Bytes)
    ensures Decode64(Encode64(s)) == Some(s)
  {
    GroupsRoundTrip(s);
    EncodedIsPlain(s);
    PlainUnbroken(Encode64(s));
  }

  /** Groups of four symbols, of which the last two may be padding. */
  predicate WellFormed(s: string)
  {
    var n := |s|;
    && n % 4 == 0 && (forall i :: 0 <= i < n - 2 ==> SymbolValue(s[i]).Some?)
    && (n > 0 ==>
          && (SymbolValue(s[n - 1]).Some? || s[n - 1] == '=')
          && (SymbolValue(s[n - 2]).Some? || (s[n - 2] == '=' && s[n - 1] == '=')))
  }

  lemma ShortGroups(s: string)
    requires |s| <= 4
    ensures DecodeGroups(s).Some? <==> WellFormed(s)
  {
    assert SymbolValue('=').None?;
    hide Joined, SymbolValue;
    if |s| == 4 {
      assert s[4..] == "" && DecodeGroups("") == Some([]);
      assert WellFormed(s) <==>
             SymbolValue(s[0]).Some? && SymbolValue(s[1]).Some? && (SymbolValue(s[3]).Some? || s[3] == '=') && (SymbolValue(s[2]).Some? || (s[2] == '=' && s[3] == '='));
    }
  }

  lemma MoreGroups(s: string)
    requires |s| > 4
    ensures DecodeGroups(s).Some? <==> DecodeGroups(s[4..]).Some? && FourSymbols(s)
  {
    assert SymbolValue('=').None?;
    hide Joined, SymbolValue;
  }

  predicate FourSymbols(s: string)
    requires |s| >= 4
  {
    SymbolValue(s[0]).Some? && SymbolValue(s[1]).Some? && SymbolValue(s[2]).Some? && SymbolValue(s[3]).Some?
  }

  /** Exactly the texts of this form decode, line breaks aside. */
  lemma {:induction false} DecodesExactly(s: string)
    ensures DecodeGroups(s).Some? <==> WellFormed(s)
  {
    hide DecodeGroups, WellFormed;
    if |s| <= 4 {
      ShortGroups(s);
    } else {
      DecodesExactly(s[4..]);
      MoreGroups(s);
      FourMore(s);
    }
  }

  lemma FourMore(s: string)
    requires |s| > 4
    ensures WellFormed(s) <==>
              WellFormed(s[4..]) && s[4..] != "" && FourSymbols(s)
  {
    var t := s[4..];
    hide SymbolValue;
    assert forall i :: 0 <= i < |t| ==> t[i] == s[i + 4];
    assert (forall i :: 4 <= i < |s| - 2 ==> SymbolValue(s[i]).Some?) <==> (forall i :: 0 <= i < |t| - 2 ==> SymbolValue(t[i]).Some?) by {
      assert forall i :: 4 <= i < |s| - 2 ==> s[i] == t[i - 4];
    }
    if |s| % 4 == 0 {
      assert |s| >= 8;
    }
  }

  /** Section 10 of RFC 4648: the encodings of the beginnings of "foobar". */
  lemma Base64Examples()
    ensures Encode64([0x66]) == "Zg==" && Encode64([0x66, 0x6f]) == "Zm8=" && Encode64([0x66, 0x6f, 0x6f]) == "Zm9v"
    ensures Encode64([0x66, 0x6f, 0x6f, 0x62, 0x61, 0x72]) == "Zm9vYmFy"
  {
    SixExamples();
    hide Six;
    assert [0x66, 0x6f, 0x6f][3..] == [];
    assert Encode64([0x66, 0x6f, 0x6f]) == "Zm9v" && Encode64([0x62, 0x61, 0x72]) == "YmFy";
    assert [0x66, 0x6f, 0x6f, 0x62, 0x61, 0x72][3..] == [0x62, 0x61, 0x72];
  }

  lemma SixExamples()
    ensures Six(0x66, 0, 0, 0) == 25 && Six(0x66, 0, 0, 1) == 32
    ensures Six(0x66, 0x6f, 0, 0) == 25 && Six(0x66, 0x6f, 0, 1) == 38 && Six(0x66, 0x6f, 0, 2) == 60
    ensures Six(0x66, 0x6f, 0x6f, 0) == 25 && Six(0x66, 0x6f, 0x6f, 1) == 38 && Six(0x66, 0x6f, 0x6f, 2) == 61 && Six(0x66, 0x6f, 0x6f, 3) == 47
    ensures Six(0x62, 0x61, 0x72, 0) == 24 && Six(0x62, 0x61, 0x72, 1) == 38 && Six(0x62, 0x61, 0x72, 2) == 5 && Six(0x62, 0x61, 0x72, 3) == 50
  {}

  /** Table 1 of RFC 4648: the capital letters, the small letters, the digits, and two marks, each in its order. */
  lemma Alphabet(d: int)
    requires 0 <= d < 63
    ensures Symbol(0) == 'A' && Symbol(25) == 'Z' && Symbol(26) == 'a' && Symbol(51) == 'z'
    ensures Symbol(52) == '0' && Symbol(61) == '9' && Symbol(62) == '+' && Symbol(63) == '/'
    ensures d !in {25, 51, 61, 62} ==> Symbol(d + 1) as int == Symbol(d) as int + 1
  {}

  // ----- query escaping -----

  /** Letters, digits, '-', '_', '.' and '~'. */
  predicate Unreserved(b: bv8)
  {
    0x41 <= b <= 0x5a || 0x61 <= b <= 0x7a || 0x30 <= b <= 0x39 || b == 0x2d || b == 0x5f || b == 0x2e || b == 0x7e
  }

  const PERCENT: bv8 := 0x25
  const PLUS: bv8 := 0x2b
  const BLANK: bv8 := 0x20

  function HexDigit(n: bv8): bv8
    requires n < 16
  {
    if n < 10 then 0x30 + n else 0x37 + n
  }

  function HexValue(b: bv8): Option<bv8>
  {
    if 0x30 <= b <= 0x39 then Some(b - 0x30)
    else if 0x41 <= b <= 0x46 then Some(b - 0x37)
    else if 0x61 <= b <= 0x66 then Some(b - 0x57)
    else None
  }

  function EscapeByte(b: bv8): Bytes
  {
    if Unreserved(b) then [b] else if b == BLANK then [PLUS] else [PERCENT, HexDigit(b >> 4), HexDigit(b & 15)]
  }

  /** url.QueryEscape. */
  function Escape(s: Bytes): Bytes
  {
    if s == [] then [] else EscapeByte(s[0]) + Escape(s[1..])
  }

  /** url.QueryUnescape; None for an error. */
  function Unescape(s: Bytes): Option<Bytes>
  {
    if s == [] then Some([])
    else if s[0] == PERCENT then
      if |s| < 3 || HexValue(s[1]).None? || HexValue(s[2]).None? then None
      else
        var rest := Unescape(s[3..]);
        if rest.None? then None else Some([(HexValue(s[1]).value << 4) | HexValue(s[2]).value] + rest.value)
    else
      var rest := Unescape(s[1..]);
      if rest.None? then None else Some([if s[0] == PLUS then BLANK else s[0]] + rest.value)
  }

  lemma EscapedByte(b: bv8)
    ensures Unreserved(b) ==> b != PERCENT && b != PLUS
    ensures HexValue(HexDigit(b >> 4)) == Some(b >> 4) && HexValue(HexDigit(b & 15)) == Some(b & 15)
    ensures ((b >> 4) << 4) | (b & 15) == b
  {}

  lemma {:induction false} EscapeRoundTrip(s: Bytes)
    ensures Unescape(Escape(s)) == Some(s)
  {
    if s == [] {
    } else {
      EscapeRoundTrip(s[1..]);
      EscapedByte(s[0]);
      var e := Escape(s);
      var n := |EscapeByte(s[0])|;
      assert e[..n] == EscapeByte(s[0]) && e[n..] == Escape(s[1..]);
      hide HexValue, HexDigit, Unreserved;
      assert e[0] == EscapeByte(s[0])[0];
      if n == 3 {
        assert e[1] == EscapeByte(s[0])[1] && e[2] == EscapeByte(s[0])[2];
      }
      assert s == [s[0]] + s[1..];
    }
  }

  /** Byte by byte: letters, digits and four marks stay, a blank becomes a plus, the rest two hexadecimal digits. */
  lemma EscapeExample()
    ensures Escape([0x61, 0x20, 0x26, 0x7e, 0xc3]) == [0x61, 0x2b, 0x25, 0x32, 0x36, 0x7e, 0x25, 0x43, 0x33]
  {
    assert Escape([0xc3]) == [0x25, 0x43, 0x33] && Escape([0x7e, 0xc3]) == [0x7e] + Escape([0xc3]);
    assert Escape([0x26, 0x7e, 0xc3]) == [0x25, 0x32, 0x36] + Escape([0x7e, 0xc3]);
    assert Escape([0x20, 0x26, 0x7e, 0xc3]) == [0x2b] + Escape([0x26, 0x7e, 0xc3]);
  }

  /** DecodeURIComponent: a text that does not unescape is taken as it is. */
  function DecodeURIComponent(s: Bytes): Bytes
  {
    var r := Unescape(s);
    if r.Some? then r.value else s
  }
}
