/** The ids of `src/agentStatusStore.ts`: parts passed through `encodeURIComponent` and joined
    by ':'. */
module AgentIds {
  type Byte = b: nat | b < 256

  // ---- encodeURIComponent: UTF-8, then a percent escape for every byte that is not unreserved ----

  function Utf8Char(c: char): (r: seq<Byte>)
    ensures 1 <= |r|
  {
    var n := c as int;
    if n < 0x80 then [n]
    else if n < 0x800 then [0xC0 + n / 64, 0x80 + n % 64]
    else if n < 0x1_0000 then [0xE0 + n / 64 / 64, 0x80 + n / 64 % 64, 0x80 + n % 64]
    else [0xF0 + n / 64 / 64 / 64, 0x80 + n / 64 / 64 % 64, 0x80 + n / 64 % 64, 0x80 + n % 64]
  }

  function Utf8(s: string): seq<Byte> {
    if s == [] then [] else Utf8Char(s[0]) + Utf8(s[1..])
  }

  predicate Unreserved(b: Byte) {
    'A' as int <= b <= 'Z' as int || 'a' as int <= b <= 'z' as int || '0' as int <= b <= '9' as int
    || (b < 128 && b as char in "-_.!~*'()")
  }

  function HexDigit(n: nat): (c: char)
    requires n < 16
    ensures c != ':'
  {
    if n < 10 then '0' + n as char else 'A' + (n - 10) as char
  }

  function EscapeByte(b: Byte): (r: string)
    ensures |r| == if Unreserved(b) then 1 else 3
    ensures r[0] == '%' <==> !Unreserved(b)
    ensures ':' !in r
  {
    if Unreserved(b) then [b as char] else ['%', HexDigit(b / 16), HexDigit(b % 16)]
  }

  function Escape(bytes: seq<Byte>): string {
    if bytes == [] then [] else EscapeByte(bytes[0]) + Escape(bytes[1..])
  }

  function Encode(s: string): string {
    Escape(Utf8(s))
  }

  // ---- Nothing is lost by encoding ----

  lemma HexDigitsDiffer(m: nat, n: nat)
    requires m < 16 && n < 16 && HexDigit(m) == HexDigit(n)
    ensures m == n
  {
  }

  lemma EscapeByteDecides(a: Byte, x: string, b: Byte, y: string)
    requires EscapeByte(a) + x == EscapeByte(b) + y
    ensures a == b && x == y
  {
    var s, t := EscapeByte(a) + x, EscapeByte(b) + y;
    assert s[0] == EscapeByte(a)[0] && t[0] == EscapeByte(b)[0];
    assert x == s[|EscapeByte(a)|..] && y == t[|EscapeByte(b)|..];
    if Unreserved(a) {
      assert a as char == b as char;
    } else {
      assert s[1] == HexDigit(a / 16) && t[1] == HexDigit(b / 16);
      assert s[2] == HexDigit(a % 16) && t[2] == HexDigit(b % 16);
      HexDigitsDiffer(a / 16, b / 16);
      HexDigitsDiffer(a % 16, b % 16);
    }
  }

  lemma {:induction false} EscapeInjective(a: seq<Byte>, b: seq<Byte>)
    requires Escape(a) == Escape(b)
    ensures a == b
    decreases |a|
  {
    if a != [] && b != [] {
      EscapeByteDecides(a[0], Escape(a[1..]), b[0], Escape(b[1..]));
      EscapeInjective(a[1..], b[1..]);
      assert a == [a[0]] + a[1..] && b == [b[0]] + b[1..];
    }
  }

  /** The lead byte of a character fixes how many bytes follow. */
  function Width(lead: Byte): nat {
    if lead < 0xC0 then 1 else if lead < 0xE0 then 2 else if lead < 0xF0 then 3 else 4
  }

  lemma LeadByte(c: char)
    ensures Width(Utf8Char(c)[0]) == |Utf8Char(c)|
  {
  }

  lemma Utf8CharInjective(c: char, d: char)
    requires Utf8Char(c) == Utf8Char(d)
    ensures c == d
  {
    var m, n, r := c as int, d as int, Utf8Char(c);
    LeadByte(c);
    LeadByte(d);
    assert r[|r| - 1] == Utf8Char(d)[|r| - 1];
    if |r| >= 2 {
      assert m % 64 == n % 64;
      assert r[|r| - 2] == Utf8Char(d)[|r| - 2];
    }
    if |r| >= 3 {
      assert m / 64 % 64 == n / 64 % 64;
      assert r[|r| - 3] == Utf8Char(d)[|r| - 3];
    }
    if |r| == 4 {
      assert m / 64 / 64 % 64 == n / 64 / 64 % 64;
      assert r[0] == Utf8Char(d)[0];
    }
  }

  lemma Utf8CharDecides(c: char, x: seq<Byte>, d: char, y: seq<Byte>)
    requires Utf8Char(c) + x == Utf8Char(d) + y
    ensures c == d && x == y
  {
    var s, t := Utf8Char(c) + x, Utf8Char(d) + y;
    LeadByte(c);
    LeadByte(d);
    assert s[0] == Utf8Char(c)[0] && t[0] == Utf8Char(d)[0];
    var k := |Utf8Char(c)|;
    assert Utf8Char(c) == s[..k] && Utf8Char(d) == t[..k];
    Utf8CharInjective(c, d);
    assert x == s[k..] && y == t[k..];
  }

  lemma {:induction false} Utf8Injective(a: string, b: string)
    requires Utf8(a) == Utf8(b)
    ensures a == b
    decreases |a|
  {
    if a != [] && b != [] {
      Utf8CharDecides(a[0], Utf8(a[1..]), b[0], Utf8(b[1..]));
      Utf8Injective(a[1..], b[1..]);
      assert a == [a[0]] + a[1..] && b == [b[0]] + b[1..];
    }
  }

  lemma EncodeInjective(a: string, b: string)
    requires Encode(a) == Encode(b)
    ensures a == b
  {
    EscapeInjective(Utf8(a), Utf8(b));
    Utf8Injective(a, b);
  }

  lemma {:induction false} EscapeHasNoColon(bytes: seq<Byte>)
    ensures ':' !in Escape(bytes)
  {
    if bytes != [] {
      EscapeHasNoColon(bytes[1..]);
    }
  }

  // ---- The ids ----

  function EntryId(terminal: string, session: string, agent: string): string {
    Encode(terminal) + ":" + (Encode(session) + ":" + Encode(agent))
  }

  function StreamId(provider: string, terminal: string, session: string): string {
    Encode(provider) + ":" + (Encode(terminal) + ":" + Encode(session))
  }

  lemma NoShorterPart(a: string, x: string, b: string, y: string)
    requires ':' !in b && a + ":" + x == b + ":" + y
    ensures |b| <= |a|
  {
    var s := a + ":" + x;
    assert s[|a|] == ':';
  }

  lemma SplitUnique(a: string, x: string, b: string, y: string)
    requires ':' !in a && ':' !in b && a + ":" + x == b + ":" + y
    ensures a == b && x == y
  {
    NoShorterPart(a, x, b, y);
    NoShorterPart(b, y, a, x);
    var s := a + ":" + x;
    assert a == s[..|a|] && b == s[..|b|];
    assert x == s[|a| + 1..] && y == s[|b| + 1..];
  }

  lemma PartsUnique(a1: string, a2: string, a3: string, b1: string, b2: string, b3: string)
    requires EntryId(a1, a2, a3) == EntryId(b1, b2, b3)
    ensures a1 == b1 && a2 == b2 && a3 == b3
  {
    EscapeHasNoColon(Utf8(a1));
    EscapeHasNoColon(Utf8(b1));
    EscapeHasNoColon(Utf8(a2));
    EscapeHasNoColon(Utf8(b2));
    SplitUnique(Encode(a1), Encode(a2) + ":" + Encode(a3), Encode(b1), Encode(b2) + ":" + Encode(b3));
    SplitUnique(Encode(a2), Encode(a3), Encode(b2), Encode(b3));
    EncodeInjective(a1, b1);
    EncodeInjective(a2, b2);
    EncodeInjective(a3, b3);
  }

  /** Two id triples give the same id only when they are the same: nothing in a part can be
      mistaken for a separator. */
  lemma IdsInjective(a1: string, a2: string, a3: string, b1: string, b2: string, b3: string)
    ensures EntryId(a1, a2, a3) == EntryId(b1, b2, b3) <==> a1 == b1 && a2 == b2 && a3 == b3
    ensures StreamId(a1, a2, a3) == StreamId(b1, b2, b3) <==> a1 == b1 && a2 == b2 && a3 == b3
  {
    if EntryId(a1, a2, a3) == EntryId(b1, b2, b3) {
      PartsUnique(a1, a2, a3, b1, b2, b3);
    }
    if StreamId(a1, a2, a3) == StreamId(b1, b2, b3) {
      PartsUnique(a1, a2, a3, b1, b2, b3);
    }
  }
}
