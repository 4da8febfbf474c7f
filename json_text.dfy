/** The JSON text of a string as `json.dumps` writes it with its default
    `ensure_ascii=True`: quotes and backslashes escaped, the seven short escapes,
    every other character outside printable ASCII as `\uXXXX` (lower-case hex),
    and characters beyond the Basic Multilingual Plane as a surrogate pair. The
    decoder beside it reads such text back. */
module JsonText {
  import opened Records

  predicate IsHexDigit(c: char)
  {
    '0' <= c <= '9' || 'a' <= c <= 'f' || 'A' <= c <= 'F'
  }

  function HexValue(c: char): (v: nat)
    requires IsHexDigit(c)
    ensures v < 16
  {
    if '0' <= c <= '9' then c as int - '0' as int
    else if 'a' <= c <= 'f' then c as int - 'a' as int + 10
    else c as int - 'A' as int + 10
  }

  function HexDigit(d: nat): (c: char)
    requires d < 16
    ensures IsHexDigit(c) && HexValue(c) == d
    ensures '0' <= c <= '9' || 'a' <= c <= 'f'
  {
    if d < 10 then ('0' as int + d) as char else ('a' as int + d - 10) as char
  }

  predicate AllHex(s: string)
  {
    forall i :: 0 <= i < |s| ==> IsHexDigit(s[i])
  }

  function Hex4Value(s: string): (v: nat)
    requires |s| == 4 && AllHex(s)
    ensures v < 0x10000
  {
    HexValue(s[0]) * 4096 + HexValue(s[1]) * 256 + HexValue(s[2]) * 16 + HexValue(s[3])
  }

  /** `'{0:04x}'.format(n)` */
  function Hex4(n: nat): (r: string)
    requires n < 0x10000
    ensures |r| == 4 && AllHex(r) && Hex4Value(r) == n
    ensures forall i :: 0 <= i < 4 ==> '0' <= r[i] <= '9' || 'a' <= r[i] <= 'f'
  {
    var a := n / 16;
    var b := a / 16;
    var c := b / 16;
    var d0, d1, d2, d3 := c, b % 16, a % 16, n % 16;
    assert n == 16 * a + d3 && a == 16 * b + d2 && b == 16 * c + d1;
    assert d0 < 16;
    [HexDigit(d0), HexDigit(d1), HexDigit(d2), HexDigit(d3)]
  }

  predicate Printable(s: string)
  {
    forall i :: 0 <= i < |s| ==> ' ' <= s[i] <= '~'
  }

  /** The escape of one character. */
  function EscapeChar(c: char): (r: string)
    ensures r != [] && Printable(r)
    ensures r[0] != '"'
    ensures r[0] != '\\' ==> r == [c]
  {
    if c == '"' then ['\\', '"']
    else if c == '\\' then ['\\', '\\']
    else if c == '\n' then ['\\', 'n']
    else if c == '\r' then ['\\', 'r']
    else if c == '\t' then ['\\', 't']
    else if c == '\U{8}' then ['\\', 'b']
    else if c == '\U{c}' then ['\\', 'f']
    else if ' ' <= c <= '~' then [c]
    else if c as int < 0x10000 then ['\\', 'u'] + Hex4(c as int)
    else
      var v := c as int - 0x10000;
      ['\\', 'u'] + Hex4(0xD800 + v / 0x400) + ['\\', 'u'] + Hex4(0xDC00 + v % 0x400)
  }

  /** The body of the JSON string literal for `s` (without the quotes). */
  function Escape(s: string): (r: string)
    ensures Printable(r)
  {
    if s == [] then [] else EscapeChar(s[0]) + Escape(s[1..])
  }

  /** `json.dumps(s)` for a string. */
  function Quote(s: string): (r: string)
    ensures |r| >= 2 && r[0] == '"' && r[|r| - 1] == '"'
    ensures Printable(r)
  {
    "\"" + Escape(s) + "\""
  }

  /** `json.dumps(v)` for a value that is a string or null. */
  function NullableString(v: Option<string>): (r: string)
    ensures Printable(r)
    ensures v.None? ==> r == "null"
    ensures v.Some? ==> r == Quote(v.value)
  {
    if v.Some? then Quote(v.value) else "null"
  }

  function Prepend(c: char, o: Option<string>): Option<string>
  {
    if o.Some? then Some([c] + o.value) else None
  }

  /** The character a two-character escape `\e` stands for. */
  function ShortEscape(e: char): Option<char>
  {
    if e == '"' || e == '\\' || e == '/' then Some(e)
    else if e == 'n' then Some('\n')
    else if e == 'r' then Some('\r')
    else if e == 't' then Some('\t')
    else if e == 'b' then Some('\U{8}')
    else if e == 'f' then Some('\U{c}')
    else None
  }

  /** Reads the body of a JSON string literal back into its characters; `None`
      for a stray backslash, a bad escape or an unpaired surrogate. */
  function Unescape(s: string): Option<string>
    decreases |s|
  {
    if s == [] then Some([])
    else if s[0] != '\\' then Prepend(s[0], Unescape(s[1..]))
    else if |s| < 2 then None
    else if ShortEscape(s[1]).Some? then Prepend(ShortEscape(s[1]).value, Unescape(s[2..]))
    else if s[1] != 'u' || |s| < 6 || !AllHex(s[2..6]) then None
    else
      var hi := Hex4Value(s[2..6]);
      if 0xD800 <= hi < 0xDC00 then
        if |s| < 12 || s[6] != '\\' || s[7] != 'u' || !AllHex(s[8..12]) then None
        else
          var lo := Hex4Value(s[8..12]);
          if lo < 0xDC00 || 0xE000 <= lo then None
          else Prepend((0x10000 + (hi - 0xD800) * 0x400 + (lo - 0xDC00)) as char, Unescape(s[12..]))
      else if 0xDC00 <= hi < 0xE000 then None
      else Prepend(hi as char, Unescape(s[6..]))
  }

  lemma UnescapeChar(c: char, rest: string)
    ensures Unescape(EscapeChar(c) + rest) == Prepend(c, Unescape(rest))
  {
    if c == '"' || c == '\\' || c == '\n' || c == '\r' || c == '\t' || c == '\U{8}' || c == '\U{c}' {
      UnescapeShort(c, rest);
    } else if ' ' <= c <= '~' {
      assert EscapeChar(c) == [c];
      assert ([c] + rest)[1..] == rest;
    } else if c as int < 0x10000 {
      UnescapeBmp(c, rest);
    } else {
      UnescapeAstral(c, rest);
    }
  }

  lemma UnescapeShort(c: char, rest: string)
    requires c == '"' || c == '\\' || c == '\n' || c == '\r' || c == '\t' || c == '\U{8}' || c == '\U{c}'
    ensures Unescape(EscapeChar(c) + rest) == Prepend(c, Unescape(rest))
  {
    var s := EscapeChar(c) + rest;
    assert s[2..] == rest;
    assert ShortEscape(s[1]) == Some(c);
  }

  lemma UnescapeBmp(c: char, rest: string)
    requires !(' ' <= c <= '~') && c as int < 0x10000
    requires c != '"' && c != '\\' && c != '\n' && c != '\r' && c != '\t' && c != '\U{8}' && c != '\U{c}'
    ensures Unescape(EscapeChar(c) + rest) == Prepend(c, Unescape(rest))
  {
    var s := EscapeChar(c) + rest;
    assert EscapeChar(c) == ['\\', 'u'] + Hex4(c as int);
    assert s[2..6] == Hex4(c as int);
    assert s[6..] == rest;
  }

  lemma UnescapeAstral(c: char, rest: string)
    requires c as int >= 0x10000
    ensures Unescape(EscapeChar(c) + rest) == Prepend(c, Unescape(rest))
  {
    var v := c as int - 0x10000;
    SurrogatePair(c);
    UnescapePair(0xD800 + v / 0x400, 0xDC00 + v % 0x400, rest);
  }

  /** A character beyond the Basic Multilingual Plane is escaped as its UTF-16 surrogate pair. */
  lemma SurrogatePair(c: char)
    requires c as int >= 0x10000
    ensures var v := c as int - 0x10000;
      var hi, lo := 0xD800 + v / 0x400, 0xDC00 + v % 0x400;
      && 0xD800 <= hi < 0xDC00 && 0xDC00 <= lo < 0xE000
      && EscapeChar(c) == ['\\', 'u'] + Hex4(hi) + ['\\', 'u'] + Hex4(lo)
      && (0x10000 + (hi - 0xD800) * 0x400 + (lo - 0xDC00)) as char == c
  {
    SurrogateHalves(c as int - 0x10000);
  }

  /** The high and low ten bits of an offset into the astral planes. */
  lemma SurrogateHalves(v: int)
    requires 0 <= v < 0x100000
    ensures 0 <= v / 0x400 < 0x400 && 0 <= v % 0x400 < 0x400
    ensures (v / 0x400) * 0x400 + v % 0x400 == v
  {
  }

  lemma UnescapePair(hi: nat, lo: nat, rest: string)
    requires 0xD800 <= hi < 0xDC00 && 0xDC00 <= lo < 0xE000
    ensures Unescape(['\\', 'u'] + Hex4(hi) + ['\\', 'u'] + Hex4(lo) + rest)
            == Prepend((0x10000 + (hi - 0xD800) * 0x400 + (lo - 0xDC00)) as char, Unescape(rest))
  {
    var s := ['\\', 'u'] + Hex4(hi) + ['\\', 'u'] + Hex4(lo) + rest;
    assert s[2..6] == Hex4(hi) && s[8..12] == Hex4(lo) && s[12..] == rest;
    assert s[6] == '\\' && s[7] == 'u';
    assert ShortEscape(s[1]).None?;
  }

  /** Decoding what was encoded gives the string back. */
  lemma {:induction false} UnescapeEscape(s: string)
    ensures Unescape(Escape(s)) == Some(s)
  {
    if s != [] {
      UnescapeChar(s[0], Escape(s[1..]));
      UnescapeEscape(s[1..]);
      assert [s[0]] + s[1..] == s;
    }
  }

  /** Distinct strings have distinct JSON texts. */
  lemma QuoteInjective(a: string, b: string)
    requires Quote(a) == Quote(b)
    ensures a == b
  {
    assert Escape(a) == Quote(a)[1..|Quote(a)| - 1];
    assert Escape(b) == Quote(b)[1..|Quote(b)| - 1];
    UnescapeEscape(a);
    UnescapeEscape(b);
  }
}
