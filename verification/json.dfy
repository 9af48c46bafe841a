/** `json_encode` with its default flags, on the plain values a normalised
    payload holds: what the Redis transport pushes onto its list. */
module Json {
  import opened Wrappers
  import opened PhpValues

  // ---------------------------------------------------------------- hex

  function HexDigit(d: nat): char
    requires d < 16
  {
    "0123456789abcdef"[d]
  }

  /** Four lower-case hexadecimal digits, as json_encode writes `\uXXXX`. */
  function Hex4(n: nat): (s: string)
    requires n < 0x10000
    ensures |s| == 4
  {
    var low12 := n % 0x1000;
    var low8 := low12 % 0x100;
    [HexDigit(n / 0x1000), HexDigit(low12 / 0x100), HexDigit(low8 / 16), HexDigit(low8 % 16)]
  }

  function HexValue(c: char): Option<nat> {
    if '0' <= c <= '9' then Some(c as int - '0' as int)
    else if 'a' <= c <= 'f' then Some(c as int - 'a' as int + 10)
    else if 'A' <= c <= 'F' then Some(c as int - 'A' as int + 10)
    else None
  }

  function ParseHex4(s: string): (r: Option<nat>)
    requires |s| == 4
    ensures r.Some? ==> r.value < 0x10000
  {
    match (HexValue(s[0]), HexValue(s[1]), HexValue(s[2]), HexValue(s[3]))
    case (Some(a), Some(b), Some(c), Some(d)) =>
      if a < 16 && b < 16 && c < 16 && d < 16 then Some(a * 0x1000 + b * 0x100 + c * 16 + d) else None
    case _ => None
  }

  lemma HexDigitValue(d: nat)
    requires d < 16
    ensures HexValue(HexDigit(d)) == Some(d)
  {
    assert "0123456789abcdef"[d] == HexDigit(d);
  }

  /** Reading back four written hex digits gives the number. */
  lemma Hex4RoundTrip(n: nat)
    requires n < 0x10000
    ensures ParseHex4(Hex4(n)) == Some(n)
  {
    var low12 := n % 0x1000;
    var low8 := low12 % 0x100;
    var a, b, c, d := n / 0x1000, low12 / 0x100, low8 / 16, low8 % 16;
    HexDigitValue(a);
    HexDigitValue(b);
    HexDigitValue(c);
    HexDigitValue(d);
    assert n == a * 0x1000 + low12;
    assert low12 == b * 0x100 + low8;
    assert low8 == c * 16 + d;
  }

  // ---------------------------------------------------------------- strings

  /** A character that may stand for itself inside a JSON string as
      json_encode writes it: printable ASCII other than `"`, `\` and `/`. */
  predicate Verbatim(c: char) {
    0x20 <= c as int < 0x80 && c != '"' && c != '\\' && c != '/'
  }

  /** The escape json_encode writes for one character: the short escapes,
      `\/` for the slash, `\u` with four hex digits for other control
      characters and everything beyond ASCII (as a UTF-16 surrogate pair
      outside the basic plane). */
  function EscapeChar(c: char): (r: string)
    ensures |r| >= 1
    ensures Verbatim(c) <==> r == [c]
    ensures !Verbatim(c) ==> r[0] == '\\'
  {
    var n := c as int;
    if c == '"' then "\\\""
    else if c == '\\' then "\\\\"
    else if c == '/' then "\\/"
    else if n == 8 then "\\b"
    else if n == 12 then "\\f"
    else if n == 10 then "\\n"
    else if n == 13 then "\\r"
    else if n == 9 then "\\t"
    else if n < 0x20 then "\\u" + Hex4(n)
    else if n < 0x80 then [c]
    else if n < 0x10000 then "\\u" + Hex4(n)
    else
      var u := n - 0x10000;
      "\\u" + Hex4(0xD800 + u / 0x400) + "\\u" + Hex4(0xDC00 + u % 0x400)
  }

  function Escape(s: string): string {
    if s == [] then [] else EscapeChar(s[0]) + Escape(s[1..])
  }

  /** A code point that is a Dafny `char`: any but the surrogates. */
  predicate IsScalar(n: int) {
    0 <= n < 0xD800 || 0xE000 <= n < 0x110000
  }

  /** Reads one escape sequence at the head of `t` (which starts with `\`):
      the character it stands for and how many characters it took. */
  function UnescapeOne(t: string): (r: Option<(char, nat)>)
    requires |t| >= 1 && t[0] == '\\'
    ensures r.Some? ==> 2 <= r.value.1 <= |t|
  {
    if |t| < 2 then None
    else if t[1] == '"' then Some(('"', 2))
    else if t[1] == '\\' then Some(('\\', 2))
    else if t[1] == '/' then Some(('/', 2))
    else if t[1] == 'b' then Some((8 as char, 2))
    else if t[1] == 'f' then Some((12 as char, 2))
    else if t[1] == 'n' then Some(('\n', 2))
    else if t[1] == 'r' then Some(('\r', 2))
    else if t[1] == 't' then Some(('\t', 2))
    else if t[1] != 'u' || |t| < 6 then None
    else match ParseHex4(t[2..6])
      case None => None
      case Some(h) =>
        if 0xD800 <= h < 0xDC00 then
          if |t| < 12 || t[6] != '\\' || t[7] != 'u' then None
          else match ParseHex4(t[8..12])
            case None => None
            case Some(l) =>
              if 0xDC00 <= l < 0xE000 then
                var cp := 0x10000 + (h - 0xD800) * 0x400 + (l - 0xDC00);
                Some((cp as char, 12))
              else None
        else if IsScalar(h) then Some((h as char, 6))
        else None
  }

  /** The decoder of a JSON string body: the inverse of `Escape`. */
  function Unescape(t: string): Option<string>
    decreases |t|
  {
    if t == [] then Some([])
    else if t[0] != '\\' then
      match Unescape(t[1..])
      case Some(rest) => Some([t[0]] + rest)
      case None => None
    else
      match UnescapeOne(t)
      case None => None
      case Some((c, n)) =>
        match Unescape(t[n..])
        case Some(rest) => Some([c] + rest)
        case None => None
  }

  /** A `\u` escape of a code unit outside the surrogates reads back. */
  lemma UnescapeBasic(n: nat, rest: string)
    requires n < 0x10000 && IsScalar(n) && !(0xD800 <= n < 0xDC00)
    ensures UnescapeOne("\\u" + Hex4(n) + rest) == Some((n as char, 6))
  {
    var t := "\\u" + Hex4(n) + rest;
    Hex4RoundTrip(n);
    assert t[1] == 'u' && t[2..6] == Hex4(n);
  }

  /** The two halves of a surrogate pair put back together. */
  lemma PairHalves(n: int)
    requires 0x10000 <= n < 0x110000
    ensures var u := n - 0x10000;
      0xD800 <= 0xD800 + u / 0x400 < 0xDC00 && 0xDC00 <= 0xDC00 + u % 0x400 < 0xE000 &&
      0x10000 + (u / 0x400) * 0x400 + u % 0x400 == n
  {
  }

  /** A surrogate pair reads back as the code point it encodes. */
  lemma UnescapePair(n: int, rest: string)
    requires 0x10000 <= n < 0x110000
    ensures var u := n - 0x10000;
      UnescapeOne("\\u" + Hex4(0xD800 + u / 0x400) + "\\u" + Hex4(0xDC00 + u % 0x400) + rest)
        == Some((n as char, 12))
  {
    var u := n - 0x10000;
    PairHalves(n);
    var hi, lo := 0xD800 + u / 0x400, 0xDC00 + u % 0x400;
    var t := "\\u" + Hex4(hi) + "\\u" + Hex4(lo) + rest;
    Hex4RoundTrip(hi);
    Hex4RoundTrip(lo);
    assert t[1] == 'u' && t[2..6] == Hex4(hi);
    assert ParseHex4(t[2..6]) == Some(hi);
    assert t[6] == '\\' && t[7] == 'u' && t[8..12] == Hex4(lo);
    assert ParseHex4(t[8..12]) == Some(lo);
    assert 0x10000 + (hi - 0xD800) * 0x400 + (lo - 0xDC00) == n;
  }

  /** Decoding one written escape gives the character back and consumes the
      escape exactly. */
  lemma UnescapeEscapeChar(c: char, rest: string)
    requires !Verbatim(c)
    ensures UnescapeOne(EscapeChar(c) + rest) == Some((c, |EscapeChar(c)|))
  {
    var n := c as int;
    if c == '"' || c == '\\' || c == '/' || n == 8 || n == 12 || n == 10 || n == 13 || n == 9 {
    } else if n < 0x20 || (0x80 <= n < 0x10000) {
      UnescapeBasic(n, rest);
    } else {
      UnescapePair(n, rest);
    }
  }

  /** Every string survives json_encode's escaping: decoding gives it back. */
  lemma {:induction false} EscapeRoundTrip(s: string)
    ensures Unescape(Escape(s)) == Some(s)
  {
    if s != [] {
      EscapeRoundTrip(s[1..]);
      var e, rest := EscapeChar(s[0]), Escape(s[1..]);
      var t := e + rest;
      assert t[|e|..] == rest;
      if Verbatim(s[0]) {
        assert t[1..] == rest;
      } else {
        UnescapeEscapeChar(s[0], rest);
      }
      assert [s[0]] + s[1..] == s;
    }
  }

  /** So two different strings are never written alike. */
  lemma EscapeInjective(a: string, b: string)
    requires Escape(a) == Escape(b)
    ensures a == b
  {
    EscapeRoundTrip(a);
    EscapeRoundTrip(b);
  }

  // ---------------------------------------------------------------- values

  /** An array json_encode writes as a JSON list: its keys are 0, 1, 2, …
      in order. Any other array becomes a JSON object. */
  predicate IsList(es: seq<Entry>) {
    forall i :: 0 <= i < |es| ==> es[i].key == Decimal(i)
  }

  function Quote(s: string): string {
    "\"" + Escape(s) + "\""
  }

  /** `json_encode($value)`. */
  function Serialize(v: Value): (r: string)
    requires Plain(v)
    decreases v, 2
  {
    match v
    case Null => "null"
    case Bool(b) => if b then "true" else "false"
    case Int(i) => Decimal(i)
    case Str(s) => Quote(s)
    case Arr(es) =>
      if IsList(es) then "[" + Elements(es) + "]" else "{" + Members(es) + "}"
  }

  /** The values of a list, comma-separated. */
  function Elements(es: seq<Entry>): string
    requires PlainEntries(es)
    decreases es, 1
  {
    if es == [] then ""
    else
      var head := Serialize(es[0].val);
      if |es| == 1 then head else head + "," + Elements(es[1..])
  }

  /** The `"key":value` members of an object, comma-separated. */
  function Members(es: seq<Entry>): string
    requires PlainEntries(es)
    decreases es, 1
  {
    if es == [] then ""
    else
      var head := Quote(es[0].key) + ":" + Serialize(es[0].val);
      if |es| == 1 then head else head + "," + Members(es[1..])
  }

  /** A payload with a key that is not a list index is written as a JSON
      object, between braces. */
  lemma ObjectShape(es: seq<Entry>)
    requires PlainEntries(es) && |es| > 0 && es[0].key != "0"
    ensures Serialize(Arr(es)) == "{" + Members(es) + "}"
  {
    assert Decimal(0) == "0";
    assert !IsList(es);
  }
}
