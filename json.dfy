/**
 * JSON text for lists of strings, as `JSON.stringify(list)` writes it for the amenities and
 * images columns and as `JSON.parse(text)` reads it back.
 *
 * The encoder escapes the quote, the backslash, the five control characters that have a
 * short escape, and every other control character as `\u00xx`. The decoder accepts those
 * escapes, `\/`, any `\uXXXX` that denotes a character (a surrogate pair denoting one), and
 * whitespace between tokens; it rejects a raw control character inside a string.
 */
module Json {
  import opened Wrappers

  /** The lower-case hexadecimal digit for `d`. */
  function HexDigit(d: nat): (c: char)
    requires d < 16
    ensures IsHexDigit(c)
  {
    if d < 10 then ('0' as int + d) as char else ('a' as int + d - 10) as char
  }

  predicate IsHexDigit(c: char) {
    '0' <= c <= '9' || 'a' <= c <= 'f' || 'A' <= c <= 'F'
  }

  function HexValue(c: char): (d: nat)
    requires IsHexDigit(c)
    ensures d < 16
  {
    if '0' <= c <= '9' then c as int - '0' as int
    else if 'a' <= c <= 'f' then c as int - 'a' as int + 10
    else c as int - 'A' as int + 10
  }

  lemma HexDigitRoundTrip(d: nat)
    requires d < 16
    ensures HexValue(HexDigit(d)) == d
  {
  }

  /** The code unit written by the four hexadecimal digits that start `t`, if they are there. */
  function HexQuad(t: string): (r: Option<nat>)
    ensures r.Some? ==> |t| >= 4 && r.value < 0x1_0000
  {
    if |t| < 4 || !IsHexDigit(t[0]) || !IsHexDigit(t[1]) || !IsHexDigit(t[2]) || !IsHexDigit(t[3]) then None
    else Some(HexValue(t[0]) * 0x1000 + HexValue(t[1]) * 0x100 + HexValue(t[2]) * 0x10 + HexValue(t[3]))
  }

  /** A control character: below U+0020, which JSON does not allow raw inside a string. */
  predicate IsControl(c: char) {
    c < ' '
  }

  /** The escape sequence, or the character itself, that stands for `c` inside a JSON string. */
  function EscapeChar(c: char): (e: string)
    ensures |e| == 1 || |e| == 2 || |e| == 6
  {
    if c == '"' then "\\\""
    else if c == '\\' then "\\\\"
    else if c == '\U{0008}' then "\\b"
    else if c == '\U{000C}' then "\\f"
    else if c == '\n' then "\\n"
    else if c == '\r' then "\\r"
    else if c == '\t' then "\\t"
    else if IsControl(c) then "\\u00" + [HexDigit(c as int / 16), HexDigit(c as int % 16)]
    else [c]
  }

  /** The character that the escape `\e` stands for, if `e` is a one-letter escape. */
  function Unescape(e: char): Option<char> {
    if e == '"' then Some('"')
    else if e == '\\' then Some('\\')
    else if e == '/' then Some('/')
    else if e == 'b' then Some('\U{0008}')
    else if e == 'f' then Some('\U{000C}')
    else if e == 'n' then Some('\n')
    else if e == 'r' then Some('\r')
    else if e == 't' then Some('\t')
    else None
  }

  /** The escape that starts `t` (at its backslash): the character it stands for and its
      length. A `\uXXXX` that is half of a surrogate pair needs the other half right after it;
      a lone half denotes no character and is rejected. */
  function EscapeAt(t: string): (r: Option<(char, nat)>)
    requires t != [] && t[0] == '\\'
    ensures r.Some? ==> 2 <= r.value.1 <= |t|
  {
    if |t| < 2 then None
    else if t[1] != 'u' then
      match Unescape(t[1])
      case None => None
      case Some(c) => Some((c, 2))
    else match HexQuad(t[2..])
      case None => None
      case Some(high) =>
        if high < 0xD800 || 0xE000 <= high then Some((high as char, 6))
        else if 0xDC00 <= high || |t| < 12 || t[6] != '\\' || t[7] != 'u' then None
        else match HexQuad(t[8..])
          case None => None
          case Some(low) =>
            if 0xDC00 <= low < 0xE000 then
              Some(((0x1_0000 + (high - 0xD800) * 0x400 + (low - 0xDC00)) as char, 12))
            else None
  }

  function Escape(s: string): string {
    if s == [] then [] else EscapeChar(s[0]) + Escape(s[1..])
  }

  function Quote(s: string): string {
    "\"" + Escape(s) + "\""
  }

  /** `,"y1","y2",...` for the elements after the first. */
  function MoreItems(ys: seq<string>): string {
    if ys == [] then [] else "," + Quote(ys[0]) + MoreItems(ys[1..])
  }

  /** `JSON.stringify(xs)` for a list of strings. */
  function Encode(xs: seq<string>): (t: string)
    ensures |t| >= 2 && t[0] == '[' && t[|t| - 1] == ']'
  {
    if xs == [] then "[]" else "[" + Quote(xs[0]) + MoreItems(xs[1..]) + "]"
  }

  predicate IsJsonSpace(c: char) {
    c == ' ' || c == '\t' || c == '\n' || c == '\r'
  }

  function SkipSpace(t: string): (r: string)
    ensures |r| <= |t|
    ensures r != [] ==> !IsJsonSpace(r[0])
  {
    if t != [] && IsJsonSpace(t[0]) then SkipSpace(t[1..]) else t
  }

  /** `c` in front of the text of a successful read. */
  function WithFirst(c: char, r: Option<(string, string)>): Option<(string, string)> {
    match r
    case None => None
    case Some(p) => Some(([c] + p.0, p.1))
  }

  /** Reads the body of a string literal whose opening quote has been consumed:
      the decoded text and what follows the closing quote. */
  function ParseStringBody(t: string): (r: Option<(string, string)>)
    ensures r.Some? ==> |r.value.1| < |t|
  {
    if t == [] then None
    else if t[0] == '"' then Some(([], t[1..]))
    else if t[0] == '\\' then
      match EscapeAt(t)
      case None => None
      case Some(e) => WithFirst(e.0, ParseStringBody(t[e.1..]))
    else if IsControl(t[0]) then None
    else WithFirst(t[0], ParseStringBody(t[1..]))
  }

  /** Reads `"x" , "y" ... ]` (the elements of a non-empty array and its closing bracket):
      the elements and what follows the bracket. */
  function ParseElements(t: string): (r: Option<(seq<string>, string)>)
    ensures r.Some? ==> |r.value.1| < |t|
    decreases |t|
  {
    var t1 := SkipSpace(t);
    if t1 == [] || t1[0] != '"' then None
    else match ParseStringBody(t1[1..])
      case None => None
      case Some(p) => ElementsAfter(p.0, SkipSpace(p.1))
  }

  /** Continues after the element `first`: either the closing bracket or a comma and more elements. */
  function ElementsAfter(first: string, rest: string): (r: Option<(seq<string>, string)>)
    ensures r.Some? ==> |r.value.1| < |rest|
    decreases |rest|
  {
    if rest == [] then None
    else if rest[0] == ']' then Some(([first], rest[1..]))
    else if rest[0] == ',' then
      match ParseElements(rest[1..])
      case None => None
      case Some(q) => Some(([first] + q.0, q.1))
    else None
  }

  /** `JSON.parse(t)` where a list of strings is expected; `None` where it would throw
      or would not yield a list of strings. Only an array, after leading whitespace, decodes. */
  function Decode(t: string): (r: Option<seq<string>>)
    ensures r.Some? ==> SkipSpace(t) != [] && SkipSpace(t)[0] == '['
  {
    var t1 := SkipSpace(t);
    if t1 == [] || t1[0] != '[' then None
    else
      var t2 := SkipSpace(t1[1..]);
      if t2 != [] && t2[0] == ']' then
        if SkipSpace(t2[1..]) == [] then Some([]) else None
      else match ParseElements(t2)
        case None => None
        case Some(q) => if SkipSpace(q.1) == [] then Some(q.0) else None
  }

  /** Reading one written character gives the character back in front of what follows. */
  lemma ParseEscapeChar(c: char, tail: string)
    ensures ParseStringBody(EscapeChar(c) + tail) == WithFirst(c, ParseStringBody(tail))
  {
    var e := EscapeChar(c);
    var t := e + tail;
    if |e| == 1 {
      assert t[0] == c && t[1..] == tail;
    } else if |e| == 2 {
      assert t[0] == '\\' && t[1] != 'u' && Unescape(t[1]) == Some(c);
      assert t[2..] == tail;
    } else {
      var hi, lo := c as int / 16, c as int % 16;
      HexDigitRoundTrip(hi);
      HexDigitRoundTrip(lo);
      assert t[2..][..4] == ['0', '0', HexDigit(hi), HexDigit(lo)];
      assert HexQuad(t[2..]) == Some(c as int);
      assert EscapeAt(t) == Some((c, 6));
      assert t[6..] == tail;
    }
  }

  lemma {:induction false} ParseEscaped(s: string, rest: string)
    ensures ParseStringBody(Escape(s) + "\"" + rest) == Some((s, rest))
  {
    if s == [] {
      assert Escape(s) + "\"" + rest == "\"" + rest;
    } else {
      var c := s[0];
      var tail := Escape(s[1..]) + "\"" + rest;
      assert Escape(s) + "\"" + rest == EscapeChar(c) + tail;
      ParseEscaped(s[1..], rest);
      ParseEscapeChar(c, tail);
      assert [c] + s[1..] == s;
    }
  }

  lemma SkipSpaceNoop(t: string)
    requires t != [] && !IsJsonSpace(t[0])
    ensures SkipSpace(t) == t
  {
  }

  lemma ParseFirst(x: string, after: string)
    ensures ParseElements(Quote(x) + after) == ElementsAfter(x, SkipSpace(after))
  {
    var t := Quote(x) + after;
    assert t == "\"" + (Escape(x) + "\"" + after);
    SkipSpaceNoop(t);
    assert t[1..] == Escape(x) + "\"" + after;
    ParseEscaped(x, after);
  }

  lemma CloseAfter(x: string, rest: string)
    ensures ElementsAfter(x, SkipSpace("]" + rest)) == Some(([x], rest))
  {
    var t := "]" + rest;
    SkipSpaceNoop(t);
    assert t[1..] == rest;
  }

  lemma CommaAfter(x: string, inner: string, ys: seq<string>, rest: string)
    requires ParseElements(inner) == Some((ys, rest))
    ensures ElementsAfter(x, SkipSpace("," + inner)) == Some(([x] + ys, rest))
  {
    var t := "," + inner;
    SkipSpaceNoop(t);
    assert t[1..] == inner;
  }

  /** What follows the first element in an encoded array: the other elements, the bracket and `rest`. */
  function Trailer(ys: seq<string>, rest: string): string {
    MoreItems(ys) + "]" + rest
  }

  lemma TrailerCons(ys: seq<string>, rest: string)
    requires ys != []
    ensures Trailer(ys, rest) == "," + (Quote(ys[0]) + Trailer(ys[1..], rest))
  {
  }

  lemma {:induction false} ParseItems(x: string, ys: seq<string>, rest: string)
    ensures ParseElements(Quote(x) + Trailer(ys, rest)) == Some(([x] + ys, rest))
    decreases |ys|
  {
    ParseFirst(x, Trailer(ys, rest));
    if ys == [] {
      assert Trailer(ys, rest) == "]" + rest;
      CloseAfter(x, rest);
      assert [x] + ys == [x];
    } else {
      TrailerCons(ys, rest);
      ParseItems(ys[0], ys[1..], rest);
      assert [ys[0]] + ys[1..] == ys;
      CommaAfter(x, Quote(ys[0]) + Trailer(ys[1..], rest), ys, rest);
    }
  }

  lemma EncodeCons(xs: seq<string>)
    requires xs != []
    ensures Encode(xs) == "[" + (Quote(xs[0]) + Trailer(xs[1..], []))
  {
  }

  lemma DecodeBracketed(body: string, xs: seq<string>)
    requires body != [] && body[0] == '"'
    requires ParseElements(body) == Some((xs, []))
    ensures Decode("[" + body) == Some(xs)
  {
    var t := "[" + body;
    SkipSpaceNoop(t);
    assert t[1..] == body;
    SkipSpaceNoop(body);
  }

  /** Decoding what the encoder wrote gives back the same list, in the same order. */
  lemma RoundTrip(xs: seq<string>)
    ensures Decode(Encode(xs)) == Some(xs)
  {
    if xs == [] {
      var t := Encode(xs);
      SkipSpaceNoop(t);
      assert t[1..] == "]";
    } else {
      EncodeCons(xs);
      var body := Quote(xs[0]) + Trailer(xs[1..], []);
      ParseItems(xs[0], xs[1..], []);
      assert [xs[0]] + xs[1..] == xs;
      DecodeBracketed(body, xs);
    }
  }

  /** A raw line break inside a string is not JSON: the text does not decode. */
  lemma RawControlRejected()
    ensures Decode("[\"a\nb\"]") == None
  {
    var body := "a\nb\"]";
    assert body[1..] == "\nb\"]";
    assert ParseStringBody(body[1..]) == None;
    assert ParseStringBody(body) == None;
  }

  /** A control character without a short escape is written as `\u00xx`. */
  lemma ControlWrittenAsUnicodeEscape()
    ensures Encode(["\U{0001}"]) == "[\"\\u0001\"]"
  {
  }

  /** A `\u` escape reads as the character it denotes. */
  lemma UnicodeEscapeRead()
    ensures Decode("[\"\\u0041\"]") == Some(["A"])
  {
    var escaped := "\\u0041\"]";
    assert escaped[2..] == "0041\"]" && HexQuad(escaped[2..]) == Some(0x41);
    assert EscapeAt(escaped) == Some(('A', 6));
    assert escaped[6..] == "\"]" && ParseStringBody("\"]") == Some(([], "]"));
    assert escaped[0] == '\\' && ['A'] + [] == "A";
    DecodeSingle(escaped, "A");
    assert "[\"" + escaped == "[\"\\u0041\"]";
  }

  /** A surrogate pair of `\u` escapes reads as the one character it encodes. The text is a
      parameter fixed by the requires rather than a literal in the ensures, because Dafny
      unfolds functions applied to literals without bound, which makes the proof slow. */
  lemma SurrogatePairRead(t: string)
    requires t == "[\"\\ud83d\\ude00\"]"
    ensures Decode(t) == Some(["\U{1F600}"])
  {
    var escaped := t[2..];
    assert escaped == "\\ud83d\\ude00\"]" && t == "[\"" + escaped;
    SurrogatePairBody(escaped);
    DecodeSingle(escaped, "\U{1F600}");
  }

  /** An array of one string literal whose body reads as `s` and is followed by the bracket. */
  lemma DecodeSingle(body: string, s: string)
    requires ParseStringBody(body) == Some((s, "]"))
    ensures Decode("[\"" + body) == Some([s])
  {
    var t := "[\"" + body;
    SkipSpaceNoop(t);
    assert t[1..] == "\"" + body;
    SkipSpaceNoop(t[1..]);
    assert t[1..][1..] == body;
    CloseAfter(s, []);
    assert ParseElements(t[1..]) == Some(([s], []));
  }

  /** The string body holding only the escape pair for U+1F600 reads as that character. */
  lemma SurrogatePairBody(escaped: string)
    requires escaped == "\\ud83d\\ude00\"]"
    ensures ParseStringBody(escaped) == Some(("\U{1F600}", "]"))
  {
    assert escaped[2..] == "d83d\\ude00\"]" && HexQuad(escaped[2..]) == Some(0xD83D);
    assert escaped[8..] == "de00\"]" && HexQuad(escaped[8..]) == Some(0xDE00);
    assert EscapeAt(escaped) == Some(('\U{1F600}', 12));
    assert escaped[12..] == "\"]" && ParseStringBody("\"]") == Some(([], "]"));
    assert escaped[0] == '\\' && ['\U{1F600}'] + [] == "\U{1F600}";
  }

  /** Different lists never share a stored text. */
  lemma EncodeInjective(xs: seq<string>, ys: seq<string>)
    requires Encode(xs) == Encode(ys)
    ensures xs == ys
  {
    RoundTrip(xs);
    RoundTrip(ys);
  }
}
