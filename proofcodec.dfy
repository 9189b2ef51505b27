/** How a bounty submission's proof images travel as one string: the submitter
    stores `JSON.stringify(images)`, the reviewer reads it back with `JSON.parse`,
    and a proof that does not parse (the older single-image format) is shown as the
    one image it is (sections/TargetList.tsx:117, 180-185). */
module ProofCodec {
  import opened Types

  // ------------------------------------------------------------- encoding

  function HexDigit(n: nat): (c: char)
    requires n < 16
  {
    if n < 10 then ('0' as int + n) as char else ('a' as int + n - 10) as char
  }

  /** How `JSON.stringify` writes one character inside a string literal: the quote
      and backslash escaped, the five short control escapes, every other control
      character as `\u00xx`, everything else as itself. */
  function EscapeChar(c: char): (e: string)
    ensures 0 < |e|
    ensures e[0] != '"'
    ensures e[0] == '\\' || (e == [c] && ' ' <= c)
  {
    if c == '"' then ['\\', '"']
    else if c == '\\' then ['\\', '\\']
    else if c == '\U{8}' then ['\\', 'b']
    else if c == '\t' then ['\\', 't']
    else if c == '\n' then ['\\', 'n']
    else if c == '\U{C}' then ['\\', 'f']
    else if c == '\r' then ['\\', 'r']
    else if c < ' ' then ['\\', 'u', '0', '0', HexDigit(c as int / 16), HexDigit(c as int % 16)]
    else [c]
  }

  function EscapeString(s: string): string {
    if s == [] then [] else EscapeChar(s[0]) + EscapeString(s[1..])
  }

  /** A JSON string literal. */
  function Quote(s: string): string {
    ['"'] + EscapeString(s) + ['"']
  }

  /** The elements of a non-empty array, comma-separated, without white space. */
  function EncodeItems(xs: seq<string>): (r: string)
    requires xs != []
    ensures |r| >= 2 && r[0] == '"'
  {
    if |xs| == 1 then Quote(xs[0]) else Quote(xs[0]) + [','] + EncodeItems(xs[1..])
  }

  /** `JSON.stringify(images)` for a list of strings. */
  function EncodeProof(images: seq<string>): (proof: string)
    ensures |proof| >= 2 && proof[0] == '['
  {
    if images == [] then ['[', ']'] else ['['] + EncodeItems(images) + [']']
  }

  // ------------------------------------------------------------- decoding

  predicate IsJsonSpace(c: char) {
    c == ' ' || c == '\t' || c == '\n' || c == '\r'
  }

  /** Drops leading JSON white space. */
  function SkipWs(s: string): (r: string)
    ensures |r| <= |s| && r == s[|s| - |r|..]
    ensures r == [] || !IsJsonSpace(r[0])
  {
    if s != [] && IsJsonSpace(s[0]) then SkipWs(s[1..]) else s
  }

  datatype Parsed<T> = Parsed(value: T, rest: string)

  function HexValue(c: char): Option<nat> {
    if '0' <= c <= '9' then Some(c as int - '0' as int)
    else if 'a' <= c <= 'f' then Some(c as int - 'a' as int + 10)
    else if 'A' <= c <= 'F' then Some(c as int - 'A' as int + 10)
    else None
  }

  /** The character a `\uXXXX` escape stands for; a surrogate half has no `char`
      of its own and is not accepted. */
  function UnicodeEscape(h: string): Option<char>
    requires |h| == 4
  {
    match (HexValue(h[0]), HexValue(h[1]), HexValue(h[2]), HexValue(h[3]))
    case (Some(a), Some(b), Some(c), Some(d)) =>
      var code := ((a * 16 + b) * 16 + c) * 16 + d;
      if 0xD800 <= code < 0xE000 then None else Some(code as char)
    case _ => None
  }

  /** One escape sequence at the start of `s` (which begins with a backslash): the
      character it denotes and its length. */
  function Unescape(s: string): (r: Option<(char, nat)>)
    requires |s| > 0 && s[0] == '\\'
    ensures r.Some? ==> 2 <= r.value.1 <= |s|
  {
    if |s| < 2 then None
    else if s[1] == '"' then Some(('"', 2))
    else if s[1] == '\\' then Some(('\\', 2))
    else if s[1] == '/' then Some(('/', 2))
    else if s[1] == 'b' then Some(('\U{8}', 2))
    else if s[1] == 'f' then Some(('\U{C}', 2))
    else if s[1] == 'n' then Some(('\n', 2))
    else if s[1] == 'r' then Some(('\r', 2))
    else if s[1] == 't' then Some(('\t', 2))
    else if s[1] == 'u' && |s| >= 6 then
      match UnicodeEscape(s[2..6])
      case Some(c) => Some((c, 6))
      case None => None
    else None
  }

  /** The characters of a string literal after its opening quote, up to and
      including the closing one; a raw control character is an error. */
  function ParseStringBody(s: string): (r: Option<Parsed<string>>)
    ensures r.Some? ==> |r.value.rest| < |s|
    decreases |s|
  {
    if s == [] then None
    else if s[0] == '"' then Some(Parsed([], s[1..]))
    else if s[0] < ' ' then None
    else if s[0] == '\\' then
      match Unescape(s)
      case None => None
      case Some((c, n)) =>
        match ParseStringBody(s[n..])
        case None => None
        case Some(p) => Some(Parsed([c] + p.value, p.rest))
    else
      match ParseStringBody(s[1..])
      case None => None
      case Some(p) => Some(Parsed([s[0]] + p.value, p.rest))
  }

  function ParseString(s: string): (r: Option<Parsed<string>>)
    ensures r.Some? ==> |r.value.rest| < |s|
  {
    if s != [] && s[0] == '"' then ParseStringBody(s[1..]) else None
  }

  /** The elements of a non-empty array of strings and its closing bracket. */
  function ParseItems(s: string): (r: Option<Parsed<seq<string>>>)
    ensures r.Some? ==> |r.value.rest| < |s|
    decreases |s|, 1
  {
    match ParseString(s)
    case None => None
    case Some(p) => ItemsAfter(p.value, p.rest)
  }

  /** What may follow an element: a comma and further elements, or the closing
      bracket. */
  function ItemsAfter(first: string, s: string): (r: Option<Parsed<seq<string>>>)
    ensures r.Some? ==> |r.value.rest| < |s|
    decreases |s|, 0
  {
    var t := SkipWs(s);
    if t != [] && t[0] == ',' then
      match ParseItems(SkipWs(t[1..]))
      case None => None
      case Some(q) => Some(Parsed([first] + q.value, q.rest))
    else if t != [] && t[0] == ']' then Some(Parsed([first], t[1..]))
    else None
  }

  /** `JSON.parse` where the text is an array of strings; `None` when it is not. */
  function ParseArray(s: string): (r: Option<seq<string>>)
    ensures r.Some? ==> SkipWs(s) != [] && SkipWs(s)[0] == '['
  {
    var t := SkipWs(s);
    if t == [] || t[0] != '[' then None
    else
      var u := SkipWs(t[1..]);
      if u != [] && u[0] == ']' then (if SkipWs(u[1..]) == [] then Some([]) else None)
      else
        match ParseItems(u)
        case Some(p) => if SkipWs(p.rest) == [] then Some(p.value) else None
        case None => None
  }

  /** The images a reviewer sees: the parsed list, or the proof itself as the one
      image when it does not parse. */
  function ParseProof(proof: string): (images: seq<string>)
    ensures SkipWs(proof) == [] || SkipWs(proof)[0] != '[' ==> images == [proof]
    ensures ParseArray(proof).None? ==> images == [proof]
  {
    match ParseArray(proof)
    case Some(xs) => xs
    case None => [proof]
  }

  // ------------------------------------------------------------ round trip

  lemma HexRoundTrip(n: nat)
    requires n < 16
    ensures HexValue(HexDigit(n)) == Some(n)
  {
  }

  /** Reading back one written character. */
  lemma UnescapeChar(c: char, tail: string)
    ensures var s := EscapeChar(c) + tail;
      && (s[0] == '\\' ==> Unescape(s) == Some((c, |EscapeChar(c)|)))
      && (s[0] != '\\' ==> s[0] == c && ' ' <= c && c != '"')
  {
    var e := EscapeChar(c);
    var s := e + tail;
    if c < ' ' && c != '\U{8}' && c != '\t' && c != '\n' && c != '\U{C}' && c != '\r' {
      var hi, lo := c as int / 16, c as int % 16;
      HexRoundTrip(hi);
      HexRoundTrip(lo);
      assert s[2..6] == ['0', '0', HexDigit(hi), HexDigit(lo)];
      assert UnicodeEscape(s[2..6]) == Some(c);
    }
  }

  /** The body of a written string literal reads back as the string. */
  lemma {:induction false} StringBodyRoundTrip(x: string, rest: string)
    ensures ParseStringBody(EscapeString(x) + ['"'] + rest) == Some(Parsed(x, rest))
    decreases |x|
  {
    if x == [] {
      assert EscapeString(x) + ['"'] + rest == ['"'] + rest;
    } else {
      var e := EscapeChar(x[0]);
      var tail := EscapeString(x[1..]) + ['"'] + rest;
      assert EscapeString(x) + ['"'] + rest == e + tail;
      UnescapeChar(x[0], tail);
      StringBodyRoundTrip(x[1..], rest);
      var s := e + tail;
      if s[0] == '\\' {
        assert s[|e|..] == tail;
      } else {
        assert s[1..] == tail;
      }
      assert [x[0]] + x[1..] == x;
    }
  }

  lemma StringRoundTrip(x: string, rest: string)
    ensures ParseString(Quote(x) + rest) == Some(Parsed(x, rest))
  {
    StringBodyRoundTrip(x, rest);
    DropOpeningQuote(EscapeString(x), rest);
  }

  lemma DropOpeningQuote(e: string, rest: string)
    ensures var s := ['"'] + e + ['"'] + rest; s != [] && s[0] == '"' && s[1..] == e + ['"'] + rest
  {
  }

  /** The written elements and closing bracket read back as the list. */
  lemma {:induction false} ItemsRoundTrip(xs: seq<string>, rest: string)
    requires xs != []
    ensures ParseItems(EncodeItems(xs) + [']'] + rest) == Some(Parsed(xs, rest))
    decreases |xs|
  {
    if |xs| == 1 {
      LastItem(xs[0], rest);
      assert [xs[0]] == xs;
    } else {
      ItemsRoundTrip(xs[1..], rest);
      NextItem(xs[0], xs[1..], rest);
      assert [xs[0]] + xs[1..] == xs;
    }
  }

  lemma LastItem(x: string, rest: string)
    ensures ParseItems(EncodeItems([x]) + [']'] + rest) == Some(Parsed([x], rest))
  {
    var s := EncodeItems([x]) + [']'] + rest;
    var t := [']'] + rest;
    assert s == Quote(x) + t;
    StringRoundTrip(x, t);
    ItemsStep(s, x, t);
    CloseAfter(x, rest);
  }

  lemma NextItem(x: string, ys: seq<string>, rest: string)
    requires ys != []
    requires ParseItems(EncodeItems(ys) + [']'] + rest) == Some(Parsed(ys, rest))
    ensures ParseItems(EncodeItems([x] + ys) + [']'] + rest) == Some(Parsed([x] + ys, rest))
  {
    var e := EncodeItems(ys);
    var after := e + [']'] + rest;
    var t := [','] + after;
    EncodeItemsCons(x, ys);
    Regroup(Quote(x), e, rest);
    StringRoundTrip(x, t);
    ItemsStep(Quote(x) + t, x, t);
    CommaAfter(x, after, ys, rest);
  }

  lemma Regroup(q: string, e: string, rest: string)
    ensures q + [','] + e + [']'] + rest == q + ([','] + (e + [']'] + rest))
  {
  }

  lemma EncodeItemsCons(x: string, ys: seq<string>)
    requires ys != []
    ensures EncodeItems([x] + ys) == Quote(x) + [','] + EncodeItems(ys)
  {
    assert ([x] + ys)[1..] == ys;
  }

  /** Items start with a string. */
  lemma ItemsStep(s: string, x: string, t: string)
    requires ParseString(s) == Some(Parsed(x, t))
    ensures ParseItems(s) == ItemsAfter(x, t)
  {
  }

  lemma SkipWsKeeps(s: string)
    requires s != [] && !IsJsonSpace(s[0])
    ensures SkipWs(s) == s
  {
  }

  lemma CloseAfter(x: string, rest: string)
    ensures ItemsAfter(x, [']'] + rest) == Some(Parsed([x], rest))
  {
    var t := [']'] + rest;
    SkipWsKeeps(t);
    assert t[1..] == rest;
  }

  lemma CommaAfter(x: string, after: string, ys: seq<string>, rest: string)
    requires after != [] && after[0] == '"'
    requires ParseItems(after) == Some(Parsed(ys, rest))
    ensures ItemsAfter(x, [','] + after) == Some(Parsed([x] + ys, rest))
  {
    var t := [','] + after;
    SkipWsKeeps(t);
    assert t[1..] == after;
    SkipWsKeeps(after);
  }

  /** What the submitter writes, the reviewer reads back unchanged. */
  lemma ProofRoundTrip(images: seq<string>)
    ensures ParseArray(EncodeProof(images)) == Some(images)
    ensures ParseProof(EncodeProof(images)) == images
  {
    if images != [] {
      var e := EncodeItems(images);
      ItemsRoundTrip(images, []);
      assert e + [']'] + [] == e + [']'];
      ArrayOfItems(e, images);
    } else {
      EmptyArray();
    }
  }

  lemma ArrayOfItems(e: string, xs: seq<string>)
    requires e != [] && e[0] == '"'
    requires ParseItems(e + [']']) == Some(Parsed(xs, []))
    ensures ParseArray(['['] + e + [']']) == Some(xs)
  {
    ArrayPrefix(e);
    ArrayStep(['['] + e + [']'], e + [']']);
    assert SkipWs([]) == [];
  }

  lemma ArrayPrefix(e: string)
    requires e != [] && e[0] == '"'
    ensures var s := ['['] + e + [']']; var u := e + [']'];
      && SkipWs(s) == s && s != [] && s[0] == '['
      && SkipWs(s[1..]) == u && u != [] && u[0] == '"'
  {
    var s := ['['] + e + [']'];
    var u := e + [']'];
    SkipWsKeeps(s);
    assert s[1..] == u;
    SkipWsKeeps(u);
  }

  /** Once the opening bracket and the white space after it are gone, a
      non-empty array is the items parse followed by nothing but white space. */
  lemma ArrayStep(s: string, u: string)
    requires SkipWs(s) == s && s != [] && s[0] == '['
    requires SkipWs(s[1..]) == u && u != [] && u[0] != ']'
    ensures ParseArray(s) == match ParseItems(u)
      case Some(p) => if SkipWs(p.rest) == [] then Some(p.value) else None
      case None => None
  {
  }

  lemma EmptyArray()
    ensures ParseArray(['[', ']']) == Some([])
  {
    var s := ['[', ']'];
    SkipWsKeeps(s);
    SkipWsKeeps(s[1..]);
    assert s[1..][1..] == [];
  }
}
