/** The cache key: `JSON.stringify` of the argument list of a memoized call,
    for argument lists of strings, and the decoder that inverts it. The callers
    are assumed to pass strings: a place id as the places API documents it, an
    input, and a language code. */
module CacheKey {
  import opened Js

  function HexDigit(n: nat): char
    requires n < 16
  {
    if n < 10 then ('0' as int + n) as char else ('a' as int + n - 10) as char
  }

  /** How `JSON.stringify` writes one character of a string: the quote and the
      backslash escaped, the five control characters with a short escape by
      name, the other control characters as a lower-case `\u00XX`. */
  function EscapeChar(c: char): string {
    if c == '"' then ['\\', '"']
    else if c == '\\' then ['\\', '\\']
    else if c as int == 0x08 then ['\\', 'b']
    else if c as int == 0x0C then ['\\', 'f']
    else if c == '\n' then ['\\', 'n']
    else if c == '\r' then ['\\', 'r']
    else if c == '\t' then ['\\', 't']
    else if c as int < 0x20 then ['\\', 'u', '0', '0', HexDigit(c as int / 16), HexDigit(c as int % 16)]
    else [c]
  }

  function Escape(s: string): string {
    if |s| == 0 then [] else EscapeChar(s[0]) + Escape(s[1..])
  }

  function Quote(s: string): string {
    ['"'] + (Escape(s) + ['"'])
  }

  function Items(args: seq<string>): string {
    if |args| == 0 then []
    else if |args| == 1 then Quote(args[0])
    else Quote(args[0]) + [','] + Items(args[1..])
  }

  /** `JSON.stringify(args)` for a list of strings. */
  function Key(args: seq<string>): (k: string)
    ensures |k| >= 2 && k[0] == '[' && k[|k| - 1] == ']'
  {
    ['['] + Items(args) + [']']
  }

  // The decoder: reads back what Key writes.

  function HexValue(c: char): (r: Option<nat>)
    ensures r.Some? ==> r.value < 16
  {
    if '0' <= c <= '9' then Some(c as int - '0' as int)
    else if 'a' <= c <= 'f' then Some(c as int - 'a' as int + 10)
    else if 'A' <= c <= 'F' then Some(c as int - 'A' as int + 10)
    else None
  }

  function Hex4(s: string): (r: Option<nat>)
    requires |s| == 4
    ensures r.Some? ==> r.value < 0x10000
  {
    match (HexValue(s[0]), HexValue(s[1]), HexValue(s[2]), HexValue(s[3]))
    case (Some(a), Some(b), Some(c), Some(d)) => Some(a * 0x1000 + b * 0x100 + c * 0x10 + d)
    case _ => None
  }

  /** Reads one escape sequence; `s` is what follows the backslash. Yields the
      character and the text after the escape. */
  function Unescape(s: string): (r: Option<(char, string)>)
    ensures r.Some? ==> |r.value.1| < |s|
  {
    if |s| == 0 then None
    else if s[0] == '"' then Some(('"', s[1..]))
    else if s[0] == '\\' then Some(('\\', s[1..]))
    else if s[0] == '/' then Some(('/', s[1..]))
    else if s[0] == 'b' then Some((0x08 as char, s[1..]))
    else if s[0] == 'f' then Some((0x0C as char, s[1..]))
    else if s[0] == 'n' then Some(('\n', s[1..]))
    else if s[0] == 'r' then Some(('\r', s[1..]))
    else if s[0] == 't' then Some(('\t', s[1..]))
    else if s[0] == 'u' && |s| >= 5 then
      match Hex4(s[1..5])
      case Some(v) =>
        if v < 0xD800 || 0xE000 <= v then Some((v as char, s[5..])) else None
      case None => None
    else None
  }

  /** Reads the body of a JSON string literal up to its closing quote; `s` is
      what follows the opening quote. Yields the string and the text after the
      closing quote. */
  function ParseStringBody(s: string): (r: Option<(string, string)>)
    ensures r.Some? ==> |r.value.1| < |s|
    decreases |s|
  {
    if |s| == 0 then None
    else if s[0] == '"' then Some(([], s[1..]))
    else if s[0] == '\\' then
      match Unescape(s[1..])
      case None => None
      case Some((c, rest)) =>
        match ParseStringBody(rest)
        case None => None
        case Some((t, after)) => Some(([c] + t, after))
    else if (s[0] as int) < 0x20 then None
    else
      match ParseStringBody(s[1..])
      case None => None
      case Some((t, after)) => Some(([s[0]] + t, after))
  }

  /** Reads `"a","b",…,"z"]` to the end of the text. */
  function ParseItems(s: string): Option<seq<string>>
    decreases |s|
  {
    if |s| == 0 || s[0] != '"' then None
    else
      match ParseStringBody(s[1..])
      case None => None
      case Some((a, rest)) =>
        if rest == [']'] then Some([a])
        else if |rest| > 0 && rest[0] == ',' then
          match ParseItems(rest[1..])
          case None => None
          case Some(more) => Some([a] + more)
        else None
  }

  function ParseKey(k: string): Option<seq<string>> {
    if k == ['[', ']'] then Some([])
    else if |k| > 0 && k[0] == '[' then ParseItems(k[1..])
    else None
  }

  lemma HexDigitValue(n: nat)
    requires n < 16
    ensures HexValue(HexDigit(n)) == Some(n)
  {
  }

  /** Reading an escaped character yields that character, then reading goes on
      right after its escape. */
  lemma ParseEscapedChar(c: char, rest: string)
    ensures ParseStringBody(EscapeChar(c) + rest) ==
      match ParseStringBody(rest)
      case None => None
      case Some((t, after)) => Some(([c] + t, after))
  {
    var e := EscapeChar(c);
    var s := e + rest;
    if |e| == 1 {
      assert s[0] == c && s[1..] == rest;
    } else if |e| == 2 {
      assert s[0] == '\\' && s[1..] == [e[1]] + rest;
      assert s[1..][1..] == rest;
    } else {
      var hi, lo := c as int / 16, c as int % 16;
      HexDigitValue(hi);
      HexDigitValue(lo);
      assert s[0] == '\\' && s[1..] == ['u', '0', '0', HexDigit(hi), HexDigit(lo)] + rest;
      assert s[1..][1..5] == ['0', '0', HexDigit(hi), HexDigit(lo)];
      assert s[1..][5..] == rest;
      assert Hex4(s[1..][1..5]) == Some(c as int);
    }
  }

  /** The body of a quoted string reads back as the string itself. */
  lemma {:induction false} ParseEscaped(s: string, rest: string)
    ensures ParseStringBody(Escape(s) + ['"'] + rest) == Some((s, rest))
    decreases |s|
  {
    if |s| == 0 {
      assert Escape(s) + ['"'] + rest == ['"'] + rest;
    } else {
      var tail := Escape(s[1..]) + ['"'] + rest;
      assert Escape(s) + ['"'] + rest == EscapeChar(s[0]) + tail;
      ParseEscapedChar(s[0], tail);
      ParseEscaped(s[1..], rest);
      assert [s[0]] + s[1..] == s;
    }
  }

  /** What follows the first quoted item of `Items(args)` and the closing bracket. */
  function ItemsAfterFirst(args: seq<string>): string
    requires |args| > 0
  {
    if |args| == 1 then [']'] else [','] + Items(args[1..]) + [']']
  }

  lemma {:induction false} ItemsSplit(args: seq<string>)
    requires |args| > 0
    ensures Items(args) + [']'] == ['"'] + (Escape(args[0]) + ['"'] + ItemsAfterFirst(args))
  {
    var q, after := Quote(args[0]), ItemsAfterFirst(args);
    if |args| > 1 {
      var rest := Items(args[1..]);
      assert Items(args) == q + [','] + rest;
      assert q + [','] + rest + [']'] == q + ([','] + rest + [']']);
    }
    assert Items(args) + [']'] == q + after;
    var body := Escape(args[0]) + ['"'];
    assert q + after == ['"'] + (body + after);
  }

  /** Reading a quoted item yields it, then reading goes on with what follows it. */
  lemma ParseItemsStep(a: string, after: string)
    ensures ParseItems(['"'] + (Escape(a) + ['"'] + after)) ==
      if after == [']'] then Some([a])
      else if |after| > 0 && after[0] == ',' then
        match ParseItems(after[1..])
        case None => None
        case Some(more) => Some([a] + more)
      else None
  {
    var body := Escape(a) + ['"'] + after;
    var s := ['"'] + body;
    assert s[0] == '"' && s[1..] == body;
    ParseEscaped(a, after);
  }

  lemma {:induction false} ParseItemsOfItems(args: seq<string>)
    requires |args| > 0
    ensures ParseItems(Items(args) + [']']) == Some(args)
    decreases |args|
  {
    var after := ItemsAfterFirst(args);
    ItemsSplit(args);
    ParseItemsStep(args[0], after);
    if |args| > 1 {
      assert after != [']'] && after[0] == ',';
      assert after[1..] == Items(args[1..]) + [']'];
      ParseItemsOfItems(args[1..]);
      assert [args[0]] + args[1..] == args;
    } else {
      assert [args[0]] == args;
    }
  }

  /** Decoding a key gives back the argument list it was made from. */
  lemma KeyRoundTrip(args: seq<string>)
    ensures ParseKey(Key(args)) == Some(args)
  {
    if |args| > 0 {
      var k := Key(args);
      assert |Quote(args[0])| >= 2;
      assert |Items(args)| >= 2;
      assert k[1..] == Items(args) + [']'];
      ParseItemsOfItems(args);
    }
  }

  /** Two argument lists share a key exactly when they are equal, element by
      element: the key is sensitive to order and to value. */
  lemma KeyInjective(a: seq<string>, b: seq<string>)
    ensures Key(a) == Key(b) <==> a == b
  {
    KeyRoundTrip(a);
    KeyRoundTrip(b);
  }

  lemma KeyOrderSensitive()
    ensures Key(["x", "en"]) != Key(["en", "x"])
  {
    KeyInjective(["x", "en"], ["en", "x"]);
  }
}
