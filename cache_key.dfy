/** The Redis key of a cached membership answer (`_gen_json_pair`): a fixed
    prefix followed by the JSON object `{"user": ..., "group": ...}` as
    Python's `json.dumps` writes it with its defaults (ASCII-only output,
    `", "` and `": "` as separators). A parser for exactly that text shows
    that the key determines the pair, so no two pairs share a cache entry. */
module CacheKey {
  import opened Common

  const Prefix: string := "flask_chown:CachedPermissionManager:granted"

  /** The text between the prefix and the JSON value of the user. */
  const Head: string := Prefix + "{\"user\": "

  /** The text between the JSON value of the user and that of the group. */
  const Middle: string := ", \"group\": "

  /** A lower-case hexadecimal digit, as `'{0:04x}'.format` writes it. */
  function HexDigit(d: nat): char
    requires d < 16
  {
    if d < 10 then ('0' as int + d) as char else ('a' as int + d - 10) as char
  }

  function HexValue(c: char): Option<nat> {
    if '0' <= c <= '9' then Some(c as int - '0' as int)
    else if 'a' <= c <= 'f' then Some(c as int - 'a' as int + 10)
    else None
  }

  /** A 16-bit value as four hexadecimal digits. */
  function Hex4(v: nat): (s: string)
    requires v < 0x10000
    ensures |s| == 4
  {
    [HexDigit(v / 16 / 16 / 16), HexDigit(v / 16 / 16 % 16), HexDigit(v / 16 % 16), HexDigit(v % 16)]
  }

  function Hex4Value(s: string): Option<nat>
    requires |s| == 4
  {
    var d0, d1, d2, d3 := HexValue(s[0]), HexValue(s[1]), HexValue(s[2]), HexValue(s[3]);
    if d0.Some? && d1.Some? && d2.Some? && d3.Some? then
      Some(((d0.value * 16 + d1.value) * 16 + d2.value) * 16 + d3.value)
    else None
  }

  /** `\uXXXX` for one UTF-16 code unit. */
  function Unit(v: nat): (s: string)
    requires v < 0x10000
    ensures |s| == 6
  {
    "\\u" + Hex4(v)
  }

  /** How `json.dumps` writes one character of a string with `ensure_ascii`:
      quote and backslash escaped, the five short control escapes, other
      printable ASCII as it is, everything else as `\uXXXX`, and characters
      beyond the Basic Multilingual Plane as a surrogate pair. */
  function EscapeChar(c: char): (s: string)
    ensures 1 <= |s| <= 12
  {
    if c == '"' then "\\\""
    else if c == '\\' then "\\\\"
    else if c == '\n' then "\\n"
    else if c == '\r' then "\\r"
    else if c == '\t' then "\\t"
    else if c == '\U{8}' then "\\b"
    else if c == '\U{C}' then "\\f"
    else if ' ' <= c <= '~' then [c]
    else if c as int < 0x10000 then Unit(c as int)
    else
      var n := c as int - 0x10000;
      Unit(0xD800 + n / 0x400) + Unit(0xDC00 + n % 0x400)
  }

  /** The characters of a JSON string literal between its quotes. */
  function EscapeBody(s: string): string {
    if s == [] then [] else EscapeChar(s[0]) + EscapeBody(s[1..])
  }

  function JsonString(s: string): string {
    "\"" + EscapeBody(s) + "\""
  }

  /** `json.dumps` of the user: `null` for `None`. */
  function JsonValue(x: Option<string>): string {
    if x.None? then "null" else JsonString(x.value)
  }

  /** `_gen_json_pair(user, group)`. */
  function Key(user: Option<string>, group: string): (key: string)
    ensures |Prefix| < |key| && key[..|Prefix|] == Prefix
  {
    Head + (JsonValue(user) + (Middle + (JsonValue(Some(group)) + "}")))
  }

  /** Reads one character of a string literal (a plain character or an
      escape) and says how many characters of `s` it took. */
  function ParseChar(s: string): (r: Option<(char, nat)>)
    requires s != [] && s[0] != '"'
    ensures r.Some? ==> 1 <= r.value.1 <= |s|
  {
    if s[0] != '\\' then Some((s[0], 1))
    else if |s| < 2 then None
    else if s[1] == '"' then Some(('"', 2))
    else if s[1] == '\\' then Some(('\\', 2))
    else if s[1] == 'n' then Some(('\n', 2))
    else if s[1] == 'r' then Some(('\r', 2))
    else if s[1] == 't' then Some(('\t', 2))
    else if s[1] == 'b' then Some(('\U{8}', 2))
    else if s[1] == 'f' then Some(('\U{C}', 2))
    else if s[1] != 'u' || |s| < 6 then None
    else match Hex4Value(s[2..6])
      case None => None
      case Some(v) =>
        if v < 0xD800 || 0xE000 <= v then Some((v as char, 6))
        else if 0xDC00 <= v || |s| < 12 || s[6..8] != "\\u" then None
        else match Hex4Value(s[8..12])
          case None => None
          case Some(w) =>
            if 0xDC00 <= w < 0xE000 then Some(((0x10000 + (v - 0xD800) * 0x400 + (w - 0xDC00)) as char, 12))
            else None
  }

  /** Reads the rest of a string literal up to its closing quote; gives the
      string and the text after the quote. */
  function ParseBody(s: string): Option<(string, string)>
    decreases |s|
  {
    if s == [] then None
    else if s[0] == '"' then Some(([], s[1..]))
    else match ParseChar(s)
      case None => None
      case Some((c, k)) =>
        match ParseBody(s[k..])
        case None => None
        case Some((body, rest)) => Some(([c] + body, rest))
  }

  /** Reads the user's JSON value: `null` or a string literal. */
  function ParseValue(s: string): Option<(Option<string>, string)> {
    if |s| >= 4 && s[..4] == "null" then Some((None, s[4..]))
    else if s != [] && s[0] == '"' then
      match ParseBody(s[1..])
      case None => None
      case Some((v, rest)) => Some((Some(v), rest))
    else None
  }

  /** What follows `p` in `s`, if `s` starts with `p`. */
  function Strip(p: string, s: string): Option<string> {
    if |p| <= |s| && s[..|p|] == p then Some(s[|p|..]) else None
  }

  /** Recovers the pair a key was made from, if it is such a key. */
  function ParseKey(key: string): Option<(Option<string>, string)> {
    match Strip(Head, key)
    case None => None
    case Some(afterHead) =>
      match ParseValue(afterHead)
      case None => None
      case Some((user, rest)) =>
        match Strip(Middle, rest)
        case None => None
        case Some(afterMiddle) =>
          match ParseValue(afterMiddle)
          case Some((Some(group), tail)) => if tail == "}" then Some((user, group)) else None
          case _ => None
  }

  lemma HexDigitValue(d: nat)
    requires d < 16
    ensures HexValue(HexDigit(d)) == Some(d)
  {
  }

  lemma {:induction false} Hex4RoundTrip(v: nat)
    requires v < 0x10000
    ensures Hex4Value(Hex4(v)) == Some(v)
  {
    var q1 := v / 16;
    var q2 := q1 / 16;
    var q3 := q2 / 16;
    assert v == q1 * 16 + v % 16;
    assert q1 == q2 * 16 + q1 % 16;
    assert q2 == q3 * 16 + q2 % 16;
    assert q3 < 16;
    HexDigitValue(q3);
    HexDigitValue(q2 % 16);
    HexDigitValue(q1 % 16);
    HexDigitValue(v % 16);
  }

  /** A `\uXXXX` escape followed by anything reads back as its code unit. */
  lemma UnitRead(v: nat, rest: string)
    requires v < 0x10000
    ensures |Unit(v) + rest| >= 6
    ensures (Unit(v) + rest)[..2] == "\\u"
    ensures Hex4Value((Unit(v) + rest)[2..6]) == Some(v)
  {
    Hex4RoundTrip(v);
    assert (Unit(v) + rest)[2..6] == Hex4(v);
  }

  /** A character escaped as one `\uXXXX` unit reads back as itself. */
  lemma UnitCharRoundTrip(c: char, rest: string)
    requires c as int < 0x10000
    ensures ParseChar(Unit(c as int) + rest) == Some((c, 6))
  {
    UnitRead(c as int, rest);
  }

  /** A character beyond the Basic Multilingual Plane, escaped as a surrogate
      pair, reads back as itself. */
  lemma PairCharRoundTrip(c: char, rest: string)
    requires 0x10000 <= c as int
    ensures var n := c as int - 0x10000;
      ParseChar(Unit(0xD800 + n / 0x400) + Unit(0xDC00 + n % 0x400) + rest) == Some((c, 12))
  {
    var n := c as int - 0x10000;
    var hi, lo := 0xD800 + n / 0x400, 0xDC00 + n % 0x400;
    var t := Unit(hi) + Unit(lo) + rest;
    assert t == Unit(hi) + (Unit(lo) + rest);
    UnitRead(hi, Unit(lo) + rest);
    UnitRead(lo, rest);
    assert t[6..8] == (Unit(lo) + rest)[..2];
    assert t[8..12] == (Unit(lo) + rest)[2..6];
    assert 0x10000 + (hi - 0xD800) * 0x400 + (lo - 0xDC00) == c as int;
  }

  /** Every escaped character reads back as itself, whatever follows it, and
      never starts with the closing quote. */
  lemma EscapeCharRoundTrip(c: char, rest: string)
    ensures EscapeChar(c)[0] != '"'
    ensures ParseChar(EscapeChar(c) + rest) == Some((c, |EscapeChar(c)|))
  {
    if c == '"' || c == '\\' || c == '\n' || c == '\r' || c == '\t' || c == '\U{8}' || c == '\U{C}' {
    } else if ' ' <= c <= '~' {
    } else if c as int < 0x10000 {
      UnitCharRoundTrip(c, rest);
    } else {
      PairCharRoundTrip(c, rest);
    }
  }

  /** The body of a string literal, its closing quote and anything after it
      read back as the string and what follows. */
  lemma {:induction false} EscapeBodyRoundTrip(s: string, rest: string)
    ensures ParseBody(EscapeBody(s) + "\"" + rest) == Some((s, rest))
  {
    var t := EscapeBody(s) + "\"" + rest;
    if s == [] {
      assert t == "\"" + rest;
    } else {
      var e := EscapeChar(s[0]);
      var tail := EscapeBody(s[1..]) + "\"" + rest;
      assert t == e + tail;
      EscapeCharRoundTrip(s[0], tail);
      assert t[|e|..] == tail;
      EscapeBodyRoundTrip(s[1..], rest);
      assert [s[0]] + s[1..] == s;
    }
  }

  /** The user's JSON value reads back as the user, whatever follows it. */
  lemma {:induction false} JsonValueRoundTrip(user: Option<string>, rest: string)
    ensures ParseValue(JsonValue(user) + rest) == Some((user, rest))
  {
    var t := JsonValue(user) + rest;
    if user.None? {
      assert t[..4] == "null" && t[4..] == rest;
    } else {
      var body := EscapeBody(user.value) + "\"" + rest;
      assert t == "\"" + body;
      assert t[0] == '"' && t[1..] == body;
      EscapeBodyRoundTrip(user.value, rest);
    }
  }

  lemma StripConcat(p: string, x: string)
    ensures Strip(p, p + x) == Some(x)
  {
  }

  /** Parsing a key gives back the pair it was made from. */
  lemma {:induction false} KeyRoundTrip(user: Option<string>, group: string)
    ensures ParseKey(Key(user, group)) == Some((user, group))
  {
    var afterMiddle := JsonValue(Some(group)) + "}";
    var afterUser := Middle + afterMiddle;
    var afterHead := JsonValue(user) + afterUser;
    StripConcat(Head, afterHead);
    JsonValueRoundTrip(user, afterUser);
    StripConcat(Middle, afterMiddle);
    JsonValueRoundTrip(Some(group), "}");
  }

  /** Distinct (user, group) pairs get distinct keys: no cached answer is
      ever read back for another pair. */
  lemma KeyInjective(u1: Option<string>, g1: string, u2: Option<string>, g2: string)
    requires Key(u1, g1) == Key(u2, g2)
    ensures u1 == u2 && g1 == g2
  {
    KeyRoundTrip(u1, g1);
    KeyRoundTrip(u2, g2);
  }
}
