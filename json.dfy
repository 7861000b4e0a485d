/**
  JSON text of a flat object whose keys and values are strings, as
  `JSON.stringify` writes it: members in insertion order, no white space,
  strings escaped as section 7 of RFC 8259 allows and ECMAScript's
  QuoteJSONString chooses (the two-character escapes for `"`, `\`, backspace,
  form feed, line feed, carriage return and tab; `\u00xx` with lower-case hex
  for the other control characters; every other character as itself).

  A decoder for the same subset of JSON sits beside the encoder; the round-trip
  lemmas show that the encoding loses nothing, which is what makes two cart ids
  equal only for equal option objects.
*/
module Json {
  import opened Wrappers

  /** One member of a flat object: a key and a string value. */
  type Member = (string, string)

  // ---------------------------------------------------------------------------
  // Hexadecimal digits

  function HexDigit(d: nat): (c: char)
    requires d < 16
    ensures '0' <= c <= '9' || 'a' <= c <= 'f'
  {
    if d < 10 then ('0' as int + d) as char else ('a' as int + d - 10) as char
  }

  function HexValue(c: char): (v: Option<nat>)
    ensures v.Some? ==> v.value < 16
  {
    if '0' <= c <= '9' then Some(c as int - '0' as int)
    else if 'a' <= c <= 'f' then Some(c as int - 'a' as int + 10)
    else if 'A' <= c <= 'F' then Some(c as int - 'A' as int + 10)
    else None
  }

  lemma HexDigitValue(d: nat)
    requires d < 16
    ensures HexValue(HexDigit(d)) == Some(d)
  {
  }

  /** The value of four hexadecimal digits, as a `\uXXXX` escape carries it. */
  function Hex4(s: string): (v: Option<nat>)
    requires |s| == 4
    ensures v.Some? ==> v.value < 0x1_0000
  {
    match (HexValue(s[0]), HexValue(s[1]), HexValue(s[2]), HexValue(s[3]))
    case (Some(a), Some(b), Some(c), Some(d)) => Some(((a * 16 + b) * 16 + c) * 16 + d)
    case _ => None
  }

  // ---------------------------------------------------------------------------
  // Encoding

  const Backspace: char := 8 as char
  const FormFeed: char := 12 as char

  /** The JSON text for one character inside a string literal. */
  function EscapeChar(c: char): (e: string)
    ensures IsPlain(c) <==> e == [c]
    ensures !IsPlain(c) ==> 2 <= |e| && e[0] == '\\'
  {
    if c == '"' then ['\\', '"']
    else if c == '\\' then ['\\', '\\']
    else if c == Backspace then ['\\', 'b']
    else if c == FormFeed then ['\\', 'f']
    else if c == '\n' then ['\\', 'n']
    else if c == '\r' then ['\\', 'r']
    else if c == '\t' then ['\\', 't']
    else if c < ' ' then ['\\', 'u', '0', '0', HexDigit(c as int / 16), HexDigit(c as int % 16)]
    else [c]
  }

  /** The characters of a string literal, never fewer than the string's own. */
  function Escape(s: string): (e: string)
    ensures |e| >= |s|
  {
    if s == [] then [] else EscapeChar(s[0]) + Escape(s[1..])
  }

  /** A string literal: the escaped characters between double quotes. */
  function Quote(s: string): (r: string)
    ensures |r| >= |s| + 2 && r[0] == '"' && r[|r| - 1] == '"'
  {
    ['"'] + Escape(s) + ['"']
  }

  /** `"key":"value"`. */
  function MemberText(m: Member): (r: string)
    ensures |r| >= |m.0| + |m.1| + 5 && r[0] == '"' && r[|r| - 1] == '"'
  {
    Quote(m.0) + [':'] + Quote(m.1)
  }

  /** The members separated by commas. */
  function MembersText(ms: seq<Member>): (r: string)
    ensures r == [] <==> ms == []
    ensures ms != [] ==> r[0] == '"' && r[|r| - 1] == '"'
    ensures |r| >= 5 * |ms|
  {
    if ms == [] then []
    else if |ms| == 1 then MemberText(ms[0])
    else MemberText(ms[0]) + [','] + MembersText(ms[1..])
  }

  /** `JSON.stringify` of a flat object of strings. */
  function Stringify(ms: seq<Member>): (r: string)
    ensures |r| >= 2 && r[0] == '{' && r[|r| - 1] == '}'
    ensures r == "{}" <==> ms == []
  {
    ['{'] + MembersText(ms) + ['}']
  }

  /** A character that JSON writes as itself. */
  predicate IsPlain(c: char)
  {
    c >= ' ' && c != '"' && c != '\\'
  }

  /** Text without quotes, backslashes or control characters is written unchanged. */
  lemma {:induction false} EscapePlain(s: string)
    requires forall i :: 0 <= i < |s| ==> IsPlain(s[i])
    ensures Escape(s) == s
  {
    if s != [] {
      EscapePlain(s[1..]);
      assert [s[0]] + s[1..] == s;
    }
  }

  /** An escape sequence holds no raw control character. */
  lemma EscapeCharPrintable(c: char)
    ensures forall i :: 0 <= i < |EscapeChar(c)| ==> EscapeChar(c)[i] >= ' '
  {
  }

  /**
    `Escape` leaves no raw control character (section 7 of RFC 8259 forbids
    them inside a string), and it keeps the length exactly when nothing needed
    escaping.
  */
  lemma {:induction false} EscapeWellFormed(s: string)
    ensures forall i :: 0 <= i < |Escape(s)| ==> Escape(s)[i] >= ' '
    ensures |Escape(s)| == |s| <==> forall i :: 0 <= i < |s| ==> IsPlain(s[i])
  {
    if s != [] {
      var head, tail := EscapeChar(s[0]), Escape(s[1..]);
      EscapeCharPrintable(s[0]);
      EscapeWellFormed(s[1..]);
      assert Escape(s) == head + tail;
      if forall i :: 0 <= i < |s[1..]| ==> IsPlain(s[1..][i]) {
        if IsPlain(s[0]) {
          forall i | 0 <= i < |s| ensures IsPlain(s[i]) {
            if i > 0 { assert s[i] == s[1..][i - 1]; }
          }
        }
      } else {
        var j :| 0 <= j < |s[1..]| && !IsPlain(s[1..][j]);
        assert !IsPlain(s[j + 1]);
      }
    }
  }

  // ---------------------------------------------------------------------------
  // Decoding: each parser returns what it read and the text after it

  /** Decodes the escape sequence that follows a backslash. */
  function Unescape(s: string): (r: Option<(char, string)>)
    ensures r.Some? ==> |r.value.1| < |s|
  {
    if s == [] then None
    else if s[0] == '"' then Some(('"', s[1..]))
    else if s[0] == '\\' then Some(('\\', s[1..]))
    else if s[0] == '/' then Some(('/', s[1..]))
    else if s[0] == 'b' then Some((Backspace, s[1..]))
    else if s[0] == 'f' then Some((FormFeed, s[1..]))
    else if s[0] == 'n' then Some(('\n', s[1..]))
    else if s[0] == 'r' then Some(('\r', s[1..]))
    else if s[0] == 't' then Some(('\t', s[1..]))
    else if s[0] == 'u' && |s| >= 5 then
      match Hex4(s[1..5])
      case Some(v) =>
        // a lone surrogate is not a character; surrogate pairs are not decoded
        if 0xD800 <= v < 0xE000 then None else Some((v as char, s[5..]))
      case None => None
    else None
  }

  /**
    Reads the characters of a string literal whose opening quote has already
    been read, up to and including the closing quote.
  */
  function ParseStringBody(s: string): (r: Option<(string, string)>)
    ensures r.Some? ==> |r.value.1| < |s|
    decreases |s|
  {
    if s == [] then None
    else if s[0] == '"' then Some(([], s[1..]))
    else if s[0] == '\\' then
      match Unescape(s[1..])
      case None => None
      case Some((c, rest)) =>
        match ParseStringBody(rest)
        case None => None
        case Some((t, rest')) => Some(([c] + t, rest'))
    else if s[0] < ' ' then None
    else
      match ParseStringBody(s[1..])
      case None => None
      case Some((t, rest)) => Some(([s[0]] + t, rest))
  }

  function ParseMember(s: string): (r: Option<(Member, string)>)
    ensures r.Some? ==> |r.value.1| < |s|
  {
    if s == [] || s[0] != '"' then None
    else
      match ParseStringBody(s[1..])
      case None => None
      case Some((key, rest)) =>
        if |rest| < 2 || rest[0] != ':' || rest[1] != '"' then None
        else
          match ParseStringBody(rest[2..])
          case None => None
          case Some((value, rest')) => Some(((key, value), rest'))
  }

  /** Reads members separated by commas, up to and including the closing brace. */
  function ParseMembers(s: string): (r: Option<(seq<Member>, string)>)
    ensures r.Some? ==> |r.value.1| < |s|
    decreases |s|
  {
    match ParseMember(s)
    case None => None
    case Some((m, rest)) =>
      if rest == [] then None
      else if rest[0] == '}' then Some(([m], rest[1..]))
      else if rest[0] == ',' then
        match ParseMembers(rest[1..])
        case None => None
        case Some((ms, rest')) => Some(([m] + ms, rest'))
      else None
  }

  function ParseObject(s: string): (r: Option<(seq<Member>, string)>)
    ensures r.Some? ==> |r.value.1| < |s|
  {
    if s == [] || s[0] != '{' then None
    else if |s| >= 2 && s[1] == '}' then Some(([], s[2..]))
    else ParseMembers(s[1..])
  }

  // ---------------------------------------------------------------------------
  // Round trips

  /** Decoding the escape of one character gives that character back. */
  lemma EscapeCharRoundTrip(c: char, t: string)
    ensures ParseStringBody(EscapeChar(c) + t) ==
            match ParseStringBody(t)
            case None => None
            case Some((u, rest)) => Some(([c] + u, rest))
  {
    var s := EscapeChar(c) + t;
    if c < ' ' && c != Backspace && c != FormFeed && c != '\n' && c != '\r' && c != '\t' {
      ControlCharUnescape(c, t);
      assert s[1..] == ['u'] + ['0', '0', HexDigit(c as int / 16), HexDigit(c as int % 16)] + t;
    } else if c == '"' || c == '\\' || c == Backspace || c == FormFeed || c == '\n' || c == '\r' || c == '\t' {
      assert s[1..][1..] == t;
    } else {
      assert s[1..] == t;
    }
  }

  /** The `\u00XX` escape of a control character decodes back to it. */
  lemma ControlCharUnescape(c: char, t: string)
    requires c < ' '
    ensures var digits := ['0', '0', HexDigit(c as int / 16), HexDigit(c as int % 16)];
      Unescape(['u'] + digits + t) == Some((c, t))
  {
    var hi, lo := c as int / 16, c as int % 16;
    HexDigitValue(hi);
    HexDigitValue(lo);
    var digits := ['0', '0', HexDigit(hi), HexDigit(lo)];
    assert Hex4(digits) == Some(hi * 16 + lo);
    var after := ['u'] + digits + t;
    assert after[1..5] == digits;
    assert after[5..] == t;
  }

  /** A string literal written by `Quote` reads back as the same string. */
  lemma {:induction false} StringRoundTrip(s: string, rest: string)
    ensures ParseStringBody(Escape(s) + ['"'] + rest) == Some((s, rest))
  {
    if s == [] {
      assert Escape(s) + ['"'] + rest == ['"'] + rest;
    } else {
      var t := Escape(s[1..]) + ['"'] + rest;
      assert Escape(s) + ['"'] + rest == EscapeChar(s[0]) + t;
      StringRoundTrip(s[1..], rest);
      EscapeCharRoundTrip(s[0], t);
      assert [s[0]] + s[1..] == s;
    }
  }

  lemma MemberRoundTrip(m: Member, rest: string)
    ensures ParseMember(MemberText(m) + rest) == Some((m, rest))
  {
    var afterValue := Escape(m.1) + ['"'] + rest;
    var afterKey := [':', '"'] + afterValue;
    MemberTextSplit(m, rest);
    StringRoundTrip(m.0, afterKey);
    StringRoundTrip(m.1, rest);
    assert afterKey[2..] == afterValue;
    ParseMemberStep(MemberText(m) + rest, m.0, afterKey, m.1, rest);
  }

  lemma MemberTextSplit(m: Member, rest: string)
    ensures (MemberText(m) + rest)[0] == '"'
    ensures (MemberText(m) + rest)[1..] == Escape(m.0) + ['"'] + ([':', '"'] + (Escape(m.1) + ['"'] + rest))
  {
    var k, v := Escape(m.0), Escape(m.1);
    assert MemberText(m) == (['"'] + k + ['"']) + [':'] + (['"'] + v + ['"']);
    MemberShape(k, v, rest);
  }

  lemma MemberShape(k: string, v: string, rest: string)
    ensures (['"'] + k + ['"']) + [':'] + (['"'] + v + ['"']) + rest
            == ['"'] + (k + ['"'] + ([':', '"'] + (v + ['"'] + rest)))
  {
  }

  lemma ParseMemberStep(s: string, key: string, afterKey: string, value: string, rest: string)
    requires |s| > 0 && s[0] == '"'
    requires ParseStringBody(s[1..]) == Some((key, afterKey))
    requires |afterKey| >= 2 && afterKey[0] == ':' && afterKey[1] == '"'
    requires ParseStringBody(afterKey[2..]) == Some((value, rest))
    ensures ParseMember(s) == Some(((key, value), rest))
  {
  }

  lemma {:induction false} MembersRoundTrip(ms: seq<Member>, rest: string)
    requires ms != []
    ensures ParseMembers(MembersText(ms) + ['}'] + rest) == Some((ms, rest))
  {
    var s := MembersText(ms) + ['}'] + rest;
    if |ms| == 1 {
      SingleMemberRoundTrip(ms, rest);
    } else {
      var more := MembersText(ms[1..]) + ['}'] + rest;
      var tail := [','] + more;
      MembersTextSplit(ms, rest);
      MemberRoundTrip(ms[0], tail);
      assert tail[1..] == more;
      MembersRoundTrip(ms[1..], rest);
      ParseMembersNext(s, ms[0], tail, ms[1..], rest);
      assert [ms[0]] + ms[1..] == ms;
    }
  }

  lemma SingleMemberRoundTrip(ms: seq<Member>, rest: string)
    requires |ms| == 1
    ensures ParseMembers(MembersText(ms) + ['}'] + rest) == Some((ms, rest))
  {
    var s := MembersText(ms) + ['}'] + rest;
    var tail := ['}'] + rest;
    assert s == MemberText(ms[0]) + tail;
    MemberRoundTrip(ms[0], tail);
    assert tail[1..] == rest;
    ParseMembersLast(s, ms[0], tail);
    assert [ms[0]] == ms;
  }

  lemma MembersTextSplit(ms: seq<Member>, rest: string)
    requires |ms| >= 2
    ensures MembersText(ms) + ['}'] + rest == MemberText(ms[0]) + ([','] + (MembersText(ms[1..]) + ['}'] + rest))
  {
    var first, others := MemberText(ms[0]), MembersText(ms[1..]);
    assert MembersText(ms) == first + [','] + others;
    SeqAssoc(first, [','], others, ['}'], rest);
  }

  lemma SeqAssoc<T>(a: seq<T>, b: seq<T>, c: seq<T>, d: seq<T>, e: seq<T>)
    ensures (a + b + c) + d + e == a + (b + (c + d + e))
  {
  }

  lemma ParseMembersLast(s: string, m: Member, tail: string)
    requires ParseMember(s) == Some((m, tail))
    requires |tail| > 0 && tail[0] == '}'
    ensures ParseMembers(s) == Some(([m], tail[1..]))
  {
  }

  lemma ParseMembersNext(s: string, m: Member, tail: string, ms: seq<Member>, rest: string)
    requires ParseMember(s) == Some((m, tail))
    requires |tail| > 0 && tail[0] == ','
    requires ParseMembers(tail[1..]) == Some((ms, rest))
    ensures ParseMembers(s) == Some(([m] + ms, rest))
  {
  }

  /** `Stringify` loses nothing: its text, followed by anything, decodes to the same members. */
  lemma StringifyRoundTrip(ms: seq<Member>, rest: string)
    ensures ParseObject(Stringify(ms) + rest) == Some((ms, rest))
  {
    var body := MembersText(ms);
    var s := ['{'] + body + ['}'] + rest;
    assert Stringify(ms) + rest == s;
    if ms == [] {
      assert s == ['{', '}'] + rest;
      assert s[2..] == rest;
    } else {
      assert s[1] == body[0] == '"';
      assert s[1..] == body + ['}'] + rest;
      MembersRoundTrip(ms, rest);
    }
  }

  /** Two objects with the same JSON text have the same members in the same order. */
  lemma StringifyInjective(a: seq<Member>, b: seq<Member>)
    requires Stringify(a) == Stringify(b)
    ensures a == b
  {
    StringifyRoundTrip(a, []);
    StringifyRoundTrip(b, []);
    assert Stringify(a) + [] == Stringify(a);
    assert Stringify(b) + [] == Stringify(b);
  }
}
