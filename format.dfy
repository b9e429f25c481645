/** The pieces of Go's string formatting that the check's dial address and its
    error messages are built from: "%d" of an int, "%q" of a string and
    strings.Join, each paired with a parser that recovers what was formatted,
    and the split of an address at its last ':'. */
module Format {
  import opened Wrappers

  // ---------------------------------------------------------------------------
  // "%d" of an int

  predicate IsDigit(c: char) {
    '0' <= c <= '9'
  }

  function DigitChar(d: nat): (c: char)
    requires d < 10
    ensures IsDigit(c)
  {
    ('0' as int + d) as char
  }

  function DigitValue(c: char): (d: nat)
    requires IsDigit(c)
    ensures d < 10 && DigitChar(d) == c
  {
    c as int - '0' as int
  }

  /** The decimal digits of n, most significant first, with no leading zero. */
  function NatDigits(n: nat): (s: string)
    ensures |s| > 0 && forall i :: 0 <= i < |s| ==> IsDigit(s[i])
    ensures s[0] == '0' ==> n == 0
    decreases n
  {
    if n < 10 then [DigitChar(n)] else NatDigits(n / 10) + [DigitChar(n % 10)]
  }

  /** Go's "%d" of an int: a '-' for a negative value, then the digits of its magnitude. */
  function Decimal(n: int): (s: string)
    ensures |s| > 0 && ':' !in s
  {
    if n < 0 then "-" + NatDigits(-n) else NatDigits(n)
  }

  /** The value of a non-empty string of decimal digits; None for anything else. */
  function ParseNat(s: string): Option<nat>
    decreases |s|
  {
    if |s| == 0 || !IsDigit(s[|s| - 1]) then None
    else if |s| == 1 then Some(DigitValue(s[0]))
    else match ParseNat(s[..|s| - 1])
      case None => None
      case Some(m) => Some(10 * m + DigitValue(s[|s| - 1]))
  }

  /** The value of an optionally '-'-signed decimal numeral; None for anything else. */
  function ParseDecimal(s: string): Option<int>
  {
    if |s| > 0 && s[0] == '-' then
      match ParseNat(s[1..])
      case None => None
      case Some(m) => Some(-(m as int))
    else
      match ParseNat(s)
      case None => None
      case Some(m) => Some(m)
  }

  lemma {:induction false} ParseNatDigits(n: nat)
    ensures ParseNat(NatDigits(n)) == Some(n)
    decreases n
  {
    if n >= 10 {
      var s := NatDigits(n);
      assert s[..|s| - 1] == NatDigits(n / 10);
      ParseNatDigits(n / 10);
    }
  }

  /** "%d" loses nothing: the numeral it writes reads back as the same int. */
  lemma DecimalRoundTrip(n: int)
    ensures ParseDecimal(Decimal(n)) == Some(n)
  {
    if n < 0 {
      var digits := NatDigits(-n);
      assert ("-" + digits)[1..] == digits;
      ParseNatDigits(-n);
      assert ParseDecimal("-" + digits) == Some(-(-n));
    } else {
      var digits := NatDigits(n);
      assert IsDigit(digits[0]);
      ParseNatDigits(n);
      assert ParseDecimal(digits) == Some(n);
    }
  }

  // ---------------------------------------------------------------------------
  // Splitting "host:port" at its last ':'

  /** The text before and after the last ':' of s; None when s has no ':'. */
  function SplitLastColon(s: string): (r: Option<(string, string)>)
    ensures r.Some? ==> s == r.value.0 + ":" + r.value.1 && ':' !in r.value.1
    ensures r.None? ==> ':' !in s
    decreases |s|
  {
    if |s| == 0 then None
    else if s[|s| - 1] == ':' then Some((s[..|s| - 1], ""))
    else match SplitLastColon(s[..|s| - 1])
      case None => None
      case Some(p) => Some((p.0, p.1 + [s[|s| - 1]]))
  }

  /** Joining a host and a colon-free tail with ':' is undone by SplitLastColon,
      whatever colons the host itself holds. */
  lemma {:induction false} SplitLastColonOf(host: string, tail: string)
    requires ':' !in tail
    ensures SplitLastColon(host + ":" + tail) == Some((host, tail))
    decreases |tail|
  {
    var s := host + ":" + tail;
    if |tail| == 0 {
      assert s[..|s| - 1] == host;
    } else {
      var init := tail[..|tail| - 1];
      assert s[..|s| - 1] == host + ":" + init;
      assert s[|s| - 1] == tail[|tail| - 1];
      SplitLastColonOf(host, init);
      assert init + [tail[|tail| - 1]] == tail;
    }
  }

  // ---------------------------------------------------------------------------
  // "%q" of a string (strconv.Quote)

  function HexDigit(d: nat): (c: char)
    requires d < 16
  {
    if d < 10 then DigitChar(d) else ('a' as int + (d - 10)) as char
  }

  /** The value of a hexadecimal digit of either case; None for any other character. */
  function HexValue(c: char): (r: Option<nat>)
    ensures r.Some? ==> r.value < 16
  {
    if '0' <= c <= '9' then Some(c as int - '0' as int)
    else if 'a' <= c <= 'f' then Some(c as int - 'a' as int + 10)
    else if 'A' <= c <= 'F' then Some(c as int - 'A' as int + 10)
    else None
  }

  /** How "%q" writes the character c between the quotes: a backslash before '"'
      and '\', printable ASCII as itself, the seven C escapes \a \b \f \n \r \t \v
      for their control characters, \xNN (lower-case hex) for the other ASCII
      control characters and DEL; characters beyond ASCII as themselves. */
  function EscapeChar(c: char): string
  {
    var k := c as int;
    if c == '"' then "\\\""
    else if c == '\\' then "\\\\"
    else if 0x20 <= k < 0x7f || 0x7f < k then [c]
    else if k == 7 then "\\a"
    else if k == 8 then "\\b"
    else if k == 12 then "\\f"
    else if k == 10 then "\\n"
    else if k == 13 then "\\r"
    else if k == 9 then "\\t"
    else if k == 11 then "\\v"
    else ['\\', 'x', HexDigit(k / 16), HexDigit(k % 16)]
  }

  function EscapeAll(s: string): string
    decreases |s|
  {
    if |s| == 0 then "" else EscapeChar(s[0]) + EscapeAll(s[1..])
  }

  /** Go's "%q" of a string. */
  function Quote(s: string): (r: string)
    ensures |r| >= 2 && r[0] == '"' && r[|r| - 1] == '"'
  {
    "\"" + EscapeAll(s) + "\""
  }

  /** Reads one character of a quoted body, plain or backslash-escaped, and
      returns it with what follows; None for a malformed escape. */
  function NextChar(s: string): (r: Option<(char, string)>)
    requires |s| > 0
    ensures r.Some? ==> |r.value.1| < |s|
  {
    if s[0] != '\\' then Some((s[0], s[1..]))
    else if |s| < 2 then None
    else match s[1]
      case '"' => Some(('"', s[2..]))
      case '\\' => Some(('\\', s[2..]))
      case 'a' => Some((7 as char, s[2..]))
      case 'b' => Some((8 as char, s[2..]))
      case 'f' => Some((12 as char, s[2..]))
      case 'n' => Some((10 as char, s[2..]))
      case 'r' => Some((13 as char, s[2..]))
      case 't' => Some((9 as char, s[2..]))
      case 'v' => Some((11 as char, s[2..]))
      case 'x' =>
        if |s| < 4 then None
        else (match (HexValue(s[2]), HexValue(s[3]))
          case (Some(h), Some(l)) => Some(((16 * h + l) as char, s[4..]))
          case _ => None)
      case _ => None
  }

  /** Reads a quoted body up to its closing '"' and returns the text it stands
      for together with what follows the closing quote. */
  function UnquoteBody(s: string): Option<(string, string)>
    decreases |s|
  {
    if |s| == 0 then None
    else if s[0] == '"' then Some(([], s[1..]))
    else match NextChar(s)
      case None => None
      case Some((c, t)) =>
        (match UnquoteBody(t)
          case None => None
          case Some((body, rest)) => Some(([c] + body, rest)))
  }

  /** Reads a quoted string at the front of s; the partner of Quote. */
  function Unquote(s: string): Option<(string, string)>
  {
    if |s| > 0 && s[0] == '"' then UnquoteBody(s[1..]) else None
  }

  /** Every escape EscapeChar writes reads back, by NextChar, as the character it
      stands for, and none of them starts with the closing quote. */
  lemma NextCharOfEscape(c: char, t: string)
    ensures |EscapeChar(c)| > 0 && EscapeChar(c)[0] != '"'
    ensures NextChar(EscapeChar(c) + t) == Some((c, t))
  {
  }

  lemma {:induction false} UnquoteBodyOfEscaped(s: string, rest: string)
    ensures UnquoteBody(EscapeAll(s) + "\"" + rest) == Some((s, rest))
    decreases |s|
  {
    if |s| == 0 {
      assert EscapeAll(s) + "\"" + rest == "\"" + rest;
    } else {
      var tail := EscapeAll(s[1..]) + "\"" + rest;
      assert EscapeAll(s) + "\"" + rest == EscapeChar(s[0]) + tail;
      NextCharOfEscape(s[0], tail);
      UnquoteBodyOfEscaped(s[1..], rest);
      assert [s[0]] + s[1..] == s;
    }
  }

  /** "%q" is unambiguous: the quoted text, followed by anything, reads back as
      the original string and exactly what followed it. */
  lemma QuoteRoundTrip(s: string, rest: string)
    ensures Unquote(Quote(s) + rest) == Some((s, rest))
  {
    assert (Quote(s) + rest)[1..] == EscapeAll(s) + "\"" + rest;
    UnquoteBodyOfEscaped(s, rest);
  }

  // ---------------------------------------------------------------------------
  // strings.Join and its partner, strings.Split with a non-empty separator

  /** The total length of the parts. */
  function TotalLength(parts: seq<string>): nat
    decreases |parts|
  {
    if |parts| == 0 then 0 else |parts[0]| + TotalLength(parts[1..])
  }

  /** Go's strings.Join: the parts with one separator between each two, so the
      result is as long as the parts plus one separator fewer than there are parts. */
  function Join(parts: seq<string>, sep: string): (r: string)
    ensures |parts| == 0 ==> r == ""
    ensures |parts| > 0 ==> |r| == TotalLength(parts) + (|parts| - 1) * |sep|
    ensures |parts| > 0 ==> r[..|parts[0]|] == parts[0]
    decreases |parts|
  {
    if |parts| == 0 then ""
    else if |parts| == 1 then parts[0]
    else parts[0] + sep + Join(parts[1..], sep)
  }

  /** The position of an occurrence of sep in s, the first one; None if there is none. */
  function IndexOf(s: string, sep: string): (r: Option<nat>)
    requires |sep| > 0
    ensures r.Some? ==> r.value + |sep| <= |s| && s[r.value..r.value + |sep|] == sep
    decreases |s|
  {
    if |s| < |sep| then None
    else if s[..|sep|] == sep then Some(0)
    else match IndexOf(s[1..], sep)
      case None => None
      case Some(i) =>
        assert s[1..][i..i + |sep|] == s[i + 1..i + 1 + |sep|];
        Some(i + 1)
  }

  /** Go's strings.Split for a non-empty separator. */
  function Split(s: string, sep: string): seq<string>
    requires |sep| > 0
    decreases |s|
  {
    match IndexOf(s, sep)
    case None => [s]
    case Some(i) => [s[..i]] + Split(s[i + |sep|..], sep)
  }

  lemma IndexOfAbsent(p: string, sep: string)
    requires |sep| > 0 && sep[0] !in p
    ensures IndexOf(p, sep) == None
  {
  }

  lemma {:induction false} IndexOfAfter(p: string, sep: string, rest: string)
    requires |sep| > 0 && sep[0] !in p
    ensures IndexOf(p + sep + rest, sep) == Some(|p|)
    decreases |p|
  {
    var s := p + sep + rest;
    if |p| == 0 {
      assert s[..|sep|] == sep;
    } else {
      assert s[..|sep|][0] == p[0];
      assert s[1..] == p[1..] + sep + rest;
      IndexOfAfter(p[1..], sep, rest);
    }
  }

  /** A first piece free of the separator's first character splits off whole. */
  lemma SplitAfter(p: string, sep: string, rest: string)
    requires |sep| > 0 && sep[0] !in p
    ensures Split(p + sep + rest, sep) == [p] + Split(rest, sep)
  {
    var s := p + sep + rest;
    IndexOfAfter(p, sep, rest);
    assert s[..|p|] == p;
    assert s[|p| + |sep|..] == rest;
  }

  /** When no part holds the separator's first character, Split undoes Join:
      the joined text still lists every part, in order. */
  lemma {:induction false} SplitJoin(parts: seq<string>, sep: string)
    requires |parts| > 0 && |sep| > 0
    requires forall i :: 0 <= i < |parts| ==> sep[0] !in parts[i]
    ensures Split(Join(parts, sep), sep) == parts
    decreases |parts|
  {
    if |parts| == 1 {
      IndexOfAbsent(parts[0], sep);
    } else {
      var tail := parts[1..];
      var joined := Join(tail, sep);
      assert forall i :: 0 <= i < |tail| ==> tail[i] == parts[i + 1];
      SplitJoin(tail, sep);
      SplitAfter(parts[0], sep, joined);
      calc {
        Split(Join(parts, sep), sep);
        Split(parts[0] + sep + joined, sep);
        [parts[0]] + Split(joined, sep);
        [parts[0]] + tail;
        parts;
      }
    }
  }
}
