/**
 * How a name written unencoded into `?username=${name}` reaches a Pages
 * Function as `url.searchParams.get('username')`. The client's URL parser
 * strips trailing C0 controls and spaces, drops tabs and line breaks, and
 * ends the query at `#`. The server's form decoding ends the value at the
 * first `&`, turns `+` into a space and decodes `%XX` escapes. Characters
 * the client's parser percent-encodes on its own (a space, a quote,
 * non-ASCII text) are decoded back to themselves, so they are left alone
 * here.
 */
module QueryString {
  import opened Wrappers

  /** A character the client's URL parser removes from the end of the whole URL. */
  predicate Trimmable(c: char) {
    c as int <= 0x20
  }

  /** A character the client's URL parser drops wherever it occurs. */
  predicate Break(c: char) {
    c == '\t' || c == '\n' || c == '\r'
  }

  /** Trailing C0 controls and spaces removed. */
  function StripTrailing(s: string): (r: string)
    ensures |r| <= |s| && r == s[..|r|]
    ensures r == [] || !Trimmable(r[|r| - 1])
    ensures forall k :: |r| <= k < |s| ==> Trimmable(s[k])
  {
    if s == [] || !Trimmable(s[|s| - 1]) then s
    else StripTrailing(s[..|s| - 1])
  }

  /** Tabs, line feeds and carriage returns removed. */
  function DropBreaks(s: string): (r: string)
    ensures |r| <= |s|
    ensures forall k :: 0 <= k < |r| ==> !Break(r[k])
    ensures (forall k :: 0 <= k < |s| ==> !Break(s[k])) ==> r == s
  {
    if s == [] then []
    else (if Break(s[0]) then [] else [s[0]]) + DropBreaks(s[1..])
  }

  /** Break-free text in front passes through unchanged. */
  lemma {:induction false} DropBreaksPrefix(x: string, y: string)
    requires forall k :: 0 <= k < |x| ==> !Break(x[k])
    ensures DropBreaks(x + y) == x + DropBreaks(y)
  {
    if x == [] {
      assert x + y == y;
    } else {
      assert (x + y)[0] == x[0] && !Break(x[0]);
      assert (x + y)[1..] == x[1..] + y;
      DropBreaksPrefix(x[1..], y);
      assert DropBreaks(x + y) == [x[0]] + (x[1..] + DropBreaks(y));
    }
  }

  /** The text before the first `c`, or all of it. */
  function BeforeChar(s: string, c: char): (r: string)
    ensures |r| <= |s| && r == s[..|r|]
    ensures forall k :: 0 <= k < |r| ==> s[k] != c
    ensures |r| < |s| ==> s[|r|] == c
  {
    if s == [] || s[0] == c then []
    else [s[0]] + BeforeChar(s[1..], c)
  }

  /** The value of a hexadecimal digit, either case. */
  function HexValue(c: char): (r: Option<nat>)
    ensures r.Some? ==> r.value < 16
  {
    if '0' <= c <= '9' then Some(c as int - '0' as int)
    else if 'A' <= c <= 'F' then Some(c as int - 'A' as int + 10)
    else if 'a' <= c <= 'f' then Some(c as int - 'a' as int + 10)
    else None
  }

  /** The ASCII character a `%XX` escape stands for, when it is one. */
  function Escape(s: string): (r: Option<char>)
    ensures r.Some? ==> |s| >= 3 && s[0] == '%' && r.value as int < 0x80
  {
    if |s| >= 3 && s[0] == '%' && HexValue(s[1]).Some? && HexValue(s[2]).Some?
       && HexValue(s[1]).value * 16 + HexValue(s[2]).value < 0x80
    then Some((HexValue(s[1]).value * 16 + HexValue(s[2]).value) as char)
    else None
  }

  /** Form decoding of a query value: `+` is a space, an ASCII `%XX` escape is its character. */
  function FormDecode(s: string): (r: string)
    ensures |r| <= |s|
    ensures (forall k :: 0 <= k < |s| ==> s[k] != '+' && s[k] != '%') ==> r == s
    decreases |s|
  {
    if s == [] then []
    else if s[0] == '+' then " " + FormDecode(s[1..])
    else if Escape(s).Some? then [Escape(s).value] + FormDecode(s[3..])
    else [s[0]] + FormDecode(s[1..])
  }

  /** What the server reads as `searchParams.get('username')` for `?username=${name}`. */
  function SentName(name: string): string {
    FormDecode(BeforeChar(BeforeChar(DropBreaks(StripTrailing(name)), '#'), '&'))
  }

  /** No character that the query syntax or the URL parser reinterprets. */
  predicate Literal(s: string) {
    forall k :: 0 <= k < |s| ==> !Break(s[k]) && s[k] != '#' && s[k] != '&' && s[k] != '+' && s[k] != '%'
  }

  /** A name that reaches the server unchanged. */
  predicate QuerySafe(s: string) {
    Literal(s) && (s == [] || !Trimmable(s[|s| - 1]))
  }

  /** A query-safe name is read back as itself. */
  lemma SafeNameArrives(name: string)
    requires QuerySafe(name)
    ensures SentName(name) == name
  {
    assert StripTrailing(name) == name;
  }

  /** Stripping the end keeps a prefix that ends in a visible character. */
  lemma StripKeepsPrefix(x: string, y: string)
    requires x != [] && !Trimmable(x[|x| - 1])
    ensures |StripTrailing(x + y)| >= |x| && StripTrailing(x + y)[..|x|] == x
  {
    var t := StripTrailing(x + y);
    assert (x + y)[|x| - 1] == x[|x| - 1];
    assert (x + y)[..|x|] == x;
  }

  /** Cutting at `#` and then at `&` keeps exactly `a` when `a` is followed by one of them. */
  lemma CutsAtSeparator(d: string, a: string, sep: char)
    requires sep == '&' || sep == '#'
    requires Literal(a)
    requires |d| > |a| && d[..|a|] == a && d[|a|] == sep
    ensures BeforeChar(BeforeChar(d, '#'), '&') == a
  {
    assert forall k :: 0 <= k < |a| ==> d[k] == a[k];
    var h := BeforeChar(d, '#');
    if sep == '#' {
      assert |h| == |a|;
    } else {
      assert |h| > |a|;
      assert h[|a|] == '&';
    }
    assert forall k :: 0 <= k < |a| ==> h[k] == a[k];
    assert |BeforeChar(h, '&')| == |a|;
  }

  /**
   * A name holding `&` or `#` is read back as the text before it. `name`
   * is written `a + [sep] + b`, with `a` free of query syntax.
   */
  lemma NameCutAtSeparator(a: string, sep: char, b: string)
    requires sep == '&' || sep == '#'
    requires Literal(a)
    ensures SentName(a + [sep] + b) == a
  {
    var x := a + [sep];
    assert a + [sep] + b == x + b;
    StripKeepsPrefix(x, b);
    var t := StripTrailing(x + b);
    assert t == x + t[|x|..];
    DropBreaksPrefix(x, t[|x|..]);
    var d := DropBreaks(t);
    assert d[..|a|] == a && d[|a|] == sep;
    CutsAtSeparator(d, a, sep);
  }

  /** Characters `encodeURIComponent` leaves as they are. */
  predicate Unreserved(c: char) {
    ('A' <= c <= 'Z') || ('a' <= c <= 'z') || ('0' <= c <= '9')
    || c == '-' || c == '_' || c == '.' || c == '!' || c == '~' || c == '*' || c == '\'' || c == '(' || c == ')'
  }

  function HexDigit(d: nat): char
    requires d < 16
  {
    "0123456789ABCDEF"[d]
  }

  lemma HexDigitValue(d: nat)
    requires d < 16
    ensures HexValue(HexDigit(d)) == Some(d)
  {
    if d < 10 {
      assert HexDigit(d) as int == '0' as int + d;
    } else {
      assert HexDigit(d) as int == 'A' as int + d - 10;
    }
  }

  /**
   * `encodeURIComponent` on one character. Non-ASCII characters are kept:
   * the URL parser's own UTF-8 escaping of them is decoded back to the same
   * character, so the outcome is the same.
   */
  function EncodeChar(c: char): (r: string)
    ensures |r| >= 1
    ensures forall k :: 0 <= k < |r| ==> !Trimmable(r[k]) && r[k] != '#' && r[k] != '&' && r[k] != '+'
  {
    if Unreserved(c) || c as int >= 0x80 then [c]
    else "%" + [HexDigit(c as int / 16)] + [HexDigit(c as int % 16)]
  }

  /** `encodeURIComponent(name)`, character by character. */
  function Encode(s: string): (r: string)
    ensures forall k :: 0 <= k < |r| ==> !Trimmable(r[k]) && r[k] != '#' && r[k] != '&' && r[k] != '+'
  {
    if s == [] then []
    else
      var e := EncodeChar(s[0]);
      var rest := Encode(s[1..]);
      assert forall k :: |e| <= k < |e| + |rest| ==> (e + rest)[k] == rest[k - |e|];
      e + rest
  }

  /** Decoding an encoded character gives it back, whatever follows. */
  lemma DecodeChar(c: char, rest: string)
    ensures FormDecode(EncodeChar(c) + rest) == [c] + FormDecode(rest)
  {
    var e := EncodeChar(c) + rest;
    if Unreserved(c) || c as int >= 0x80 {
      assert e[0] == c && e[1..] == rest;
      assert Escape(e).None?;
    } else {
      var hi := c as int / 16;
      var lo := c as int % 16;
      HexDigitValue(hi);
      HexDigitValue(lo);
      assert e[1] == HexDigit(hi) && e[2] == HexDigit(lo);
      assert Escape(e) == Some(c);
      assert e[3..] == rest;
    }
  }

  /** Decoding undoes the encoding. */
  lemma {:induction false} DecodeEncode(s: string)
    ensures FormDecode(Encode(s)) == s
  {
    if s != [] {
      DecodeEncode(s[1..]);
      DecodeChar(s[0], Encode(s[1..]));
    }
  }

  /** With `encodeURIComponent`, every name reaches the server as itself. */
  lemma EncodedNameArrives(name: string)
    ensures SentName(Encode(name)) == name
  {
    var e := Encode(name);
    assert StripTrailing(e) == e;
    assert DropBreaks(e) == e;
    assert BeforeChar(e, '#') == e;
    assert BeforeChar(e, '&') == e;
    DecodeEncode(name);
  }
}
