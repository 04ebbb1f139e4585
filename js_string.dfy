/** The JavaScript string built-ins the application calls: String.prototype.trim,
    String.prototype.toLowerCase, String.prototype.includes and the global
    encodeURIComponent. Strings are sequences of Unicode scalar values. */
module JsString {

  /** WhiteSpace and LineTerminator code points of ECMAScript (sections 12.2 and 12.3):
      the characters trim removes. Zs is written out code point by code point. */
  predicate IsWhiteSpace(c: char) {
    c == '\t' || c == '\U{000B}' || c == '\U{000C}' || c == ' ' || c == '\U{00A0}' || c == '\U{FEFF}'
    || c == '\n' || c == '\r' || c == '\U{2028}' || c == '\U{2029}'
    || c == '\U{1680}' || ('\U{2000}' <= c <= '\U{200A}') || c == '\U{202F}' || c == '\U{205F}' || c == '\U{3000}'
  }

  /** Drops leading white space. */
  function TrimStart(s: string): string {
    if s == [] || !IsWhiteSpace(s[0]) then s else TrimStart(s[1..])
  }

  /** Drops trailing white space. */
  function TrimEnd(s: string): string {
    if s == [] || !IsWhiteSpace(s[|s| - 1]) then s else TrimEnd(s[..|s| - 1])
  }

  /** TrimStart yields the longest suffix of s that does not start with white space. */
  lemma {:induction false} TrimStartFacts(s: string)
    ensures var r := TrimStart(s);
      && |r| <= |s| && r == s[|s| - |r|..]
      && (r == [] || !IsWhiteSpace(r[0]))
      && forall i :: 0 <= i < |s| - |r| ==> IsWhiteSpace(s[i])
  {
    if s != [] && IsWhiteSpace(s[0]) {
      TrimStartFacts(s[1..]);
      var r := TrimStart(s);
      forall i | 0 < i < |s| - |r| ensures IsWhiteSpace(s[i]) {
        assert s[i] == s[1..][i - 1];
      }
    }
  }

  /** TrimEnd yields the longest prefix of s that does not end with white space. */
  lemma {:induction false} TrimEndFacts(s: string)
    ensures var r := TrimEnd(s);
      && |r| <= |s| && r == s[..|r|]
      && (r == [] || !IsWhiteSpace(r[|r| - 1]))
      && forall i :: |r| <= i < |s| ==> IsWhiteSpace(s[i])
  {
    if s != [] && IsWhiteSpace(s[|s| - 1]) {
      TrimEndFacts(s[..|s| - 1]);
      var r := TrimEnd(s);
      forall i | |r| <= i < |s| - 1 ensures IsWhiteSpace(s[i]) {
        assert s[i] == s[..|s| - 1][i];
      }
    }
  }

  /** String.prototype.trim (ECMAScript section 22.1.3.32). */
  function Trim(s: string): string {
    TrimEnd(TrimStart(s))
  }

  /** A string trims to the empty string exactly when every character of it is white space. */
  lemma TrimEmptyIff(s: string)
    ensures Trim(s) == [] <==> forall i :: 0 <= i < |s| ==> IsWhiteSpace(s[i])
  {
    var t := TrimStart(s);
    TrimStartFacts(s);
    TrimEndFacts(t);
    if Trim(s) == [] {
      assert t == [];
    } else {
      var r := Trim(s);
      assert r[0] == t[0] == s[|s| - |t|];
    }
  }

  /** The result of trim neither starts nor ends with white space, and trimming it again changes nothing. */
  lemma TrimIdempotent(s: string)
    ensures Trim(s) == [] || (!IsWhiteSpace(Trim(s)[0]) && !IsWhiteSpace(Trim(s)[|Trim(s)| - 1]))
    ensures Trim(Trim(s)) == Trim(s)
  {
    var t := Trim(s);
    var u := TrimStart(s);
    TrimStartFacts(s);
    TrimEndFacts(u);
    if t != [] {
      assert t[0] == u[0];
      assert TrimStart(t) == t;
      assert TrimEnd(t) == t;
    }
  }

  /** The lower-case mapping of one character for the Latin capital letters A to Z;
      every other character is left as it is. */
  function LowerChar(c: char): char {
    if 'A' <= c <= 'Z' then (c as int + 32) as char else c
  }

  /** String.prototype.toLowerCase, restricted to the ASCII letters. */
  function ToLower(s: string): string {
    seq(|s|, i requires 0 <= i < |s| => LowerChar(s[i]))
  }

  /** String.prototype.includes: t occurs in s, tried at each start position in turn. */
  function Includes(s: string, t: string): bool
    decreases |s|
  {
    t <= s || (s != [] && Includes(s[1..], t))
  }

  /** t occurs in s starting at position i. */
  predicate OccursAt(s: string, t: string, i: int) {
    0 <= i && i + |t| <= |s| && s[i..i + |t|] == t
  }

  /** An occurrence past the first position is an occurrence in the tail, one place earlier. */
  lemma OccursInTail(s: string, t: string, i: int)
    requires s != []
    ensures i > 0 ==> (OccursAt(s, t, i) <==> OccursAt(s[1..], t, i - 1))
  {
    if i > 0 && i + |t| <= |s| {
      assert s[1..][i - 1..i - 1 + |t|] == s[i..i + |t|] by {
        assert s[1..][i - 1..] == s[i..];
      }
    }
  }

  /** Includes agrees with its declarative reading: t occurs in s at some position. */
  lemma {:induction false} IncludesIff(s: string, t: string)
    ensures Includes(s, t) <==> exists i :: OccursAt(s, t, i)
    decreases |s|
  {
    if t <= s {
      assert OccursAt(s, t, 0);
    } else if s == [] {
      assert t != [];
    } else {
      IncludesIff(s[1..], t);
      if Includes(s[1..], t) {
        var i :| OccursAt(s[1..], t, i);
        OccursInTail(s, t, i + 1);
      } else {
        forall i ensures !OccursAt(s, t, i) {
          OccursInTail(s, t, i);
        }
      }
    }
  }

  /** The characters encodeURIComponent leaves unescaped (ECMAScript section 19.2.6.5):
      ASCII letters and digits and - _ . ! ~ * ' ( ). */
  predicate Unreserved(c: char) {
    ('A' <= c <= 'Z') || ('a' <= c <= 'z') || ('0' <= c <= '9')
    || c == '-' || c == '_' || c == '.' || c == '!' || c == '~' || c == '*' || c == '\'' || c == '(' || c == ')'
  }

  predicate IsUpperHex(c: char) {
    ('0' <= c <= '9') || ('A' <= c <= 'F')
  }

  function HexDigit(d: int): (c: char)
    requires 0 <= d < 16
    ensures IsUpperHex(c)
  {
    if d < 10 then ('0' as int + d) as char else ('A' as int + d - 10) as char
  }

  /** The UTF-8 encoding of one code point. */
  function Utf8(cp: int): (bytes: seq<int>)
    requires 0 <= cp < 0x11_0000
    ensures 1 <= |bytes| <= 4
    ensures forall i :: 0 <= i < |bytes| ==> 0 <= bytes[i] < 256
  {
    if cp < 0x80 then [cp]
    else if cp < 0x800 then [0xC0 + cp / 64, 0x80 + cp % 64]
    else if cp < 0x1_0000 then [0xE0 + cp / 4096, 0x80 + (cp / 64) % 64, 0x80 + cp % 64]
    else [0xF0 + cp / 262144, 0x80 + (cp / 4096) % 64, 0x80 + (cp / 64) % 64, 0x80 + cp % 64]
  }

  /** Each byte written as %XX with upper-case hexadecimal digits. */
  function PercentEncode(bytes: seq<int>): (r: string)
    requires forall i :: 0 <= i < |bytes| ==> 0 <= bytes[i] < 256
    ensures |r| == 3 * |bytes|
    ensures forall c :: c in r ==> c == '%' || IsUpperHex(c)
  {
    if bytes == [] then []
    else ['%', HexDigit(bytes[0] / 16), HexDigit(bytes[0] % 16)] + PercentEncode(bytes[1..])
  }

  /** encodeURIComponent (ECMAScript section 19.2.6.5). A Dafny string holds no lone
      surrogate, so the URIError case of the standard cannot arise here. The result
      holds only unreserved characters, '%' and hexadecimal digits: it can never
      carry a '&', '=', '#', '?' or '/' into the URL it is spliced into. */
  function EncodeUriComponent(s: string): (r: string)
    ensures |r| >= |s|
    ensures forall c :: c in r ==> Unreserved(c) || c == '%' || IsUpperHex(c)
  {
    if s == [] then []
    else
      var head := if Unreserved(s[0]) then [s[0]] else PercentEncode(Utf8(s[0] as int));
      head + EncodeUriComponent(s[1..])
  }

  /** A string made only of unreserved characters is its own encoding. */
  lemma {:induction false} EncodeUnreservedIdentity(s: string)
    requires forall i :: 0 <= i < |s| ==> Unreserved(s[i])
    ensures EncodeUriComponent(s) == s
  {
    if s != [] {
      EncodeUnreservedIdentity(s[1..]);
    }
  }
}
