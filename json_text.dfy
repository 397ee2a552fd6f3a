/**
 * Text produced by the exporter: the JSON string escaping (escJSON in
 * AiInfoExport.js), decimal integer text, and the layout of export.json.
 */
module JsonText {
  import opened Wrappers

  /** The two characters escJSON rewrites. */
  predicate NeedsEscape(c: char) {
    c == '\\' || c == '"'
  }

  /** Number of characters in `s` that escJSON rewrites. */
  function Specials(s: string): nat {
    if s == [] then 0 else (if NeedsEscape(s[0]) then 1 else 0) + Specials(s[1..])
  }

  /** One character of escaped output: a backslash goes in front of `\` and `"`. */
  function EscapeChar(c: char): string {
    if NeedsEscape(c) then ['\\', c] else [c]
  }

  /** Character-by-character escaping; the reference for what escJSON computes. */
  function Escape(s: string): (r: string)
    ensures |r| == |s| + Specials(s)
  {
    if s == [] then [] else EscapeChar(s[0]) + Escape(s[1..])
  }

  /** A global `String.replace` of one character by a replacement string. */
  function ReplaceAll(s: string, c: char, replacement: string): string {
    if s == [] then []
    else (if s[0] == c then replacement else [s[0]]) + ReplaceAll(s[1..], c, replacement)
  }

  /**
   * escJSON: a missing (null, undefined or empty) string becomes "";
   * then backslashes are doubled and, in a second pass, every double quote
   * gets a backslash in front. The two passes together are Escape.
   */
  function EscJson(str: Option<string>): (r: string)
    ensures str.None? ==> r == ""
    ensures str.Some? ==> r == Escape(str.value)
  {
    var s := if str.Some? then str.value else "";
    var r := ReplaceAll(ReplaceAll(s, '\\', "\\\\"), '"', "\\\"");
    TwoPassesEscape(s);
    r
  }

  lemma {:induction false} ReplaceAllAppend(a: string, b: string, c: char, replacement: string)
    ensures ReplaceAll(a + b, c, replacement) == ReplaceAll(a, c, replacement) + ReplaceAll(b, c, replacement)
  {
    if a == [] {
      assert a + b == b;
    } else {
      assert (a + b)[0] == a[0];
      assert (a + b)[1..] == a[1..] + b;
      ReplaceAllAppend(a[1..], b, c, replacement);
    }
  }

  /** The second pass never re-escapes a backslash added by the first. */
  lemma {:induction false} TwoPassesEscape(s: string)
    ensures ReplaceAll(ReplaceAll(s, '\\', "\\\\"), '"', "\\\"") == Escape(s)
  {
    if s != [] {
      var head := if s[0] == '\\' then "\\\\" else [s[0]];
      assert ReplaceAll(s, '\\', "\\\\") == head + ReplaceAll(s[1..], '\\', "\\\\");
      ReplaceAllAppend(head, ReplaceAll(s[1..], '\\', "\\\\"), '"', "\\\"");
      if s[0] == '\\' {
        assert ReplaceAll(head, '"', "\\\"") == "\\\\" by {
          assert head == ['\\'] + ['\\'];
          ReplaceAllAppend(['\\'], ['\\'], '"', "\\\"");
        }
      } else {
        assert ReplaceAll(head, '"', "\\\"") == EscapeChar(s[0]);
      }
      TwoPassesEscape(s[1..]);
    }
  }

  /** What a JSON reader does with the escapes `Escape` produces: drop each escaping backslash. */
  function Unescape(r: string): string {
    if r == [] then []
    else if r[0] == '\\' && |r| >= 2 then [r[1]] + Unescape(r[2..])
    else [r[0]] + Unescape(r[1..])
  }

  /** Reading back an escaped string gives the original string. */
  lemma {:induction false} UnescapeEscape(s: string)
    ensures Unescape(Escape(s)) == s
  {
    if s != [] {
      var rest := Escape(s[1..]);
      assert Escape(s) == EscapeChar(s[0]) + rest;
      if NeedsEscape(s[0]) {
        assert (EscapeChar(s[0]) + rest)[2..] == rest;
      } else {
        assert (EscapeChar(s[0]) + rest)[1..] == rest;
      }
      UnescapeEscape(s[1..]);
    }
  }

  lemma {:induction false} NoSpecials(s: string)
    ensures Specials(s) == 0 <==> forall k :: 0 <= k < |s| ==> !NeedsEscape(s[k])
  {
    if s != [] {
      NoSpecials(s[1..]);
      assert forall k :: 1 <= k < |s| ==> s[k] == s[1..][k - 1];
    }
  }

  /** Escaping changes a string exactly when it holds a backslash or a double quote. */
  lemma {:induction false} EscapeIsIdentity(s: string)
    ensures Escape(s) == s <==> forall k :: 0 <= k < |s| ==> !NeedsEscape(s[k])
  {
    NoSpecials(s);
    if forall k :: 0 <= k < |s| ==> !NeedsEscape(s[k]) {
      EscapePlain(s);
    }
  }

  lemma {:induction false} EscapePlain(s: string)
    requires forall k :: 0 <= k < |s| ==> !NeedsEscape(s[k])
    ensures Escape(s) == s
  {
    if s != [] {
      assert !NeedsEscape(s[0]);
      assert forall k :: 0 <= k < |s[1..]| ==> s[1..][k] == s[k + 1];
      EscapePlain(s[1..]);
    }
  }

  /** The characters section 7 of RFC 8259 says a JSON string must not carry raw: U+0000 to U+001F. */
  predicate IsControl(c: char) {
    c < ' '
  }

  predicate NoControl(s: string) {
    forall k :: 0 <= k < |s| ==> !IsControl(s[k])
  }

  lemma NoControlAppend(a: string, b: string)
    ensures NoControl(a + b) <==> NoControl(a) && NoControl(b)
  {
    assert forall k :: 0 <= k < |a| ==> (a + b)[k] == a[k];
    assert forall k :: 0 <= k < |b| ==> (a + b)[|a| + k] == b[k];
  }

  /**
   * escJSON leaves control characters as they are: its output holds a raw
   * control character exactly when its input does.
   */
  lemma {:induction false} EscapeKeepsControl(s: string)
    ensures NoControl(Escape(s)) <==> NoControl(s)
  {
    if s != [] {
      assert s == [s[0]] + s[1..];
      NoControlAppend([s[0]], s[1..]);
      NoControlAppend(EscapeChar(s[0]), Escape(s[1..]));
      EscapeKeepsControl(s[1..]);
    }
  }

  /** A tab in a name reaches export.json unescaped. */
  lemma EscapeLeavesTab()
    ensures EscJson(Some("a\tb")) == "a\tb"
    ensures !NoControl(EscJson(Some("a\tb")))
  {
    assert !IsControl('a') && !IsControl('b');
    EscapePlain("a\tb");
    assert IsControl("a\tb"[1]);
  }

  /** The decimal digit character for `d`. */
  function Digit(d: nat): (c: char)
    requires d < 10
    ensures IsDigit(c) && c as int - 48 == d
  {
    (48 + d) as char
  }

  predicate IsDigit(c: char) {
    48 <= c as int <= 57
  }

  /** JavaScript's `"" + n` for a non-negative integer: its decimal digits. */
  function NatToString(n: nat): (r: string)
    ensures |r| >= 1
    ensures forall k :: 0 <= k < |r| ==> IsDigit(r[k])
  {
    if n < 10 then [Digit(n)] else NatToString(n / 10) + [Digit(n % 10)]
  }

  /** The value of a string of decimal digits. */
  function DigitsValue(s: string): nat
    requires forall k :: 0 <= k < |s| ==> IsDigit(s[k])
  {
    if s == [] then 0
    else
      assert IsDigit(s[|s| - 1]);
      DigitsValue(s[..|s| - 1]) * 10 + ((s[|s| - 1] as int) - 48)
  }

  /** The decimal text of `n` reads back as `n`. */
  lemma {:induction false} NatToStringRoundTrip(n: nat)
    ensures DigitsValue(NatToString(n)) == n
  {
    if n >= 10 {
      var r := NatToString(n);
      assert r[..|r| - 1] == NatToString(n / 10);
      NatToStringRoundTrip(n / 10);
    }
  }

  /** The `suffix` rule of the write loop: a comma after every object line but the last. */
  function ObjectLine(lines: seq<string>, k: nat): string
    requires k < |lines|
  {
    lines[k] + (if k < |lines| - 1 then "," else "")
  }

  function WithCommas(lines: seq<string>): (r: seq<string>)
    ensures |r| == |lines|
  {
    seq(|lines|, k requires 0 <= k < |lines| => ObjectLine(lines, k))
  }

  /** The opening three lines of export.json. */
  function Header(layerName: Option<string>): seq<string> {
    ["{", "  \"layer\": \"" + EscJson(layerName) + "\",", "  \"objects\": ["]
  }

  /** The closing two lines of export.json. */
  const FOOTER: seq<string> := ["  ]", "}"]

  /** Every line written to export.json, in order. */
  function DocumentLines(layerName: Option<string>, lines: seq<string>): seq<string> {
    Header(layerName) + WithCommas(lines) + FOOTER
  }

  /** Drops the separator the write loop put after an object line. */
  function DropComma(line: string): string {
    if |line| > 0 && line[|line| - 1] == ',' then line[..|line| - 1] else line
  }

  /**
   * export.json has the object lines between a three-line header and a
   * two-line footer; every object line but the last carries one trailing
   * comma, the last carries none, and taking the comma off gives the line
   * back.
   */
  lemma DocumentLayout(layerName: Option<string>, lines: seq<string>)
    ensures var doc := DocumentLines(layerName, lines);
      && |doc| == |lines| + 5
      && doc[..3] == Header(layerName) && doc[|doc| - 2..] == FOOTER
      && (forall k :: 0 <= k < |lines| - 1 ==> doc[3 + k] == lines[k] + "," && DropComma(doc[3 + k]) == lines[k])
      && (|lines| > 0 ==> doc[3 + |lines| - 1] == lines[|lines| - 1])
  {
    var doc := DocumentLines(layerName, lines);
    forall k | 0 <= k < |lines| - 1
      ensures doc[3 + k] == lines[k] + "," && DropComma(doc[3 + k]) == lines[k]
    {
      assert doc[3 + k] == ObjectLine(lines, k);
      assert (lines[k] + ",")[..|lines[k] + ","| - 1] == lines[k];
    }
  }
}
