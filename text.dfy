/** The one piece of string handling the page relies on: JavaScript's
    `String.prototype.trim`, used to decide whether the prompt holds any text
    (the submit guard and the visibility of the "Generate" button). */
module Text {

  /** The code points `trim` strips: ECMAScript WhiteSpace (tab, vertical tab,
      form feed, the byte order mark and every Unicode space separator) and
      LineTerminator (line feed, carriage return, U+2028, U+2029). */
  predicate IsWhitespace(c: char)
    ensures IsWhitespace(c) ==> c as int <= 0xFFFF
  {
    var cp := c as int;
    cp == 0x09 || cp == 0x0A || cp == 0x0B || cp == 0x0C || cp == 0x0D ||
    cp == 0x20 || cp == 0xA0 || cp == 0x1680 ||
    (0x2000 <= cp <= 0x200A) ||
    cp == 0x2028 || cp == 0x2029 || cp == 0x202F || cp == 0x205F ||
    cp == 0x3000 || cp == 0xFEFF
  }

  predicate AllWhitespace(s: string) {
    forall i :: 0 <= i < |s| ==> IsWhitespace(s[i])
  }

  /** Number of whitespace characters at the front of `s`. */
  function LeadingSpace(s: string): (k: nat)
    ensures k <= |s|
    ensures AllWhitespace(s[..k])
    ensures k < |s| ==> !IsWhitespace(s[k])
  {
    if s == [] || !IsWhitespace(s[0]) then 0
    else
      var k := 1 + LeadingSpace(s[1..]);
      assert forall i :: 1 <= i < k ==> s[i] == s[1..][i - 1];
      k
  }

  /** Number of whitespace characters at the back of `s`. */
  function TrailingSpace(s: string): (k: nat)
    ensures k <= |s|
    ensures AllWhitespace(s[|s| - k..])
    ensures k < |s| ==> !IsWhitespace(s[|s| - 1 - k])
  {
    if s == [] || !IsWhitespace(s[|s| - 1]) then 0
    else
      var t := s[..|s| - 1];
      var k := 1 + TrailingSpace(t);
      assert forall i :: |s| - k <= i < |s| - 1 ==> s[i] == t[i];
      k
  }

  /** The slice `[start, end)` of `s` that `trim` keeps: everything before and
      after it is whitespace, and a non-empty slice starts and ends with a
      character that is not. */
  function TrimBounds(s: string): (b: (nat, nat))
    ensures b.0 <= b.1 <= |s|
    ensures AllWhitespace(s[..b.0]) && AllWhitespace(s[b.1..])
    ensures b.0 < b.1 ==> !IsWhitespace(s[b.0]) && !IsWhitespace(s[b.1 - 1])
  {
    var start := LeadingSpace(s);
    if start == |s| then (start, start)
    else
      var end := |s| - TrailingSpace(s);
      assert forall i :: end <= i < |s| ==> s[i] == s[end..][i - end];
      (start, end)
  }

  /** `s.trim()`: `s` with its leading and trailing whitespace removed and
      nothing else changed. The result starts right after the leading
      whitespace (which `LeadingSpace` measures) and only whitespace follows
      it. */
  function Trim(s: string): (r: string)
    ensures |r| <= |s|
    ensures LeadingSpace(s) + |r| <= |s|
    ensures s[LeadingSpace(s)..LeadingSpace(s) + |r|] == r
    ensures AllWhitespace(s[LeadingSpace(s) + |r|..])
    ensures r != [] ==> !IsWhitespace(r[0]) && !IsWhitespace(r[|r| - 1])
  {
    var b := TrimBounds(s);
    s[b.0..b.1]
  }

  /** JavaScript truthiness of `s.trim()`: the trimmed string is not empty. */
  predicate HasText(s: string)
    ensures HasText(s) ==> s != []
    ensures AllWhitespace(s) ==> !HasText(s)
  {
    Trim(s) != []
  }

  /** A prompt has text exactly when some character of it is not whitespace;
      in particular the empty prompt and a prompt of spaces and newlines have
      none. */
  lemma HasTextIff(s: string)
    ensures HasText(s) <==> exists i :: 0 <= i < |s| && !IsWhitespace(s[i])
  {
    var b := TrimBounds(s);
    if b.0 < b.1 {
      assert !IsWhitespace(s[b.0]);
    } else {
      assert s == s[..b.0] + s[b.1..];
    }
  }

  /** The same fact as concatenation: the prompt is some whitespace, then its
      trimmed text, then some whitespace. */
  lemma TrimIsInfix(s: string)
    ensures exists a, b :: s == a + Trim(s) + b && AllWhitespace(a) && AllWhitespace(b)
  {
    var b := TrimBounds(s);
    var a, t, c := s[..b.0], s[b.0..b.1], s[b.1..];
    assert t == Trim(s);
    assert s == a + t + c;
    assert AllWhitespace(a) && AllWhitespace(c);
  }
}
