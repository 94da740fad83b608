/** Characters and strings, as far as the chat engine looks into them. */
module Text {

  /** Rust's char::is_whitespace: the Unicode White_Space property. */
  predicate IsWhitespace(c: char) {
    || '\t' <= c <= '\r'
    || c == ' '
    || c == '\U{85}'
    || c == '\U{A0}'
    || c == '\U{1680}'
    || '\U{2000}' <= c <= '\U{200A}'
    || c == '\U{2028}'
    || c == '\U{2029}'
    || c == '\U{202F}'
    || c == '\U{205F}'
    || c == '\U{3000}'
  }

  function TrimStart(s: string): string {
    if s != [] && IsWhitespace(s[0]) then TrimStart(s[1..]) else s
  }

  function TrimEnd(s: string): string {
    if s != [] && IsWhitespace(s[|s| - 1]) then TrimEnd(s[..|s| - 1]) else s
  }

  function Trim(s: string): string {
    TrimEnd(TrimStart(s))
  }

  /** A text `trim` leaves nothing of. */
  predicate IsBlank(s: string) {
    Trim(s) == []
  }

  predicate AllWhitespace(s: string) {
    forall i | 0 <= i < |s| :: IsWhitespace(s[i])
  }

  lemma {:induction false} TrimStartFacts(s: string)
    ensures |TrimStart(s)| <= |s| && TrimStart(s) == s[|s| - |TrimStart(s)|..]
    ensures AllWhitespace(s[..|s| - |TrimStart(s)|])
    ensures TrimStart(s) != [] ==> !IsWhitespace(TrimStart(s)[0])
  {
    if s != [] && IsWhitespace(s[0]) {
      TrimStartFacts(s[1..]);
      var n := |s| - |TrimStart(s)|;
      assert s[..n] == [s[0]] + s[1..][..n - 1];
    }
  }

  lemma {:induction false} TrimEndFacts(s: string)
    ensures |TrimEnd(s)| <= |s| && TrimEnd(s) == s[..|TrimEnd(s)|]
    ensures AllWhitespace(s[|TrimEnd(s)|..])
    ensures TrimEnd(s) != [] ==> !IsWhitespace(TrimEnd(s)[|TrimEnd(s)| - 1])
  {
    if s != [] && IsWhitespace(s[|s| - 1]) {
      var init := s[..|s| - 1];
      TrimEndFacts(init);
      var n := |TrimEnd(s)|;
      assert s[n..] == init[n..] + [s[|s| - 1]];
    }
  }

  /** A text is blank exactly when it holds nothing but whitespace. */
  lemma BlankIsAllWhitespace(s: string)
    ensures IsBlank(s) <==> AllWhitespace(s)
  {
    TrimStartFacts(s);
    TrimEndFacts(TrimStart(s));
    var n := |s| - |TrimStart(s)|;
    if TrimStart(s) != [] {
      assert !IsWhitespace(s[n]);
    }
    if IsBlank(s) {
      assert s == s[..n] + s[n..];
    }
  }

  /** Trimming never turns a text with content into a blank one. */
  lemma TrimKeepsContent(s: string)
    ensures IsBlank(Trim(s)) <==> IsBlank(s)
  {
    if !IsBlank(s) {
      TrimStartFacts(s);
      TrimEndFacts(TrimStart(s));
      assert Trim(s)[0] == TrimStart(s)[0];
      BlankIsAllWhitespace(Trim(s));
    }
  }
}
