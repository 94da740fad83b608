/** Credentials in diagnostics are masked before a user or a log sees them. */
module Redaction {
  import opened Wrappers
  import opened Text

  const MASK := "[REDACTED]"

  /** The first two and the last one stay in the text; the others are part of the credential itself. */
  datatype Marker = Bearer | Basic | SecretKey | GithubToken | SlackToken | ApiKey {
    function Word(): (w: string)
      ensures |w| >= 3
    {
      match this
      case Bearer => "bearer "
      case Basic => "basic "
      case SecretKey => "sk-"
      case GithubToken => "ghp_"
      case SlackToken => "xox"
      case ApiKey => "api_key="
    }

    predicate Introduces() {
      Bearer? || Basic? || ApiKey?
    }
  }

  const MARKERS := [Bearer, Basic, SecretKey, GithubToken, SlackToken, ApiKey]

  function Lower(c: char): char {
    if 'A' <= c <= 'Z' then c - 'A' + 'a' else c
  }

  predicate IsQuote(c: char) {
    c == '\"' || c == '\''
  }

  predicate IsPadding(c: char) {
    IsWhitespace(c) || IsQuote(c)
  }

  predicate IsTerminator(c: char) {
    IsPadding(c) || c == ',' || c == ';' || c == '&' || c == '<' || c == '>'
  }

  /** The word stands at this place, in capitals or not. */
  predicate StandsAt(text: string, i: nat, word: string) {
    i + |word| <= |text| && forall k | 0 <= k < |word| :: Lower(text[i + k]) == word[k]
  }

  predicate MarkerAt(text: string, i: nat, marker: Marker) {
    StandsAt(text, i, marker.Word())
  }

  datatype Hit = Hit(start: nat, marker: Marker)

  function MarkerFrom(text: string, i: nat, m: nat): Option<Marker>
    decreases |MARKERS| - m
  {
    if m >= |MARKERS| then None
    else if MarkerAt(text, i, MARKERS[m]) then Some(MARKERS[m])
    else MarkerFrom(text, i, m + 1)
  }

  /** The leftmost marker at or after `i`. */
  function FirstMarker(text: string, i: nat): (r: Option<Hit>)
    ensures r.Some? ==> i <= r.value.start && MarkerAt(text, r.value.start, r.value.marker)
    decreases |text| - i
  {
    MarkerFromFinds(text, i, 0);
    if i >= |text| then None
    else if MarkerFrom(text, i, 0).Some? then Some(Hit(i, MarkerFrom(text, i, 0).value))
    else FirstMarker(text, i + 1)
  }

  function PaddingLength(text: string): (n: nat)
    ensures n <= |text|
    ensures forall k | 0 <= k < n :: IsPadding(text[k])
    ensures n < |text| ==> !IsPadding(text[n])
  {
    if text != [] && IsPadding(text[0]) then 1 + PaddingLength(text[1..]) else 0
  }

  function TokenLength(text: string): (n: nat)
    ensures n <= |text|
    ensures forall k | 0 <= k < n :: !IsTerminator(text[k])
    ensures n < |text| ==> IsTerminator(text[n])
  {
    if text != [] && !IsTerminator(text[0]) then 1 + TokenLength(text[1..]) else 0
  }

  /** Where the credential a marker announces begins. */
  function CredentialStart(text: string, hit: Hit): (c: nat)
    requires MarkerAt(text, hit.start, hit.marker)
    ensures hit.start <= c <= |text|
  {
    var from := if hit.marker.Introduces() then hit.start + |hit.marker.Word()| else hit.start;
    from + PaddingLength(text[from..])
  }

  function CredentialEnd(text: string, hit: Hit): (e: nat)
    requires MarkerAt(text, hit.start, hit.marker)
    ensures CredentialStart(text, hit) <= e <= |text|
  {
    var c := CredentialStart(text, hit);
    c + TokenLength(text[c..])
  }

  function Redact(text: string): string
    decreases |text|
  {
    var hit := FirstMarker(text, 0);
    if hit.None? then text
    else
      ScanMovesOn(text, hit.value);
      text[..CredentialStart(text, hit.value)] + MASK + Redact(text[CredentialEnd(text, hit.value)..])
  }

  // ---------------------------------------------------------------- the scan

  lemma {:induction false} MarkerFromFinds(text: string, i: nat, m: nat)
    ensures MarkerFrom(text, i, m).Some? ==> MarkerAt(text, i, MarkerFrom(text, i, m).value)
    ensures MarkerFrom(text, i, m).None? ==> forall k | m <= k < |MARKERS| :: !MarkerAt(text, i, MARKERS[k])
    decreases |MARKERS| - m
  {
    hide MarkerAt;
    if m < |MARKERS| {
      MarkerFromFinds(text, i, m + 1);
    }
  }

  lemma AllMarkersAreListed(marker: Marker)
    ensures marker in MARKERS
  {
    assert MARKERS[0] == Bearer && MARKERS[1] == Basic && MARKERS[2] == SecretKey;
    assert MARKERS[3] == GithubToken && MARKERS[4] == SlackToken && MARKERS[5] == ApiKey;
  }

  /** No two markers stand at the same place. */
  lemma MarkersExclude(text: string, i: nat, a: Marker, b: Marker)
    requires MarkerAt(text, i, a) && MarkerAt(text, i, b)
    ensures a == b
  {
    assert a.Word()[0] == b.Word()[0] && a.Word()[1] == b.Word()[1];
  }

  /** No marker's word begins with padding, a terminator or a bracket, or holds one before its last character. */
  lemma WordsArePlain(marker: Marker, k: nat)
    requires k < |marker.Word()|
    ensures marker.Word()[k] != '[' && marker.Word()[k] != ']'
    ensures k == 0 || !marker.Introduces() ==> !IsTerminator(marker.Word()[k])
  {
  }

  lemma {:induction false} FirstMarkerIsFirst(text: string, i: nat)
    ensures var r := FirstMarker(text, i);
            && (r.Some? ==> forall k, m | i <= k < r.value.start :: !MarkerAt(text, k, m))
            && (r.None? ==> forall k, m | i <= k :: !MarkerAt(text, k, m))
    decreases |text| - i
  {
    hide StandsAt;
    if i < |text| {
      MarkerFromFinds(text, i, 0);
      FirstMarkerIsFirst(text, i + 1);
      if MarkerFrom(text, i, 0).None? {
        forall m ensures !MarkerAt(text, i, m) {
          AllMarkersAreListed(m);
        }
      }
    } else {
      forall k, m | i <= k ensures !MarkerAt(text, k, m) {
        NoMarkerPastTheEnd(text, k, m);
      }
    }
  }

  lemma NoMarkerPastTheEnd(text: string, i: nat, marker: Marker)
    requires i >= |text|
    ensures !MarkerAt(text, i, marker)
  {
  }

  /** The leftmost marker is the only one with nothing before it. */
  lemma FirstMarkerIs(text: string, i: nat, hit: Hit)
    requires i <= hit.start && MarkerAt(text, hit.start, hit.marker)
    requires forall k, m | i <= k < hit.start :: !MarkerAt(text, k, m)
    ensures FirstMarker(text, i) == Some(hit)
  {
    FirstMarkerIsFirst(text, i);
    var r := FirstMarker(text, i);
    assert r.Some?;
    assert r.value.start == hit.start;
    MarkersExclude(text, hit.start, r.value.marker, hit.marker);
  }

  /** Every mask takes the scan past the whole marker it was put for. */
  lemma ScanMovesOn(text: string, hit: Hit)
    requires MarkerAt(text, hit.start, hit.marker)
    ensures CredentialEnd(text, hit) >= hit.start + |hit.marker.Word()|
  {
    if !hit.marker.Introduces() {
      BareCredentialStartsAtMarker(text, hit);
      var c := hit.start;
      var n := |hit.marker.Word()|;
      forall k | 0 <= k < n ensures !IsTerminator(text[c..][k]) {
        WordsArePlain(hit.marker, k);
        assert Lower(text[c + k]) == hit.marker.Word()[k];
        CapitalsEndNothing(text[c + k]);
      }
      assert TokenLength(text[c..]) >= n;
    }
  }

  lemma CapitalsEndNothing(c: char)
    ensures IsTerminator(c) ==> Lower(c) == c
  {
  }

  lemma BareCredentialStartsAtMarker(text: string, hit: Hit)
    requires MarkerAt(text, hit.start, hit.marker) && !hit.marker.Introduces()
    ensures CredentialStart(text, hit) == hit.start
  {
    WordsArePlain(hit.marker, 0);
    assert Lower(text[hit.start + 0]) == hit.marker.Word()[0];
    assert text[hit.start..][0] == text[hit.start];
  }

  // ---------------------------------------------------------------- the loop

  function Max(a: nat, b: nat): nat {
    if a >= b then a else b
  }

  /** Rust's `find` from an offset. */
  method Find(text: string, from: nat, marker: Marker) returns (at: Option<nat>)
    requires from <= |text|
    ensures at.Some? ==> from <= at.value && MarkerAt(text, at.value, marker)
    ensures at.Some? ==> forall k | from <= k < at.value :: !MarkerAt(text, k, marker)
    ensures at.None? ==> forall k | from <= k :: !MarkerAt(text, k, marker)
  {
    hide StandsAt;
    var i := from;
    while i < |text|
      invariant from <= i <= |text|
      invariant forall k | from <= k < i :: !MarkerAt(text, k, marker)
    {
      if MarkerAt(text, i, marker) {
        return Some(i);
      }
      i := i + 1;
    }
    forall k | |text| <= k ensures !MarkerAt(text, k, marker) {
      NoMarkerPastTheEnd(text, k, marker);
    }
    at := None;
  }

  /** The earliest of the places the markers are found at. */
  method FindFirst(text: string, from: nat) returns (hit: Option<Hit>)
    requires from <= |text|
    ensures hit == FirstMarker(text, from)
  {
    hide StandsAt;
    hit := None;
    for m := 0 to |MARKERS|
      invariant hit.Some? ==> from <= hit.value.start && MarkerAt(text, hit.value.start, hit.value.marker)
      invariant hit.Some? ==> forall k, n | from <= k < hit.value.start && 0 <= n < m :: !MarkerAt(text, k, MARKERS[n])
      invariant hit.None? ==> forall k, n | from <= k && 0 <= n < m :: !MarkerAt(text, k, MARKERS[n])
    {
      var at := Find(text, from, MARKERS[m]);
      if at.Some? && (hit.None? || at.value < hit.value.start) {
        hit := Some(Hit(at.value, MARKERS[m]));
      }
    }
    ListedMarkersAreAll(text, from, hit);
  }

  lemma ListedMarkersAreAll(text: string, from: nat, hit: Option<Hit>)
    requires hit.Some? ==> from <= hit.value.start && MarkerAt(text, hit.value.start, hit.value.marker)
    requires hit.Some? ==>
      forall k, n | from <= k < hit.value.start && 0 <= n < |MARKERS| :: !MarkerAt(text, k, MARKERS[n])
    requires hit.None? ==> forall k, n | from <= k && 0 <= n < |MARKERS| :: !MarkerAt(text, k, MARKERS[n])
    ensures hit == FirstMarker(text, from)
  {
    hide StandsAt;
    forall k, m | from <= k && (hit.Some? ==> k < hit.value.start) ensures !MarkerAt(text, k, m) {
      AllMarkersAreListed(m);
      var n :| 0 <= n < |MARKERS| && MARKERS[n] == m;
      assert !MarkerAt(text, k, MARKERS[n]);
    }
    if hit.Some? {
      FirstMarkerIs(text, from, hit.value);
    } else {
      FirstMarkerIsFirst(text, from);
    }
  }

  method RedactSecrets(text: string) returns (result: string)
    ensures result == Redact(text)
  {
    hide MarkerAt, Marker.Word, Redact, FirstMarker, CredentialStart, CredentialEnd, StandsAt;
    result := "";
    var offset := 0;
    assert text[0..] == text;
    var hit := FindFirst(text, 0);
    while hit.Some?
      invariant offset <= |text|
      invariant hit == FirstMarker(text, offset)
      invariant result + Redact(text[offset..]) == Redact(text)
      decreases |text| - offset
    {
      var c := CredentialStart(text, hit.value);
      var end := CredentialEnd(text, hit.value);
      ScanMovesOn(text, hit.value);
      RedactFrom(text, offset);
      assert result + (text[offset..c] + MASK + Redact(text[end..])) == result + text[offset..c] + MASK + Redact(text[end..]);
      result := result + text[offset..c] + MASK;
      offset := Max(end, hit.value.start + |hit.value.marker.Word()|);
      hit := FindFirst(text, offset);
    }
    RedactFrom(text, offset);
    result := result + text[offset..];
  }

  lemma StandsAtSuffix(text: string, offset: nat, i: nat, word: string)
    requires offset <= |text|
    ensures StandsAt(text[offset..], i, word) <==> StandsAt(text, offset + i, word)
  {
    var rest := text[offset..];
    if StandsAt(rest, i, word) {
      forall k | 0 <= k < |word| ensures Lower(text[offset + i + k]) == word[k] {
        assert rest[i + k] == text[offset + i + k];
      }
    }
    if StandsAt(text, offset + i, word) {
      forall k | 0 <= k < |word| ensures Lower(rest[i + k]) == word[k] {
        assert rest[i + k] == text[offset + i + k];
      }
    }
  }

  lemma FirstMarkerShifts(text: string, offset: nat)
    requires offset <= |text|
    ensures var hit := FirstMarker(text, offset);
            FirstMarker(text[offset..], 0) ==
              if hit.None? then None else Some(Hit(hit.value.start - offset, hit.value.marker))
  {
    hide StandsAt, Marker.Word;
    var rest := text[offset..];
    var hit := FirstMarker(text, offset);
    FirstMarkerIsFirst(text, offset);
    if hit.Some? {
      var shifted := Hit(hit.value.start - offset, hit.value.marker);
      StandsAtSuffix(text, offset, shifted.start, shifted.marker.Word());
      forall k: nat, m | k < shifted.start ensures !MarkerAt(rest, k, m) {
        StandsAtSuffix(text, offset, k, m.Word());
        assert !MarkerAt(text, offset + k, m);
      }
      FirstMarkerIs(rest, 0, shifted);
    } else if FirstMarker(rest, 0).Some? {
      var found := FirstMarker(rest, 0).value;
      assert !MarkerAt(text, offset + found.start, found.marker);
      StandsAtSuffix(text, offset, found.start, found.marker.Word());
      assert false;
    }
  }

  /** The scan looks only at what is left of the text. */
  lemma RedactFrom(text: string, offset: nat)
    requires offset <= |text|
    ensures var hit := FirstMarker(text, offset);
            Redact(text[offset..]) ==
              if hit.None? then text[offset..]
              else text[offset..CredentialStart(text, hit.value)] + MASK + Redact(text[CredentialEnd(text, hit.value)..])
  {
    hide StandsAt, Marker.Word, CredentialStart, CredentialEnd, FirstMarker;
    FirstMarkerShifts(text, offset);
    var hit := FirstMarker(text, offset);
    if hit.Some? {
      ShiftedCredential(text, offset, hit.value);
    }
  }

  lemma ShiftedCredential(text: string, offset: nat, hit: Hit)
    requires offset <= hit.start && MarkerAt(text, hit.start, hit.marker)
    requires MarkerAt(text[offset..], hit.start - offset, hit.marker)
    ensures var rest := text[offset..];
            var shifted := Hit(hit.start - offset, hit.marker);
            && CredentialStart(rest, shifted) == CredentialStart(text, hit) - offset
            && CredentialEnd(rest, shifted) == CredentialEnd(text, hit) - offset
            && rest[..CredentialStart(rest, shifted)] == text[offset..CredentialStart(text, hit)]
            && rest[CredentialEnd(rest, shifted)..] == text[CredentialEnd(text, hit)..]
  {
    hide Marker.Word, PaddingLength, TokenLength;
    var rest := text[offset..];
    var from := if hit.marker.Introduces() then hit.start + |hit.marker.Word()| else hit.start;
    assert rest[from - offset..] == text[from..];
    var c := CredentialStart(text, hit);
    assert rest[c - offset..] == text[c..];
  }
}
