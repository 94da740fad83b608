/** Masking a text hides every announced credential, keeps everything else, and is done after one pass. */
module RedactionSafety {
  import opened Wrappers
  import opened Text
  import opened Redaction

  // ---------------------------------------------------------------- no marker touches a mask

  lemma NoMarkerOverBracket(text: string, i: nat, p: nat, marker: Marker)
    requires i <= p < |text| && p < i + |marker.Word()|
    requires text[p] == '[' || text[p] == ']'
    ensures !MarkerAt(text, i, marker)
  {
    WordsArePlain(marker, p - i);
    if MarkerAt(text, i, marker) {
      assert false;
    }
  }

  /** Inside the mask only an "a" could begin a marker, and that marker would run over the closing bracket. */
  lemma NoMarkerInMask(text: string, c: nat, i: nat, marker: Marker)
    requires c + |MASK| <= |text| && text[c..c + |MASK|] == MASK
    requires c <= i < c + |MASK|
    ensures !MarkerAt(text, i, marker)
  {
    var k := i - c;
    assert text[i] == text[c..c + |MASK|][k] && text[c + 9] == text[c..c + |MASK|][9] && MASK[9] == ']';
    if i + |marker.Word()| > c + 9 {
      NoMarkerOverBracket(text, i, c + 9, marker);
    } else if MarkerAt(text, i, marker) {
      assert Lower(MASK[k]) == marker.Word()[0] by { assert Lower(text[i + 0]) == marker.Word()[0]; }
      MaskLettersBeginNothing(k, marker);
      assert false;
    }
  }

  lemma MaskLettersBeginNothing(k: nat, marker: Marker)
    requires k + |marker.Word()| <= 9
    ensures Lower(MASK[k]) != marker.Word()[0]
  {
  }

  lemma MarkerInPrefix(text: string, more: string, i: nat, marker: Marker)
    requires i + |marker.Word()| <= |text|
    ensures MarkerAt(text + more, i, marker) <==> MarkerAt(text, i, marker)
  {
    assert forall j | i <= j < i + |marker.Word()| :: (text + more)[j] == text[j];
  }

  /** With the first mask in place, no marker stands before the one it was put for. */
  lemma NoMarkerBefore(text: string, c: nat, more: string, i: nat, marker: Marker)
    requires c <= |text| && i < c && !MarkerAt(text, i, marker)
    ensures !MarkerAt(text[..c] + MASK + more, i, marker)
  {
    var masked := text[..c] + MASK + more;
    if i + |marker.Word()| <= c {
      assert text == text[..c] + text[c..];
      MarkerInPrefix(text[..c], text[c..], i, marker);
      assert masked == text[..c] + (MASK + more);
      MarkerInPrefix(text[..c], MASK + more, i, marker);
    } else {
      assert masked[c] == '[';
      NoMarkerOverBracket(masked, i, c, marker);
    }
  }

  lemma NoMarkerAmidMask(text: string, c: nat, more: string, i: nat, marker: Marker)
    requires c <= |text| && c <= i < c + |MASK|
    ensures !MarkerAt(text[..c] + MASK + more, i, marker)
  {
    var masked := text[..c] + MASK + more;
    assert masked[c..c + |MASK|] == MASK;
    NoMarkerInMask(masked, c, i, marker);
  }

  // ---------------------------------------------------------------- what follows a credential

  lemma TerminatorBeginsNoMarker(text: string, i: nat, marker: Marker)
    requires i < |text| && IsTerminator(text[i])
    ensures !MarkerAt(text, i, marker)
  {
    WordsArePlain(marker, 0);
    CapitalsEndNothing(text[i]);
    if MarkerAt(text, i, marker) {
      assert false;
    }
  }

  lemma TerminatorStays(text: string)
    requires text == [] || IsTerminator(text[0])
    ensures Redact(text) == [] || IsTerminator(Redact(text)[0])
  {
    if text == [] {
      assert FirstMarker(text, 0).None?;
    } else {
      var hit := FirstMarker(text, 0);
      if hit.Some? {
        if hit.value.start == 0 {
          TerminatorBeginsNoMarker(text, 0, hit.value.marker);
          assert false;
        }
        assert Redact(text)[0] == text[0];
      }
    }
  }

  /** A text no marker begins in is passed over. */
  lemma PlainPrefixIsKept(plain: string, rest: string)
    requires forall i, m | 0 <= i < |plain| :: !MarkerAt(plain + rest, i, m)
    ensures Redact(plain + rest) == plain + Redact(rest)
  {
    hide MarkerAt, FirstMarker, CredentialStart, CredentialEnd, Redact;
    var text := plain + rest;
    var n := |plain|;
    FirstMarkerIsFirst(text, n);
    FirstMarkerIsFirst(text, 0);
    var hit := FirstMarker(text, n);
    if hit.Some? {
      FirstMarkerIs(text, 0, hit.value);
    } else if FirstMarker(text, 0).Some? {
      assert false;
    }
    RedactFrom(text, n);
    RedactFrom(text, 0);
    assert text[n..] == rest && text[0..] == text;
    if hit.Some? {
      var c := CredentialStart(text, hit.value);
      assert text[..c] == plain + text[n..c] && text[0..c] == text[..c];
    }
  }

  // ---------------------------------------------------------------- redacting again

  lemma PaddingIs(text: string, n: nat)
    requires n < |text| && !IsPadding(text[n]) && forall k | 0 <= k < n :: IsPadding(text[k])
    ensures PaddingLength(text) == n
  {
  }

  lemma TokenIs(text: string, n: nat)
    requires n <= |text| && (n < |text| ==> IsTerminator(text[n])) && forall k | 0 <= k < n :: !IsTerminator(text[k])
    ensures TokenLength(text) == n
  {
  }

  lemma MaskIsAToken(k: nat)
    requires k < |MASK|
    ensures !IsTerminator(MASK[k])
  {
  }

  lemma PaddingBeforeMask(text: string, from: nat, more: string)
    requires from <= |text|
    ensures var c := from + PaddingLength(text[from..]);
            PaddingLength((text[..c] + MASK + more)[from..]) == c - from
  {
    var n := PaddingLength(text[from..]);
    var c := from + n;
    var padding, tail := text[from..c], (text[..c] + MASK + more)[from..];
    assert tail == padding + (MASK + more);
    MaskIsAToken(0);
    TerminatorsIncludePadding(MASK[0]);
    assert tail[n] == MASK[0];
    hide IsPadding, PaddingLength;
    forall k | 0 <= k < n ensures IsPadding(tail[k]) {
      assert tail[k] == padding[k] == text[from..][k];
    }
    PaddingIs(tail, n);
  }

  lemma MaskBeforeMore(more: string)
    requires more == [] || IsTerminator(more[0])
    ensures TokenLength(MASK + more) == |MASK|
  {
    hide IsTerminator, TokenLength;
    forall k | 0 <= k < |MASK| ensures !IsTerminator((MASK + more)[k]) {
      MaskIsAToken(k);
    }
    TokenIs(MASK + more, |MASK|);
  }

  /** What the scan finds where it has already put a mask. */
  lemma MaskIsFoundAgain(text: string, hit: Hit, more: string)
    requires MarkerAt(text, hit.start, hit.marker) && hit.marker.Introduces()
    requires more == [] || IsTerminator(more[0])
    ensures var c := CredentialStart(text, hit);
            var masked := text[..c] + MASK + more;
            && MarkerAt(masked, hit.start, hit.marker)
            && CredentialStart(masked, hit) == c
            && CredentialEnd(masked, hit) == c + |MASK|
  {
    var c := CredentialStart(text, hit);
    var masked := text[..c] + MASK + more;
    MarkerSurvives(text, hit, c, more);
    hide MarkerAt, Marker.Word, IsPadding, IsTerminator, PaddingLength, TokenLength;
    PaddingBeforeMask(text, hit.start + |hit.marker.Word()|, more);
    assert masked[c..] == MASK + more;
    MaskBeforeMore(more);
  }

  lemma TerminatorsIncludePadding(c: char)
    ensures IsPadding(c) ==> IsTerminator(c)
  {
  }

  lemma MarkerSurvives(text: string, hit: Hit, c: nat, more: string)
    requires MarkerAt(text, hit.start, hit.marker)
    requires hit.start + |hit.marker.Word()| <= c <= |text|
    ensures MarkerAt(text[..c] + MASK + more, hit.start, hit.marker)
  {
    assert text == text[..c] + text[c..];
    MarkerInPrefix(text[..c], text[c..], hit.start, hit.marker);
    assert text[..c] + MASK + more == text[..c] + (MASK + more);
    MarkerInPrefix(text[..c], MASK + more, hit.start, hit.marker);
  }

  lemma RedactUnfolds(text: string, hit: Hit)
    requires FirstMarker(text, 0) == Some(hit)
    ensures Redact(text) == text[..CredentialStart(text, hit)] + MASK + Redact(text[CredentialEnd(text, hit)..])
  {
    hide MarkerAt, CredentialStart, CredentialEnd, Marker.Word, FirstMarker;
  }

  lemma MaskedIntroduction(text: string, hit: Hit, more: string)
    requires FirstMarker(text, 0) == Some(hit) && hit.marker.Introduces()
    requires more == [] || IsTerminator(more[0])
    ensures var c := CredentialStart(text, hit);
            Redact(text[..c] + MASK + more) == text[..c] + MASK + Redact(more)
  {
    var c := CredentialStart(text, hit);
    var masked := text[..c] + MASK + more;
    MaskIsFoundAgain(text, hit, more);
    hide MarkerAt, CredentialStart, CredentialEnd, Marker.Word, FirstMarker, Redact;
    MarkerIsFirstAgain(text, hit, c, more);
    RedactUnfolds(masked, hit);
    MaskSlices(text[..c], more);
  }

  lemma MarkerIsFirstAgain(text: string, hit: Hit, c: nat, more: string)
    requires FirstMarker(text, 0) == Some(hit) && hit.start <= c <= |text|
    requires MarkerAt(text[..c] + MASK + more, hit.start, hit.marker)
    ensures FirstMarker(text[..c] + MASK + more, 0) == Some(hit)
  {
    hide MarkerAt, FirstMarker;
    FirstMarkerIsFirst(text, 0);
    forall i: nat, m | i < hit.start ensures !MarkerAt(text[..c] + MASK + more, i, m) {
      NoMarkerBefore(text, c, more, i, m);
    }
    FirstMarkerIs(text[..c] + MASK + more, 0, hit);
  }

  lemma MaskSlices(head: string, more: string)
    ensures (head + MASK + more)[..|head|] == head
    ensures (head + MASK + more)[|head| + |MASK|..] == more
  {
  }

  lemma MaskedBareCredential(text: string, hit: Hit, more: string)
    requires FirstMarker(text, 0) == Some(hit) && !hit.marker.Introduces()
    ensures Redact(text[..hit.start] + MASK + more) == text[..hit.start] + MASK + Redact(more)
  {
    FirstMarkerIsFirst(text, 0);
    assert hit.start <= |text|;
    hide MarkerAt, Marker.Word, FirstMarker, Redact;
    var plain := text[..hit.start] + MASK;
    forall i, m | 0 <= i < |plain| ensures !MarkerAt(plain + more, i, m) {
      if i < hit.start {
        NoMarkerBefore(text, hit.start, more, i, m);
      } else {
        NoMarkerAmidMask(text, hit.start, more, i, m);
      }
    }
    PlainPrefixIsKept(plain, more);
  }

  /** Redacting a redacted text changes nothing. */
  lemma {:induction false} RedactingAgainChangesNothing(text: string)
    ensures Redact(Redact(text)) == Redact(text)
    decreases |text|
  {
    hide MarkerAt, Marker.Word;
    var hit := FirstMarker(text, 0);
    if hit.Some? {
      ScanMovesOn(text, hit.value);
      var rest := text[CredentialEnd(text, hit.value)..];
      RedactingAgainChangesNothing(rest);
      TerminatorStays(rest);
      if hit.value.marker.Introduces() {
        MaskedIntroduction(text, hit.value, Redact(rest));
      } else {
        BareCredentialStartsAtMarker(text, hit.value);
        MaskedBareCredential(text, hit.value, Redact(rest));
      }
    }
  }

  // ---------------------------------------------------------------- no credential survives

  /** Behind the marker's word stand spaces and quotes at most, and then a mask. */
  ghost predicate IsMasked(text: string, i: nat, marker: Marker)
    requires MarkerAt(text, i, marker)
  {
    marker.Introduces() && MaskStandsBehind(text, i + |marker.Word()|)
  }

  ghost predicate MaskStandsBehind(text: string, from: nat) {
    exists c: nat :: MaskStandsAt(text, from, c)
  }

  predicate MaskStandsAt(text: string, from: nat, c: nat) {
    from <= c && c + |MASK| <= |text| && text[c..c + |MASK|] == MASK && AllPadding(text, from, c)
  }

  predicate AllPadding(text: string, from: nat, to: nat)
    requires to <= |text|
  {
    forall k | from <= k < to :: IsWhitespace(text[k]) || text[k] == '\"' || text[k] == '\''
  }

  predicate HasMask(text: string, hit: Hit)
    requires MarkerAt(text, hit.start, hit.marker)
  {
    var c := CredentialStart(text, hit);
    hit.marker.Introduces() && c + |MASK| <= |text| && text[c..c + |MASK|] == MASK
  }

  /** No marker begins inside the words "bearer ", "basic " and "api_key=". */
  lemma WordsDoNotOverlap(marker: Marker, j: nat, other: Marker)
    requires marker.Introduces() && 0 < j < |marker.Word()|
    ensures other.Word()[0] != marker.Word()[j]
         || (j + 1 < |marker.Word()| && other.Word()[1] != marker.Word()[j + 1])
  {
  }

  lemma NothingBeginsInside(text: string, hit: Hit, i: nat, marker: Marker)
    requires MarkerAt(text, hit.start, hit.marker) && hit.marker.Introduces()
    requires hit.start < i < CredentialStart(text, hit)
    ensures !MarkerAt(text, i, marker)
  {
    hide Marker.Word, MarkerAt, PaddingLength;
    var from := hit.start + |hit.marker.Word()|;
    if i >= from {
      assert text[i] == text[from..][i - from];
      TerminatorsIncludePadding(text[i]);
      TerminatorBeginsNoMarker(text, i, marker);
    } else if MarkerAt(text, i, marker) {
      LettersAgree(text, hit, i - hit.start, marker);
      WordsDoNotOverlap(hit.marker, i - hit.start, marker);
      assert false;
    }
  }

  /** Two markers that overlap spell the same letters where they do. */
  lemma LettersAgree(text: string, hit: Hit, j: nat, marker: Marker)
    requires MarkerAt(text, hit.start, hit.marker) && MarkerAt(text, hit.start + j, marker)
    requires j < |hit.marker.Word()|
    ensures marker.Word()[0] == hit.marker.Word()[j]
    ensures j + 1 < |hit.marker.Word()| ==> marker.Word()[1] == hit.marker.Word()[j + 1]
  {
    hide Marker.Word;
    WordIsNotEmpty(marker);
    assert Lower(text[hit.start + j]) == hit.marker.Word()[j];
    assert Lower(text[hit.start + j + 0]) == marker.Word()[0];
    assert Lower(text[hit.start + j + 1]) == marker.Word()[1];
    if j + 1 < |hit.marker.Word()| {
      assert Lower(text[hit.start + (j + 1)]) == hit.marker.Word()[j + 1];
    }
  }

  /** Nothing in front of the first mask announces a credential but the marker it was put for. */
  lemma HeadHasMask(text: string, hit: Hit, more: string, i: nat, marker: Marker)
    requires FirstMarker(text, 0) == Some(hit)
    requires more == [] || IsTerminator(more[0])
    requires i < CredentialStart(text, hit) + |MASK|
    requires MarkerAt(text[..CredentialStart(text, hit)] + MASK + more, i, marker)
    ensures HasMask(text[..CredentialStart(text, hit)] + MASK + more, Hit(i, marker))
  {
    hide MarkerAt, Marker.Word, CredentialStart, CredentialEnd, FirstMarker;
    var c := CredentialStart(text, hit);
    var masked := text[..c] + MASK + more;
    FirstMarkerIsFirst(text, 0);
    if i < hit.start {
      NoMarkerBefore(text, c, more, i, marker);
    }
    if i >= c {
      NoMarkerAmidMask(text, c, more, i, marker);
    }
    if !hit.marker.Introduces() {
      BareCredentialStartsAtMarker(text, hit);
      assert false;
    }
    MaskIsFoundAgain(text, hit, more);
    if i > hit.start {
      NothingBeginsInside(masked, hit, i, marker);
      assert false;
    }
    MarkersExclude(masked, i, marker, hit.marker);
    assert masked[c..c + |MASK|] == MASK;
  }

  lemma TailHasMask(head: string, tail: string, i: nat, marker: Marker)
    requires |head| <= i && MarkerAt(tail, i - |head|, marker) && HasMask(tail, Hit(i - |head|, marker))
    ensures MarkerAt(head + tail, i, marker) && HasMask(head + tail, Hit(i, marker))
  {
    hide StandsAt, Marker.Word, CredentialStart, CredentialEnd;
    var text := head + tail;
    assert text[|head|..] == tail;
    StandsAtSuffix(text, |head|, i - |head|, marker.Word());
    ShiftedCredential(text, |head|, Hit(i, marker));
    var c := CredentialStart(tail, Hit(i - |head|, marker));
    assert text[|head| + c..|head| + c + |MASK|] == tail[c..c + |MASK|];
  }

  lemma {:induction false} EveryMarkerHasMask(text: string, i: nat, marker: Marker)
    requires MarkerAt(Redact(text), i, marker)
    ensures HasMask(Redact(text), Hit(i, marker))
    decreases |text|
  {
    var hit := FirstMarker(text, 0);
    if hit.None? {
      FirstMarkerIsFirst(text, 0);
      assert false;
    } else {
      hide MarkerAt, Marker.Word, CredentialEnd, CredentialStart;
      ScanMovesOn(text, hit.value);
      var c := CredentialStart(text, hit.value);
      var rest := text[CredentialEnd(text, hit.value)..];
      var head := text[..c] + MASK;
      CredentialEndsAtTerminator(text, hit.value);
      TerminatorStays(rest);
      if i < |head| {
        HeadHasMask(text, hit.value, Redact(rest), i, marker);
      } else {
        MarkerInTail(head, Redact(rest), i, marker);
        EveryMarkerHasMask(rest, i - |head|, marker);
        TailHasMask(head, Redact(rest), i, marker);
      }
    }
  }

  lemma PaddingReaches(text: string, from: nat)
    requires from <= |text|
    ensures var c := from + PaddingLength(text[from..]);
            AllPadding(text, from, c) && (c < |text| ==> !IsPadding(text[c]))
  {
    hide IsWhitespace;
    var rest := text[from..];
    var n := PaddingLength(rest);
    hide PaddingLength;
    forall k | from <= k < from + n ensures IsWhitespace(text[k]) || text[k] == '\"' || text[k] == '\'' {
      assert text[k] == rest[k - from] && IsPadding(rest[k - from]);
    }
    if from + n < |text| {
      assert text[from + n] == rest[n];
    }
  }

  lemma CredentialStandsBehindPadding(text: string, hit: Hit)
    requires MarkerAt(text, hit.start, hit.marker)
    ensures var c := CredentialStart(text, hit);
            && (c < |text| ==> !IsPadding(text[c]))
            && (if hit.marker.Introduces() then
                  hit.start + |hit.marker.Word()| <= c && AllPadding(text, hit.start + |hit.marker.Word()|, c)
                else c == hit.start)
  {
    if !hit.marker.Introduces() {
      BareCredentialStartsAtMarker(text, hit);
    }
    hide Marker.Word, IsPadding, AllPadding, PaddingLength;
    PaddingReaches(text, if hit.marker.Introduces() then hit.start + |hit.marker.Word()| else hit.start);
  }

  /**
   * Every marker left in a redacted text is followed by a mask, and none of the markers that are themselves the
   * start of a credential is left at all.
   */
  lemma EveryMarkerIsMasked(text: string, i: nat, marker: Marker)
    requires MarkerAt(Redact(text), i, marker)
    ensures IsMasked(Redact(text), i, marker)
  {
    EveryMarkerHasMask(text, i, marker);
    CredentialStandsBehindPadding(Redact(text), Hit(i, marker));
    hide MarkerAt, Marker.Word, Redact, AllPadding, CredentialStart, IsPadding;
    var c := CredentialStart(Redact(text), Hit(i, marker));
    assert MaskStandsAt(Redact(text), i + |marker.Word()|, c);
  }

  lemma CredentialEndsAtTerminator(text: string, hit: Hit)
    requires MarkerAt(text, hit.start, hit.marker)
    ensures var rest := text[CredentialEnd(text, hit)..]; rest == [] || IsTerminator(rest[0])
  {
  }

  lemma MarkerInTail(head: string, tail: string, i: nat, marker: Marker)
    requires |head| <= i && MarkerAt(head + tail, i, marker)
    ensures MarkerAt(tail, i - |head|, marker)
  {
    assert (head + tail)[|head|..] == tail;
    StandsAtSuffix(head + tail, |head|, i - |head|, marker.Word());
  }

  // ---------------------------------------------------------------- nothing else is touched

  /** A marker announces what comes behind its word, spaces and quotes skipped, or is the start of a credential itself. */
  predicate Announces(text: string, i: nat, marker: Marker, c: nat) {
    && MarkerAt(text, i, marker) && c <= |text|
    && (if marker.Introduces() then
          i + |marker.Word()| <= c && AllPadding(text, i + |marker.Word()|, c) && (c < |text| ==> !IsPadding(text[c]))
        else c == i)
  }

  ghost predicate Announced(text: string, c: nat) {
    exists i: nat, marker: Marker :: Announces(text, i, marker, c)
  }

  predicate EndsToken(c: char) {
    IsWhitespace(c) || c in "\"',;&<>"
  }

  predicate IsToken(text: string, c: nat, e: nat)
    requires c <= e <= |text|
  {
    && (forall k | c <= k < e :: !EndsToken(text[k]))
    && (e < |text| ==> EndsToken(text[e]))
  }

  lemma TokensEndAtTerminators(c: char)
    ensures EndsToken(c) <==> IsTerminator(c)
  {
    var ends := "\"',;&<>";
    assert ends[0] == '\"' && ends[1] == '\'' && ends[2] == ',' && ends[3] == ';' && ends[4] == '&' && ends[5] == '<'
      && ends[6] == '>';
  }

  /** The second text is the first one with some announced tokens masked, and every other character in its place. */
  ghost predicate MasksTokens(text: string, masked: string)
    decreases |text|
  {
    || masked == text
    || exists c: nat, e: nat | c <= e <= |text| && 0 < e ::
         && Announced(text, c)
         && IsToken(text, c, e)
         && |masked| >= c + |MASK|
         && masked[..c] == text[..c]
         && masked[c..c + |MASK|] == MASK
         && MasksTokens(text[e..], masked[c + |MASK|..])
  }

  lemma WordIsNotEmpty(marker: Marker)
    ensures |marker.Word()| >= 3
  {
  }

  lemma CredentialIsToken(text: string, hit: Hit)
    requires MarkerAt(text, hit.start, hit.marker)
    ensures IsToken(text, CredentialStart(text, hit), CredentialEnd(text, hit))
  {
    hide MarkerAt, Marker.Word, IsTerminator, CredentialStart, EndsToken;
    var c := CredentialStart(text, hit);
    assert forall k | c <= k < |text| :: text[k] == text[c..][k - c];
    forall x: char ensures EndsToken(x) <==> IsTerminator(x) {
      TokensEndAtTerminators(x);
    }
  }

  lemma {:induction false} OnlyAnnouncedTokensAreMasked(text: string)
    ensures MasksTokens(text, Redact(text))
    decreases |text|
  {
    hide MarkerAt, Marker.Word, IsTerminator, CredentialStart, CredentialEnd, IsToken, FirstMarker;
    var hit := FirstMarker(text, 0);
    if hit.Some? {
      ScanMovesOn(text, hit.value);
      WordIsNotEmpty(hit.value.marker);
      var c := CredentialStart(text, hit.value);
      var e := CredentialEnd(text, hit.value);
      OnlyAnnouncedTokensAreMasked(text[e..]);
      var masked := Redact(text);
      CredentialStandsBehindPadding(text, hit.value);
      assert Announces(text, hit.value.start, hit.value.marker, c);
      CredentialIsToken(text, hit.value);
      assert masked[..c] == text[..c] && masked[c..c + |MASK|] == MASK;
      assert masked[c + |MASK|..] == Redact(text[e..]);
    }
  }
}
