// lesson_sanitizer.py: neutralize_markup, sanitize, enforce_limit and the input cap.

/** Text that is safe to put inside a prompt's wrapper, and stays as it is when sanitized again. */
module Sanitizer {
  import opened Wrappers

  /** Unicode tables and the injection patterns, which the proofs need little of. */
  datatype Tables = Tables(invisible: char -> bool, isSpace: char -> bool, injects: string -> bool)

  /** No invisible character is ASCII. */
  ghost predicate Sound(t: Tables) {
    forall c :: t.invisible(c) ==> c >= 128 as char
  }

  predicate IsAscii(s: string) {
    forall i :: 0 <= i < |s| ==> s[i] < 128 as char
  }

  // -------------------------------------------------------------------------
  // The four passes
  // -------------------------------------------------------------------------

  const ESC := 27 as char

  /** [0-9;?] */
  predicate IsParameter(c: char) {
    '0' <= c <= '9' || c == ';' || c == '?'
  }

  /** [ -/] */
  predicate IsIntermediate(c: char) {
    ' ' <= c <= '/'
  }

  /** [@-~] */
  predicate IsFinal(c: char) {
    '@' <= c <= '~'
  }

  /** The three classes, spelled out. */
  lemma ClassesAre(c: char)
    ensures IsParameter(c) <==> c in "0123456789;?"
    ensures IsIntermediate(c) <==> c in " !\"#$%&'()*+,-./"
    ensures IsFinal(c) <==> 64 <= c as int <= 126
  {
  }

  /** The length of the longest prefix of the class. */
  function Run(s: string, member: char -> bool): (n: nat)
    ensures n <= |s|
  {
    if s == "" || !member(s[0]) then 0 else Run(s[1..], member) + 1
  }

  /** The length of the CSI sequence the text begins with, 0 if it begins with none. */
  function CsiLength(s: string): (n: nat)
    ensures n <= |s|
  {
    if |s| < 2 || s[0] != ESC || s[1] != '[' then 0
    else
      var parameters := Run(s[2..], IsParameter);
      var intermediates := Run(s[2 + parameters..], IsIntermediate);
      var last := 2 + parameters + intermediates;
      if last < |s| && IsFinal(s[last]) then last + 1 else 0
  }

  /** _ANSI_ESCAPE.sub("", text) */
  function StripAnsi(s: string): string
    decreases |s|
  {
    if s == "" then ""
    else if CsiLength(s) > 0 then StripAnsi(s[CsiLength(s)..])
    else [s[0]] + StripAnsi(s[1..])
  }

  function Without(s: string, drop: char -> bool): string {
    if s == "" then "" else (if drop(s[0]) then "" else [s[0]]) + Without(s[1..], drop)
  }

  /** _strip_invisible */
  function StripInvisible(t: Tables, s: string): string {
    if IsAscii(s) then s else Without(s, t.invisible)
  }

  /** _CONTROL_CHARS: C0 and C1 but tab, newline and carriage return. */
  predicate IsControl(c: char) {
    (c < 32 as char && c != '\t' && c != '\n' && c != '\r') || 127 as char <= c <= 159 as char
  }

  predicate IsLess(c: char) {
    c == '<' || c == '\U{FF1C}' || c == '\U{FE64}' || c == '\U{226E}'
  }

  predicate IsGreater(c: char) {
    c == '>' || c == '\U{FF1E}' || c == '\U{FE65}' || c == '\U{226F}'
  }

  function Escape(c: char): string {
    if IsLess(c) then "&lt;" else if IsGreater(c) then "&gt;" else [c]
  }

  /** text.translate(_ANGLE_BRACKET_ESCAPES) */
  function EscapeAngles(s: string): string {
    if s == "" then "" else Escape(s[0]) + EscapeAngles(s[1..])
  }

  function Neutralize(t: Tables, s: string): string {
    if s == "" then ""
    else EscapeAngles(Without(StripInvisible(t, StripAnsi(s)), IsControl))
  }

  // -------------------------------------------------------------------------
  // What its output holds, and what it leaves alone
  // -------------------------------------------------------------------------

  /** No control, invisible or angle-like character. */
  predicate Clean(t: Tables, c: char) {
    !IsControl(c) && !t.invisible(c) && !IsLess(c) && !IsGreater(c)
  }

  ghost predicate AllClean(t: Tables, s: string) {
    forall i :: 0 <= i < |s| ==> Clean(t, s[i])
  }

  lemma {:induction false} WithoutDrops(s: string, drop: char -> bool)
    ensures forall i :: 0 <= i < |Without(s, drop)| ==> !drop(Without(s, drop)[i]) && Without(s, drop)[i] in s
  {
    if s != "" {
      WithoutDrops(s[1..], drop);
    }
  }

  lemma {:induction false} WithoutKeeps(s: string, drop: char -> bool)
    requires forall i :: 0 <= i < |s| ==> !drop(s[i])
    ensures Without(s, drop) == s
  {
    if s != "" {
      WithoutKeeps(s[1..], drop);
    }
  }

  lemma {:induction false} NoEscNoChange(s: string)
    requires ESC !in s
    ensures StripAnsi(s) == s
  {
    if s != "" {
      NoEscNoChange(s[1..]);
    }
  }

  lemma InvisibleIsGone(t: Tables, s: string)
    requires Sound(t)
    ensures forall i :: 0 <= i < |StripInvisible(t, s)| ==> !t.invisible(StripInvisible(t, s)[i])
  {
    WithoutDrops(s, t.invisible);
  }

  lemma {:induction false} AnglesAreGone(t: Tables, s: string)
    requires Sound(t) && forall i :: 0 <= i < |s| ==> !IsControl(s[i]) && !t.invisible(s[i])
    ensures AllClean(t, EscapeAngles(s))
  {
    if s != "" {
      AnglesAreGone(t, s[1..]);
      var e := Escape(s[0]);
      assert AllClean(t, e);
    }
  }

  lemma {:induction false} NoAngleNoChange(s: string)
    requires forall i :: 0 <= i < |s| ==> !IsLess(s[i]) && !IsGreater(s[i])
    ensures EscapeAngles(s) == s
  {
    if s != "" {
      NoAngleNoChange(s[1..]);
    }
  }

  /** Whatever the input, the output is clean, also when removing one escape sequence puts
      the parts of another together. */
  lemma NeutralizedIsClean(t: Tables, s: string)
    requires Sound(t)
    ensures AllClean(t, Neutralize(t, s))
  {
    var visible := StripInvisible(t, StripAnsi(s));
    InvisibleIsGone(t, StripAnsi(s));
    WithoutDrops(visible, IsControl);
    AnglesAreGone(t, Without(visible, IsControl));
  }

  /** Exactly the clean texts are left as they are. */
  lemma FixedPointIffClean(t: Tables, s: string)
    requires Sound(t)
    ensures Neutralize(t, s) == s <==> AllClean(t, s)
  {
    NeutralizedIsClean(t, s);
    if AllClean(t, s) {
      assert ESC !in s by {
        assert IsControl(ESC);
      }
      NoEscNoChange(s);
      WithoutKeeps(s, t.invisible);
      WithoutKeeps(s, IsControl);
      NoAngleNoChange(s);
    }
  }

  lemma NeutralizeIsIdempotent(t: Tables, s: string)
    requires Sound(t)
    ensures Neutralize(t, Neutralize(t, s)) == Neutralize(t, s)
  {
    NeutralizedIsClean(t, s);
    FixedPointIffClean(t, Neutralize(t, s));
  }

  lemma InnerSequenceGoes()
    ensures StripAnsi([ESC, ESC, '[', 'm', '[', 'm']) == [ESC, '[', 'm']
  {
    var s := [ESC, ESC, '[', 'm', '[', 'm'];
    var inner, rest := [ESC, '[', 'm', '[', 'm'], ['[', 'm'];
    assert s[1..] == inner && inner[3..] == rest;
    CsiOfM(inner);
    NoEscNoChange(rest);
    assert StripAnsi(inner) == rest;
  }

  lemma BrokenSequence(t: Tables)
    ensures Without(StripInvisible(t, [ESC, '[', 'm']), IsControl) == ['[', 'm']
  {
    var s, rest := [ESC, '[', 'm'], ['[', 'm'];
    assert IsAscii(s);
    WithoutKeeps(rest, IsControl);
    assert s[1..] == rest;
  }

  /** Removing a sequence can expose another, which the pass over control characters then breaks. */
  lemma RemovalExposesASequence(t: Tables)
    ensures var s := [ESC, ESC, '[', 'm', '[', 'm'];
            CsiLength(StripAnsi(s)) == 3 && Neutralize(t, s) == ['[', 'm']
  {
    InnerSequenceGoes();
    CsiOfM([ESC, '[', 'm']);
    BrokenSequence(t);
    NoAngleNoChange(['[', 'm']);
  }

  lemma CsiOfM(s: string)
    requires |s| >= 3 && s[0] == ESC && s[1] == '[' && s[2] == 'm'
    ensures CsiLength(s) == 3
  {
    assert s[2..][0] == 'm';
    assert Run(s[2..], IsParameter) == 0 && Run(s[2..], IsIntermediate) == 0;
  }

  // -------------------------------------------------------------------------
  // What is kept
  // -------------------------------------------------------------------------

  /** A sequence that is complete is one wherever text follows it. */
  lemma {:induction false} RunStops(s: string, rest: string, member: char -> bool)
    requires Run(s, member) < |s|
    ensures Run(s + rest, member) == Run(s, member)
    decreases |s|
  {
    if member(s[0]) {
      assert (s + rest)[1..] == s[1..] + rest;
      RunStops(s[1..], rest, member);
    }
  }

  lemma CsiWithRest(s: string, rest: string)
    requires CsiLength(s) == |s| > 0
    ensures CsiLength(s + rest) == |s|
  {
    var parameters := Run(s[2..], IsParameter);
    var tail := s[2 + parameters..];
    var intermediates := Run(tail, IsIntermediate);
    assert (s + rest)[2..] == s[2..] + rest && (s + rest)[2 + parameters..] == tail + rest;
    RunStops(s[2..], rest, IsParameter);
    RunStops(tail, rest, IsIntermediate);
  }

  /** Of plain text, an escape sequence and more text, the sequence goes and the rest stays. */
  lemma {:induction false} SequencesGo(before: string, sequence: string, after: string)
    requires ESC !in before && CsiLength(sequence) == |sequence| > 0
    ensures StripAnsi(before + (sequence + after)) == before + StripAnsi(after)
    decreases |before|
  {
    if before == "" {
      CsiWithRest(sequence, after);
      assert before + (sequence + after) == sequence + after;
      assert (sequence + after)[|sequence|..] == after;
      assert before + StripAnsi(after) == StripAnsi(after);
    } else {
      var all := before + (sequence + after);
      assert before[0] in before && all[1..] == before[1..] + (sequence + after);
      SequencesGo(before[1..], sequence, after);
      assert before == [before[0]] + before[1..];
    }
  }

  /** Every angle-like character as the ASCII one it stands for. */
  function FoldAngles(s: string): string {
    if s == "" then "" else [if IsLess(s[0]) then '<' else if IsGreater(s[0]) then '>' else s[0]] + FoldAngles(s[1..])
  }

  /** Reading &lt; and &gt; back. */
  function Unescape(s: string): string
    decreases |s|
  {
    if s == "" then ""
    else if |s| >= 4 && s[..4] == "&lt;" then "<" + Unescape(s[4..])
    else if |s| >= 4 && s[..4] == "&gt;" then ">" + Unescape(s[4..])
    else [s[0]] + Unescape(s[1..])
  }

  predicate StartsWithEntity(s: string) {
    |s| >= 4 && (s[..4] == "&lt;" || s[..4] == "&gt;")
  }

  /** The text spells &lt; or &gt; itself. */
  predicate HasEntity(s: string) {
    s != "" && (StartsWithEntity(s) || HasEntity(s[1..]))
  }

  /** Escaped text begins with a word only if the text does. */
  lemma {:induction false} EscapedBegins(s: string, word: string)
    requires '&' !in word && word <= EscapeAngles(s)
    ensures word <= s
    decreases |word|
  {
    if word != "" {
      assert word[0] in word && word[0] != '&';
      assert s[0] == word[0] && EscapeAngles(s) == [s[0]] + EscapeAngles(s[1..]);
      assert word[1..] <= EscapeAngles(s[1..]) by {
        assert EscapeAngles(s)[1..] == EscapeAngles(s[1..]);
      }
      forall c | c in word[1..] ensures c in word {
      }
      EscapedBegins(s[1..], word[1..]);
    }
  }

  /** An ordinary character followed by escaped text is an entity only if it was one. */
  lemma EntityWasThere(s: string)
    requires s != "" && !IsLess(s[0]) && !IsGreater(s[0]) && StartsWithEntity([s[0]] + EscapeAngles(s[1..]))
    ensures StartsWithEntity(s)
  {
    var escaped := [s[0]] + EscapeAngles(s[1..]);
    var word := escaped[1..4];
    assert escaped[..4] == [escaped[0]] + word && word == EscapeAngles(s[1..])[..3];
    assert word == "lt;" || word == "gt;";
    EscapedBegins(s[1..], word);
    assert s[..4] == [s[0]] + s[1..][..3];
  }

  lemma UnescapedLess(rest: string)
    ensures Unescape("&lt;" + rest) == "<" + Unescape(rest)
  {
    assert ("&lt;" + rest)[..4] == "&lt;" && ("&lt;" + rest)[4..] == rest;
  }

  lemma UnescapedGreater(rest: string)
    ensures Unescape("&gt;" + rest) == ">" + Unescape(rest)
  {
    assert ("&gt;" + rest)[..4] == "&gt;" && ("&gt;" + rest)[4..] == rest;
    assert "&gt;"[1] != "&lt;"[1];
  }

  lemma {:induction false} WithoutEntities(s: string)
    requires !HasEntity(s)
    ensures Unescape(EscapeAngles(s)) == FoldAngles(s)
    decreases |s|
  {
    if s != "" {
      var rest := EscapeAngles(s[1..]);
      WithoutEntities(s[1..]);
      if IsLess(s[0]) {
        UnescapedLess(rest);
      } else if IsGreater(s[0]) {
        UnescapedGreater(rest);
      } else {
        if StartsWithEntity([s[0]] + rest) {
          EntityWasThere(s);
        }
      }
    }
  }

  lemma EscapedEntity(s: string)
    requires StartsWithEntity(s)
    ensures EscapeAngles(s) == s[..4] + EscapeAngles(s[4..])
  {
    assert s[0] == '&' && s[3] == ';' && s[2] == 't' && (s[1] == 'l' || s[1] == 'g');
    assert s == s[..4] + s[4..];
    PlainPrefix(s[..4], s[4..]);
  }

  lemma {:induction false} PlainPrefix(a: string, b: string)
    requires forall i :: 0 <= i < |a| ==> !IsLess(a[i]) && !IsGreater(a[i])
    ensures EscapeAngles(a + b) == a + EscapeAngles(b)
    decreases |a|
  {
    if a == "" {
      assert a + b == b;
    } else {
      assert (a + b)[1..] == a[1..] + b;
      PlainPrefix(a[1..], b);
    }
  }

  /** Every entity the text spells itself makes what is read back shorter. */
  lemma {:induction false} ReadBackLength(s: string)
    ensures |Unescape(EscapeAngles(s))| <= |s|
    ensures HasEntity(s) ==> |Unescape(EscapeAngles(s))| < |s|
    decreases |s|
  {
    if StartsWithEntity(s) {
      ReadBackLength(s[4..]);
      EscapedEntity(s);
      if s[..4] == "&lt;" {
        UnescapedLess(EscapeAngles(s[4..]));
      } else {
        UnescapedGreater(EscapeAngles(s[4..]));
      }
    } else if s != "" {
      var rest := EscapeAngles(s[1..]);
      ReadBackLength(s[1..]);
      if IsLess(s[0]) {
        UnescapedLess(rest);
      } else if IsGreater(s[0]) {
        UnescapedGreater(rest);
      } else {
        if StartsWithEntity([s[0]] + rest) {
          EntityWasThere(s);
        }
      }
    }
  }

  lemma {:induction false} FoldingKeepsLength(s: string)
    ensures |FoldAngles(s)| == |s|
  {
    if s != "" {
      FoldingKeepsLength(s[1..]);
    }
  }

  /** Escaping loses nothing but which angle-like character it was, exactly for the texts
      that do not spell &lt; or &gt; themselves. */
  lemma EscapingIsReversibleIff(s: string)
    ensures Unescape(EscapeAngles(s)) == FoldAngles(s) <==> !HasEntity(s)
  {
    if HasEntity(s) {
      ReadBackLength(s);
      FoldingKeepsLength(s);
    } else {
      WithoutEntities(s);
    }
  }

  // -------------------------------------------------------------------------
  // The input cap
  // -------------------------------------------------------------------------

  const MAX_INPUT := 64000
  const MARKER_RESERVE := 64
  const KEEP := MAX_INPUT - MARKER_RESERVE

  function Digits(n: nat): string {
    if n < 10 then ['0' + n as char] else Digits(n / 10) + ['0' + (n % 10) as char]
  }

  function Pow10(n: nat): nat {
    if n == 0 then 1 else 10 * Pow10(n - 1)
  }

  lemma {:induction false} DigitsLength(n: nat, k: nat)
    requires k >= 1
    ensures |Digits(n)| <= k <==> n < Pow10(k)
    decreases n
  {
    if n >= 10 {
      if k == 1 {
        assert |Digits(n)| >= 2;
        assert Pow10(1) == 10 * Pow10(0);
      } else {
        DigitsLength(n / 10, k - 1);
      }
    } else {
      Pow10AtLeast(k);
    }
  }

  lemma {:induction false} Pow10AtLeast(k: nat)
    requires k >= 1
    ensures Pow10(k) >= 10
  {
    if k > 1 {
      Pow10AtLeast(k - 1);
    }
  }

  /** What stands for the n characters that were dropped. */
  function Marker(n: nat): (m: string)
    ensures |m| == 43 + |Digits(n)|
  {
    assert |"\n[... "| == 6 && |" chars truncated before sanitization]"| == 37;
    "\n[... " + Digits(n) + " chars truncated before sanitization]"
  }

  /** _cap_input */
  function CapInput(s: string): string {
    if |s| <= MAX_INPUT then s else s[..KEEP] + Marker(|s| - KEEP)
  }

  /** The capped text exceeds the cap only when 10^21 characters or more were dropped: the
      marker needs 43 characters and a number, and 64 are reserved for it. */
  lemma CapHoldsIff(s: string)
    ensures |CapInput(s)| <= MAX_INPUT <==> |s| <= MAX_INPUT || |s| - KEEP < Pow10(21)
    ensures |s| > MAX_INPUT ==> s[..KEEP] <= CapInput(s)
  {
    if |s| > MAX_INPUT {
      DigitsLength(|s| - KEEP, 21);
    }
  }

  // -------------------------------------------------------------------------
  // sanitize and enforce_limit
  // -------------------------------------------------------------------------

  function StripLeft(s: string, drop: char -> bool): string {
    if s == "" || !drop(s[0]) then s else StripLeft(s[1..], drop)
  }

  function StripRight(s: string, drop: char -> bool): string {
    if s == "" || !drop(s[|s| - 1]) then s else StripRight(s[..|s| - 1], drop)
  }

  function Sanitize(t: Tables, s: string): string {
    if s == "" then ""
    else
      var capped := CapInput(s);
      if t.injects(capped) then "" else StripRight(StripLeft(Neutralize(t, capped), t.isSpace), t.isSpace)
  }

  lemma {:induction false} StripLeftIsSuffix(s: string, drop: char -> bool)
    ensures |StripLeft(s, drop)| <= |s| && StripLeft(s, drop) == s[|s| - |StripLeft(s, drop)|..]
  {
    if s != "" && drop(s[0]) {
      StripLeftIsSuffix(s[1..], drop);
    }
  }

  lemma {:induction false} StripRightIsPrefix(s: string, drop: char -> bool)
    ensures StripRight(s, drop) <= s
  {
    if s != "" && drop(s[|s| - 1]) {
      StripRightIsPrefix(s[..|s| - 1], drop);
    }
  }

  /** Sanitized text is clean, so sanitizing it again for a prompt escapes nothing twice. */
  lemma SanitizedIsAFixedPoint(t: Tables, s: string)
    requires Sound(t)
    ensures AllClean(t, Sanitize(t, s))
    ensures Neutralize(t, Sanitize(t, s)) == Sanitize(t, s)
  {
    var whole := Neutralize(t, CapInput(s));
    NeutralizedIsClean(t, CapInput(s));
    StripLeftIsSuffix(whole, t.isSpace);
    StripRightIsPrefix(StripLeft(whole, t.isSpace), t.isSpace);
    FixedPointIffClean(t, Sanitize(t, s));
  }

  predicate AllDropped(s: string, drop: char -> bool) {
    forall i :: 0 <= i < |s| ==> drop(s[i])
  }

  /** No space at either end. */
  predicate Unpadded(s: string, drop: char -> bool) {
    s == "" || (!drop(s[0]) && !drop(s[|s| - 1]))
  }

  lemma {:induction false} StripLeftIs(s: string, drop: char -> bool)
    ensures StripLeft(s, drop) == "" <==> AllDropped(s, drop)
    ensures StripLeft(s, drop) != "" ==> !drop(StripLeft(s, drop)[0])
    decreases |s|
  {
    if s != "" && drop(s[0]) {
      StripLeftIs(s[1..], drop);
      assert AllDropped(s[1..], drop) <==> AllDropped(s, drop) by {
        assert forall i :: 0 < i < |s| ==> s[1..][i - 1] == s[i];
      }
    }
  }

  lemma {:induction false} StripRightIs(s: string, drop: char -> bool)
    ensures StripRight(s, drop) == "" <==> AllDropped(s, drop)
    ensures StripRight(s, drop) != "" ==> !drop(StripRight(s, drop)[|StripRight(s, drop)| - 1])
    decreases |s|
  {
    if s != "" && drop(s[|s| - 1]) {
      StripRightIs(s[..|s| - 1], drop);
    }
  }

  lemma StrippedIs(s: string, drop: char -> bool)
    ensures var r := StripRight(StripLeft(s, drop), drop);
            Unpadded(r, drop) && |r| <= |s| && (r == "" <==> AllDropped(s, drop))
  {
    var left := StripLeft(s, drop);
    StripLeftIs(s, drop);
    StripRightIs(left, drop);
    StripLeftIsSuffix(s, drop);
    StripRightIsPrefix(left, drop);
  }

  /** The result is empty exactly when the text is, when it looks like an injection, or when
      nothing but space is left of it. */
  lemma SanitizedIsEmptyIff(t: Tables, s: string)
    ensures Sanitize(t, s) == "" <==>
              s == "" || t.injects(CapInput(s)) || AllDropped(Neutralize(t, CapInput(s)), t.isSpace)
  {
    StrippedIs(Neutralize(t, CapInput(s)), t.isSpace);
  }

  lemma {:induction false} DigitsAre(n: nat)
    ensures |Digits(n)| <= 1 + n / 10 && forall i :: 0 <= i < |Digits(n)| ==> '0' <= Digits(n)[i] <= '9'
    decreases n
  {
    if n >= 10 {
      DigitsAre(n / 10);
    }
  }

  lemma CleanConcat(t: Tables, a: string, b: string)
    requires AllClean(t, a) && AllClean(t, b)
    ensures AllClean(t, a + b)
  {
  }

  lemma MarkerIsClean(t: Tables, n: nat)
    requires Sound(t)
    ensures AllClean(t, Marker(n))
  {
    DigitsAre(n);
    var head, tail := "\n[... ", " chars truncated before sanitization]";
    forall c | c in head + tail ensures Clean(t, c) {
      assert c == '\n' || ' ' <= c <= ';' || '[' <= c <= 'z';
    }
    forall i | 0 <= i < |head| ensures Clean(t, head[i]) {
      assert head[i] in head;
    }
    forall i | 0 <= i < |tail| ensures Clean(t, tail[i]) {
      assert tail[i] in tail;
    }
    CleanConcat(t, head, Digits(n));
    CleanConcat(t, head + Digits(n), tail);
  }

  lemma CappedIsShorter(s: string)
    requires |s| > MAX_INPUT
    ensures |CapInput(s)| < |s|
  {
    DigitsAre(|s| - KEEP);
  }

  lemma CappedIsClean(t: Tables, s: string)
    requires Sound(t) && AllClean(t, s) && |s| > MAX_INPUT
    ensures AllClean(t, CapInput(s))
  {
    MarkerIsClean(t, |s| - KEEP);
    CleanConcat(t, s[..KEEP], Marker(|s| - KEEP));
  }

  /** A clean text over the cap is shortened. */
  lemma LongTextIsShortened(t: Tables, s: string)
    requires Sound(t) && AllClean(t, s) && |s| > MAX_INPUT
    ensures |Sanitize(t, s)| < |s|
  {
    var capped := CapInput(s);
    CappedIsShorter(s);
    CappedIsClean(t, s);
    FixedPointIffClean(t, capped);
    StrippedIs(capped, t.isSpace);
  }

  /** Exactly clean text within the cap, without space around it and without an injection,
      comes back whole. */
  lemma SanitizedIsUnchangedIff(t: Tables, s: string)
    requires Sound(t)
    ensures Sanitize(t, s) == s <==>
              s == "" || (AllClean(t, s) && |s| <= MAX_INPUT && Unpadded(s, t.isSpace) && !t.injects(s))
  {
    if Sanitize(t, s) == s && s != "" {
      SanitizedIsAFixedPoint(t, s);
      StrippedIs(Neutralize(t, CapInput(s)), t.isSpace);
      if |s| > MAX_INPUT {
        LongTextIsShortened(t, s);
      }
    } else {
      FixedPointIffClean(t, s);
    }
  }

  /** text[:k], for which a negative k counts from the end. */
  function Prefix(s: string, k: int): string {
    if k >= 0 then s[..if k < |s| then k else |s|] else s[..if |s| + k > 0 then |s| + k else 0]
  }

  /** enforce_limit; 0 stands for None too. */
  function EnforceLimit(s: string, limit: int): string {
    if s == "" || limit == 0 then s
    else if |s| > limit then Prefix(s, limit - 3) + "..."
    else s
  }

  /** A cap keeps clean text clean, whatever the cap is. */
  lemma LimitKeepsTheFixedPoint(t: Tables, s: string, limit: int)
    requires Sound(t) && Neutralize(t, s) == s
    ensures Neutralize(t, EnforceLimit(s, limit)) == EnforceLimit(s, limit)
  {
    FixedPointIffClean(t, s);
    FixedPointIffClean(t, EnforceLimit(s, limit));
  }

  /** The result is within a cap exactly when the cap leaves room for the three dots or the
      text needs no cutting; then it is the text, or its longest prefix that fits, and the dots. */
  lemma LimitHoldsIff(s: string, limit: int)
    requires s != "" && limit != 0
    ensures |EnforceLimit(s, limit)| <= limit <==> limit >= 3 || |s| <= limit
    ensures limit >= 3 && |s| > limit ==> EnforceLimit(s, limit) == s[..limit - 3] + "..." && |EnforceLimit(s, limit)| == limit
    ensures limit < 3 && |s| > limit ==>
              exists n: nat :: n <= |s| && EnforceLimit(s, limit) == s[..n] + "..." && (n == |s| + limit - 3 || (n == 0 && |s| + limit - 3 < 0))
    ensures |s| <= limit ==> EnforceLimit(s, limit) == s
    ensures EnforceLimit(s, 0) == s && EnforceLimit("", limit) == ""
  {
  }
}
