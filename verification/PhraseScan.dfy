// lesson_sanitizer.py: _ImperativePhrase.search and the tails _RuleHeaderPhrase judges.

/** The scan for a phrase that opens an instruction, over any text, phrase pattern and judge. */
module PhraseScan {
  import opened Wrappers

  /** For a fixed text: where the match that starts at a position ends, if one does. */
  type Phrase = nat -> Option<nat>

  /** Matches are not empty and stay inside the text of length n. */
  ghost predicate Fits(n: nat, phrase: Phrase) {
    forall i: nat :: phrase(i).Some? ==> i < phrase(i).value <= n
  }

  /** re.search from a position: the leftmost start at or after it. */
  function Next(n: nat, phrase: Phrase, position: nat): (r: Option<nat>)
    ensures r.Some? ==> position <= r.value < n && phrase(r.value).Some?
    ensures forall i: nat :: position <= i < (if r.Some? then r.value else n) ==> phrase(i).None?
    decreases n - position
  {
    if position >= n then None
    else if phrase(position).Some? then Some(position)
    else Next(n, phrase, position + 1)
  }

  /** Phrase starts from left to right, none twice. */
  ghost predicate Starts(n: nat, phrase: Phrase, judged: seq<nat>) {
    && (forall i :: 0 <= i < |judged| ==> judged[i] < n && phrase(judged[i]).Some?)
    && (forall i, j :: 0 <= i < j < |judged| ==> judged[i] < judged[j])
  }

  lemma OneMoreStart(n: nat, phrase: Phrase, judged: seq<nat>, start: nat)
    requires Starts(n, phrase, judged) && start < n && phrase(start).Some?
    requires forall i :: 0 <= i < |judged| ==> judged[i] < start
    ensures Starts(n, phrase, judged + [start])
    ensures forall i :: i in judged + [start] <==> i in judged || i == start
  {
  }

  /** search: the leftmost phrase start in instruction position, None exactly when there is
      none. Each start up to it was judged exactly once, whatever the judge says. */
  method Search(n: nat, phrase: Phrase, opens: nat -> bool) returns (found: Option<nat>, ghost judged: seq<nat>)
    requires Fits(n, phrase)
    ensures found.Some? ==> found.value < n && phrase(found.value).Some? && opens(found.value)
    ensures forall i: nat :: i < n && phrase(i).Some? && (found.Some? ==> i < found.value) ==> !opens(i)
    ensures found.None? <==> forall i: nat :: i < n && phrase(i).Some? ==> !opens(i)
    ensures Starts(n, phrase, judged)
    ensures forall i: nat :: i < n && phrase(i).Some? && (found.Some? ==> i <= found.value) ==> i in judged
    ensures found.Some? ==> judged != [] && judged[|judged| - 1] == found.value
  {
    var position := 0;
    judged := [];
    while true
      invariant position <= n && Starts(n, phrase, judged)
      invariant forall i :: 0 <= i < |judged| ==> judged[i] < position
      invariant forall i: nat :: i < position && phrase(i).Some? ==> !opens(i) && i in judged
      decreases n - position
    {
      var start := Next(n, phrase, position);
      if start.None? {
        return None, judged;
      }
      OneMoreStart(n, phrase, judged, start.value);
      assert forall i: nat :: i < start.value && phrase(i).Some? ==> i < position;
      judged := judged + [start.value];
      if opens(start.value) {
        return start, judged;
      }
      position := start.value + 1;
    }
  }

  // -------------------------------------------------------------------------
  // Rule headers
  // -------------------------------------------------------------------------

  datatype Verdict = Header | AuthorityReport | OtherReport

  /** The text after the match at i, up to the next match after it. */
  function TailEnd(n: nat, phrase: Phrase, i: nat): nat
    requires phrase(i).Some?
  {
    var following := Next(n, phrase, phrase(i).value);
    if following.Some? then following.value else n
  }

  function TailLength(n: nat, phrase: Phrase, i: nat): nat
    requires phrase(i).Some?
  {
    if TailEnd(n, phrase, i) <= phrase(i).value then 0 else TailEnd(n, phrase, i) - phrase(i).value
  }

  /** _RuleHeaderPhrase._opens_instruction, over judges of a lead and of a tail. */
  function HeaderOpens(text: string, phrase: Phrase, lead: nat -> Verdict, authority: string -> bool, order: string -> bool, i: nat): bool
    requires phrase(i).Some? && phrase(i).value <= |text|
  {
    var end := TailEnd(|text|, phrase, i);
    var tail := if phrase(i).value <= end then text[phrase(i).value..end] else "";
    match lead(i)
    case Header => true
    case AuthorityReport => authority(tail)
    case OtherReport => order(tail)
  }

  /** between is the text from one match to the start of the next, or to the end of the text. */
  ghost predicate IsBetween(text: string, phrase: Phrase, i: nat, between: string)
    requires phrase(i).Some?
  {
    exists end: nat :: phrase(i).value <= end <= |text| && between == text[phrase(i).value..end]
      && (end < |text| ==> phrase(end).Some?)
      && forall j: nat :: phrase(i).value <= j < end ==> phrase(j).None?
  }

  lemma TailIsBetween(text: string, phrase: Phrase, i: nat, between: string)
    requires Fits(|text|, phrase) && phrase(i).Some?
    ensures phrase(i).value <= TailEnd(|text|, phrase, i) <= |text|
    ensures IsBetween(text, phrase, i, between) <==> between == text[phrase(i).value..TailEnd(|text|, phrase, i)]
  {
    var end := TailEnd(|text|, phrase, i);
    assert phrase(i).value <= end <= |text| && (end < |text| ==> phrase(end).Some?);
  }

  /** Whether a match is a header: always with an unreported lead; after a report of an
      authority, and after any other report, as the judge of each says of the text up to
      the next match. */
  lemma HeaderOpensIff(text: string, phrase: Phrase, lead: nat -> Verdict, authority: string -> bool, order: string -> bool, i: nat)
    requires Fits(|text|, phrase) && phrase(i).Some?
    ensures HeaderOpens(text, phrase, lead, authority, order, i) <==>
              || lead(i) == Header
              || (exists between :: IsBetween(text, phrase, i, between)
                    && ((lead(i) == AuthorityReport && authority(between)) || (lead(i) == OtherReport && order(between))))
  {
    var tail := text[phrase(i).value..TailEnd(|text|, phrase, i)];
    forall between ensures IsBetween(text, phrase, i, between) <==> between == tail {
      TailIsBetween(text, phrase, i, between);
    }
  }

  /** No match starts inside another one. */
  ghost predicate NeverNested(phrase: Phrase) {
    forall i: nat, j: nat :: phrase(i).Some? && i < j < phrase(i).value ==> phrase(j).None?
  }

  /** The tails of two matches have no position in common. */
  lemma TailsAreDisjoint(n: nat, phrase: Phrase, i: nat, j: nat)
    requires Fits(n, phrase) && NeverNested(phrase) && i < j && phrase(i).Some? && phrase(j).Some?
    ensures TailEnd(n, phrase, i) <= j < phrase(j).value
  {
    assert phrase(i).value <= j;
    assert j < n;
  }

  function Work(n: nat, phrase: Phrase, judged: seq<nat>): nat
    requires forall i :: 0 <= i < |judged| ==> phrase(judged[i]).Some?
  {
    if judged == [] then 0
    else TailLength(n, phrase, judged[0]) + Work(n, phrase, judged[1..])
  }

  lemma {:induction false} WorkFrom(n: nat, phrase: Phrase, judged: seq<nat>, from: nat)
    requires Fits(n, phrase) && NeverNested(phrase) && Starts(n, phrase, judged)
    requires from <= n && forall i :: 0 <= i < |judged| ==> from <= judged[i]
    ensures Work(n, phrase, judged) + |judged| <= n - from
    decreases |judged|
  {
    if judged != [] {
      var first, rest := judged[0], judged[1..];
      var end := TailEnd(n, phrase, first);
      assert end <= n && phrase(first).value <= end;
      forall i | 0 <= i < |rest| ensures end <= rest[i] {
        assert rest[i] == judged[i + 1];
        TailsAreDisjoint(n, phrase, first, rest[i]);
      }
      WorkFrom(n, phrase, rest, end);
    }
  }

  /** The tails read for all the matches of one search together are shorter than the text. */
  lemma TailsAreLinear(n: nat, phrase: Phrase, judged: seq<nat>)
    requires Fits(n, phrase) && NeverNested(phrase) && Starts(n, phrase, judged)
    ensures Work(n, phrase, judged) + |judged| <= n
  {
    WorkFrom(n, phrase, judged, 0);
  }

  /** A phrase that can start inside its own match reads text again: three nested starts
      of a six-letter text have tails of nine letters. */
  lemma NestedTailsOverlap()
    ensures var phrase: Phrase := i => if i <= 2 then Some(3) else None;
            Fits(6, phrase) && Starts(6, phrase, [0, 1, 2]) && Work(6, phrase, [0, 1, 2]) == 9
  {
    var phrase: Phrase := i => if i <= 2 then Some(3) else None;
    assert Next(6, phrase, 3) == None;
    assert [0, 1, 2][1..] == [1, 2] && [1, 2][1..] == [2] && [2][1..] == [];
    assert forall i: nat :: i <= 2 ==> TailLength(6, phrase, i) == 3;
    assert Work(6, phrase, [2]) == 3;
  }

  /** _RuleHeaderPhrase.search: the leftmost header, each match judged once, and, if no phrase
      starts inside its own match, less text read after the matches than there is. */
  method SearchHeaders(text: string, phrase: Phrase, lead: nat -> Verdict, authority: string -> bool, order: string -> bool)
    returns (found: Option<nat>, ghost judged: seq<nat>)
    requires Fits(|text|, phrase)
    ensures found.Some? ==>
              found.value < |text| && phrase(found.value).Some? && HeaderOpens(text, phrase, lead, authority, order, found.value)
    ensures forall i: nat :: i < |text| && phrase(i).Some? && (found.Some? ==> i < found.value) ==>
              !HeaderOpens(text, phrase, lead, authority, order, i)
    ensures Starts(|text|, phrase, judged)
    ensures NeverNested(phrase) ==> Work(|text|, phrase, judged) + |judged| <= |text|
  {
    var opens := (i: nat) => phrase(i).Some? && phrase(i).value <= |text| && HeaderOpens(text, phrase, lead, authority, order, i);
    found, judged := Search(|text|, phrase, opens);
    if NeverNested(phrase) {
      TailsAreLinear(|text|, phrase, judged);
    }
  }
}
