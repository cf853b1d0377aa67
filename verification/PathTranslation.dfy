// equipa/config.py: path_translations, their merge from the host config and the
// translation of one path.

/** Which prefixes are usable, which one wins, and what a per-run file may add. */
module PathTranslation {
  import opened Json
  import opened Text
  import opened Wrappers

  /** A usable entry: its source prefix and its target. */
  datatype Pair = Pair(source: string, target: string)

  predicate IsSeparator(c: char) {
    c == '/' || c == '\\'
  }

  predicate HasParentSegment(path: string) {
    ".." in Split(Slashes(path), '/')
  }

  /** Path(target).is_absolute() on a POSIX host. */
  predicate IsAbsolute(path: string) {
    StartsWith(path, "/")
  }

  predicate HasString(entry: Json, key: string) {
    entry.JObj? && key in entry.fields && entry.fields[key].JStr?
  }

  /** _valid_path_translation */
  function ValidTranslation(u: Unicode, entry: Json): Option<Pair> {
    if !HasString(entry, "from") || !HasString(entry, "to") then None
    else
      var source := RStrip(Strip(entry.fields["from"].s, u.isSpace), IsSeparator);
      var target := Strip(entry.fields["to"].s, u.isSpace);
      if source == "" || !IsAbsolute(target) then None
      else if HasParentSegment(source) || HasParentSegment(target) then None
      else Some(Pair(source, target))
  }

  function Usable(u: Unicode, entries: seq<Json>): seq<Pair> {
    if entries == [] then []
    else
      var first := ValidTranslation(u, entries[0]);
      (if first.Some? then [first.value] else []) + Usable(u, entries[1..])
  }

  /** Before every pair that is not longer: what sorted(key=len, reverse=True) does. */
  function Insert(p: Pair, sorted: seq<Pair>): seq<Pair> {
    if sorted == [] || |sorted[0].source| <= |p.source| then [p] + sorted
    else [sorted[0]] + Insert(p, sorted[1..])
  }

  function LongestFirst(pairs: seq<Pair>): seq<Pair> {
    if pairs == [] then [] else Insert(pairs[0], LongestFirst(pairs[1..]))
  }

  /** configured_path_translations, given the value under path_translations. */
  function Configured(u: Unicode, raw: Option<Json>): seq<Pair> {
    if raw.Some? && raw.value.JArr? then LongestFirst(Usable(u, raw.value.items)) else []
  }

  /** p is the prefix itself or lies under it, segment by segment. */
  predicate Matches(p: Pair, path: string) {
    var prefix, normalized := Slashes(p.source), Slashes(path);
    StartsWith(normalized, prefix) && (|normalized| == |prefix| || normalized[|prefix|] == '/')
  }

  function FirstMatch(pairs: seq<Pair>, path: string): Option<Pair> {
    if pairs == [] then None
    else if Matches(pairs[0], path) then Some(pairs[0])
    else FirstMatch(pairs[1..], path)
  }

  function Mapped(p: Pair, path: string): string
    requires Matches(p, path)
  {
    var result := RStrip(p.target, IsSeparator) + Slashes(path)[|p.source|..];
    if result == "" then "/" else result
  }

  /** translate_local_path */
  function Translate(u: Unicode, raw: Option<Json>, path: string): string {
    var hit := FirstMatch(Configured(u, raw), path);
    if hit.Some? then FirstMatchMatches(Configured(u, raw), path); Mapped(hit.value, path) else path
  }

  lemma {:induction false} FirstMatchMatches(pairs: seq<Pair>, path: string)
    ensures FirstMatch(pairs, path).Some? ==> Matches(FirstMatch(pairs, path).value, path)
  {
    if pairs != [] {
      FirstMatchMatches(pairs[1..], path);
    }
  }

  // -------------------------------------------------------------------------
  // The winner, without any sorting
  // -------------------------------------------------------------------------

  /** The longest match, the earliest of equally long ones. */
  function Best(pairs: seq<Pair>, path: string): Option<Pair> {
    if pairs == [] then None
    else
      var rest := Best(pairs[1..], path);
      if Matches(pairs[0], path) && (rest.None? || |rest.value.source| <= |pairs[0].source|) then Some(pairs[0]) else rest
  }

  /** pairs[i] matches, no match is longer, and no earlier one is as long. */
  ghost predicate WinsAt(pairs: seq<Pair>, path: string, i: nat) {
    && i < |pairs| && Matches(pairs[i], path)
    && (forall j :: 0 <= j < |pairs| && Matches(pairs[j], path) ==> |pairs[j].source| <= |pairs[i].source|)
    && (forall j :: 0 <= j < i && Matches(pairs[j], path) ==> |pairs[j].source| < |pairs[i].source|)
  }

  lemma WinsAtHead(pairs: seq<Pair>, path: string, i: nat)
    requires pairs != [] && Matches(pairs[0], path) && WinsAt(pairs[1..], path, i)
    requires |pairs[1..][i].source| <= |pairs[0].source|
    ensures WinsAt(pairs, path, 0)
  {
    assert forall j :: 0 < j < |pairs| ==> pairs[j] == pairs[1..][j - 1];
  }

  lemma {:induction false} NoBestIffNoMatch(pairs: seq<Pair>, path: string)
    ensures Best(pairs, path).None? <==> forall i :: 0 <= i < |pairs| ==> !Matches(pairs[i], path)
    decreases |pairs|
  {
    if pairs != [] {
      NoBestIffNoMatch(pairs[1..], path);
      assert forall j :: 0 < j < |pairs| ==> pairs[j] == pairs[1..][j - 1];
    }
  }

  lemma WinsAlone(pairs: seq<Pair>, path: string)
    requires pairs != [] && Matches(pairs[0], path) && forall i :: 0 <= i < |pairs[1..]| ==> !Matches(pairs[1..][i], path)
    ensures WinsAt(pairs, path, 0)
  {
    assert forall j :: 0 < j < |pairs| ==> pairs[j] == pairs[1..][j - 1];
  }

  lemma {:induction false} WinnerOf(pairs: seq<Pair>, path: string) returns (i: nat)
    requires Best(pairs, path).Some?
    ensures WinsAt(pairs, path, i) && pairs[i] == Best(pairs, path).value
    decreases |pairs|
  {
    var t := pairs[1..];
    if Best(t, path).None? {
      NoBestIffNoMatch(t, path);
      WinsAlone(pairs, path);
      i := 0;
    } else {
      var k := WinnerOf(t, path);
      if Matches(pairs[0], path) && |t[k].source| <= |pairs[0].source| {
        WinsAtHead(pairs, path, k);
        i := 0;
      } else {
        i := k + 1;
      }
    }
  }

  /** Best is what its name says: it is none exactly when nothing matches. */
  lemma BestIsLongestAndEarliest(pairs: seq<Pair>, path: string)
    ensures Best(pairs, path).None? <==> forall i :: 0 <= i < |pairs| ==> !Matches(pairs[i], path)
    ensures Best(pairs, path).Some? ==>
              exists i: nat :: i < |pairs| && pairs[i] == Best(pairs, path).value && WinsAt(pairs, path, i)
  {
    NoBestIffNoMatch(pairs, path);
    if Best(pairs, path).Some? {
      var i := WinnerOf(pairs, path);
    }
  }

  ghost predicate Descending(pairs: seq<Pair>) {
    forall i, j :: 0 <= i < j < |pairs| ==> |pairs[j].source| <= |pairs[i].source|
  }

  lemma {:induction false} InsertPermutes(p: Pair, sorted: seq<Pair>)
    ensures multiset(Insert(p, sorted)) == multiset(sorted) + multiset{p}
    decreases |sorted|
  {
    if sorted != [] && |sorted[0].source| > |p.source| {
      InsertPermutes(p, sorted[1..]);
      assert sorted == [sorted[0]] + sorted[1..];
    }
  }

  lemma {:induction false} InsertBounded(p: Pair, sorted: seq<Pair>, bound: nat)
    requires |p.source| <= bound && forall i :: 0 <= i < |sorted| ==> |sorted[i].source| <= bound
    ensures forall i :: 0 <= i < |Insert(p, sorted)| ==> |Insert(p, sorted)[i].source| <= bound
    decreases |sorted|
  {
    if sorted != [] && |sorted[0].source| > |p.source| {
      InsertBounded(p, sorted[1..], bound);
    }
  }

  lemma {:induction false} InsertDescending(p: Pair, sorted: seq<Pair>)
    requires Descending(sorted)
    ensures Descending(Insert(p, sorted))
    decreases |sorted|
  {
    if sorted != [] && |sorted[0].source| > |p.source| {
      InsertDescending(p, sorted[1..]);
      InsertBounded(p, sorted[1..], |sorted[0].source|);
    }
  }

  /** The sort is a permutation into descending length; stability is what the next lemma adds. */
  lemma {:induction false} LongestFirstSorts(pairs: seq<Pair>)
    ensures Descending(LongestFirst(pairs)) && multiset(LongestFirst(pairs)) == multiset(pairs)
    decreases |pairs|
  {
    if pairs != [] {
      LongestFirstSorts(pairs[1..]);
      InsertDescending(pairs[0], LongestFirst(pairs[1..]));
      InsertPermutes(pairs[0], LongestFirst(pairs[1..]));
      assert pairs == [pairs[0]] + pairs[1..];
    }
  }

  lemma {:induction false} InsertFirstMatch(p: Pair, sorted: seq<Pair>, path: string)
    requires Descending(sorted)
    ensures FirstMatch(Insert(p, sorted), path) ==
            var rest := FirstMatch(sorted, path);
            if Matches(p, path) && (rest.None? || |rest.value.source| <= |p.source|) then Some(p) else rest
    decreases |sorted|
  {
    if sorted != [] {
      var t := sorted[1..];
      if |sorted[0].source| <= |p.source| {
        assert ([p] + sorted)[1..] == sorted;
        FirstMatchIsShorter(sorted, path, |sorted[0].source|);
      } else {
        assert Descending(t);
        InsertFirstMatch(p, t, path);
        assert ([sorted[0]] + Insert(p, t))[1..] == Insert(p, t);
      }
    }
  }

  lemma {:induction false} FirstMatchIsShorter(sorted: seq<Pair>, path: string, bound: nat)
    requires forall i :: 0 <= i < |sorted| ==> |sorted[i].source| <= bound
    ensures FirstMatch(sorted, path).Some? ==> |FirstMatch(sorted, path).value.source| <= bound
    decreases |sorted|
  {
    if sorted != [] {
      FirstMatchIsShorter(sorted[1..], path, bound);
    }
  }

  /** Sorting and taking the first match is taking the longest, earliest one. */
  lemma {:induction false} SortedFirstIsBest(pairs: seq<Pair>, path: string)
    ensures FirstMatch(LongestFirst(pairs), path) == Best(pairs, path)
    decreases |pairs|
  {
    if pairs != [] {
      SortedFirstIsBest(pairs[1..], path);
      LongestFirstSorts(pairs[1..]);
      InsertFirstMatch(pairs[0], LongestFirst(pairs[1..]), path);
    }
  }

  lemma {:induction false} BestConcat(a: seq<Pair>, b: seq<Pair>, path: string)
    ensures Best(a + b, path) ==
            var x, y := Best(a, path), Best(b, path);
            if x.None? then y else if y.None? || |y.value.source| <= |x.value.source| then x else y
    decreases |a|
  {
    if a == [] {
      assert a + b == b;
    } else {
      assert (a + b)[1..] == a[1..] + b;
      BestConcat(a[1..], b, path);
    }
  }

  lemma {:induction false} UsableConcat(u: Unicode, a: seq<Json>, b: seq<Json>)
    ensures Usable(u, a + b) == Usable(u, a) + Usable(u, b)
    decreases |a|
  {
    if a == [] {
      assert a + b == b;
    } else {
      assert (a + b)[1..] == a[1..] + b;
      UsableConcat(u, a[1..], b);
    }
  }

  lemma {:induction false} UsableComesFrom(u: Unicode, entries: seq<Json>, p: Pair)
    requires p in Usable(u, entries)
    ensures exists i :: 0 <= i < |entries| && ValidTranslation(u, entries[i]) == Some(p)
    decreases |entries|
  {
    if ValidTranslation(u, entries[0]) == Some(p) {
    } else {
      UsableComesFrom(u, entries[1..], p);
      var i :| 0 <= i < |entries[1..]| && ValidTranslation(u, entries[1..][i]) == Some(p);
      assert entries[i + 1] == entries[1..][i];
    }
  }

  // -------------------------------------------------------------------------
  // What a translation is, character by character
  // -------------------------------------------------------------------------

  predicate Alike(a: char, b: char) {
    a == b || (IsSeparator(a) && IsSeparator(b))
  }

  /** path is source, followed by nothing or by a separator and anything. */
  ghost predicate Above(source: string, path: string) {
    && |source| <= |path| && (forall i :: 0 <= i < |source| ==> Alike(path[i], source[i]))
    && (|path| == |source| || IsSeparator(path[|source|]))
  }

  /** bare is target without the separators at its end. */
  ghost predicate IsBare(bare: string, target: string) {
    && bare <= target && (forall i :: |bare| <= i < |target| ==> IsSeparator(target[i]))
    && (bare == "" || !IsSeparator(bare[|bare| - 1]))
  }

  /** t is bare and what path has from n on, with its separators unified; the root if that
      is empty. */
  ghost predicate Moved(t: string, bare: string, path: string, n: nat)
    requires n <= |path|
  {
    if bare == "" && n == |path| then t == "/"
    else
      && |t| == |bare| + |path| - n && t[..|bare|] == bare
      && forall i :: n <= i < |path| ==> t[|bare| + i - n] == if IsSeparator(path[i]) then '/' else path[i]
  }

  lemma {:induction false} BareIs(target: string, bare: string)
    requires IsBare(bare, target)
    ensures RStrip(target, IsSeparator) == bare
    decreases |target|
  {
    if |bare| < |target| {
      BareIs(target[..|target| - 1], bare);
    }
  }

  lemma MatchesIff(p: Pair, path: string)
    ensures Matches(p, path) <==> Above(p.source, path)
  {
    var prefix, normalized := Slashes(p.source), Slashes(path);
    if |prefix| <= |path| {
      forall i | 0 <= i < |prefix| ensures Alike(path[i], p.source[i]) <==> normalized[..|prefix|][i] == prefix[i] {
      }
    }
  }

  lemma MappedMoves(p: Pair, path: string, bare: string)
    requires Matches(p, path) && IsBare(bare, p.target)
    ensures Moved(Mapped(p, path), bare, path, |p.source|)
  {
    BareIs(p.target, bare);
  }

  /** Of the usable entries above the path the longest wins, the first of those equally long. */
  ghost predicate Wins(pairs: seq<Pair>, path: string, i: nat) {
    && i < |pairs| && Above(pairs[i].source, path)
    && (forall j :: 0 <= j < |pairs| && Above(pairs[j].source, path) ==> |pairs[j].source| <= |pairs[i].source|)
    && (forall j :: 0 <= j < i && Above(pairs[j].source, path) ==> |pairs[j].source| < |pairs[i].source|)
  }

  /** A path no usable entry is above stays as it is. Any other has the winner's prefix
      replaced by its target, and nothing else but the separators changed. */
  lemma TranslationIs(u: Unicode, entries: seq<Json>, path: string)
    ensures var pairs, t := Usable(u, entries), Translate(u, Some(JArr(entries)), path);
            && ((forall p :: p in pairs ==> !Above(p.source, path)) ==> t == path)
            && ((exists p :: p in pairs && Above(p.source, path)) ==>
                  exists i: nat :: Wins(pairs, path, i) && forall bare :: IsBare(bare, pairs[i].target) ==> Moved(t, bare, path, |pairs[i].source|))
  {
    var pairs, t := Usable(u, entries), Translate(u, Some(JArr(entries)), path);
    forall p ensures Matches(p, path) <==> Above(p.source, path) {
      MatchesIff(p, path);
    }
    SortedFirstIsBest(pairs, path);
    NoBestIffNoMatch(pairs, path);
    if Best(pairs, path).Some? {
      var i := WinnerOf(pairs, path);
      assert Wins(pairs, path, i);
      forall bare | IsBare(bare, pairs[i].target) ensures Moved(t, bare, path, |pairs[i].source|) {
        MappedMoves(pairs[i], path, bare);
      }
    }
  }

  /** A single usable entry. */
  lemma OneEntryTranslates(u: Unicode, entry: Json, source: string, target: string, bare: string, path: string)
    requires ValidTranslation(u, entry) == Some(Pair(source, target)) && IsBare(bare, target)
    ensures var t := Translate(u, Some(JArr([entry])), path);
            if Above(source, path) then Moved(t, bare, path, |source|) else t == path
  {
    assert [entry][1..] == [];
    assert Usable(u, [entry]) == [Pair(source, target)];
    TranslationIs(u, [entry], path);
    if Above(source, path) {
      assert Pair(source, target) in Usable(u, [entry]);
    }
  }

  /** path has .. at i as a whole segment. */
  ghost predicate ParentAt(path: string, i: nat) {
    && i + 2 <= |path| && path[i] == '.' && path[i + 1] == '.'
    && (i == 0 || IsSeparator(path[i - 1])) && (i + 2 == |path| || IsSeparator(path[i + 2]))
  }

  lemma {:induction false} FirstPart(s: string, w: string)
    requires '/' !in w
    ensures Split(s, '/')[0] == w <==> StartsWith(s, w) && (|s| == |w| || s[|w|] == '/')
    decreases |s|
  {
    if s != "" && s[0] != '/' && w != "" {
      assert forall c :: c in w[1..] ==> c in w;
      FirstPart(s[1..], w[1..]);
      assert [s[0]] + Split(s[1..], '/')[0] == w <==> s[0] == w[0] && Split(s[1..], '/')[0] == w[1..];
    }
  }

  /** Only '/' separates: later segments. */
  lemma {:induction false} LaterPart(s: string)
    requires forall c :: c in s ==> c != '\\'
    ensures ".." in Split(s, '/')[1..] <==> exists i: nat :: i > 0 && ParentAt(s, i)
    decreases |s|
  {
    if s != "" {
      var t := s[1..];
      assert forall c :: c in t ==> c in s;
      LaterPart(t);
      FirstPart(t, "..");
      assert forall c :: c in s ==> !IsSeparator(c) || c == '/';
      assert StartsWith(t, "..") && (|t| == 2 || t[2] == '/') <==> ParentAt(t, 0);
      forall i: nat | i > 0 ensures ParentAt(s, i + 1) <==> ParentAt(t, i) {
      }
      if s[0] == '/' {
        assert Split(s, '/')[1..] == Split(t, '/');
        assert ParentAt(s, 1) <==> ParentAt(t, 0);
        assert ".." in Split(t, '/') <==> Split(t, '/')[0] == ".." || ".." in Split(t, '/')[1..];
      } else {
        assert Split(s, '/')[1..] == Split(t, '/')[1..];
        assert !ParentAt(s, 1);
      }
      if i: nat :| i > 1 && ParentAt(s, i) {
        assert ParentAt(t, i - 1);
      }
    }
  }

  /** A .. segment is what its name says, under either separator. */
  lemma HasParentSegmentIff(path: string)
    ensures HasParentSegment(path) <==> exists i: nat :: ParentAt(path, i)
  {
    var s := Slashes(path);
    FirstPart(s, "..");
    LaterPart(s);
    assert ".." in Split(s, '/') <==> Split(s, '/')[0] == ".." || ".." in Split(s, '/')[1..];
    forall i: nat ensures ParentAt(s, i) <==> ParentAt(path, i) {
    }
    assert StartsWith(s, "..") && (|s| == 2 || s[2] == '/') <==> ParentAt(s, 0);
  }

  lemma {:induction false} PadIsStripped(text: string, pad: string, drop: char -> bool)
    requires text != "" && !drop(text[|text| - 1]) && forall c :: c in pad ==> drop(c)
    ensures RStrip(text + pad, drop) == text
    decreases |pad|
  {
    if pad == "" {
      assert text + pad == text;
    } else {
      assert pad[|pad| - 1] in pad && forall c :: c in pad[..|pad| - 1] ==> c in pad;
      assert (text + pad)[..|text + pad| - 1] == text + pad[..|pad| - 1];
      PadIsStripped(text, pad[..|pad| - 1], drop);
    }
  }

  lemma {:induction false} LeadIsStripped(pad: string, text: string, drop: char -> bool)
    requires text != "" && !drop(text[0]) && forall c :: c in pad ==> drop(c)
    ensures LStrip(pad + text, drop) == text
    decreases |pad|
  {
    if pad == "" {
      assert pad + text == text;
    } else {
      assert pad[0] in pad && forall c :: c in pad[1..] ==> c in pad;
      assert (pad + text)[1..] == pad[1..] + text;
      LeadIsStripped(pad[1..], text, drop);
    }
  }

  lemma PaddingIsStripped(before: string, text: string, after: string, drop: char -> bool)
    requires text != "" && !drop(text[0]) && !drop(text[|text| - 1])
    requires (forall c :: c in before ==> drop(c)) && forall c :: c in after ==> drop(c)
    ensures Strip(before + text + after, drop) == text
  {
    PadIsStripped(before + text, after, drop);
    LeadIsStripped(before, text, drop);
  }

  /** Space around the two prefixes and separators after the source do not matter. */
  lemma PaddedEntryIsUsable(u: Unicode, fields: map<string, Json>, source: string, target: string, seps: string, before: string, after: string)
    requires source != "" && !IsSeparator(source[|source| - 1]) && (forall c :: c in seps ==> IsSeparator(c))
    requires StartsWith(target, "/") && !HasParentSegment(source) && !HasParentSegment(target)
    requires (forall c :: c in before ==> u.isSpace(c)) && (forall c :: c in after ==> u.isSpace(c))
    requires !u.isSpace(source[0]) && !u.isSpace((source + seps)[|source + seps| - 1])
    requires !u.isSpace(target[0]) && !u.isSpace(target[|target| - 1])
    requires "from" in fields && fields["from"] == JStr(before + (source + seps) + after)
    requires "to" in fields && fields["to"] == JStr(before + target + after)
    ensures ValidTranslation(u, JObj(fields)) == Some(Pair(source, target))
  {
    PaddingIsStripped(before, source + seps, after, u.isSpace);
    PaddingIsStripped(before, target, after, u.isSpace);
    PadIsStripped(source, seps, IsSeparator);
  }

  // -------------------------------------------------------------------------
  // The merge of a per-run list
  // -------------------------------------------------------------------------

  /** _translation_source_key */
  function SourceKey(u: Unicode, entry: Json): Option<string> {
    if !HasString(entry, "from") then None
    else
      var key := CaseFold(u, RStrip(Slashes(Strip(entry.fields["from"].s, u.isSpace)), c => c == '/'));
      if key == "" then None else Some(key)
  }

  predicate Under(key: string, hostKey: string) {
    key == hostKey || StartsWith(key, hostKey + "/")
  }

  /** The host maps this entry's prefix, or one above it. */
  predicate HostMaps(u: Unicode, host: seq<Json>, entry: Json) {
    SourceKey(u, entry).Some? &&
    exists i :: 0 <= i < |host| && SourceKey(u, host[i]).Some? && Under(SourceKey(u, entry).value, SourceKey(u, host[i]).value)
  }

  /** The per-run entries that survive. */
  function Kept(u: Unicode, host: seq<Json>, own: seq<Json>): (r: seq<Json>)
    ensures forall e :: e in r <==> e in own && !HostMaps(u, host, e)
  {
    if own == [] then []
    else KeptEntry(u, host, own[0]) + Kept(u, host, own[1..])
  }

  /** One entry, if it survives. */
  function KeptEntry(u: Unicode, host: seq<Json>, entry: Json): seq<Json> {
    if HostMaps(u, host, entry) then [] else [entry]
  }

  lemma Regrouped(a: seq<Json>, b: seq<Json>, c: seq<Json>)
    ensures a + (b + c) == a + b + c
  {
  }

  lemma {:induction false} KeptOneMore(u: Unicode, host: seq<Json>, own: seq<Json>, entry: Json)
    ensures Kept(u, host, own + [entry]) == Kept(u, host, own) + KeptEntry(u, host, entry)
    decreases |own|
  {
    if own == [] {
      assert (own + [entry])[1..] == [];
    } else {
      assert (own + [entry])[1..] == own[1..] + [entry];
      KeptOneMore(u, host, own[1..], entry);
      Regrouped(KeptEntry(u, host, own[0]), Kept(u, host, own[1..]), KeptEntry(u, host, entry));
    }
  }

  lemma {:induction false} StripCommutes(t: string)
    ensures RStrip(Slashes(t), c => c == '/') == Slashes(RStrip(t, IsSeparator))
    decreases |t|
  {
    if t != "" {
      assert Slashes(t)[..|t| - 1] == Slashes(t[..|t| - 1]);
      StripCommutes(t[..|t| - 1]);
    }
  }

  /** The key of a usable entry is its prefix, case folded. */
  lemma KeyOfUsable(u: Unicode, entry: Json)
    requires FoldsPaths(u) && ValidTranslation(u, entry).Some?
    ensures SourceKey(u, entry) == Some(CaseFold(u, Slashes(ValidTranslation(u, entry).value.source)))
  {
    StripCommutes(Strip(entry.fields["from"].s, u.isSpace));
    CaseFoldNonEmpty(u, Slashes(ValidTranslation(u, entry).value.source));
  }

  lemma LongerPrefixLiesUnder(n: string, x: string, y: string)
    requires |x| <= |y| <= |n| && n[..|x|] == x && n[..|y|] == y
    requires |x| == |n| || n[|x|] == '/'
    ensures y == x || StartsWith(y, x + "/")
  {
    if |x| < |y| {
      assert n[..|x| + 1] == x + "/";
      assert y[..|x| + 1] == n[..|x| + 1];
    }
  }

  /** Of two prefixes matching one path, the longer lies under the shorter. */
  lemma LongerMatchLiesUnder(a: Pair, b: Pair, path: string)
    requires Matches(a, path) && Matches(b, path) && |a.source| <= |b.source|
    ensures Slashes(b.source) == Slashes(a.source) || StartsWith(Slashes(b.source), Slashes(a.source) + "/")
  {
    LongerPrefixLiesUnder(Slashes(path), Slashes(a.source), Slashes(b.source));
  }

  lemma FoldedUnder(u: Unicode, x: string, y: string)
    requires FoldsPaths(u) && (y == x || StartsWith(y, x + "/"))
    ensures Under(CaseFold(u, y), CaseFold(u, x))
  {
    if y != x {
      assert y == (x + "/") + y[|x| + 1..];
      CaseFoldConcat(u, x + "/", y[|x| + 1..]);
      CaseFoldConcat(u, x, "/");
      assert CaseFold(u, "/") == "/" by { assert "/"[1..] == ""; }
    }
  }

  /** No surviving per-run entry beats a host entry on a path the host maps. */
  lemma KeptIsShorter(u: Unicode, host: seq<Json>, own: seq<Json>, path: string, a: Pair, b: Pair)
    requires FoldsPaths(u) && Matches(a, path) && Matches(b, path)
    ensures a in Usable(u, host) && b in Usable(u, Kept(u, host, own)) ==> |b.source| < |a.source|
  {
    if a in Usable(u, host) && b in Usable(u, Kept(u, host, own)) && |a.source| <= |b.source| {
      UsableComesFrom(u, host, a);
      UsableComesFrom(u, Kept(u, host, own), b);
      var i :| 0 <= i < |host| && ValidTranslation(u, host[i]) == Some(a);
      var j :| 0 <= j < |Kept(u, host, own)| && ValidTranslation(u, Kept(u, host, own)[j]) == Some(b);
      KeyOfUsable(u, host[i]);
      KeyOfUsable(u, Kept(u, host, own)[j]);
      LongerMatchLiesUnder(a, b, path);
      FoldedUnder(u, Slashes(a.source), Slashes(b.source));
      assert HostMaps(u, host, Kept(u, host, own)[j]);
    }
  }

  lemma {:induction false} BestIsOne(pairs: seq<Pair>, path: string)
    ensures Best(pairs, path).Some? ==> Best(pairs, path).value in pairs && Matches(Best(pairs, path).value, path)
    decreases |pairs|
  {
    if pairs != [] {
      BestIsOne(pairs[1..], path);
    }
  }

  /** A per-run list cannot re-point a path the host maps. */
  lemma HostPathsKeepTheirTarget(u: Unicode, host: seq<Json>, own: seq<Json>, path: string)
    requires FoldsPaths(u)
    requires exists a :: a in Usable(u, host) && Matches(a, path)
    ensures Translate(u, Some(JArr(host + Kept(u, host, own))), path) == Translate(u, Some(JArr(host)), path)
  {
    var x, y := Usable(u, host), Usable(u, Kept(u, host, own));
    UsableConcat(u, host, Kept(u, host, own));
    SortedFirstIsBest(x + y, path);
    SortedFirstIsBest(x, path);
    BestConcat(x, y, path);
    BestIsLongestAndEarliest(x, path);
    BestIsOne(x, path);
    BestIsOne(y, path);
    if Best(y, path).Some? {
      KeptIsShorter(u, host, own, path, Best(x, path).value, Best(y, path).value);
    }
  }

  /** What the host does not map, the per-run entries that survive do. */
  lemma OwnPathsAreAdded(u: Unicode, host: seq<Json>, own: seq<Json>, path: string)
    requires forall a :: a in Usable(u, host) ==> !Matches(a, path)
    ensures Translate(u, Some(JArr(host + Kept(u, host, own))), path) == Translate(u, Some(JArr(Kept(u, host, own))), path)
  {
    var x, y := Usable(u, host), Usable(u, Kept(u, host, own));
    UsableConcat(u, host, Kept(u, host, own));
    SortedFirstIsBest(x + y, path);
    SortedFirstIsBest(y, path);
    BestConcat(x, y, path);
    NoBestIffNoMatch(x, path);
  }

  // -------------------------------------------------------------------------
  // Where a translated path points
  // -------------------------------------------------------------------------

  lemma {:induction false} SplitJoin(a: string, b: string, sep: char)
    ensures Split(a + [sep] + b, sep) == Split(a, sep) + Split(b, sep)
    decreases |a|
  {
    if a == "" {
      assert a + [sep] + b == [sep] + b && ([sep] + b)[1..] == b;
    } else {
      assert (a + [sep] + b)[1..] == a[1..] + [sep] + b;
      SplitJoin(a[1..], b, sep);
    }
  }

  /** A .. segment of a path is one of the part before a separator or of the part after it. */
  lemma ParentOfJoin(a: string, b: string)
    ensures HasParentSegment(a + "/" + b) <==> HasParentSegment(a) || HasParentSegment(b)
  {
    assert Slashes(a + "/" + b) == Slashes(a) + "/" + Slashes(b);
    SplitJoin(Slashes(a), Slashes(b), '/');
  }

  lemma {:induction false} StrippedHasNoNewParent(s: string)
    ensures HasParentSegment(RStrip(s, IsSeparator)) ==> HasParentSegment(s)
    decreases |s|
  {
    if s != "" && IsSeparator(s[|s| - 1]) {
      StrippedHasNoNewParent(s[..|s| - 1]);
      OneSeparatorLess(s);
    }
  }

  lemma OneSeparatorLess(s: string)
    requires s != "" && IsSeparator(s[|s| - 1])
    ensures HasParentSegment(s[..|s| - 1]) ==> HasParentSegment(s)
  {
    var t := s[..|s| - 1];
    ParentOfJoin(t, "");
    assert Slashes(t + "/" + "") == Slashes(s);
  }

  lemma SameTail(root: string, prefix: string, tail: string)
    requires HasParentSegment(root + "/" + tail)
    ensures HasParentSegment(root) || HasParentSegment(prefix + "/" + tail)
  {
    ParentOfJoin(root, tail);
    ParentOfJoin(prefix, tail);
  }

  lemma {:induction false} SlashesTwice(s: string)
    ensures Slashes(Slashes(s)) == Slashes(s)
  {
  }

  lemma ParentsOfTail(root: string, n: string, k: nat)
    requires k < |n| && n[k] == '/' && HasParentSegment(root + n[k..])
    ensures HasParentSegment(root) || HasParentSegment(n)
  {
    var tail := n[k + 1..];
    assert n[k..] == "/" + tail;
    assert root + n[k..] == root + "/" + tail;
    assert n == n[..k] + "/" + tail;
    SameTail(root, n[..k], tail);
  }

  lemma SameParents(path: string)
    ensures HasParentSegment(Slashes(path)) <==> HasParentSegment(path)
  {
    SlashesTwice(path);
  }

  lemma MappedParents(p: Pair, path: string)
    requires Matches(p, path) && HasParentSegment(Mapped(p, path))
    ensures HasParentSegment(p.target) || HasParentSegment(path)
  {
    var root, n := RStrip(p.target, IsSeparator), Slashes(path);
    StrippedHasNoNewParent(p.target);
    SameParents(path);
    if |n| == |p.source| {
      assert root + n[|p.source|..] == root;
    } else {
      ParentsOfTail(root, n, |p.source|);
    }
  }

  /** The result lies under the winning entry's target, and a .. segment in it was in the path. */
  lemma TranslationStaysUnderItsTarget(u: Unicode, raw: Option<Json>, path: string)
    requires FirstMatch(Configured(u, raw), path).Some?
    ensures var p, r := FirstMatch(Configured(u, raw), path).value, Translate(u, raw, path);
            var root := RStrip(p.target, IsSeparator);
            && StartsWith(r, root) && (|r| == |root| || r[|root|] == '/')
            && (HasParentSegment(r) ==> HasParentSegment(p.target) || HasParentSegment(path))
  {
    FirstMatchMatches(Configured(u, raw), path);
    var p := FirstMatch(Configured(u, raw), path).value;
    if HasParentSegment(Mapped(p, path)) {
      MappedParents(p, path);
    }
  }

  /** a is the bare prefix and b the prefix with a separator. */
  predicate PrefixAndRoot(p: Pair, a: string, b: string) {
    Slashes(a) == Slashes(p.source) && Slashes(b) == Slashes(p.source) + "/"
  }

  /** Two paths under one prefix are translated alike only if they are the same path with its
      separators unified, or the bare prefix and the prefix with a separator, mapped to the root. */
  lemma TranslationKeepsPathsApart(p: Pair, a: string, b: string)
    requires Matches(p, a) && Matches(p, b)
    ensures Mapped(p, a) == Mapped(p, b) <==>
            || Slashes(a) == Slashes(b)
            || (RStrip(p.target, IsSeparator) == "" && (PrefixAndRoot(p, a, b) || PrefixAndRoot(p, b, a)))
  {
    var root, prefix := RStrip(p.target, IsSeparator), Slashes(p.source);
    var x, y := Slashes(a)[|prefix|..], Slashes(b)[|prefix|..];
    EndsIn(prefix, a, x);
    EndsIn(prefix, b, y);
    SameEnding(prefix, x, y);
    AlikeIff(root, x, y);
  }

  lemma EndsIn(prefix: string, path: string, x: string)
    requires StartsWith(Slashes(path), prefix) && x == Slashes(path)[|prefix|..]
    ensures Slashes(path) == prefix + x
    ensures Slashes(path) == prefix <==> x == ""
    ensures Slashes(path) == prefix + "/" <==> x == "/"
  {
    SameEnding(prefix, x, "");
    SameEnding(prefix, x, "/");
    assert prefix + "" == prefix;
  }

  lemma AlikeIff(root: string, x: string, y: string)
    ensures (if root + x == "" then "/" else root + x) == (if root + y == "" then "/" else root + y)
            <==> x == y || (root == "" && ((x == "" && y == "/") || (y == "" && x == "/")))
  {
    SameEnding(root, x, y);
    if root == "" {
      assert root + x == x && root + y == y;
    } else {
      assert root + x != "" && root + y != "";
    }
  }

  lemma SameEnding(root: string, x: string, y: string)
    ensures root + x == root + y <==> x == y
  {
    assert x == (root + x)[|root|..] && y == (root + y)[|root|..];
  }

  lemma {:induction false} UsableTargets(u: Unicode, entries: seq<Json>, p: Pair)
    requires p in Usable(u, entries)
    ensures IsAbsolute(p.target) && !HasParentSegment(p.target) && p.source != "" && !IsSeparator(p.source[|p.source| - 1])
    decreases |entries|
  {
    if ValidTranslation(u, entries[0]) == Some(p) {
      RStripped(Strip(entries[0].fields["from"].s, u.isSpace));
    } else {
      UsableTargets(u, entries[1..], p);
    }
  }

  lemma {:induction false} RStripped(s: string)
    ensures var r := RStrip(s, IsSeparator); r != "" ==> !IsSeparator(r[|r| - 1])
    decreases |s|
  {
    if s != "" && IsSeparator(s[|s| - 1]) {
      RStripped(s[..|s| - 1]);
    }
  }

  /** Translating never introduces a .. segment, whatever the configuration holds. */
  lemma TranslationAddsNoParentSegment(u: Unicode, raw: Option<Json>, path: string)
    ensures HasParentSegment(Translate(u, raw, path)) ==> HasParentSegment(path)
  {
    var pairs := Configured(u, raw);
    if FirstMatch(pairs, path).Some? {
      TranslationStaysUnderItsTarget(u, raw, path);
      FirstMatchIsOne(pairs, path);
      LongestFirstSorts(Usable(u, raw.value.items));
      var p := FirstMatch(pairs, path).value;
      assert p in multiset(pairs);
      UsableTargets(u, raw.value.items, p);
    }
  }

  lemma {:induction false} FirstMatchIsOne(pairs: seq<Pair>, path: string)
    ensures FirstMatch(pairs, path).Some? ==> FirstMatch(pairs, path).value in pairs
  {
    if pairs != [] && !Matches(pairs[0], path) {
      FirstMatchIsOne(pairs[1..], path);
    }
  }

  // -------------------------------------------------------------------------
  // The scaffold roots
  // -------------------------------------------------------------------------

  /** [entry for entry in raw if entry not in added] */
  function Without(raw: seq<Json>, added: seq<Json>): seq<Json> {
    if raw == [] then []
    else (if In(raw[0], added) then [] else [raw[0]]) + Without(raw[1..], added)
  }

  function Targets(pairs: seq<Pair>): seq<string> {
    if pairs == [] then [] else [pairs[0].target] + Targets(pairs[1..])
  }

  /** scaffold_root_targets, given the two values it reads. */
  function ScaffoldRoots(u: Unicode, raw: Option<Json>, added: Option<Json>): seq<string> {
    if added.Some? && !added.value.JArr? then []
    else
      var list := if added.Some? then added.value.items else [];
      var trusted := if list != [] && raw.Some? && raw.value.JArr? then Some(JArr(Without(raw.value.items, list))) else raw;
      Targets(Configured(u, trusted))
  }

  lemma {:induction false} WithoutConcat(a: seq<Json>, b: seq<Json>, added: seq<Json>)
    ensures Without(a + b, added) == Without(a, added) + Without(b, added)
    decreases |a|
  {
    if a == [] {
      assert a + b == b;
    } else {
      assert (a + b)[1..] == a[1..] + b;
      WithoutConcat(a[1..], b, added);
    }
  }

  lemma {:induction false} WithoutItself(raw: seq<Json>, added: seq<Json>)
    requires forall e :: e in raw ==> e in added
    ensures Without(raw, added) == []
    decreases |raw|
  {
    if raw != [] {
      assert raw[0] in added;
      var i :| 0 <= i < |added| && added[i] == raw[0];
      PyEqReflexive(raw[0]);
      WithoutItself(raw[1..], added);
    }
  }

  /** Entries that Python calls equal have the same key. */
  lemma EqualEntriesSameKey(u: Unicode, a: Json, b: Json)
    requires PyEq(a, b)
    ensures SourceKey(u, a) == SourceKey(u, b)
  {
    if a.JObj? && b.JObj? && "from" in a.fields {
      assert PyEq(a.fields["from"], b.fields["from"]);
    }
  }

  /** A host entry that equals an added one has no usable prefix. */
  lemma RemovedHostEntryIsUnusable(u: Unicode, host: seq<Json>, own: seq<Json>, entry: Json)
    requires FoldsPaths(u) && entry in host && In(entry, Kept(u, host, own))
    ensures ValidTranslation(u, entry).None?
  {
    if ValidTranslation(u, entry).Some? {
      KeyOfUsable(u, entry);
      var i :| 0 <= i < |host| && host[i] == entry;
      var j :| 0 <= j < |Kept(u, host, own)| && PyEq(entry, Kept(u, host, own)[j]);
      EqualEntriesSameKey(u, entry, Kept(u, host, own)[j]);
      assert Under(SourceKey(u, Kept(u, host, own)[j]).value, SourceKey(u, host[i]).value);
      assert HostMaps(u, host, Kept(u, host, own)[j]);
    }
  }

  lemma {:induction false} HostLosesNothing(u: Unicode, part: seq<Json>, host: seq<Json>, own: seq<Json>)
    requires FoldsPaths(u) && forall e :: e in part ==> e in host
    ensures Usable(u, Without(part, Kept(u, host, own))) == Usable(u, part)
    decreases |part|
  {
    if part != [] {
      var added := Kept(u, host, own);
      HostLosesNothing(u, part[1..], host, own);
      UsableConcat(u, if In(part[0], added) then [] else [part[0]], Without(part[1..], added));
      if In(part[0], added) {
        RemovedHostEntryIsUnusable(u, host, own, part[0]);
      } else {
        assert Usable(u, [part[0]]) == (if ValidTranslation(u, part[0]).Some? then [ValidTranslation(u, part[0]).value] else [])
          by { assert [part[0]][1..] == []; }
      }
    }
  }

  /** The roots of a merged config are exactly the host's usable targets. */
  lemma ScaffoldRootsAreTheHosts(u: Unicode, host: seq<Json>, own: seq<Json>)
    requires FoldsPaths(u)
    ensures var kept := Kept(u, host, own);
      ScaffoldRoots(u, Some(JArr(host + kept)), if kept == [] then None else Some(JArr(kept)))
      == Targets(Configured(u, Some(JArr(host))))
  {
    var kept := Kept(u, host, own);
    if kept == [] {
      assert host + kept == host;
    } else {
      WithoutConcat(host, kept, kept);
      WithoutItself(kept, kept);
      HostLosesNothing(u, host, host, own);
      assert Without(host + kept, kept) == Without(host, kept);
    }
  }
}
