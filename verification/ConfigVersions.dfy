// equipa/config_versions.py: redacted snapshots of config files, their version chain
// and rollback.

/** Secrets taken out of a JSON value, at every depth. */
module Redaction {
  import opened Json

  const SENTINEL := "<REDACTED>"

  predicate EndsWith(s: string, suffix: string) {
    |suffix| <= |s| && s[|s| - |suffix|..] == suffix
  }

  /** _is_secret_key; lower is str.lower. */
  predicate IsSecretKey(lower: string -> string, key: string) {
    var lowered := lower(key);
    lowered == "api_key" || EndsWith(lowered, "_secret") || EndsWith(lowered, "_password") || EndsWith(lowered, "_token")
  }

  /** The keys that are secret, with any prefix before the listed endings. */
  lemma SecretKeysAre(lower: string -> string, key: string)
    ensures IsSecretKey(lower, key) <==>
              lower(key) == "api_key" ||
              exists stem: string, ending :: ending in ["_secret", "_password", "_token"] && lower(key) == stem + ending
  {
    var lowered := lower(key);
    forall ending: string | ending in ["_secret", "_password", "_token"] && EndsWith(lowered, ending)
      ensures exists stem: string :: lowered == stem + ending
    {
      assert lowered == lowered[..|lowered| - |ending|] + ending;
    }
    if stem: string, ending :| ending in ["_secret", "_password", "_token"] && lowered == stem + ending {
      assert lowered[|lowered| - |ending|..] == ending;
    }
  }

  function Redact(lower: string -> string, j: Json): Json {
    match j
    case JObj(fields) => JObj(map k | k in fields :: if IsSecretKey(lower, k) then JStr(SENTINEL) else Redact(lower, fields[k]))
    case JArr(items) => JArr(seq(|items|, i requires 0 <= i < |items| => Redact(lower, items[i])))
    case _ => j
  }

  /** Every secret key, however deep, holds the sentinel. */
  predicate NoSecrets(lower: string -> string, j: Json) {
    match j
    case JObj(fields) =>
      forall k :: k in fields ==> if IsSecretKey(lower, k) then fields[k] == JStr(SENTINEL) else NoSecrets(lower, fields[k])
    case JArr(items) => forall i :: 0 <= i < |items| ==> NoSecrets(lower, items[i])
    case _ => true
  }

  lemma {:induction false} RedactedHasNoSecrets(lower: string -> string, j: Json)
    ensures NoSecrets(lower, Redact(lower, j))
    decreases j
  {
    match j
    case JObj(fields) =>
      forall k | k in fields && !IsSecretKey(lower, k) ensures NoSecrets(lower, Redact(lower, fields[k])) {
        RedactedHasNoSecrets(lower, fields[k]);
      }
    case JArr(items) =>
      forall i | 0 <= i < |items| ensures NoSecrets(lower, Redact(lower, items[i])) {
        RedactedHasNoSecrets(lower, items[i]);
      }
    case _ =>
  }

  /** Exactly the values without secrets are left as they are. */
  lemma {:induction false} UnchangedIffNoSecrets(lower: string -> string, j: Json)
    ensures Redact(lower, j) == j <==> NoSecrets(lower, j)
    decreases j
  {
    RedactedHasNoSecrets(lower, j);
    if NoSecrets(lower, j) {
      match j
      case JObj(fields) =>
        forall k | k in fields && !IsSecretKey(lower, k) ensures Redact(lower, fields[k]) == fields[k] {
          UnchangedIffNoSecrets(lower, fields[k]);
        }
        assert Redact(lower, j).fields == fields;
      case JArr(items) =>
        forall i | 0 <= i < |items| ensures Redact(lower, items[i]) == items[i] {
          UnchangedIffNoSecrets(lower, items[i]);
        }
        assert Redact(lower, j).items == items;
      case _ =>
    }
  }

  lemma RedactIsIdempotent(lower: string -> string, j: Json)
    ensures Redact(lower, Redact(lower, j)) == Redact(lower, j)
  {
    RedactedHasNoSecrets(lower, j);
    UnchangedIffNoSecrets(lower, Redact(lower, j));
  }

  /** The same values, the ones under secret keys apart. */
  predicate SameButSecrets(lower: string -> string, a: Json, b: Json)
    decreases a
  {
    match (a, b)
    case (JObj(x), JObj(y)) =>
      x.Keys == y.Keys && forall k :: k in x && !IsSecretKey(lower, k) ==> SameButSecrets(lower, x[k], y[k])
    case (JArr(x), JArr(y)) => |x| == |y| && forall i :: 0 <= i < |x| ==> SameButSecrets(lower, x[i], y[i])
    case _ => a == b
  }

  lemma {:induction false} OnlySecretsChange(lower: string -> string, j: Json)
    ensures SameButSecrets(lower, j, Redact(lower, j))
    decreases j
  {
    match j
    case JObj(fields) =>
      forall k | k in fields && !IsSecretKey(lower, k) ensures SameButSecrets(lower, fields[k], Redact(lower, fields[k])) {
        OnlySecretsChange(lower, fields[k]);
      }
    case JArr(items) =>
      forall i | 0 <= i < |items| ensures SameButSecrets(lower, items[i], Redact(lower, items[i])) {
        OnlySecretsChange(lower, items[i]);
      }
    case _ =>
  }
}

/** The storage blob of a file, and what restoring it gives. */
module ConfigBlob {
  import opened Json
  import opened Redaction
  import opened Wrappers

  type Path = string

  /** json.loads (None: it raises), json.dumps(indent=2, sort_keys=True), str.lower, which files are
      .json, the hashes, and which paths lie under the repository. */
  datatype Env = Env(
    parse: string -> Option<Json>, print_: Json -> string, lower: string -> string, isJson: Path -> bool,
    sha: string -> string, aggregate: multiset<FileSha> -> string, inside: Path -> bool)

  datatype FileSha = FileSha(path: Path, sha: string)

  /** What was parsed and redacted is read back from its printed form, and that has no
      carriage return (none stands outside a string, and inside one it is escaped). */
  ghost predicate RoundTrips(e: Env) {
    forall text :: e.parse(text).Some? ==> PrintsBack(e, Redact(e.lower, e.parse(text).value))
  }

  ghost predicate PrintsBack(e: Env, j: Json) {
    e.parse(e.print_(j)) == Some(j) && '\r' !in e.print_(j)
  }

  const PLAIN := "a_token: 1"
  const HIDDEN := "a_token: <REDACTED>"

  function Holding(j: Json): Json {
    JObj(map["a_token" := j])
  }

  function Same(s: string): string { s }

  predicate EveryPath(path: Path) { true }

  function ReadTwo(text: string): Option<Json> {
    if text == PLAIN then Some(Holding(JInt(1))) else if text == HIDDEN then Some(Holding(JStr(SENTINEL))) else None
  }

  function PrintHidden(j: Json): string { HIDDEN }

  /** A codec that knows these two texts. */
  function TwoTexts(e: Env): Env {
    e.(parse := ReadTwo, print_ := PrintHidden, lower := Same, isJson := EveryPath)
  }

  lemma TokenIsRedacted(j: Json)
    ensures Redact(Same, Holding(j)) == Holding(JStr(SENTINEL))
  {
    assert "a_token"[|"a_token"| - |"_token"|..] == "_token";
    assert IsSecretKey(Same, "a_token");
    assert Redact(Same, Holding(j)).fields == map["a_token" := JStr(SENTINEL)];
  }

  /** RoundTrips asks nothing impossible: a codec meets it, and redacts something. */
  lemma SomeCodecRoundTrips(e: Env)
    ensures RoundTrips(TwoTexts(e)) && RedactedBlob(TwoTexts(e), "f", PLAIN) == HIDDEN
  {
    var t := TwoTexts(e);
    assert |PLAIN| != |HIDDEN|;
    forall text | t.parse(text).Some? ensures PrintsBack(t, Redact(t.lower, t.parse(text).value)) {
      TokenIsRedacted(if text == PLAIN then JInt(1) else JStr(SENTINEL));
    }
  }

  /** Path.read_text: universal newlines. */
  function ReadText(s: string): string {
    if s == "" then ""
    else if s[0] == '\r' then "\n" + ReadText(if |s| > 1 && s[1] == '\n' then s[2..] else s[1..])
    else [s[0]] + ReadText(s[1..])
  }

  lemma {:induction false} ReadTextHasNoReturn(s: string)
    ensures '\r' !in ReadText(s)
    decreases |s|
  {
    if s != "" {
      if s[0] == '\r' {
        ReadTextHasNoReturn(if |s| > 1 && s[1] == '\n' then s[2..] else s[1..]);
      } else {
        ReadTextHasNoReturn(s[1..]);
      }
    }
  }

  lemma {:induction false} NoReturnReadsAsItself(s: string)
    requires '\r' !in s
    ensures ReadText(s) == s
    decreases |s|
  {
    if s != "" {
      RestHasNoReturn(s);
      NoReturnReadsAsItself(s[1..]);
      assert [s[0]] + s[1..] == s;
    }
  }

  lemma RestHasNoReturn(s: string)
    requires s != "" && '\r' !in s
    ensures s[0] != '\r' && '\r' !in s[1..]
  {
    assert s[0] in s;
    forall c | c in s[1..] ensures c in s {
    }
  }

  /** The three line endings read alike. */
  lemma {:induction false} LineEndsReadAlike(a: string, b: string)
    requires '\r' !in a
    ensures ReadText(a + ("\n" + b)) == a + "\n" + ReadText(b)
    ensures ReadText(a + ("\r\n" + b)) == a + "\n" + ReadText(b)
    ensures b == "" || b[0] != '\n' ==> ReadText(a + ("\r" + b)) == a + "\n" + ReadText(b)
    decreases |a|
  {
    if a == "" {
      assert a + ("\n" + b) == "\n" + b && ("\n" + b)[1..] == b;
      assert a + ("\r\n" + b) == "\r\n" + b && ("\r\n" + b)[2..] == b;
      assert a + ("\r" + b) == "\r" + b && ("\r" + b)[1..] == b;
      assert a + "\n" == "\n";
    } else {
      assert a[0] in a && '\r' !in a[1..];
      LineEndsReadAlike(a[1..], b);
      assert (a + ("\n" + b))[1..] == a[1..] + ("\n" + b);
      assert (a + ("\r\n" + b))[1..] == a[1..] + ("\r\n" + b);
      assert (a + ("\r" + b))[1..] == a[1..] + ("\r" + b);
      assert [a[0]] + (a[1..] + "\n" + ReadText(b)) == a + "\n" + ReadText(b);
    }
  }

  /** _redacted_blob */
  function RedactedBlob(e: Env, path: Path, text: string): string {
    if !e.isJson(path) then text
    else
      var parsed := e.parse(text);
      if parsed.None? then text else e.print_(Redact(e.lower, parsed.value))
  }

  /** The blob of a file with this content on disk. */
  function BlobOf(e: Env, path: Path, content: string): string {
    RedactedBlob(e, path, ReadText(content))
  }

  /** A blob written back to its file has itself as its blob: redacted, malformed or plain. */
  lemma RestoredBlobIsItself(e: Env, path: Path, content: string)
    requires RoundTrips(e)
    ensures BlobOf(e, path, BlobOf(e, path, content)) == BlobOf(e, path, content)
  {
    var text := ReadText(content);
    ReadTextHasNoReturn(content);
    var blob := BlobOf(e, path, content);
    NoReturnReadsAsItself(blob);
    if e.isJson(path) && e.parse(text).Some? {
      RedactIsIdempotent(e.lower, e.parse(text).value);
      assert PrintsBack(e, Redact(e.lower, e.parse(text).value));
    }
  }

  /** A JSON file that parses is stored without a secret, whatever depth it stands at. */
  lemma StoredJsonHasNoSecrets(e: Env, path: Path, content: string)
    requires RoundTrips(e) && e.isJson(path) && e.parse(ReadText(content)).Some?
    ensures var stored := e.parse(BlobOf(e, path, content));
            stored.Some? && NoSecrets(e.lower, stored.value)
            && SameButSecrets(e.lower, e.parse(ReadText(content)).value, stored.value)
  {
    assert PrintsBack(e, Redact(e.lower, e.parse(ReadText(content)).value));
    RedactedHasNoSecrets(e.lower, e.parse(ReadText(content)).value);
    OnlySecretsChange(e.lower, e.parse(ReadText(content)).value);
  }
}

/** The versions of each project's config files and the files themselves. */
module ConfigVersions {
  import opened ConfigBlob
  import opened Wrappers

  type Files = map<Path, string>

  /** A row of config_versions with its config_version_files. */
  datatype Version = Version(id: nat, project: int, source: string, sha: string, parent: Option<nat>, files: Files)

  datatype Outcome<+T> = Ok(value: T) | ValueError | FileNotFound | IntegrityError

  datatype Entry = Entry(path: Path, blob: string)

  // -------------------------------------------------------------------------
  // Entries
  // -------------------------------------------------------------------------

  /** _build_file_entries: the entries in order, or the first file's problem. */
  function Build(e: Env, disk: Files, files: seq<Path>): Outcome<seq<Entry>> {
    if files == [] then Ok([])
    else
      var last := files[|files| - 1];
      match Build(e, disk, files[..|files| - 1])
      case ValueError => ValueError
      case FileNotFound => FileNotFound
      case IntegrityError => IntegrityError
      case Ok(entries) =>
        if !e.inside(last) then ValueError
        else if last !in disk then FileNotFound
        else Ok(entries + [Entry(last, BlobOf(e, last, disk[last]))])
  }

  function Shas(e: Env, entries: seq<Entry>): multiset<FileSha> {
    if entries == [] then multiset{}
    else
      var last := entries[|entries| - 1];
      Shas(e, entries[..|entries| - 1]) + multiset{FileSha(last.path, e.sha(last.blob))}
  }

  /** _aggregate_sha: the pairs are sorted, so their order does not matter. */
  function AggregateOf(e: Env, entries: seq<Entry>): string {
    e.aggregate(Shas(e, entries))
  }

  predicate DistinctPaths(entries: seq<Entry>) {
    forall i, j :: 0 <= i < j < |entries| ==> entries[i].path != entries[j].path
  }

  function AsFiles(entries: seq<Entry>): Files {
    if entries == [] then map[]
    else AsFiles(entries[..|entries| - 1])[entries[|entries| - 1].path := entries[|entries| - 1].blob]
  }

  /** The hashes of stored files. */
  function ShasOfFiles(e: Env, files: Files): multiset<FileSha> {
    multiset(set p | p in files :: FileSha(p, e.sha(files[p])))
  }

  lemma {:induction false} KeysOfEntries(entries: seq<Entry>)
    ensures forall p :: p in AsFiles(entries) <==> exists i :: 0 <= i < |entries| && entries[i].path == p
    decreases |entries|
  {
    if entries != [] {
      var first := entries[..|entries| - 1];
      KeysOfEntries(first);
      forall p ensures p in AsFiles(entries) <==> exists i :: 0 <= i < |entries| && entries[i].path == p {
        if p in AsFiles(first) {
          var i :| 0 <= i < |first| && first[i].path == p;
          assert entries[i].path == p;
        }
        if i :| 0 <= i < |entries| && entries[i].path == p {
          assert i < |first| ==> first[i].path == p;
        }
      }
    }
  }

  /** Different paths: the hashes taken from the list are those of the stored files. */
  lemma {:induction false} ShasAreThoseOfFiles(e: Env, entries: seq<Entry>)
    requires DistinctPaths(entries)
    ensures Shas(e, entries) == ShasOfFiles(e, AsFiles(entries))
    decreases |entries|
  {
    if entries != [] {
      var first, last := entries[..|entries| - 1], entries[|entries| - 1];
      ShasAreThoseOfFiles(e, first);
      KeysOfEntries(first);
      assert last.path !in AsFiles(first);
      ShasOfOneMore(e, AsFiles(first), last.path, last.blob);
    }
  }

  lemma ShasOfOneMore(e: Env, files: Files, path: Path, blob: string)
    requires path !in files
    ensures ShasOfFiles(e, files[path := blob]) == ShasOfFiles(e, files) + multiset{FileSha(path, e.sha(blob))}
  {
    var after := files[path := blob];
    var x := FileSha(path, e.sha(blob));
    var s := set p | p in files :: FileSha(p, e.sha(files[p]));
    var t := set p | p in after :: FileSha(p, e.sha(after[p]));
    forall y ensures y in t <==> y in s + {x} {
      if y in s {
        assert y.path in files && after[y.path] == files[y.path];
      }
      if y == x {
        assert path in after;
      }
    }
    assert t == s + {x};
    assert x !in s;
    OneMore(s, x);
  }

  lemma OneMore(s: set<FileSha>, x: FileSha)
    requires x !in s
    ensures multiset(s + {x}) == multiset(s) + multiset{x}
  {
  }

  // -------------------------------------------------------------------------
  // The version chain
  // -------------------------------------------------------------------------

  /** _latest_version_for: the newest version of a project among the first n. */
  function LatestIn(versions: seq<Version>, n: nat, project: int): Option<Version>
    requires n <= |versions|
  {
    if n == 0 then None
    else if versions[n - 1].project == project then Some(versions[n - 1])
    else LatestIn(versions, n - 1, project)
  }

  function Latest(versions: seq<Version>, project: int): Option<Version> {
    LatestIn(versions, |versions|, project)
  }

  /** Version i continues its project's chain. */
  ghost predicate Linked(versions: seq<Version>, i: nat)
    requires i < |versions|
  {
    var before := LatestIn(versions, i, versions[i].project);
    && versions[i].parent == (if before.Some? then Some(before.value.id) else None)
    && (before.Some? ==> before.value.sha != versions[i].sha && before.value.id < versions[i].id)
  }

  /** Ids grow and every version continues its project's chain. */
  ghost predicate Chained(versions: seq<Version>) {
    && (forall i :: 0 <= i < |versions| ==> Linked(versions, i))
    && (forall i, j :: 0 <= i < j < |versions| ==> versions[i].id < versions[j].id)
  }

  lemma {:induction false} LatestInPrefix(a: seq<Version>, b: seq<Version>, n: nat, project: int)
    requires n <= |a| && a <= b
    ensures LatestIn(b, n, project) == LatestIn(a, n, project)
  {
    if n > 0 {
      LatestInPrefix(a, b, n - 1, project);
    }
  }

  /** A version that continues its project's chain may be added. */
  lemma ChainGrows(versions: seq<Version>, v: Version)
    requires Chained(versions) && forall i :: 0 <= i < |versions| ==> versions[i].id < v.id
    requires var before := Latest(versions, v.project);
             && v.parent == (if before.Some? then Some(before.value.id) else None)
             && (before.Some? ==> before.value.sha != v.sha)
    ensures Chained(versions + [v])
  {
    var after := versions + [v];
    forall i | 0 <= i < |after| ensures Linked(after, i) {
      LatestInPrefix(versions, after, i, after[i].project);
      if i < |versions| {
        assert Linked(versions, i);
      } else {
        LatestIsOne(versions, |versions|, v.project);
      }
    }
  }

  lemma {:induction false} LatestIsOne(versions: seq<Version>, n: nat, project: int)
    requires n <= |versions|
    ensures var l := LatestIn(versions, n, project);
            && (l.Some? ==> exists i :: 0 <= i < n && versions[i] == l.value && versions[i].project == project
                              && forall k :: i < k < n ==> versions[k].project != project)
            && (l.None? ==> forall k :: 0 <= k < n ==> versions[k].project != project)
  {
    if n > 0 && versions[n - 1].project != project {
      LatestIsOne(versions, n - 1, project);
    }
  }

  /** Of two versions of a project with none between them, the later names the earlier as its
      parent and has different contents by hash. */
  lemma ParentIsThePreviousVersion(versions: seq<Version>, i: nat, j: nat)
    requires Chained(versions) && i < j < |versions| && versions[i].project == versions[j].project
    requires forall k :: i < k < j ==> versions[k].project != versions[j].project
    ensures versions[j].parent == Some(versions[i].id) && versions[j].sha != versions[i].sha
  {
    assert Linked(versions, j);
    LatestIsOne(versions, j, versions[j].project);
    var k :| 0 <= k < j && versions[k] == LatestIn(versions, j, versions[j].project).value
             && versions[k].project == versions[j].project
             && forall m :: k < m < j ==> versions[m].project != versions[j].project;
    assert k == i;
  }

  // -------------------------------------------------------------------------
  // Snapshots
  // -------------------------------------------------------------------------

  predicate IsSource(source: string) {
    source == "manual" || source == "auto-dispatch" || source == "auto-cli" || source == "auto-rollback"
  }

  /** The result of a snapshot and the versions after it. */
  datatype Taken = Taken(result: Outcome<nat>, versions: seq<Version>)

  /** Storing entries: the latest version if its hash is the same, or a new one. */
  function Store(e: Env, versions: seq<Version>, newId: nat, project: int, source: string, entries: seq<Entry>): Taken {
    var latest := Latest(versions, project);
    var sha := AggregateOf(e, entries);
    if latest.Some? && latest.value.sha == sha then Taken(Ok(latest.value.id), versions)
    else if !DistinctPaths(entries) then Taken(IntegrityError, versions)
    else
      var parent := if latest.Some? then Some(latest.value.id) else None;
      Taken(Ok(newId), versions + [Version(newId, project, source, sha, parent, AsFiles(entries))])
  }

  function TakeSnapshot(e: Env, versions: seq<Version>, newId: nat, disk: Files, project: int, source: string, files: seq<Path>): Taken {
    if project <= 0 || !IsSource(source) || files == [] then Taken(ValueError, versions)
    else
      match Build(e, disk, files)
      case Ok(entries) => Store(e, versions, newId, project, source, entries)
      case ValueError => Taken(ValueError, versions)
      case FileNotFound => Taken(FileNotFound, versions)
      case IntegrityError => Taken(IntegrityError, versions)
  }

  /** Stored files lie inside the repository, are their own blobs and have the stored hash. */
  ghost predicate SoundVersion(e: Env, v: Version) {
    && (forall p :: p in v.files ==> e.inside(p) && BlobOf(e, p, v.files[p]) == v.files[p])
    && v.sha == e.aggregate(ShasOfFiles(e, v.files))
    && v.files != map[]
  }

  ghost predicate SoundStore(e: Env, versions: seq<Version>, newId: nat) {
    && Chained(versions)
    && (forall i :: 0 <= i < |versions| ==> SoundVersion(e, versions[i]) && versions[i].id < newId)
  }

  lemma {:induction false} BuiltEntries(e: Env, disk: Files, files: seq<Path>)
    requires Build(e, disk, files).Ok?
    ensures var entries := Build(e, disk, files).value;
            && |entries| == |files|
            && forall i :: 0 <= i < |files| ==>
                 e.inside(files[i]) && files[i] in disk && entries[i] == Entry(files[i], BlobOf(e, files[i], disk[files[i]]))
    decreases |files|
  {
    if files != [] {
      BuiltEntries(e, disk, files[..|files| - 1]);
    }
  }

  lemma {:induction false} BlobsOfEntries(entries: seq<Entry>, p: Path)
    requires p in AsFiles(entries)
    ensures exists i :: 0 <= i < |entries| && entries[i] == Entry(p, AsFiles(entries)[p])
    decreases |entries|
  {
    var first := entries[..|entries| - 1];
    if entries[|entries| - 1].path != p {
      BlobsOfEntries(first, p);
      var i :| 0 <= i < |first| && first[i] == Entry(p, AsFiles(first)[p]);
      assert entries[i] == first[i];
    }
  }

  lemma BuiltVersionIsSound(e: Env, disk: Files, files: seq<Path>, v: Version)
    requires RoundTrips(e) && files != [] && Build(e, disk, files).Ok?
    requires var entries := Build(e, disk, files).value;
             DistinctPaths(entries) && v.files == AsFiles(entries) && v.sha == AggregateOf(e, entries)
    ensures SoundVersion(e, v)
  {
    var entries := Build(e, disk, files).value;
    BuiltEntries(e, disk, files);
    ShasAreThoseOfFiles(e, entries);
    forall p | p in v.files ensures e.inside(p) && BlobOf(e, p, v.files[p]) == v.files[p] {
      BlobsOfEntries(entries, p);
      var i :| 0 <= i < |entries| && entries[i] == Entry(p, v.files[p]);
      RestoredBlobIsItself(e, p, disk[files[i]]);
    }
    KeysOfEntries(entries);
    assert entries[0].path in v.files;
  }

  /** Every snapshot keeps the chain and the stored versions sound. */
  lemma SnapshotKeepsTheStore(e: Env, versions: seq<Version>, newId: nat, disk: Files, project: int, source: string, files: seq<Path>)
    requires RoundTrips(e) && SoundStore(e, versions, newId)
    ensures var taken := TakeSnapshot(e, versions, newId, disk, project, source, files);
            SoundStore(e, taken.versions, newId + 1) && versions <= taken.versions
  {
    var taken := TakeSnapshot(e, versions, newId, disk, project, source, files);
    if taken.versions != versions {
      var v := taken.versions[|versions|];
      BuiltVersionIsSound(e, disk, files, v);
      ChainGrows(versions, v);
    }
  }

  /** v is these files as they are on disk. */
  ghost predicate Holds(e: Env, v: Version, disk: Files, files: seq<Path>) {
    && v.files.Keys == (set p | p in files)
    && forall p :: p in v.files ==> p in disk && v.files[p] == BlobOf(e, p, disk[p])
  }

  /** v has the hash of these files as they are on disk. */
  ghost predicate HasTheirHash(e: Env, v: Version, disk: Files, files: seq<Path>) {
    Build(e, disk, files).Ok? && v.sha == AggregateOf(e, Build(e, disk, files).value)
  }

  /** Why a snapshot is refused. */
  lemma SnapshotRefusesIff(e: Env, versions: seq<Version>, newId: nat, disk: Files, project: int, source: string, files: seq<Path>)
    ensures TakeSnapshot(e, versions, newId, disk, project, source, files).result.ValueError? <==>
              || project <= 0 || source !in {"manual", "auto-dispatch", "auto-cli", "auto-rollback"} || files == []
              || Build(e, disk, files).ValueError?
  {
  }

  lemma BuiltFilesAreHeld(e: Env, disk: Files, files: seq<Path>, v: Version)
    requires Build(e, disk, files).Ok? && v.files == AsFiles(Build(e, disk, files).value)
    ensures Holds(e, v, disk, files)
  {
    var entries := Build(e, disk, files).value;
    BuiltEntries(e, disk, files);
    KeysOfEntries(entries);
    forall p ensures p in v.files <==> p in files {
      if p in files {
        var i :| 0 <= i < |files| && files[i] == p;
        assert entries[i].path == p;
      }
    }
    forall p | p in v.files ensures p in disk && v.files[p] == BlobOf(e, p, disk[p]) {
      BlobsOfEntries(entries, p);
      var i :| 0 <= i < |entries| && entries[i] == Entry(p, v.files[p]);
    }
  }

  /** What a snapshot that succeeds leaves behind: the project's latest version has the hash
      of the files as they are, and a new one is these files. */
  lemma SnapshotKeepsTheFiles(e: Env, versions: seq<Version>, newId: nat, disk: Files, project: int, source: string, files: seq<Path>)
    requires TakeSnapshot(e, versions, newId, disk, project, source, files).result.Ok?
    ensures var taken := TakeSnapshot(e, versions, newId, disk, project, source, files);
            var latest := Latest(taken.versions, project);
            && latest.Some? && latest.value.id == taken.result.value && HasTheirHash(e, latest.value, disk, files)
            && (taken.versions == versions || (|taken.versions| == |versions| + 1 && Holds(e, latest.value, disk, files)))
  {
    var taken := TakeSnapshot(e, versions, newId, disk, project, source, files);
    if taken.versions != versions {
      BuiltFilesAreHeld(e, disk, files, taken.versions[|versions|]);
    }
  }

  /** The two hashes tell these files apart from those of v, if they differ. */
  ghost predicate NoCollision(e: Env, v: Version, disk: Files, files: seq<Path>) {
    && (forall shas :: shas == ShasOfFiles(e, v.files) && e.aggregate(shas) == v.sha && HasTheirHash(e, v, disk, files) ==>
          shas == Shas(e, Build(e, disk, files).value))
    && (forall p :: p in v.files && p in disk && e.sha(v.files[p]) == e.sha(BlobOf(e, p, disk[p])) ==> v.files[p] == BlobOf(e, p, disk[p]))
  }

  lemma {:induction false} EntryHasASha(e: Env, entries: seq<Entry>, x: FileSha)
    ensures x in Shas(e, entries) <==> exists i :: 0 <= i < |entries| && FileSha(entries[i].path, e.sha(entries[i].blob)) == x
    decreases |entries|
  {
    if entries != [] {
      var first := entries[..|entries| - 1];
      EntryHasASha(e, first, x);
      if i :| 0 <= i < |entries| && FileSha(entries[i].path, e.sha(entries[i].blob)) == x {
        assert i < |first| ==> first[i] == entries[i];
      }
      if i :| 0 <= i < |first| && FileSha(first[i].path, e.sha(first[i].blob)) == x {
        assert entries[i] == first[i];
      }
    }
  }

  /** Without a collision of hashes, a version with the hash of these files is these files. */
  lemma SameHashSameFiles(e: Env, v: Version, disk: Files, files: seq<Path>)
    requires SoundVersion(e, v) && HasTheirHash(e, v, disk, files) && NoCollision(e, v, disk, files)
    ensures Holds(e, v, disk, files)
  {
    var entries := Build(e, disk, files).value;
    BuiltEntries(e, disk, files);
    assert Shas(e, entries) == ShasOfFiles(e, v.files);
    forall p ensures p in v.files <==> p in files {
      if p in v.files {
        var x := FileSha(p, e.sha(v.files[p]));
        assert x in ShasOfFiles(e, v.files);
        EntryHasASha(e, entries, x);
      }
      if p in files {
        var i :| 0 <= i < |files| && files[i] == p;
        EntryHasASha(e, entries, FileSha(p, e.sha(entries[i].blob)));
        assert FileSha(p, e.sha(entries[i].blob)) in ShasOfFiles(e, v.files);
      }
    }
    forall p | p in v.files ensures p in disk && v.files[p] == BlobOf(e, p, disk[p]) {
      var x := FileSha(p, e.sha(v.files[p]));
      assert x in ShasOfFiles(e, v.files);
      EntryHasASha(e, entries, x);
    }
  }

  /** Files restored from a version, listed once each in any order, have that version's blobs
      and its hash: a snapshot of them is that version again. */
  lemma RestoredVersionIsItself(e: Env, v: Version, disk: Files, files: seq<Path>)
    requires SoundVersion(e, v)
    requires forall p :: p in files <==> p in v.files
    requires forall i, j :: 0 <= i < j < |files| ==> files[i] != files[j]
    ensures var built := Build(e, disk + v.files, files);
            built.Ok? && AsFiles(built.value) == v.files && AggregateOf(e, built.value) == v.sha
  {
    BuildsRestored(e, v, disk, files);
    var entries := Build(e, disk + v.files, files).value;
    ShasAreThoseOfFiles(e, entries);
    FilesOfRestored(v.files, files, entries);
  }

  lemma FilesOfRestored(stored: Files, files: seq<Path>, entries: seq<Entry>)
    requires forall p :: p in files <==> p in stored
    requires |entries| == |files| && forall i :: 0 <= i < |files| ==> files[i] in stored && entries[i] == Entry(files[i], stored[files[i]])
    ensures AsFiles(entries) == stored
  {
    KeysOfEntries(entries);
    forall p | p in stored ensures p in AsFiles(entries) {
      var i :| 0 <= i < |files| && files[i] == p;
      assert entries[i].path == p;
    }
    forall p | p in AsFiles(entries) ensures p in stored && AsFiles(entries)[p] == stored[p] {
      BlobsOfEntries(entries, p);
      var i :| 0 <= i < |entries| && entries[i] == Entry(p, AsFiles(entries)[p]);
      assert files[i] == p;
    }
  }

  lemma {:induction false} BuildsRestored(e: Env, v: Version, disk: Files, files: seq<Path>)
    requires SoundVersion(e, v) && forall p :: p in files ==> p in v.files
    ensures var built := Build(e, disk + v.files, files);
            && built.Ok? && |built.value| == |files|
            && forall i :: 0 <= i < |files| ==> built.value[i] == Entry(files[i], v.files[files[i]])
    decreases |files|
  {
    if files != [] {
      BuildsRestored(e, v, disk, files[..|files| - 1]);
      assert files[|files| - 1] in v.files;
    }
  }

  // -------------------------------------------------------------------------
  // The service
  // -------------------------------------------------------------------------

  /** The version with an id, if there is one. */
  function VersionOf(versions: seq<Version>, id: nat): (v: Option<Version>)
    ensures v.None? <==> forall i :: 0 <= i < |versions| ==> versions[i].id != id
    ensures v.Some? ==> v.value in versions && v.value.id == id
  {
    if versions == [] then None
    else if versions[|versions| - 1].id == id then Some(versions[|versions| - 1])
    else VersionOf(versions[..|versions| - 1], id)
  }

  /** A stored version is found by its id. */
  lemma {:induction false} StoredVersionIsFound(versions: seq<Version>, i: nat)
    requires i < |versions| && forall j, k :: 0 <= j < k < |versions| ==> versions[j].id < versions[k].id
    ensures VersionOf(versions, versions[i].id) == Some(versions[i])
    decreases |versions|
  {
    var last := |versions| - 1;
    if i < last {
      assert versions[i].id < versions[last].id;
      StoredVersionIsFound(versions[..last], i);
    }
  }

  /** Every file of v is on disk as the project's latest version holds it. */
  ghost predicate CleanUnder(e: Env, versions: seq<Version>, disk: Files, v: Version) {
    var latest := Latest(versions, v.project);
    latest.Some? ==> forall p :: p in v.files ==> !IsDirty(e, disk, latest.value.files, p)
  }

  /** Nothing is in the way of the rollback, and the snapshot before it succeeds. */
  ghost predicate Restorable(e: Env, versions: seq<Version>, newId: nat, disk: Files, v: Version, force: bool, defaults: seq<Path>) {
    && (force || CleanUnder(e, versions, disk, v))
    && TakeSnapshot(e, versions, newId, disk, v.project, "auto-rollback", defaults).result.Ok?
  }

  /** What was on disk is not lost: the project's latest version is these files, or it was
      there before and has their hash. */
  ghost predicate Kept(e: Env, before: seq<Version>, versions: seq<Version>, project: int, disk: Files, files: seq<Path>) {
    var latest := Latest(versions, project);
    && latest.Some? && HasTheirHash(e, latest.value, disk, files)
    && (Holds(e, latest.value, disk, files) || versions == before)
  }

  lemma KeptIfTaken(e: Env, versions: seq<Version>, newId: nat, disk: Files, project: int, files: seq<Path>)
    ensures var taken := TakeSnapshot(e, versions, newId, disk, project, "auto-rollback", files);
            taken.result.Ok? ==> Kept(e, versions, taken.versions, project, disk, files)
  {
    if TakeSnapshot(e, versions, newId, disk, project, "auto-rollback", files).result.Ok? {
      SnapshotKeepsTheFiles(e, versions, newId, disk, project, "auto-rollback", files);
    }
  }

  /** A file whose blob is not the one the latest version holds, or that it does not hold, or
      that is missing, is enough for a rollback without force to be refused. */
  lemma EditedFileRefusesIff(e: Env, versions: seq<Version>, newId: nat, disk: Files, v: Version, defaults: seq<Path>)
    requires Latest(versions, v.project).Some?
    requires TakeSnapshot(e, versions, newId, disk, v.project, "auto-rollback", defaults).result.Ok?
    ensures !Restorable(e, versions, newId, disk, v, false, defaults) <==>
              exists p :: p in v.files && (p in disk && p in Latest(versions, v.project).value.files ==>
                                             BlobOf(e, p, disk[p]) != Latest(versions, v.project).value.files[p])
  {
    var latest := Latest(versions, v.project).value.files;
    if p :| p in v.files && (p in disk && p in latest ==> BlobOf(e, p, disk[p]) != latest[p]) {
      assert IsDirty(e, disk, latest, p);
    }
  }

  /** A file the rollback would overwrite although the latest version does not hold it. */
  predicate IsDirty(e: Env, disk: Files, latest: Files, path: Path) {
    path !in latest || path !in disk || BlobOf(e, path, disk[path]) != latest[path]
  }

  class Service {
    const env: Env
    var disk: Files
    var versions: seq<Version>
    var nextId: nat

    constructor (env: Env, disk: Files)
      ensures this.env == env && this.disk == disk && versions == [] && Valid()
    {
      this.env, this.disk, versions, nextId := env, disk, [], 1;
    }

    ghost predicate Valid()
      reads this`versions, this`nextId
    {
      SoundStore(env, versions, nextId)
    }

    method BuildEntries(files: seq<Path>) returns (r: Outcome<seq<Entry>>)
      ensures r == Build(env, disk, files)
    {
      var entries: seq<Entry> := [];
      for i := 0 to |files|
        invariant Build(env, disk, files[..i]) == Ok(entries)
      {
        var path := files[i];
        assert files[..i + 1][..i] == files[..i];
        if !env.inside(path) {
          BuildFails(env, disk, files, i);
          return ValueError;
        }
        if path !in disk {
          BuildFails(env, disk, files, i);
          return FileNotFound;
        }
        entries := entries + [Entry(path, BlobOf(env, path, disk[path]))];
      }
      assert files[..|files|] == files;
      return Ok(entries);
    }

    /** snapshot; defaults is what _default_files finds when no files are given. */
    method Snapshot(project: int, source: string, files: Option<seq<Path>>, defaults: seq<Path>) returns (r: Outcome<nat>)
      requires RoundTrips(env) && Valid()
      modifies this`versions, this`nextId
      ensures Valid() && old(versions) <= versions
      ensures Taken(r, versions) == TakeSnapshot(env, old(versions), old(nextId), disk, project, source,
                                                 if files.Some? then files.value else defaults)
    {
      var list := if files.Some? then files.value else defaults;
      SnapshotKeepsTheStore(env, versions, nextId, disk, project, source, list);
      if project <= 0 || !IsSource(source) || list == [] {
        return ValueError;
      }
      var built := BuildEntries(list);
      match built {
        case ValueError => return ValueError;
        case FileNotFound => return FileNotFound;
        case IntegrityError => return IntegrityError;
        case Ok(entries) =>
          var sha := AggregateOf(env, entries);
          var latest := Latest(versions, project);
          if latest.Some? && latest.value.sha == sha {
            return Ok(latest.value.id);
          }
          var parent := if latest.Some? then Some(latest.value.id) else None;
          if !DistinctPaths(entries) {
            return IntegrityError;
          }
          var id := nextId;
          versions := versions + [Version(id, project, source, sha, parent, AsFiles(entries))];
          nextId := nextId + 1;
          return Ok(id);
      }
    }

    /** _dirty_files */
    method DirtyFiles(targets: set<Path>, project: int) returns (dirty: set<Path>)
      ensures dirty == var latest := Latest(versions, project);
                if latest.None? then {} else set p | p in targets && IsDirty(env, disk, latest.value.files, p)
    {
      var latest := Latest(versions, project);
      dirty := {};
      if latest.None? {
        return;
      }
      var todo := targets;
      while todo != {}
        invariant todo <= targets
        invariant dirty == set p | p in targets - todo && IsDirty(env, disk, latest.value.files, p)
        decreases |todo|
      {
        var path :| path in todo;
        todo := todo - {path};
        if path !in latest.value.files || path !in disk || BlobOf(env, path, disk[path]) != latest.value.files[path] {
          dirty := dirty + {path};
        }
      }
    }

    /** rollback once the version is found: a snapshot of the default files, then the version's files. */
    method Restore(v: Version, force: bool, defaults: seq<Path>) returns (r: Outcome<set<Path>>)
      requires RoundTrips(env) && Valid()
      modifies this
      ensures Valid() && old(versions) <= versions
      ensures r.Ok? <==> Restorable(env, old(versions), old(nextId), old(disk), v, force, defaults)
      ensures !r.Ok? ==> disk == old(disk)
      ensures r.Ok? ==> r.value == v.files.Keys && disk == old(disk) + v.files
      ensures versions == if force || CleanUnder(env, old(versions), old(disk), v)
                          then TakeSnapshot(env, old(versions), old(nextId), old(disk), v.project, "auto-rollback", defaults).versions
                          else old(versions)
    {
      if !force {
        var dirty := DirtyFiles(v.files.Keys, v.project);
        NothingDirtyIff(env, versions, disk, v, dirty);
        if dirty != {} {
          return ValueError;
        }
      }
      var taken := Snapshot(v.project, "auto-rollback", None, defaults);
      match taken {
        case ValueError => return ValueError;
        case FileNotFound => return FileNotFound;
        case IntegrityError => return IntegrityError;
        case Ok(_) =>
          WriteFiles(v.files);
          return Ok(v.files.Keys);
      }
    }

    /** rollback: without force only over files that are as the project's latest version holds
        them; on an error, and on a dry run, no file is touched. */
    method Rollback(id: nat, dryRun: bool, force: bool, defaults: seq<Path>) returns (r: Outcome<set<Path>>)
      requires RoundTrips(env) && Valid()
      modifies this
      ensures Valid() && old(versions) <= versions
      ensures VersionOf(old(versions), id).None? ==> r.ValueError?
      ensures r.Ok? <==> var found := VersionOf(old(versions), id);
                found.Some? && (dryRun || Restorable(env, old(versions), old(nextId), old(disk), found.value, force, defaults))
      ensures !r.Ok? || dryRun ==> disk == old(disk)
      ensures dryRun ==> versions == old(versions)
      ensures r.Ok? ==> VersionOf(old(versions), id).Some? && r.value == VersionOf(old(versions), id).value.files.Keys && r.value != {}
      ensures r.Ok? && !dryRun ==> Kept(env, old(versions), versions, VersionOf(old(versions), id).value.project, old(disk), defaults)
      ensures r.Ok? && !dryRun ==>
                && disk == old(disk) + VersionOf(old(versions), id).value.files
                && (forall p :: p in VersionOf(old(versions), id).value.files ==>
                      BlobOf(env, p, disk[p]) == VersionOf(old(versions), id).value.files[p])
    {
      var found := VersionOf(versions, id);
      if found.None? {
        return ValueError;
      }
      assert SoundVersion(env, found.value);
      if dryRun {
        return Ok(found.value.files.Keys);
      }
      KeptIfTaken(env, versions, nextId, disk, found.value.project, defaults);
      r := Restore(found.value, force, defaults);
    }

    method WriteFiles(files: Files)
      modifies this`disk
      ensures disk == old(disk) + files
    {
      var todo := files.Keys;
      while todo != {}
        invariant todo <= files.Keys && disk.Keys == old(disk).Keys + (files.Keys - todo)
        invariant forall p :: p in disk ==> disk[p] == if p in files && p !in todo then files[p] else old(disk)[p]
        decreases |todo|
      {
        var path :| path in todo;
        todo := todo - {path};
        disk := disk[path := files[path]];
      }
    }
  }

  lemma NothingDirtyIff(e: Env, versions: seq<Version>, disk: Files, v: Version, dirty: set<Path>)
    requires dirty == var latest := Latest(versions, v.project);
               if latest.None? then {} else set p | p in v.files.Keys && IsDirty(e, disk, latest.value.files, p)
    ensures dirty == {} <==> CleanUnder(e, versions, disk, v)
  {
    var latest := Latest(versions, v.project);
    if latest.Some? {
      forall p | p in v.files ensures p in dirty <==> IsDirty(e, disk, latest.value.files, p) {
      }
      if CleanUnder(e, versions, disk, v) {
        assert dirty == {};
      }
    }
  }

  lemma {:induction false} BuildFails(e: Env, disk: Files, files: seq<Path>, i: nat)
    requires i < |files| && Build(e, disk, files[..i]).Ok? && (!e.inside(files[i]) || files[i] !in disk)
    ensures Build(e, disk, files) == if !e.inside(files[i]) then ValueError else FileNotFound
    decreases |files|
  {
    if i == |files| - 1 {
      assert files[..i] == files[..|files| - 1];
    } else {
      assert files[..|files| - 1][..i] == files[..i];
      BuildFails(e, disk, files[..|files| - 1], i);
    }
  }
}
