/** The credential bundle of an Agent on disk: material files and a manifest that is
    written last. */
module CredentialBundles {
  import opened Primitives

  /** What enrollment publishes; the server CA beside it is constant. */
  datatype Bundle = Bundle(generation: nat, certificate: Bytes, key: Bytes)

  /** Generations never go back, and a repeated generation is the same bundle. */
  ghost predicate Progressive(bundles: seq<Bundle>) {
    forall i, j {:trigger bundles[i].generation, bundles[j].generation} | 0 <= i < j < |bundles| ::
      && bundles[i].generation <= bundles[j].generation
      && (bundles[i].generation == bundles[j].generation ==> bundles[i] == bundles[j])
  }

  const MAX_RELOAD_MATERIAL_BYTES := 1024 * 1024

  datatype Part = ServerCa | ClientCertificate | ClientPrivateKey

  datatype Manifest = Manifest(generation: nat, files: map<Part, Digest<Bytes>>)

  datatype Directory = Directory(files: map<Part, Bytes>, manifest: Option<Manifest>)

  function Material(ca: Bytes, b: Bundle): map<Part, Bytes> {
    map[ServerCa := ca, ClientCertificate := b.certificate, ClientPrivateKey := b.key]
  }

  function ManifestOf(ca: Bytes, b: Bundle): Manifest {
    Manifest(b.generation, map part | part in Material(ca, b) :: Sha256(Material(ca, b)[part]))
  }

  // ------------------------------------------------------------- publication

  /** A replacement removes the old file before the new one gets its name. */
  function Removed(dir: Directory, n: nat): Directory {
    if n == 0 then dir.(files := dir.files - {ServerCa})
    else if n == 1 then dir.(files := dir.files - {ClientCertificate})
    else if n == 2 then dir.(files := dir.files - {ClientPrivateKey})
    else dir.(manifest := None)
  }

  /** The end of the n-th of the four file replacements of one publication. */
  function Written(dir: Directory, ca: Bytes, b: Bundle, n: nat): Directory {
    if n == 0 then dir.(files := dir.files[ServerCa := ca])
    else if n == 1 then dir.(files := dir.files[ClientCertificate := b.certificate])
    else if n == 2 then dir.(files := dir.files[ClientPrivateKey := b.key])
    else dir.(manifest := Some(ManifestOf(ca, b)))
  }

  function Replaced(dir: Directory, ca: Bytes, b: Bundle, n: nat): Directory {
    Written(Removed(dir, n), ca, b, n)
  }

  /** The two states that one replacement takes the directory through. */
  function Replacement(dir: Directory, ca: Bytes, b: Bundle, n: nat): seq<Directory> {
    [Removed(dir, n), Replaced(dir, ca, b, n)]
  }

  /** The states that one publication takes the directory through. */
  function Stages(dir: Directory, ca: Bytes, b: Bundle): seq<Directory> {
    var one, two := Replaced(dir, ca, b, 0), Replaced(Replaced(dir, ca, b, 0), ca, b, 1);
    Replacement(dir, ca, b, 0) + Replacement(one, ca, b, 1) + Replacement(two, ca, b, 2)
    + Replacement(Replaced(two, ca, b, 2), ca, b, 3)
  }

  datatype BundleError = InvalidPath | InvalidMaterial | Io

  lemma ManifestDigests(ca: Bytes, b: Bundle, digests: map<Part, Digest<Bytes>>)
    requires digests == map[ServerCa := Sha256(ca), ClientCertificate := Sha256(b.certificate),
                            ClientPrivateKey := Sha256(b.key)]
    ensures ManifestOf(ca, b) == Manifest(b.generation, digests)
  {
    assert ManifestOf(ca, b).files == digests;
  }

  class BundleDirectory {
    var files: map<Part, Bytes>
    var manifest: Option<Manifest>
    /** Every state of the directory, as a crash or a reader may find it. */
    ghost var trail: seq<Directory>

    ghost predicate Valid()
      reads this
    {
      trail != [] && trail[|trail| - 1] == Directory(files, manifest)
    }

    constructor ()
      ensures Valid() && trail == [Directory(map[], None)]
    {
      files, manifest, trail := map[], None, [Directory(map[], None)];
    }

    /** One file is replaced; `works` of the removal and the renaming succeed. */
    method ReplaceFile(part: Part, bytes: Bytes, works: nat) returns (ok: bool)
      requires Valid()
      modifies this
      ensures Valid() && manifest == old(manifest) && ok == (works >= 2)
      ensures var gone := old(files) - {part};
              && trail == old(trail) + [Directory(gone, manifest), Directory(gone[part := bytes], manifest)][..Min(works, 2)]
              && (ok ==> files == gone[part := bytes])
    {
      if works == 0 { return false; }
      files := files - {part};
      trail := trail + [Directory(files, manifest)];
      if works == 1 { return false; }
      files := files[part := bytes];
      trail := trail + [Directory(files, manifest)];
      return true;
    }

    method ReplaceManifest(m: Manifest, works: nat) returns (ok: bool)
      requires Valid()
      modifies this
      ensures Valid() && files == old(files) && ok == (works >= 2)
      ensures trail == old(trail) + [Directory(files, None), Directory(files, Some(m))][..Min(works, 2)]
    {
      if works == 0 { return false; }
      manifest := None;
      trail := trail + [Directory(files, manifest)];
      if works == 1 { return false; }
      manifest := Some(m);
      trail := trail + [Directory(files, manifest)];
      return true;
    }

    /** The material, one file after the other. */
    method ReplaceMaterial(ca: Bytes, certificate: Bytes, key: Bytes, works: nat, ghost b: Bundle) returns (ok: bool)
      requires Valid() && certificate == b.certificate && key == b.key
      modifies this
      ensures Valid() && ok == (works >= 6)
      ensures var dir := old(Directory(files, manifest));
              var one, two := Replaced(dir, ca, b, 0), Replaced(Replaced(dir, ca, b, 0), ca, b, 1);
              && trail == old(trail) + (Replacement(dir, ca, b, 0) + Replacement(one, ca, b, 1)
                                        + Replacement(two, ca, b, 2))[..Min(works, 6)]
              && (ok ==> Directory(files, manifest) == Replaced(two, ca, b, 2))
    {
      ok := ReplaceFile(ServerCa, ca, works);
      if !ok { return; }
      ok := ReplaceFile(ClientCertificate, certificate, works - 2);
      if !ok { return; }
      ok := ReplaceFile(ClientPrivateKey, key, works - 4);
    }

    /** Material first, manifest last: the directory goes through exactly the states of
        the publication, through the first `works` of them if a later removal or renaming
        fails, and through none if a path or the material is refused. */
    method Publish(paths: bool, generation: nat, ca: Bytes, certificate: Bytes, key: Bytes, works: nat)
      returns (r: Result<(), BundleError>)
      requires Valid()
      modifies this
      ensures Valid()
      ensures r == Err(InvalidPath) <==> !paths
      ensures r == Err(InvalidMaterial) <==> paths && (generation == 0 || ca == [] || certificate == [] || key == [])
      ensures r == Err(Io) ==> works < 8
      ensures r.Err? && !r.error.Io? ==> trail == old(trail)
      ensures r.Ok? || r == Err(Io) ==>
                trail == old(trail) + Stages(old(Directory(files, manifest)), ca, Bundle(generation, certificate, key))
                                      [..Min(works, 8)]
    {
      if !paths { return Err(InvalidPath); }
      if generation == 0 || ca == [] || certificate == [] || key == [] { return Err(InvalidMaterial); }
      ghost var b := Bundle(generation, certificate, key);
      var ok := ReplaceMaterial(ca, certificate, key, works, b);
      if !ok { return Err(Io); }
      var digests := map[ServerCa := Sha256(ca), ClientCertificate := Sha256(certificate), ClientPrivateKey := Sha256(key)];
      ManifestDigests(ca, b, digests);
      ok := ReplaceManifest(Manifest(generation, digests), works - 6);
      return if ok then Ok(()) else Err(Io);
    }
  }

  // ----------------------------------------------------------------- loading

  datatype Loaded = Loaded(generation: nat, digest: Digest<Manifest>, files: map<Part, Bytes>)

  datatype LoadError = ManifestIo | InvalidManifest | FileSet | MaterialIo(part: Part) | DigestMismatch(part: Part)

  /** The file read at its moment is there, not too long, and what the manifest says. */
  predicate Matches(m: Manifest, dir: Directory, part: Part) {
    && part in m.files && part in dir.files
    && |dir.files[part]| <= MAX_RELOAD_MATERIAL_BYTES
    && Sha256(dir.files[part]) == m.files[part]
  }

  predicate HeaderOk(m: Manifest, parts: seq<Part>) {
    && m.generation != 0 && m.files != map[]
    && ToSet(parts) == m.files.Keys && |ToSet(parts)| == |parts|
  }

  predicate MatchesUpTo(m: Manifest, seen: seq<Directory>, parts: seq<Part>, n: nat)
    requires |seen| == |parts| + 1 && n <= |parts|
  {
    forall i {:trigger parts[i]} | 0 <= i < n :: Matches(m, seen[i + 1], parts[i])
  }

  /** `seen[0]` is the directory when the manifest was read, `seen[i + 1]` when the
      i-th file was: a publication may run between any two reads. */
  predicate Loadable(seen: seq<Directory>, parts: seq<Part>)
    requires |seen| == |parts| + 1
  {
    && seen[0].manifest.Some?
    && HeaderOk(seen[0].manifest.value, parts)
    && MatchesUpTo(seen[0].manifest.value, seen, parts, |parts|)
  }

  /** Every loaded file is what the manifest promises of it. */
  predicate Agrees(m: Manifest, files: map<Part, Bytes>) {
    forall part | part in files :: part in m.files && Sha256(files[part]) == m.files[part]
  }

  /** The error names the first file that does not match, and whether it could be read at all. */
  ghost predicate FirstMismatch(m: Manifest, seen: seq<Directory>, parts: seq<Part>, e: LoadError)
    requires |seen| == |parts| + 1 && (e.MaterialIo? || e.DigestMismatch?)
  {
    exists i | 0 <= i < |parts| ::
      && MatchesUpTo(m, seen, parts, i) && e.part == parts[i] && !Matches(m, seen[i + 1], parts[i])
      && (e.MaterialIo? <==>
            parts[i] !in seen[i + 1].files || |seen[i + 1].files[parts[i]]| > MAX_RELOAD_MATERIAL_BYTES)
  }

  method LoadGeneration(seen: seq<Directory>, parts: seq<Part>) returns (r: Result<Loaded, LoadError>)
    requires |seen| == |parts| + 1
    ensures r.Ok? <==> Loadable(seen, parts)
    ensures r.Ok? ==>
              && r.value.generation == seen[0].manifest.value.generation
              && r.value.digest == Sha256(seen[0].manifest.value)
              && r.value.files.Keys == ToSet(parts) && Agrees(seen[0].manifest.value, r.value.files)
    ensures r == Err(ManifestIo) <==> seen[0].manifest.None?
    ensures r == Err(InvalidManifest) <==>
            seen[0].manifest.Some? && (seen[0].manifest.value.generation == 0 || seen[0].manifest.value.files == map[])
    ensures r.Err? && (r.error.MaterialIo? || r.error.DigestMismatch?) ==>
              seen[0].manifest.Some? && FirstMismatch(seen[0].manifest.value, seen, parts, r.error)
  {
    if seen[0].manifest.None? { return Err(ManifestIo); }
    var manifest := seen[0].manifest.value;
    if manifest.generation == 0 || manifest.files == map[] { return Err(InvalidManifest); }
    if ToSet(parts) != manifest.files.Keys || |ToSet(parts)| != |parts| { return Err(FileSet); }
    var files: map<Part, Bytes> := map[];
    for i := 0 to |parts|
      invariant MatchesUpTo(manifest, seen, parts, i)
      invariant files.Keys == ToSet(parts[..i]) && Agrees(manifest, files)
    {
      var part := parts[i];
      assert part in ToSet(parts);
      assert ToSet(parts[..i + 1]) == ToSet(parts[..i]) + {part};
      if part !in seen[i + 1].files || |seen[i + 1].files[part]| > MAX_RELOAD_MATERIAL_BYTES {
        return Err(MaterialIo(part));
      }
      var bytes := seen[i + 1].files[part];
      if Sha256(bytes) != manifest.files[part] { return Err(DigestMismatch(part)); }
      files := files[part := bytes];
    }
    assert parts[..|parts|] == parts;
    return Ok(Loaded(manifest.generation, Sha256(manifest), files));
  }

  // ---------------------------------------------------------- reader and writer

  datatype Writer = Resting | Writing(bundle: Bundle, done: nat, removed: bool)

  /** A directory under publication, with the bundles whose publication has begun. */
  datatype State = State(dir: Directory, writer: Writer, begun: seq<Bundle>)

  /** One step of the publishing side: a publication begins, removes the next file it
      replaces, puts the new one there, or is cut off by a crash or an error. */
  predicate Next(ca: Bytes, s: State, t: State) {
    || t == s
    || (s.writer.Resting? && t.writer.Writing? && t.writer == Writing(t.writer.bundle, 0, false) && t.dir == s.dir
        && t.begun == s.begun + [t.writer.bundle])
    || (s.writer.Writing? && s.writer.done < 4 && !s.writer.removed
        && t == State(Removed(s.dir, s.writer.done), s.writer.(removed := true), s.begun))
    || (s.writer.Writing? && s.writer.done < 4 && s.writer.removed && t.begun == s.begun
        && t.dir == Written(s.dir, ca, s.writer.bundle, s.writer.done)
        && t.writer == if s.writer.done == 3 then Resting else Writing(s.writer.bundle, s.writer.done + 1, false))
    || t == s.(writer := Resting)
  }

  predicate StepAt(ca: Bytes, states: seq<State>, i: nat)
    requires 0 < i < |states|
  {
    Next(ca, states[i - 1], states[i])
  }

  ghost predicate History(ca: Bytes, states: seq<State>) {
    && states != [] && states[0] == State(Directory(map[], None), Resting, [])
    && forall i {:trigger StepAt(ca, states, i)} | 0 < i < |states| :: StepAt(ca, states, i)
  }

  /** The manifest is that of a bundle whose publication has begun; the one being
      written is the latest. */
  ghost predicate Sealed(ca: Bytes, s: State) {
    && (s.writer.Writing? ==> s.begun != [] && s.writer.bundle == s.begun[|s.begun| - 1])
    && (s.dir.manifest.Some? ==> exists k :: 0 <= k < |s.begun| && s.dir.manifest.value == ManifestOf(ca, s.begun[k]))
  }

  lemma StepKeepsSealed(ca: Bytes, s: State, t: State)
    requires Sealed(ca, s) && Next(ca, s, t)
    ensures Sealed(ca, t) && s.begun <= t.begun
  {
    if s.dir.manifest.Some? {
      var k :| 0 <= k < |s.begun| && s.dir.manifest.value == ManifestOf(ca, s.begun[k]);
      assert t.begun[k] == s.begun[k];
    }
    if t.dir.manifest != s.dir.manifest && t.dir.manifest.Some? {
      assert t.dir.manifest.value == ManifestOf(ca, t.begun[|t.begun| - 1]);
    }
  }

  lemma {:induction false} HistoryIsSealed(ca: Bytes, states: seq<State>, i: nat, j: nat)
    requires History(ca, states) && i <= j < |states|
    ensures Sealed(ca, states[i]) && states[i].begun <= states[j].begun
    decreases j
  {
    if i < j {
      HistoryIsSealed(ca, states, i, j - 1);
      HistoryIsSealed(ca, states, j - 1, j - 1);
      assert StepAt(ca, states, j);
      StepKeepsSealed(ca, states[j - 1], states[j]);
    } else if i > 0 {
      HistoryIsSealed(ca, states, i - 1, i - 1);
      assert StepAt(ca, states, i);
      StepKeepsSealed(ca, states[i - 1], states[i]);
    }
  }

  /** Torn loads are refused: whatever publications run between its reads, a load that
      succeeds returns, whole, one bundle whose publication had begun before the
      manifest was read. */
  lemma LoadIsWhole(ca: Bytes, states: seq<State>, times: seq<nat>, seen: seq<Directory>, parts: seq<Part>,
                    loaded: Loaded) returns (b: Bundle)
    requires History(ca, states) && |times| == |seen| == |parts| + 1
    requires forall i | 0 <= i < |times| :: times[i] < |states| && seen[i] == states[times[i]].dir
    requires Loadable(seen, parts)
    requires var m := seen[0].manifest.value;
             && loaded.generation == m.generation && loaded.digest == Sha256(m)
             && loaded.files.Keys == ToSet(parts) && Agrees(m, loaded.files)
    ensures b in states[times[0]].begun
    ensures loaded == Loaded(b.generation, Sha256(ManifestOf(ca, b)), Material(ca, b))
  {
    var s := states[times[0]];
    HistoryIsSealed(ca, states, times[0], times[0]);
    var k :| 0 <= k < |s.begun| && s.dir.manifest.value == ManifestOf(ca, s.begun[k]);
    b := s.begun[k];
    assert loaded.files == Material(ca, b);
  }

  /** The order in which manifests may replace each other. */
  predicate NotNewer(a: Manifest, b: Manifest) {
    a.generation <= b.generation && (a.generation == b.generation ==> a == b)
  }

  lemma PrefixProgresses(a: seq<Bundle>, b: seq<Bundle>)
    requires a <= b && Progressive(b)
    ensures Progressive(a)
  {
    forall i, j | 0 <= i < j < |a|
      ensures a[i].generation <= a[j].generation && (a[i].generation == a[j].generation ==> a[i] == a[j])
    {
      assert b[i].generation <= b[j].generation;
    }
  }

  /** A manifest found later is the one found before, or of a bundle begun no earlier. */
  ghost predicate Follows(ca: Bytes, s: State, t: State) {
    t.dir.manifest.Some? && t.dir.manifest != s.dir.manifest ==>
      exists k :: |s.begun| - 1 <= k < |t.begun| && 0 <= k && t.dir.manifest.value == ManifestOf(ca, t.begun[k])
  }

  lemma {:induction false} HistoryFollows(ca: Bytes, states: seq<State>, i: nat, j: nat)
    requires History(ca, states) && i <= j < |states|
    ensures Follows(ca, states[i], states[j])
    decreases j
  {
    if i < j {
      HistoryFollows(ca, states, i, j - 1);
      HistoryIsSealed(ca, states, j - 1, j);
      HistoryIsSealed(ca, states, i, j - 1);
      assert StepAt(ca, states, j);
      StepFollows(ca, states[i], states[j - 1], states[j]);
    }
  }

  lemma StepFollows(ca: Bytes, s: State, t: State, u: State)
    requires Follows(ca, s, t) && Sealed(ca, t) && Next(ca, t, u) && s.begun <= t.begun <= u.begun
    ensures Follows(ca, s, u)
  {
    if u.dir.manifest.Some? && u.dir.manifest != s.dir.manifest {
      if u.dir.manifest == t.dir.manifest {
        var k :| |s.begun| - 1 <= k < |t.begun| && 0 <= k && t.dir.manifest.value == ManifestOf(ca, t.begun[k]);
        assert u.begun[k] == t.begun[k];
      } else {
        var k := |u.begun| - 1;
        assert u.dir.manifest.value == ManifestOf(ca, u.begun[k]);
      }
    }
  }

  lemma ManifestsInOrder(ca: Bytes, bundles: seq<Bundle>, a: nat, b: nat)
    requires Progressive(bundles) && a <= b < |bundles|
    ensures NotNewer(ManifestOf(ca, bundles[a]), ManifestOf(ca, bundles[b]))
  {
    assert a < b ==> bundles[a].generation <= bundles[b].generation;
  }

  /** With progressive bundles, a manifest read later is never older, and the same
      generation is always the same manifest. */
  lemma ManifestsProgress(ca: Bytes, states: seq<State>, i: nat, j: nat)
    requires History(ca, states) && i <= j < |states|
    requires states[i].dir.manifest.Some? && states[j].dir.manifest.Some?
    requires Progressive(states[|states| - 1].begun)
    ensures NotNewer(states[i].dir.manifest.value, states[j].dir.manifest.value)
  {
    var s, t := states[i], states[j];
    HistoryIsSealed(ca, states, i, j);
    HistoryIsSealed(ca, states, j, |states| - 1);
    HistoryFollows(ca, states, i, j);
    PrefixProgresses(t.begun, states[|states| - 1].begun);
    if t.dir.manifest != s.dir.manifest {
      var a :| 0 <= a < |s.begun| && s.dir.manifest.value == ManifestOf(ca, s.begun[a]);
      var b :| |s.begun| - 1 <= b < |t.begun| && 0 <= b && t.dir.manifest.value == ManifestOf(ca, t.begun[b]);
      ManifestsInOrder(ca, t.begun, a, b);
    }
  }

  /** The directory holds exactly what the bundle says. */
  predicate HoldsBundle(dir: Directory, ca: Bytes, b: Bundle) {
    && dir.manifest == Some(ManifestOf(ca, b))
    && forall part | part in Material(ca, b) :: part in dir.files && dir.files[part] == Material(ca, b)[part]
  }

  lemma PublishedHolds(dir: Directory, ca: Bytes, b: Bundle)
    ensures |Stages(dir, ca, b)| == 8 && HoldsBundle(Stages(dir, ca, b)[7], ca, b)
  {
    var one, two := Replaced(dir, ca, b, 0), Replaced(Replaced(dir, ca, b, 0), ca, b, 1);
    var three := Replaced(two, ca, b, 2);
    assert Stages(dir, ca, b)[7] == Replaced(three, ca, b, 3);
  }

  lemma HeldLoads(done: Directory, ca: Bytes, b: Bundle, parts: seq<Part>)
    requires HoldsBundle(done, ca, b) && b.generation != 0
    requires |parts| == 3 && ToSet(parts) == Material(ca, b).Keys
    requires forall part | part in Material(ca, b) :: |Material(ca, b)[part]| <= MAX_RELOAD_MATERIAL_BYTES
    ensures Loadable([done, done, done, done], parts)
  {
    var m, seen := ManifestOf(ca, b), [done, done, done, done];
    assert Material(ca, b).Keys == {ServerCa, ClientCertificate, ClientPrivateKey};
    assert m.files.Keys == Material(ca, b).Keys;
    forall i | 0 <= i < |parts| ensures Matches(m, seen[i + 1], parts[i]) {
      assert parts[i] in ToSet(parts);
    }
  }

  /** A completed publication can be loaded: as long as nothing else is published, a load of
      the three files succeeds on exactly the bundle, whatever was there before. */
  lemma PublishedLoads(dir: Directory, ca: Bytes, b: Bundle, parts: seq<Part>)
    requires b.generation != 0 && |parts| == 3 && ToSet(parts) == Material(ca, b).Keys
    requires forall part | part in Material(ca, b) :: |Material(ca, b)[part]| <= MAX_RELOAD_MATERIAL_BYTES
    ensures |Stages(dir, ca, b)| == 8
    ensures var done := Stages(dir, ca, b)[7]; HoldsBundle(done, ca, b) && Loadable([done, done, done, done], parts)
  {
    PublishedHolds(dir, ca, b);
    HeldLoads(Stages(dir, ca, b)[7], ca, b, parts);
  }

  // ---------------------------------------------- publications and histories

  lemma HistoryAppend(ca: Bytes, states: seq<State>, t: State)
    requires History(ca, states) && Next(ca, states[|states| - 1], t)
    ensures History(ca, states + [t])
  {
    var longer := states + [t];
    forall i | 0 < i < |longer| ensures StepAt(ca, longer, i) {
      if i < |states| { assert StepAt(ca, states, i); }
    }
  }

  /** One replacement takes a history two states further. */
  lemma ReplacesOne(ca: Bytes, states: seq<State>, b: Bundle, n: nat) returns (longer: seq<State>)
    requires History(ca, states) && n < 4 && states[|states| - 1].writer == Writing(b, n, false)
    ensures History(ca, longer) && states <= longer && longer != []
    ensures var s, t := states[|states| - 1], longer[|longer| - 1];
            t == State(Replaced(s.dir, ca, b, n), if n == 3 then Resting else Writing(b, n + 1, false), s.begun)
  {
    var s := states[|states| - 1];
    var removed := State(Removed(s.dir, n), Writing(b, n, true), s.begun);
    var written := State(Replaced(s.dir, ca, b, n), if n == 3 then Resting else Writing(b, n + 1, false), s.begun);
    HistoryAppend(ca, states, removed);
    HistoryAppend(ca, states + [removed], written);
    longer := states + [removed] + [written];
  }

  /** A publication that is not cut off is a continuation of every history at rest, and leaves
      the directory as its last state says. */
  lemma PublicationIsHistory(ca: Bytes, states: seq<State>, b: Bundle) returns (longer: seq<State>)
    requires History(ca, states) && states[|states| - 1].writer.Resting?
    ensures History(ca, longer) && states <= longer && |Stages(states[|states| - 1].dir, ca, b)| == 8
    ensures var s, t := states[|states| - 1], longer[|longer| - 1];
            t == State(Stages(s.dir, ca, b)[7], Resting, s.begun + [b]) && HoldsBundle(t.dir, ca, b)
  {
    var s := states[|states| - 1];
    var begun := State(s.dir, Writing(b, 0, false), s.begun + [b]);
    HistoryAppend(ca, states, begun);
    longer := ReplacesOne(ca, states + [begun], b, 0);
    longer := ReplacesOne(ca, longer, b, 1);
    longer := ReplacesOne(ca, longer, b, 2);
    longer := ReplacesOne(ca, longer, b, 3);
    PublishedHolds(s.dir, ca, b);
  }
}
