/**
 Backup bundles: what `create_bundle` writes and what `restore_bundle` checks and installs.

 File contents are opaque byte strings. SHA-256, the tenant namespace (a truncated hash), SQLite inspection and the
 size of the encoded manifest are functions of the environment.
 */
module Bundle {
  import opened Wrappers

  type Id = int
  type Bytes = seq<int>
  datatype Digest = Digest(hex: int)

  datatype Uri = Uri(namespace: Id, digest: Digest)
  datatype ArtifactId = Policy(digest: Digest) | Foreign(name: Id)
  datatype Row = Row(tenant: Id, artifactId: ArtifactId, digest: Digest, uri: Uri)
  datatype ChampionRow = ChampionRow(tenant: Id, policy: Id, artifact: ArtifactId, generation: nat)
  datatype Snapshot = Snapshot(schema: nat, rows: seq<Row>, champions: seq<ChampionRow>)

  /** Paths below an artifact root are `<namespace>/<digest>.json`, the same pair a URI holds. */
  type Tree = map<Uri, Bytes>

  /** Object entries by digest, artifact entries as the sorted list they are compared as. */
  datatype Manifest = Manifest(schema: nat, databaseSize: nat, databaseDigest: Digest, objects: map<Digest, nat>,
                               artifacts: multiset<Uri>, champions: seq<ChampionRow>)
  datatype Signature = Signature(keyId: Id, mac: Id)
  datatype BundleFile = BundleFile(manifest: Manifest, signature: Signature, database: Bytes, objects: map<Digest, Bytes>)

  datatype Environment = Environment(
    sha: Bytes -> Digest,
    namespace: Id -> Id,
    inspect: Bytes -> Option<Snapshot>,
    manifestSize: Manifest -> nat,
    mac: (Id, Manifest) -> Id)

  const SCHEMA_VERSION: nat := 1
  const MAX_MANIFEST_BYTES: nat := 1024 * 1024
  const MAX_POLICY_BYTES: nat := 64 * 1024 * 1024
  const MAX_DATABASE_BYTES: nat := 64 * 1024 * 1024 * 1024
  const MAX_BUNDLE_CONTENT_BYTES: nat := 128 * 1024 * 1024 * 1024

  function UriOf(env: Environment, row: Row): Uri { Uri(env.namespace(row.tenant), row.digest) }

  predicate Canonical(env: Environment, row: Row) {
    row.artifactId == Policy(row.digest) && row.uri == UriOf(env, row)
  }

  /** `read_verified_policy`: a regular file within the cap whose hash is the expected one. */
  function ReadVerified(env: Environment, tree: Tree, uri: Uri): Result<Bytes> {
    if uri !in tree then Err(NotFound)
    else if |tree[uri]| > MAX_POLICY_BYTES || env.sha(tree[uri]) != uri.digest then Err(Invalid)
    else Ok(tree[uri])
  }

  // ----- create_bundle -----

  /** Objects by digest, each read once, from the first row that names it. */
  function Collect(env: Environment, tree: Tree, rows: seq<Row>): Result<map<Digest, Bytes>>
    decreases |rows|
  {
    if rows == [] then Ok(map[])
    else
      var objects :- Collect(env, tree, rows[..|rows| - 1]);
      var row := rows[|rows| - 1];
      if !Canonical(env, row) then Err(Invalid)
      else if row.digest in objects then Ok(objects)
      else
        var data :- ReadVerified(env, tree, UriOf(env, row));
        Ok(objects[row.digest := data])
  }

  method CollectObjects(env: Environment, tree: Tree, rows: seq<Row>) returns (r: Result<map<Digest, Bytes>>)
    ensures r == Collect(env, tree, rows)
  {
    var objects: map<Digest, Bytes> := map[];
    for i := 0 to |rows|
      invariant Collect(env, tree, rows[..i]) == Ok(objects)
    {
      assert rows[..i + 1][..i] == rows[..i] && rows[..i + 1][i] == rows[i];
      if !Canonical(env, rows[i]) {
        CollectFails(env, tree, rows, i + 1);
        return Err(Invalid);
      }
      if rows[i].digest !in objects {
        match ReadVerified(env, tree, UriOf(env, rows[i])) {
          case Err(e) =>
            CollectFails(env, tree, rows, i + 1);
            return Err(e);
          case Ok(data) =>
            objects := objects[rows[i].digest := data];
        }
      }
    }
    assert rows[..|rows|] == rows;
    return Ok(objects);
  }

  lemma {:induction false} CollectFails(env: Environment, tree: Tree, rows: seq<Row>, i: nat)
    requires i <= |rows| && Collect(env, tree, rows[..i]).Err?
    ensures Collect(env, tree, rows) == Collect(env, tree, rows[..i])
    decreases |rows| - i
  {
    if i < |rows| {
      assert rows[..i + 1][..i] == rows[..i];
      CollectFails(env, tree, rows, i + 1);
    } else {
      assert rows[..i] == rows;
    }
  }

  function Sizes(objects: map<Digest, Bytes>): map<Digest, nat> { map d | d in objects :: |objects[d]| }

  ghost function Total(sizes: map<Digest, nat>): nat { TotalOf(sizes.Keys, sizes) }

  ghost function TotalOf(digests: set<Digest>, sizes: map<Digest, nat>): nat
    requires digests <= sizes.Keys
  {
    if digests == {} then 0
    else
      var d :| d in digests;
      sizes[d] + TotalOf(digests - {d}, sizes)
  }

  function Uris(env: Environment, rows: seq<Row>): seq<Uri> {
    seq(|rows|, i requires 0 <= i < |rows| => UriOf(env, rows[i]))
  }

  ghost function CreateBundle(env: Environment, database: Bytes, tree: Tree, keyId: Id): Result<BundleFile> {
    var snapshot := env.inspect(database);
    if snapshot.None? || snapshot.value.schema != SCHEMA_VERSION then Err(Invalid)
    else
      var rows := snapshot.value.rows;
      var objects :- Collect(env, tree, rows);
      if |database| + Total(Sizes(objects)) > MAX_BUNDLE_CONTENT_BYTES || |database| > MAX_DATABASE_BYTES then Err(Invalid)
      else
        var manifest := Manifest(SCHEMA_VERSION, |database|, env.sha(database), Sizes(objects), multiset(Uris(env, rows)),
                                 snapshot.value.champions);
        Ok(BundleFile(manifest, Signature(keyId, env.mac(keyId, manifest)), database, objects))
  }

  // ----- restore_bundle -----

  predicate ManifestValid(m: Manifest) {
    && m.schema == SCHEMA_VERSION
    && m.databaseSize <= MAX_DATABASE_BYTES
    && forall d :: d in m.objects ==> m.objects[d] <= MAX_POLICY_BYTES
  }

  ghost predicate MembersVerified(env: Environment, b: BundleFile) {
    && |b.database| == b.manifest.databaseSize && env.sha(b.database) == b.manifest.databaseDigest
    && b.manifest.databaseSize + Total(b.manifest.objects) <= MAX_BUNDLE_CONTENT_BYTES
    && b.objects.Keys == b.manifest.objects.Keys
    && forall d :: d in b.objects ==> |b.objects[d]| == b.manifest.objects[d] && env.sha(b.objects[d]) == d
  }

  /** The staged tree: one private copy per row; creating a path twice is refused. */
  function Unpack(env: Environment, objects: map<Digest, Bytes>, rows: seq<Row>): Result<Tree>
    decreases |rows|
  {
    if rows == [] then Ok(map[])
    else
      var tree :- Unpack(env, objects, rows[..|rows| - 1]);
      var row := rows[|rows| - 1];
      if !Canonical(env, row) || row.digest !in objects then Err(Invalid)
      else if UriOf(env, row) in tree then Err(Conflict)
      else Ok(tree[UriOf(env, row) := objects[row.digest]])
  }

  /** `_validate_artifact_tree`: every row's object verifies and nothing else is there. */
  ghost predicate TreeValid(env: Environment, tree: Tree, rows: seq<Row>) {
    && (forall i :: 0 <= i < |rows| ==> Canonical(env, rows[i]) && ReadVerified(env, tree, UriOf(env, rows[i])).Ok?)
    && tree.Keys == set i | 0 <= i < |rows| :: UriOf(env, rows[i])
  }

  lemma {:induction false} UnpackFails(env: Environment, objects: map<Digest, Bytes>, rows: seq<Row>, i: nat)
    requires i <= |rows| && Unpack(env, objects, rows[..i]).Err?
    ensures Unpack(env, objects, rows) == Unpack(env, objects, rows[..i])
    decreases |rows| - i
  {
    if i < |rows| {
      assert rows[..i + 1][..i] == rows[..i];
      UnpackFails(env, objects, rows, i + 1);
    } else {
      assert rows[..i] == rows;
    }
  }

  /** The loop that fills the staged tree. */
  method StageArtifacts(env: Environment, objects: map<Digest, Bytes>, rows: seq<Row>) returns (r: Result<Tree>)
    ensures r == Unpack(env, objects, rows)
  {
    var tree: Tree := map[];
    for i := 0 to |rows|
      invariant Unpack(env, objects, rows[..i]) == Ok(tree)
    {
      assert rows[..i + 1][..i] == rows[..i] && rows[..i + 1][i] == rows[i];
      if !Canonical(env, rows[i]) || rows[i].digest !in objects {
        UnpackFails(env, objects, rows, i + 1);
        return Err(Invalid);
      }
      var target := UriOf(env, rows[i]);
      if target in tree {
        UnpackFails(env, objects, rows, i + 1);
        return Err(Conflict);
      }
      tree := tree[target := objects[rows[i].digest]];
    }
    assert rows[..|rows|] == rows;
    return Ok(tree);
  }

  /** The loops of `_validate_artifact_tree`: collect the expected paths, then compare them with what is there. */
  method ValidateArtifactTree(env: Environment, tree: Tree, rows: seq<Row>) returns (ok: bool)
    ensures ok <==> TreeValid(env, tree, rows)
  {
    var expected: set<Uri> := {};
    for i := 0 to |rows|
      invariant expected == set j | 0 <= j < i :: UriOf(env, rows[j])
      invariant forall j :: 0 <= j < i ==> Canonical(env, rows[j]) && ReadVerified(env, tree, UriOf(env, rows[j])).Ok?
    {
      if !Canonical(env, rows[i]) || ReadVerified(env, tree, UriOf(env, rows[i])).Err? { return false; }
      expected := expected + {UriOf(env, rows[i])};
    }
    return tree.Keys == expected;
  }

  datatype Restored = Restored(database: Bytes, snapshot: Snapshot, tree: Tree)

  /** Everything restore checks before it builds the staged tree. */
  ghost predicate BundleVerified(env: Environment, b: BundleFile, keys: set<Id>) {
    && b.signature.keyId in keys && b.signature.mac == env.mac(b.signature.keyId, b.manifest)
    && ManifestValid(b.manifest) && MembersVerified(env, b)
  }

  ghost predicate SnapshotMatches(env: Environment, b: BundleFile, snapshot: Snapshot) {
    && snapshot.schema == b.manifest.schema
    && snapshot.champions == b.manifest.champions
    && multiset(Uris(env, snapshot.rows)) == b.manifest.artifacts
    && (set i | 0 <= i < |snapshot.rows| :: snapshot.rows[i].digest) == b.objects.Keys
  }

  ghost function Staged(env: Environment, objects: map<Digest, Bytes>, rows: seq<Row>): Result<Tree> {
    var tree :- Unpack(env, objects, rows);
    if TreeValid(env, tree, rows) then Ok(tree) else Err(Invalid)
  }

  ghost function RestoreBundle(env: Environment, b: BundleFile, keys: set<Id>): Result<Restored> {
    if env.manifestSize(b.manifest) > MAX_MANIFEST_BYTES || !BundleVerified(env, b, keys) then Err(Invalid)
    else
      var snapshot := env.inspect(b.database);
      if snapshot.None? || !SnapshotMatches(env, b, snapshot.value) then Err(Invalid)
      else
        var tree :- Staged(env, b.objects, snapshot.value.rows);
        Ok(Restored(b.database, snapshot.value, tree))
  }

  // ----- Round trip -----

  /** Two rows share a path: distinct tenants whose truncated namespaces collide on one digest. */
  predicate Colliding(env: Environment, rows: seq<Row>) {
    exists i, j :: 0 <= i < j < |rows| && UriOf(env, rows[i]) == UriOf(env, rows[j])
  }

  /** What the source tree says about the rows: the part of it the database names. */
  function Named(env: Environment, tree: Tree, rows: seq<Row>): Tree {
    map u | u in tree && u in Uris(env, rows) :: tree[u]
  }

  lemma {:induction false} Collected(env: Environment, tree: Tree, rows: seq<Row>)
    requires Collect(env, tree, rows).Ok?
    ensures var objects := Collect(env, tree, rows).value;
            && objects.Keys == (set i | 0 <= i < |rows| :: rows[i].digest)
            && (forall i :: 0 <= i < |rows| ==> Canonical(env, rows[i]))
            && forall d :: d in objects ==> |objects[d]| <= MAX_POLICY_BYTES && env.sha(objects[d]) == d
    decreases |rows|
  {
    if rows != [] {
      var init := rows[..|rows| - 1];
      Collected(env, tree, init);
      forall i | 0 <= i < |rows| - 1 ensures rows[i].digest in Collect(env, tree, init).value {
        assert init[i] == rows[i];
      }
      forall d | d in Collect(env, tree, init).value
        ensures exists i :: 0 <= i < |rows| && rows[i].digest == d
      {
        var i :| 0 <= i < |init| && init[i].digest == d;
        assert rows[i].digest == d;
      }
      assert rows[|rows| - 1].digest in Collect(env, tree, rows).value;
    }
  }

  ghost predicate Unpackable(env: Environment, objects: map<Digest, Bytes>, rows: seq<Row>) {
    forall i :: 0 <= i < |rows| ==> Canonical(env, rows[i]) && rows[i].digest in objects
  }

  ghost predicate UnpacksTo(env: Environment, objects: map<Digest, Bytes>, rows: seq<Row>, tree: Tree) {
    && tree.Keys == (set i | 0 <= i < |rows| :: UriOf(env, rows[i]))
    && forall u :: u in tree ==> u.digest in objects && tree[u] == objects[u.digest]
  }

  lemma {:induction false} CollidingFails(env: Environment, objects: map<Digest, Bytes>, rows: seq<Row>, i: nat, j: nat)
    requires Unpackable(env, objects, rows) && i < j < |rows| && UriOf(env, rows[i]) == UriOf(env, rows[j])
    ensures Unpack(env, objects, rows).Err?
    decreases |rows|
  {
    var n := |rows| - 1;
    var init := rows[..n];
    assert Unpackable(env, objects, init) by { assert forall k :: 0 <= k < n ==> init[k] == rows[k]; }
    if j < n {
      CollidingFails(env, objects, init, i, j);
    } else if Unpack(env, objects, init).Ok? {
      UnpackedRows(env, objects, init);
      assert UriOf(env, init[i]) in Unpack(env, objects, init).value.Keys;
    }
  }

  lemma {:induction false} UnpackedRows(env: Environment, objects: map<Digest, Bytes>, rows: seq<Row>)
    requires Unpackable(env, objects, rows) && Unpack(env, objects, rows).Ok?
    ensures UnpacksTo(env, objects, rows, Unpack(env, objects, rows).value)
    decreases |rows|
  {
    if rows != [] {
      var init := rows[..|rows| - 1];
      assert Unpackable(env, objects, init) by { assert forall k :: 0 <= k < |init| ==> init[k] == rows[k]; }
      UnpackedRows(env, objects, init);
      UnpackedKeys(env, rows, init, Unpack(env, objects, init).value, Unpack(env, objects, rows).value);
    }
  }

  lemma {:induction false} ApartSucceeds(env: Environment, objects: map<Digest, Bytes>, rows: seq<Row>)
    requires Unpackable(env, objects, rows) && !Colliding(env, rows)
    ensures Unpack(env, objects, rows).Ok?
    decreases |rows|
  {
    if rows != [] {
      var n := |rows| - 1;
      var init := rows[..n];
      assert forall k :: 0 <= k < n ==> init[k] == rows[k];
      ApartSucceeds(env, objects, init);
      UnpackedRows(env, objects, init);
      forall i | 0 <= i < n ensures UriOf(env, init[i]) != UriOf(env, rows[n]) {
        assert UriOf(env, rows[i]) != UriOf(env, rows[n]);
      }
    }
  }

  /** Unpacking succeeds exactly when no two rows share a path. */
  lemma UnpackedExactly(env: Environment, objects: map<Digest, Bytes>, rows: seq<Row>)
    requires Unpackable(env, objects, rows)
    ensures Unpack(env, objects, rows).Ok? <==> !Colliding(env, rows)
  {
    if Colliding(env, rows) {
      var i, j :| 0 <= i < j < |rows| && UriOf(env, rows[i]) == UriOf(env, rows[j]);
      CollidingFails(env, objects, rows, i, j);
    } else {
      ApartSucceeds(env, objects, rows);
    }
  }

  lemma UnpackedKeys(env: Environment, rows: seq<Row>, init: seq<Row>, before: Tree, after: Tree)
    requires rows != [] && init == rows[..|rows| - 1] && before.Keys == (set i | 0 <= i < |init| :: UriOf(env, init[i]))
    requires after.Keys == before.Keys + {UriOf(env, rows[|rows| - 1])}
    ensures after.Keys == set i | 0 <= i < |rows| :: UriOf(env, rows[i])
  {
    forall i | 0 <= i < |rows| ensures UriOf(env, rows[i]) in after.Keys {
      if i < |init| { assert UriOf(env, init[i]) in before.Keys; }
    }
    forall u | u in before.Keys ensures exists i :: 0 <= i < |rows| && UriOf(env, rows[i]) == u {
      var i :| 0 <= i < |init| && UriOf(env, init[i]) == u;
      assert UriOf(env, rows[i]) == u;
    }
  }

  lemma CreatedVerifies(env: Environment, database: Bytes, tree: Tree, keyId: Id, keys: set<Id>)
    requires keyId in keys && CreateBundle(env, database, tree, keyId).Ok?
    ensures var b := CreateBundle(env, database, tree, keyId).value;
            && b.database == database && env.inspect(database).Some?
            && BundleVerified(env, b, keys) && SnapshotMatches(env, b, env.inspect(database).value)
            && Collect(env, tree, env.inspect(database).value.rows) == Ok(b.objects)
            && Unpackable(env, b.objects, env.inspect(database).value.rows)
  {
    var rows := env.inspect(database).value.rows;
    Collected(env, tree, rows);
    var b := CreateBundle(env, database, tree, keyId).value;
    forall i | 0 <= i < |rows| ensures rows[i].digest in b.objects { assert rows[i].digest in b.objects.Keys; }
  }

  lemma StagedExactly(env: Environment, objects: map<Digest, Bytes>, rows: seq<Row>)
    requires Unpackable(env, objects, rows)
    requires forall d :: d in objects ==> |objects[d]| <= MAX_POLICY_BYTES && env.sha(objects[d]) == d
    ensures Staged(env, objects, rows).Ok? <==> !Colliding(env, rows)
    ensures Staged(env, objects, rows).Ok? ==> UnpacksTo(env, objects, rows, Staged(env, objects, rows).value)
  {
    UnpackedExactly(env, objects, rows);
    if Unpack(env, objects, rows).Ok? {
      var tree := Unpack(env, objects, rows).value;
      UnpackedRows(env, objects, rows);
      forall i | 0 <= i < |rows| ensures ReadVerified(env, tree, UriOf(env, rows[i])).Ok? {
        assert UriOf(env, rows[i]) in tree.Keys;
      }
      assert TreeValid(env, tree, rows);
    }
  }

  /**
   A bundle that `create_bundle` wrote passes every restore check exactly when its manifest fits the cap that only
   restore enforces and no two tenants collide in their namespace.
   */
  lemma BundleRestores(env: Environment, database: Bytes, tree: Tree, keyId: Id, keys: set<Id>)
    requires keyId in keys && CreateBundle(env, database, tree, keyId).Ok?
    ensures var b := CreateBundle(env, database, tree, keyId).value;
            RestoreBundle(env, b, keys).Ok?
            <==> env.manifestSize(b.manifest) <= MAX_MANIFEST_BYTES && !Colliding(env, env.inspect(database).value.rows)
  {
    var b := CreateBundle(env, database, tree, keyId).value;
    var rows := env.inspect(database).value.rows;
    CreatedVerifies(env, database, tree, keyId, keys);
    Collected(env, tree, rows);
    StagedExactly(env, b.objects, rows);
  }

  // ----- Bundles that cannot be restored -----

  const EMPTY_OBJECT: Digest := Digest(0)

  /** One artifact, of the empty object, for each of `n` tenants. */
  function TenantRows(n: nat, namespace: Id -> Id): seq<Row> {
    seq(n, i requires 0 <= i < n => Row(i, Policy(EMPTY_OBJECT), EMPTY_OBJECT, Uri(namespace(i), EMPTY_OBJECT)))
  }

  /** The database of these tenants; a digest is the length of the data, and a manifest has a byte for every artifact. */
  function TenantWorld(n: nat, namespace: Id -> Id): Environment {
    Environment((data: Bytes) => Digest(|data|), namespace,
                (database: Bytes) => Some(Snapshot(SCHEMA_VERSION, TenantRows(n, namespace), [])),
                (m: Manifest) => |m.artifacts|, (key: Id, m: Manifest) => 0)
  }

  function TenantTree(namespace: Id -> Id): Tree { map[Uri(namespace(0), EMPTY_OBJECT) := []] }

  /** Rows of one digest need its object once, from the first row's tenant. */
  lemma {:induction false} CollectsOne(env: Environment, tree: Tree, rows: seq<Row>, d: Digest)
    requires rows != [] && forall i :: 0 <= i < |rows| ==> Canonical(env, rows[i]) && rows[i].digest == d
    requires ReadVerified(env, tree, UriOf(env, rows[0])).Ok?
    ensures Collect(env, tree, rows) == Ok(map[d := ReadVerified(env, tree, UriOf(env, rows[0])).value])
    decreases |rows|
  {
    var init := rows[..|rows| - 1];
    if init == [] {
      assert Collect(env, tree, init) == Ok(map[]);
    } else {
      assert forall i :: 0 <= i < |init| ==> init[i] == rows[i];
      CollectsOne(env, tree, init, d);
    }
  }

  lemma TenantsAreBacked(n: nat, namespace: Id -> Id)
    requires n >= 1
    ensures var r := CreateBundle(TenantWorld(n, namespace), [], TenantTree(namespace), 0);
            r.Ok? && TenantWorld(n, namespace).manifestSize(r.value.manifest) == n
  {
    var env, tree, rows := TenantWorld(n, namespace), TenantTree(namespace), TenantRows(n, namespace);
    assert forall i :: 0 <= i < n ==> Canonical(env, rows[i]) && rows[i].digest == EMPTY_OBJECT;
    CollectsOne(env, tree, rows, EMPTY_OBJECT);
    var objects := map[EMPTY_OBJECT := []];
    assert Collect(env, tree, rows) == Ok(objects);
    var sizes := Sizes(objects);
    assert sizes == map[EMPTY_OBJECT := 0];
    assert TotalOf({EMPTY_OBJECT}, sizes) == 0 by {
      var d :| d in {EMPTY_OBJECT} && TotalOf({EMPTY_OBJECT}, sizes) == sizes[d] + TotalOf({EMPTY_OBJECT} - {d}, sizes);
      assert {EMPTY_OBJECT} - {d} == {};
    }
    assert sizes.Keys == {EMPTY_OBJECT} && Total(sizes) == 0;
    assert env.inspect([]) == Some(Snapshot(SCHEMA_VERSION, rows, []));
    assert |multiset(Uris(env, rows))| == n;
  }

  /** A bundle with more artifacts than the cap has bytes is written, and refused by restore. */
  lemma OversizedManifestIsRefused() returns (env: Environment, tree: Tree)
    ensures CreateBundle(env, [], tree, 0).Ok? && !Colliding(env, env.inspect([]).value.rows)
    ensures RestoreBundle(env, CreateBundle(env, [], tree, 0).value, {0}).Err?
  {
    var own := (t: Id) => t;
    env, tree := TenantWorld(MAX_MANIFEST_BYTES + 1, own), TenantTree(own);
    TenantsAreBacked(MAX_MANIFEST_BYTES + 1, own);
    BundleRestores(env, [], tree, 0, {0});
  }

  /** Two tenants with one namespace and one object are backed up, and refused by restore. */
  lemma CollidingTenantsAreRefused() returns (env: Environment, tree: Tree)
    ensures CreateBundle(env, [], tree, 0).Ok?
    ensures env.manifestSize(CreateBundle(env, [], tree, 0).value.manifest) <= MAX_MANIFEST_BYTES
    ensures RestoreBundle(env, CreateBundle(env, [], tree, 0).value, {0}).Err?
  {
    var shared := (t: Id) => 0;
    env, tree := TenantWorld(2, shared), TenantTree(shared);
    TenantsAreBacked(2, shared);
    var rows := env.inspect([]).value.rows;
    assert UriOf(env, rows[0]) == UriOf(env, rows[1]);
    BundleRestores(env, [], tree, 0, {0});
  }

  ghost predicate Injective(env: Environment) {
    forall x: Bytes, y: Bytes {:trigger env.sha(x), env.sha(y)} :: env.sha(x) == env.sha(y) ==> x == y
  }

  /** Objects with the same digest are the same object, whichever tenant's copy was read. */
  lemma TreesAgree(env: Environment, objects: map<Digest, Bytes>, tree: Tree, rows: seq<Row>, staged: Tree)
    requires Injective(env) && UnpacksTo(env, objects, rows, staged)
    requires forall d :: d in objects ==> env.sha(objects[d]) == d
    requires forall i :: 0 <= i < |rows| ==> ReadVerified(env, tree, UriOf(env, rows[i])).Ok?
    ensures staged == Named(env, tree, rows)
  {
    forall u | u in staged ensures u in tree && u in Uris(env, rows) && staged[u] == tree[u] {
      var i :| 0 <= i < |rows| && UriOf(env, rows[i]) == u;
      assert Uris(env, rows)[i] == u;
      assert ReadVerified(env, tree, UriOf(env, rows[i])).Ok?;
      assert env.sha(staged[u]) == env.sha(tree[u]);
    }
    forall u | u in Named(env, tree, rows) ensures u in staged {
      var i :| 0 <= i < |rows| && Uris(env, rows)[i] == u;
      assert UriOf(env, rows[i]) in staged.Keys;
    }
  }

  /** Every object the database names is in the source tree under its own tenant, intact. */
  ghost predicate Intact(env: Environment, tree: Tree, rows: seq<Row>) {
    forall i :: 0 <= i < |rows| ==> ReadVerified(env, tree, UriOf(env, rows[i])).Ok?
  }

  lemma AgreementNeedsIntact(env: Environment, tree: Tree, rows: seq<Row>, staged: Tree)
    requires TreeValid(env, staged, rows) && staged == Named(env, tree, rows)
    ensures Intact(env, tree, rows)
  {
    forall i | 0 <= i < |rows| ensures ReadVerified(env, tree, UriOf(env, rows[i])).Ok? {
      assert ReadVerified(env, staged, UriOf(env, rows[i])).Ok?;
    }
  }

  /**
   The restored state is the backed-up one: same database, champions and rows, and a valid tree, although shared objects
   travel once. The tree is the part of the source tree the database names exactly when every tenant's copy there was
   intact: `create_bundle` reads only the first copy of a shared object, and a restore repairs the others.
   */
  lemma RoundTripPreserves(env: Environment, database: Bytes, tree: Tree, keyId: Id, keys: set<Id>)
    requires Injective(env) && keyId in keys && CreateBundle(env, database, tree, keyId).Ok?
    requires RestoreBundle(env, CreateBundle(env, database, tree, keyId).value, keys).Ok?
    ensures var r := RestoreBundle(env, CreateBundle(env, database, tree, keyId).value, keys).value;
            && r.database == database && Some(r.snapshot) == env.inspect(database)
            && TreeValid(env, r.tree, r.snapshot.rows)
            && (r.tree == Named(env, tree, r.snapshot.rows) <==> Intact(env, tree, r.snapshot.rows))
  {
    var b := CreateBundle(env, database, tree, keyId).value;
    var rows := env.inspect(database).value.rows;
    CreatedVerifies(env, database, tree, keyId, keys);
    Collected(env, tree, rows);
    StagedExactly(env, b.objects, rows);
    var staged := Staged(env, b.objects, rows).value;
    if Intact(env, tree, rows) { TreesAgree(env, b.objects, tree, rows, staged); }
    if staged == Named(env, tree, rows) { AgreementNeedsIntact(env, tree, rows, staged); }
  }
}
