/** Exactly which databases are bundled, and what a signed manifest pins down. */
module BundleLaws {
  import opened Wrappers
  import opened Bundle

  /** The row names its artifact after its content, under its tenant. */
  predicate Proper(env: Environment, row: Row) {
    row.artifactId == Policy(row.digest) && row.uri.namespace == env.namespace(row.tenant) && row.uri.digest == row.digest
  }

  /** The row is the first to name its object. */
  ghost predicate First(rows: seq<Row>, i: nat) {
    i < |rows| && forall j :: 0 <= j < i ==> rows[j].digest != rows[i].digest
  }

  /** The tenant's copy of the object is there, within the cap, and has its digest. */
  predicate Sound(env: Environment, tree: Tree, row: Row) {
    var path := Uri(env.namespace(row.tenant), row.digest);
    path in tree && |tree[path]| <= 67_108_864 && env.sha(tree[path]) == row.digest
  }

  lemma SoundIs(env: Environment, tree: Tree, row: Row)
    ensures Sound(env, tree, row) <==> ReadVerified(env, tree, UriOf(env, row)).Ok?
    ensures Proper(env, row) <==> Canonical(env, row)
    ensures Sound(env, tree, row) ==> ReadVerified(env, tree, UriOf(env, row)).value == tree[Uri(env.namespace(row.tenant), row.digest)]
  {
  }

  ghost predicate AllBacked(env: Environment, tree: Tree, rows: seq<Row>) {
    forall i :: 0 <= i < |rows| ==> Backed(env, tree, rows, i)
  }

  ghost predicate Backed(env: Environment, tree: Tree, rows: seq<Row>, i: nat) {
    i < |rows| && Proper(env, rows[i]) && (First(rows, i) ==> Sound(env, tree, rows[i]))
  }

  lemma LastBacked(env: Environment, tree: Tree, rows: seq<Row>)
    requires rows != []
    ensures var n := |rows| - 1;
            AllBacked(env, tree, rows) <==>
              AllBacked(env, tree, rows[..n]) && Backed(env, tree, rows, n)
  {
    var n := |rows| - 1;
    forall i | 0 <= i < n ensures Backed(env, tree, rows[..n], i) <==> Backed(env, tree, rows, i) {
      FirstOf(rows, i);
      assert rows[..n][i] == rows[i];
    }
  }

  /** A row is the first of its object exactly when the rows before it did not collect that object. */
  lemma FirstIsUncollected(env: Environment, tree: Tree, rows: seq<Row>)
    requires rows != [] && Collect(env, tree, rows[..|rows| - 1]).Ok?
    ensures First(rows, |rows| - 1) <==> rows[|rows| - 1].digest !in Collect(env, tree, rows[..|rows| - 1]).value
  {
    var n := |rows| - 1;
    var init := rows[..n];
    Collected(env, tree, init);
    var d := rows[n].digest;
    if d in Collect(env, tree, init).value {
      var i :| 0 <= i < |init| && init[i].digest == d;
      assert rows[i].digest == d;
    } else {
      forall j | 0 <= j < n ensures rows[j].digest != d { assert init[j].digest in Collect(env, tree, init).value.Keys; }
    }
  }

  /** The objects are collected exactly when every row is proper and the first row of each object has a sound copy. */
  lemma {:induction false} CollectExactly(env: Environment, tree: Tree, rows: seq<Row>)
    ensures Collect(env, tree, rows).Ok? <==> AllBacked(env, tree, rows)
    decreases |rows|
  {
    if rows != [] {
      CollectExactly(env, tree, rows[..|rows| - 1]);
      SoundIs(env, tree, rows[|rows| - 1]);
      LastBacked(env, tree, rows);
      CollectLast(env, tree, rows);
      if Collect(env, tree, rows[..|rows| - 1]).Ok? { FirstIsUncollected(env, tree, rows); }
    }
  }

  /** Each object is the copy of the first tenant that names it. */
  lemma {:induction false} CollectsFirstCopies(env: Environment, tree: Tree, rows: seq<Row>, i: nat)
    requires Collect(env, tree, rows).Ok? && First(rows, i)
    ensures var path := Uri(env.namespace(rows[i].tenant), rows[i].digest);
            && rows[i].digest in Collect(env, tree, rows).value && path in tree
            && Collect(env, tree, rows).value[rows[i].digest] == tree[path]
    decreases |rows|
  {
    var n := |rows| - 1;
    CollectLast(env, tree, rows);
    FirstIsUncollected(env, tree, rows);
    SoundIs(env, tree, rows[n]);
    if i < n {
      FirstOf(rows, i);
      CollectsFirstCopies(env, tree, rows[..n], i);
    }
  }

  lemma FirstOf(rows: seq<Row>, i: nat)
    requires i < |rows| - 1
    ensures First(rows[..|rows| - 1], i) <==> First(rows, i)
  {
    assert forall j :: 0 <= j <= i ==> rows[..|rows| - 1][j] == rows[j];
  }

  lemma CollectLast(env: Environment, tree: Tree, rows: seq<Row>)
    requires rows != []
    ensures var before := Collect(env, tree, rows[..|rows| - 1]);
            var row := rows[|rows| - 1];
            Collect(env, tree, rows) ==
              if before.Err? then before
              else if !Canonical(env, row) then Err(Invalid)
              else if row.digest in before.value then before
              else match ReadVerified(env, tree, UriOf(env, row))
                case Err(e) => Err(e)
                case Ok(data) => Ok(before.value[row.digest := data])
  {
  }

  /** A valid artifact tree holds the path of every row, with a sound copy, and no other path. */
  lemma TreeValidExactly(env: Environment, tree: Tree, rows: seq<Row>)
    ensures TreeValid(env, tree, rows) <==>
              && (forall i :: 0 <= i < |rows| ==> Proper(env, rows[i]) && Sound(env, tree, rows[i]))
              && (forall u :: u in tree ==> exists i :: 0 <= i < |rows| && u == Uri(env.namespace(rows[i].tenant), rows[i].digest))
  {
    forall i | 0 <= i < |rows|
      ensures Proper(env, rows[i]) && Sound(env, tree, rows[i]) <==> Canonical(env, rows[i]) && ReadVerified(env, tree, UriOf(env, rows[i])).Ok?
    { SoundIs(env, tree, rows[i]); }
    var paths := set i | 0 <= i < |rows| :: UriOf(env, rows[i]);
    forall u ensures u in paths <==> exists i :: 0 <= i < |rows| && u == Uri(env.namespace(rows[i].tenant), rows[i].digest) {
      if i :| 0 <= i < |rows| && u == Uri(env.namespace(rows[i].tenant), rows[i].digest) { assert u == UriOf(env, rows[i]); }
    }
  }

  /** Everything restore insists on before it unpacks. */
  lemma RestoreChecks(env: Environment, b: BundleFile, keys: set<Id>)
    requires RestoreBundle(env, b, keys).Ok?
    ensures b.signature.keyId in keys && b.signature.mac == env.mac(b.signature.keyId, b.manifest)
    ensures env.manifestSize(b.manifest) <= 1_048_576 && b.manifest.schema == 1
    ensures |b.database| == b.manifest.databaseSize <= 68_719_476_736 && env.sha(b.database) == b.manifest.databaseDigest
    ensures b.objects.Keys == b.manifest.objects.Keys
    ensures forall d :: d in b.objects ==> |b.objects[d]| == b.manifest.objects[d] <= 67_108_864 && env.sha(b.objects[d]) == d
    ensures env.inspect(b.database).Some?
    ensures var snapshot := env.inspect(b.database).value;
            && snapshot.schema == 1 && snapshot.champions == b.manifest.champions
            && multiset(Uris(env, snapshot.rows)) == b.manifest.artifacts
            && (forall d :: d in b.objects <==> exists i :: 0 <= i < |snapshot.rows| && snapshot.rows[i].digest == d)
            && (forall i :: 0 <= i < |snapshot.rows| ==> Proper(env, snapshot.rows[i]))
  {
    var rows := env.inspect(b.database).value.rows;
    assert TreeValid(env, RestoreBundle(env, b, keys).value.tree, rows);
    forall d ensures d in b.objects <==> exists i :: 0 <= i < |rows| && rows[i].digest == d {
      assert d in b.objects <==> d in set i | 0 <= i < |rows| :: rows[i].digest;
    }
  }

  /** A signed manifest pins the whole restored state: two bundles with one manifest that both restore give the same. */
  lemma ManifestPinsRestore(env: Environment, a: BundleFile, b: BundleFile, keys: set<Id>)
    requires Injective(env) && a.manifest == b.manifest && RestoreBundle(env, a, keys).Ok? && RestoreBundle(env, b, keys).Ok?
    ensures RestoreBundle(env, a, keys) == RestoreBundle(env, b, keys)
  {
    RestoreChecks(env, a, keys);
    RestoreChecks(env, b, keys);
    assert a.database == b.database;
    forall d | d in a.objects ensures d in b.objects && a.objects[d] == b.objects[d] { assert env.sha(a.objects[d]) == env.sha(b.objects[d]); }
    assert a.objects == b.objects;
  }

  /** A manifest whose signature does not match, or is by a key that is not trusted, is refused. */
  lemma UnsignedIsRefused(env: Environment, b: BundleFile, keys: set<Id>)
    requires b.signature.keyId !in keys || b.signature.mac != env.mac(b.signature.keyId, b.manifest)
    ensures RestoreBundle(env, b, keys).Err?
  {
  }

  /** The bundle of a database lists its size, its hash, its champions and one entry per artifact row. */
  lemma ManifestDescribes(env: Environment, database: Bytes, tree: Tree, keyId: Id)
    requires CreateBundle(env, database, tree, keyId).Ok?
    ensures var b := CreateBundle(env, database, tree, keyId).value;
            && env.inspect(database).Some? && b.database == database
            && b.manifest.databaseSize == |database| && b.manifest.databaseDigest == env.sha(database) && b.manifest.schema == 1
            && b.manifest.champions == env.inspect(database).value.champions
            && |b.manifest.artifacts| == |env.inspect(database).value.rows|
            && b.signature == Signature(keyId, env.mac(keyId, b.manifest))
            && (forall d :: d in b.objects <==> d in b.manifest.objects)
            && (forall d :: d in b.objects ==> b.manifest.objects[d] == |b.objects[d]|)
  {
  }
}
