/** End-to-end uses of the hooks, proved from their contracts alone. */
module Scenarios {
  import opened Common
  import opened Kube
  import opened Types
  import opened DbCluster

  function Parameters(ref: Option<SecretKeySelector>, autogenerate: Option<bool>): DBClusterParameters
  {
    DBClusterParameters(Some("admin"), ref, autogenerate, ["sg-1", "sg-2"], Some(true), Some(true), "final", false)
  }

  /** No secret yet and autogeneration on: the first create generates and
      stores a password and sends it; a second create reuses it without
      generating again; the connection details carry the generated password. */
  method AutogeneratedPasswordFlow(generated: string)
    returns (request: Option<string>, retried: Option<string>, details: ConnectionDetails,
             writes: seq<Write>, generations: nat)
    requires generated != ""
    ensures request == Some(generated) && retried == Some(generated)
    ensures PasswordKey in details && details[PasswordKey] == generated
    ensures writes == [Created(NamespacedName("default", "cluster-pw"), map["password" := generated])]
    ensures generations == 1
  {
    var ref := SecretKeySelector("cluster-pw", "default", "password");
    var cr := new DBCluster("my-cluster", Parameters(Some(ref), Some(true)),
                            DBClusterObservation(Some("my-cluster.example")), map[]);
    var store := new SecretStore(map[], map[], map[]);
    var gen := new PasswordGenerator(Ok(generated));
    var obj := new CreateDBClusterInput();
    var e1 := PreCreate(cr, obj, store, gen);
    var again := new CreateDBClusterInput();
    var e2 := PreCreate(cr, again, store, gen);
    var creation, e3 := PostCreate(cr, store, CreateDBClusterOutput(None), NoCreation, None);
    request, retried, details := obj.masterUserPassword, again.masterUserPassword, creation.connectionDetails;
    writes, generations := store.writes, gen.calls;
  }

  /** A secret already holds "P1": create reuses it, generates nothing and
      writes nothing. */
  method ExistingPasswordFlow() returns (request: Option<string>, details: ConnectionDetails,
                                         writes: seq<Write>, generations: nat)
    ensures request == Some("P1")
    ensures PasswordKey in details && details[PasswordKey] == "P1"
    ensures writes == [] && generations == 0
  {
    var ref := SecretKeySelector("cluster-pw", "default", "password");
    var cr := new DBCluster("my-cluster", Parameters(Some(ref), Some(true)),
                            DBClusterObservation(None), map[]);
    var store := new SecretStore(map[ref.Secret() := map["password" := "P1"]], map[], map[]);
    var gen := new PasswordGenerator(Ok("unused"));
    var obj := new CreateDBClusterInput();
    var e1 := PreCreate(cr, obj, store, gen);
    var creation, e2 := PostCreate(cr, store, CreateDBClusterOutput(None), NoCreation, None);
    request, details, writes, generations := obj.masterUserPassword, creation.connectionDetails, store.writes, gen.calls;
  }

  /** The secret exists but holds no password: the generated password is
      added by one update request, and the secret's other keys stay. */
  method ExistingSecretWithoutPasswordFlow(generated: string)
    returns (request: Option<string>, stored: SecretData, writes: seq<Write>)
    requires generated != ""
    ensures request == Some(generated)
    ensures stored == map["other" := "keep", "password" := generated]
    ensures writes == [Updated(NamespacedName("default", "cluster-pw"), stored)]
  {
    var ref := SecretKeySelector("cluster-pw", "default", "password");
    var cr := new DBCluster("my-cluster", Parameters(Some(ref), Some(true)),
                            DBClusterObservation(None), map[]);
    var store := new SecretStore(map[ref.Secret() := map["other" := "keep"]], map[], map[]);
    var gen := new PasswordGenerator(Ok(generated));
    var obj := new CreateDBClusterInput();
    var e := PreCreate(cr, obj, store, gen);
    request, stored, writes := obj.masterUserPassword, store.secrets[ref.Secret()], store.writes;
  }

  function Described(id: string): DBClusterDescription
  {
    DBClusterDescription(Some(id), Some("available"), None, None)
  }

  /** Among clusters "a", "b", "c", the filter keeps "b" for target "b" and
      nothing for target "z". */
  method FilterListFlow() returns (hit: DescribeDBClustersOutput, miss: DescribeDBClustersOutput)
    ensures hit.dbClusters == [Described("b")]
    ensures miss.dbClusters == []
  {
    var listed := DescribeDBClustersOutput([Described("a"), Described("b"), Described("c")]);
    var params := Parameters(None, None);
    var b := new DBCluster("b", params, DBClusterObservation(None), map[]);
    var z := new DBCluster("z", params, DBClusterObservation(None), map[]);
    hit := FilterList(b, listed);
    miss := FilterList(z, listed);
    FirstWithIdentifierSpec(listed.dbClusters, "b");
    FirstWithIdentifierSpec(listed.dbClusters, "z");
    assert HasIdentifier(listed.dbClusters[1], "b");
  }
}
