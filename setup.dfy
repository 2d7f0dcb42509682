/** The lifecycle hooks of the DBCluster controller: what the generic managed
    reconciler calls before and after each RDS request. */
module DbCluster {
  import opened Common
  import opened Kube
  import opened Types

  const ErrGetSecretFailed := "failed to get Kubernetes secret"
  const ErrUpdateSecretFailed := "failed to update Kubernetes secret"
  const ErrSaveSecretFailed := "failed to save generated password to Kubernetes secret"
  const ErrGetPassword := "cannot get password from the given secret"
  const ErrGeneratePassword := "unable to generate a password"
  const ErrNoSecretRef := "no MasterUserPasswordSecretRef given, unable to save password"

  // ---------------------------------------------------------------- observe

  method PreObserve(cr: DBCluster, obj: DescribeDBClustersInput) returns (err: Option<Error>)
    modifies obj
    ensures obj.dbClusterIdentifier == Some(cr.externalName)
    ensures err == None
  {
    obj.dbClusterIdentifier := Some(cr.externalName);
    return None;
  }

  /** The Ready condition a provider status calls for, or None when the
      status is not one the controller interprets. */
  function StatusCondition(status: string): (c: Option<Condition>)
    ensures c == Some(Available()) <==> status == "available" || status == "modifying"
    ensures c == Some(Unavailable()) <==>
              status == "deleting" || status == "stopped" || status == "stopping"
    ensures c == Some(Creating()) <==> status == "creating"
    ensures c == None <==>
              status !in {"available", "modifying", "deleting", "stopped", "stopping", "creating"}
    ensures c.Some? ==> c.value.kind == TypeReady
  {
    if status == "available" || status == "modifying" then Some(Available())
    else if status == "deleting" || status == "stopped" || status == "stopping" then Some(Unavailable())
    else if status == "creating" then Some(Creating())
    else None
  }

  /** A failed observation is handed back untouched; otherwise the first
      described cluster's status sets the Ready condition. */
  method PostObserve(cr: DBCluster, resp: DescribeDBClustersOutput, obs: ExternalObservation, err: Option<Error>)
    returns (o: ExternalObservation, e: Option<Error>)
    requires err.None? ==> |resp.dbClusters| > 0
    modifies cr`conditions
    ensures err.Some? ==> o == NoObservation && e == err && cr.conditions == old(cr.conditions)
    ensures err.None? ==> o == obs && e == None
    ensures err.None? ==>
              var c := StatusCondition(StringValue(resp.dbClusters[0].status));
              cr.conditions == if c.Some? then old(cr.conditions)[TypeReady := c.value]
                               else old(cr.conditions)
  {
    if err.Some? {
      return NoObservation, err;
    }
    var c := StatusCondition(StringValue(resp.dbClusters[0].status));
    if c.Some? {
      cr.SetConditions(c.value);
    }
    return obs, None;
  }

  // --------------------------------------------------------------- password

  /** The password lookup both create hooks begin with. */
  function PasswordRead(cr: DBCluster, store: SecretStore): Result<string>
    reads store
  {
    GetPassword(store, cr.forProvider.masterUserPasswordSecretRef)
  }

  /** A read error that is not NotFound (resource.IgnoreNotFound(err) != nil). */
  predicate ReadFailed(read: Result<string>)
  {
    read.Err? && !IsNotFound(read.error)
  }

  /** The password a lookup yields: NotFound yields "". */
  function Retrieved(read: Result<string>): string
  {
    if read.Ok? then read.value else ""
  }

  /** The generator runs only for an empty password with autogeneration on. */
  predicate ShouldGenerate(pw: string, autogenerate: Option<bool>)
  {
    pw == "" && autogenerate == Some(true)
  }

  /** The error savePasswordSecret ends with in a given store, None on success. */
  function SaveError(ref: Option<SecretKeySelector>, store: SecretStore): Option<Error>
    reads store
  {
    if ref.None? then Some(Failed(ErrNoSecretRef))
    else
      var n := ref.value.Secret();
      var got := store.Get(n);
      if got.Err? && !IsNotFound(got.error) then Some(Wrapped(ErrGetSecretFailed, got.error))
      else if n in store.writeFaults then Some(Wrapped(ErrUpdateSecretFailed, Failed(store.writeFaults[n])))
      else None
  }

  /** The secret savePasswordSecret sends: what the get found (nothing for an
      absent secret), with `pw` under the referenced key. */
  function SavedData(ref: SecretKeySelector, store: SecretStore, pw: string): SecretData
    reads store
  {
    var got := store.Get(ref.Secret());
    (if got.Ok? then got.value else map[])[ref.key := pw]
  }

  /** The write requests savePasswordSecret sends to a given store. */
  function SaveWrites(ref: Option<SecretKeySelector>, store: SecretStore, pw: string): seq<Write>
    reads store
  {
    if ref.None? then []
    else
      var n := ref.value.Secret();
      var got := store.Get(n);
      var data := SavedData(ref.value, store, pw);
      if got.Err? && !IsNotFound(got.error) then []
      else if got.Err? then [Created(n, data)]
      else [Updated(n, data)]
  }

  /** What the upsert does, case by case: no reference or a failed read
      writes nothing; an absent secret is created holding only the password,
      and a present one is updated with the password set over its other keys,
      each with one request; it succeeds exactly when a reference is given and
      the store allows both the read and the write. SaveError and SaveWrites
      only carry this specification into the contracts of the hooks. */
  lemma UpsertCases(ref: Option<SecretKeySelector>, store: SecretStore, pw: string)
    ensures ref.None? ==> SaveError(ref, store) == Some(Failed(ErrNoSecretRef)) && SaveWrites(ref, store, pw) == []
    ensures ref.Some? ==>
              var n := ref.value.Secret();
              && (n in store.readFaults ==>
                    SaveError(ref, store) == Some(Wrapped(ErrGetSecretFailed, Failed(store.readFaults[n])))
                    && SaveWrites(ref, store, pw) == [])
              && (n !in store.readFaults && n !in store.secrets ==>
                    SaveWrites(ref, store, pw) == [Created(n, map[ref.value.key := pw])])
              && (n !in store.readFaults && n in store.secrets ==>
                    SaveWrites(ref, store, pw) == [Updated(n, store.secrets[n][ref.value.key := pw])])
              && (SaveError(ref, store) == None <==> n !in store.readFaults && n !in store.writeFaults)
  {
  }

  /** Stores a generated password in the referenced secret: a get, then a
      create if the secret is absent or an update if it is present. */
  method SavePasswordSecret(cr: DBCluster, store: SecretStore, pw: string) returns (err: Option<Error>)
    modifies store`secrets, store`writes
    ensures var ref := cr.forProvider.masterUserPasswordSecretRef;
            && err == old(SaveError(ref, store))
            && store.writes == old(store.writes + SaveWrites(ref, store, pw))
            && store.secrets == if err.None? then old(store.secrets)[ref.value.Secret() := old(SavedData(ref.value, store, pw))]
                                else old(store.secrets)
    // once saved, the password reads back
    ensures err.None? ==> PasswordRead(cr, store) == Ok(pw)
  {
    var ref := cr.forProvider.masterUserPasswordSecretRef;
    if ref.None? {
      return Some(Failed(ErrNoSecretRef));
    }
    var n := ref.value.Secret();
    var got := store.Get(n);
    if got.Err? && !IsNotFound(got.error) {
      return Some(Wrapped(ErrGetSecretFailed, got.error));
    }
    var create := got.Err?;
    var data := (if create then map[] else got.value)[ref.value.key := pw];
    var writeErr;
    if create {
      writeErr := store.Create(n, data);
    } else {
      writeErr := store.Update(n, data);
    }
    if writeErr.Some? {
      return Some(Wrapped(ErrUpdateSecretFailed, writeErr.value));
    }
    return None;
  }

  // ----------------------------------------------------------------- create

  /** The create request carries the password, the external name and the
      spec's security groups, element by element. */
  predicate CreateRequestShaped(obj: CreateDBClusterInput, cr: DBCluster, pw: string)
    reads obj
  {
    && obj.masterUserPassword == Some(pw)
    && obj.dbClusterIdentifier == Some(cr.externalName)
    && |obj.vpcSecurityGroupIds| == |cr.forProvider.vpcSecurityGroupIDs|
    && forall k :: 0 <= k < |obj.vpcSecurityGroupIds| ==>
         obj.vpcSecurityGroupIds[k] == Some(cr.forProvider.vpcSecurityGroupIDs[k])
  }

  /** Resolves the master password (stored, or generated and then stored) and
      fills the create request. */
  method PreCreate(cr: DBCluster, obj: CreateDBClusterInput, store: SecretStore, gen: PasswordGenerator)
    returns (err: Option<Error>)
    modifies obj, store`secrets, store`writes, gen`calls
    // a failed read aborts before anything else happens
    ensures var read := old(PasswordRead(cr, store));
            ReadFailed(read) ==>
              err == Some(Wrapped(ErrGetPassword, read.error)) && unchanged(obj, store, gen)
    // the generator runs once exactly when the gate is open
    ensures var read := old(PasswordRead(cr, store));
            !ReadFailed(read) ==>
              gen.calls == old(gen.calls) +
                (if ShouldGenerate(Retrieved(read), cr.forProvider.autogeneratePassword) then 1 else 0)
    // with the gate closed the retrieved password is used and nothing is written
    ensures var read := old(PasswordRead(cr, store));
            !ReadFailed(read) && !ShouldGenerate(Retrieved(read), cr.forProvider.autogeneratePassword) ==>
              err == None && unchanged(store) && CreateRequestShaped(obj, cr, Retrieved(read))
    // a generation error aborts before any write
    ensures var read := old(PasswordRead(cr, store));
            !ReadFailed(read) && ShouldGenerate(Retrieved(read), cr.forProvider.autogeneratePassword)
            && gen.next.Err? ==>
              err == Some(Wrapped(ErrGeneratePassword, gen.next.error)) && unchanged(obj, store)
    // a generated password is saved, and used only if saving succeeds
    ensures var read := old(PasswordRead(cr, store));
            var ref := cr.forProvider.masterUserPasswordSecretRef;
            !ReadFailed(read) && ShouldGenerate(Retrieved(read), cr.forProvider.autogeneratePassword)
            && gen.next.Ok? ==>
              var saved := old(SaveError(ref, store));
              && store.writes == old(store.writes + SaveWrites(ref, store, gen.next.value))
              && (saved.Some? ==>
                    err == Some(Wrapped(ErrSaveSecretFailed, saved.value))
                    && store.secrets == old(store.secrets) && unchanged(obj))
              && (saved.None? ==>
                    && err == None
                    && store.secrets == old(store.secrets)[ref.value.Secret() := old(SavedData(ref.value, store, gen.next.value))]
                    && PasswordRead(cr, store) == Ok(gen.next.value)
                    && CreateRequestShaped(obj, cr, gen.next.value))
  {
    var read := PasswordRead(cr, store);
    if ReadFailed(read) {
      return Some(Wrapped(ErrGetPassword, read.error));
    }
    var pw := Retrieved(read);
    if ShouldGenerate(pw, cr.forProvider.autogeneratePassword) {
      var generated := gen.Generate();
      if generated.Err? {
        return Some(Wrapped(ErrGeneratePassword, generated.error));
      }
      pw := generated.value;
      var saveErr := SavePasswordSecret(cr, store, pw);
      if saveErr.Some? {
        return Some(Wrapped(ErrSaveSecretFailed, saveErr.value));
      }
    }
    obj.masterUserPassword := Some(pw);
    obj.dbClusterIdentifier := Some(cr.externalName);
    var ids := cr.forProvider.vpcSecurityGroupIDs;
    obj.vpcSecurityGroupIds := seq(|ids|, _ => None);
    var i := 0;
    while i < |ids|
      modifies obj
      invariant 0 <= i <= |ids|
      invariant obj.masterUserPassword == Some(pw) && obj.dbClusterIdentifier == Some(cr.externalName)
      invariant |obj.vpcSecurityGroupIds| == |ids|
      invariant forall k :: 0 <= k < i ==> obj.vpcSecurityGroupIds[k] == Some(ids[k])
    {
      obj.vpcSecurityGroupIds := obj.vpcSecurityGroupIds[i := Some(ids[i])];
      i := i + 1;
    }
    return None;
  }

  /** At most one password is generated per resource: after a create hook
      that succeeded, a repeated one (the reconciler retrying the create)
      reads the password back, generates nothing and sends the same password,
      provided the generator does not produce "". */
  method PreCreateGeneratesAtMostOnce(cr: DBCluster, first: CreateDBClusterInput, second: CreateDBClusterInput,
                                      store: SecretStore, gen: PasswordGenerator)
    returns (e1: Option<Error>, e2: Option<Error>)
    modifies first, second, store`secrets, store`writes, gen`calls
    ensures e1 == None && !(gen.next == Ok("")) ==>
              && gen.calls <= old(gen.calls) + 1
              && e2 == None
              && second.masterUserPassword == first.masterUserPassword
  {
    e1 := PreCreate(cr, first, store, gen);
    e2 := PreCreate(cr, second, store, gen);
  }

  /** Assembles the connection details of a newly created cluster; the
      password comes from the secret, or else from the create response. */
  method PostCreate(cr: DBCluster, store: SecretStore, out: CreateDBClusterOutput,
                    ec: ExternalCreation, err: Option<Error>)
    returns (creation: ExternalCreation, e: Option<Error>)
    requires err.None? && !ReadFailed(PasswordRead(cr, store)) && Retrieved(PasswordRead(cr, store)) == "" ==>
               PendingMasterUserPassword(out).Some?
    ensures err.Some? ==> creation == NoCreation && e == err
    ensures err.None? && ReadFailed(PasswordRead(cr, store)) ==>
              creation == NoCreation && e == Some(Wrapped(ErrGetPassword, PasswordRead(cr, store).error))
    ensures err.None? && !ReadFailed(PasswordRead(cr, store)) ==>
              var details := creation.connectionDetails;
              var pw := Retrieved(PasswordRead(cr, store));
              && e == None
              && details.Keys == {EndpointKey, UserKey, PasswordKey}
              && details[EndpointKey] == StringValue(cr.atProvider.endpoint)
              && details[UserKey] == StringValue(cr.forProvider.masterUsername)
              && details[PasswordKey] == if pw != "" then pw else PendingMasterUserPassword(out).value
  {
    if err.Some? {
      return NoCreation, err;
    }
    var conn := map[EndpointKey := StringValue(cr.atProvider.endpoint),
                    UserKey := StringValue(cr.forProvider.masterUsername)];
    var read := PasswordRead(cr, store);
    if ReadFailed(read) {
      return NoCreation, Some(Wrapped(ErrGetPassword, read.error));
    }
    var pw := Retrieved(read);
    if pw != "" {
      conn := conn[PasswordKey := pw];
    } else {
      conn := conn[PasswordKey := PendingMasterUserPassword(out).value];
    }
    return ExternalCreation(conn), None;
  }

  // ----------------------------------------------------------------- update

  /** Whether the observed cluster needs no modify call: always while a change
      is in flight, otherwise when the IAM database authentication flags agree. */
  function IsUpToDate(cr: DBCluster, out: DescribeDBClustersOutput): (r: (bool, Option<Error>))
    requires |out.dbClusters| > 0
    ensures r.1 == None
    ensures var status := StringValue(out.dbClusters[0].status);
            status in {"modifying", "upgrading", "configuring-iam-database-auth"} ==> r.0
    ensures var status := StringValue(out.dbClusters[0].status);
            status !in {"modifying", "upgrading", "configuring-iam-database-auth"} ==>
              (r.0 <==> BoolValue(cr.forProvider.enableIAMDatabaseAuthentication)
                        == BoolValue(out.dbClusters[0].iamDatabaseAuthenticationEnabled))
  {
    var status := StringValue(out.dbClusters[0].status);
    if status == "modifying" || status == "upgrading" || status == "configuring-iam-database-auth" then
      (true, None)
    else if BoolValue(cr.forProvider.enableIAMDatabaseAuthentication)
            != BoolValue(out.dbClusters[0].iamDatabaseAuthenticationEnabled) then
      (false, None)
    else
      (true, None)
  }

  method PreUpdate(cr: DBCluster, obj: ModifyDBClusterInput) returns (err: Option<Error>)
    modifies obj
    ensures obj.dbClusterIdentifier == Some(cr.externalName)
    ensures obj.applyImmediately == cr.forProvider.applyImmediately
    ensures err == None
  {
    obj.dbClusterIdentifier := Some(cr.externalName);
    obj.applyImmediately := cr.forProvider.applyImmediately;
    return None;
  }

  // ----------------------------------------------------------------- delete

  /** Fills the delete request; never reports the deletion as finished. */
  method PreDelete(cr: DBCluster, obj: DeleteDBClusterInput) returns (terminal: bool, err: Option<Error>)
    modifies obj
    ensures obj.dbClusterIdentifier == Some(cr.externalName)
    ensures obj.finalDBSnapshotIdentifier == Some(cr.forProvider.finalDBSnapshotIdentifier)
    ensures obj.skipFinalSnapshot == Some(cr.forProvider.skipFinalSnapshot)
    ensures !terminal && err == None
  {
    obj.dbClusterIdentifier := Some(cr.externalName);
    obj.finalDBSnapshotIdentifier := Some(cr.forProvider.finalDBSnapshotIdentifier);
    obj.skipFinalSnapshot := Some(cr.forProvider.skipFinalSnapshot);
    return false, None;
  }

  // ------------------------------------------------------------ list filter

  predicate HasIdentifier(c: DBClusterDescription, id: string)
  {
    StringValue(c.dbClusterIdentifier) == id
  }

  /** The first cluster with the identifier, as a list of zero or one. */
  function FirstWithIdentifier(clusters: seq<DBClusterDescription>, id: string): seq<DBClusterDescription>
  {
    if clusters == [] then []
    else if HasIdentifier(clusters[0], id) then [clusters[0]]
    else FirstWithIdentifier(clusters[1..], id)
  }

  /** At most one cluster is kept; none exactly when no cluster has the
      identifier, and otherwise the first one that has it. */
  lemma {:induction false} FirstWithIdentifierSpec(clusters: seq<DBClusterDescription>, id: string)
    ensures |FirstWithIdentifier(clusters, id)| <= 1
    ensures FirstWithIdentifier(clusters, id) == [] <==>
              forall i :: 0 <= i < |clusters| ==> !HasIdentifier(clusters[i], id)
    ensures forall i :: 0 <= i < |clusters| && HasIdentifier(clusters[i], id)
                        && (forall j :: 0 <= j < i ==> !HasIdentifier(clusters[j], id)) ==>
              FirstWithIdentifier(clusters, id) == [clusters[i]]
  {
    if clusters != [] && !HasIdentifier(clusters[0], id) {
      var rest := clusters[1..];
      FirstWithIdentifierSpec(rest, id);
      forall i | 0 < i < |clusters| ensures clusters[i] == rest[i - 1] { }
      forall i | 0 < i < |clusters| && HasIdentifier(clusters[i], id)
                 && (forall j :: 0 <= j < i ==> !HasIdentifier(clusters[j], id))
        ensures FirstWithIdentifier(clusters, id) == [clusters[i]]
      {
        assert forall j :: 0 <= j < i - 1 ==> !HasIdentifier(rest[j], id) by {
          forall j | 0 <= j < i - 1 ensures !HasIdentifier(rest[j], id) {
            assert rest[j] == clusters[j + 1];
          }
        }
      }
    }
  }

  /** Narrows a describe response to the cluster with the resource's
      external name. */
  method FilterList(cr: DBCluster, obj: DescribeDBClustersOutput) returns (resp: DescribeDBClustersOutput)
    ensures resp.dbClusters == FirstWithIdentifier(obj.dbClusters, cr.externalName)
  {
    var id := cr.externalName;
    var kept: seq<DBClusterDescription> := [];
    var i := 0;
    while i < |obj.dbClusters|
      invariant 0 <= i <= |obj.dbClusters|
      invariant kept == []
      invariant FirstWithIdentifier(obj.dbClusters, id) == FirstWithIdentifier(obj.dbClusters[i..], id)
    {
      if StringValue(obj.dbClusters[i].dbClusterIdentifier) == id {
        kept := kept + [obj.dbClusters[i]];
        break;
      }
      assert obj.dbClusters[i..][1..] == obj.dbClusters[i + 1..];
      i := i + 1;
    }
    return DescribeDBClustersOutput(kept);
  }
}
