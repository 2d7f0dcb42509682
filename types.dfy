/** The objects the hooks read and write: the managed DBCluster resource with
    its conditions, the reconciler's observation and creation results, and
    the fields of the RDS SDK requests and responses that the hooks touch. */
module Types {
  import opened Common
  import opened Kube

  // Conditions of a managed resource. Available, Unavailable and Creating are
  // all conditions of type Ready, so setting one replaces the others.

  const TypeReady := "Ready"

  datatype ConditionStatus = ConditionTrue | ConditionFalse | ConditionUnknown

  datatype Condition = Condition(kind: string, status: ConditionStatus, reason: string)

  function Available(): Condition { Condition(TypeReady, ConditionTrue, "Available") }
  function Unavailable(): Condition { Condition(TypeReady, ConditionFalse, "Unavailable") }
  function Creating(): Condition { Condition(TypeReady, ConditionFalse, "Creating") }

  // Connection details: slot name to value. The values are kept as strings;
  // the byte encoding of each value is not part of this model.

  const EndpointKey := "endpoint"
  const UserKey := "username"
  const PasswordKey := "password"

  type ConnectionDetails = map<string, string>

  datatype ExternalObservation = ExternalObservation(
    resourceExists: bool,
    resourceUpToDate: bool,
    resourceLateInitialized: bool,
    connectionDetails: ConnectionDetails)

  /** The zero observation, returned when a post-hook gives up. */
  const NoObservation := ExternalObservation(false, false, false, map[])

  datatype ExternalCreation = ExternalCreation(connectionDetails: ConnectionDetails)

  /** The zero creation, returned when a post-hook gives up. */
  const NoCreation := ExternalCreation(map[])

  /** The user's desired configuration (spec.forProvider), the fields used. */
  datatype DBClusterParameters = DBClusterParameters(
    masterUsername: Option<string>,
    masterUserPasswordSecretRef: Option<SecretKeySelector>,
    autogeneratePassword: Option<bool>,
    vpcSecurityGroupIDs: seq<string>,
    enableIAMDatabaseAuthentication: Option<bool>,
    applyImmediately: Option<bool>,
    finalDBSnapshotIdentifier: string,
    skipFinalSnapshot: bool)

  /** The observed state recorded on the resource (status.atProvider). */
  datatype DBClusterObservation = DBClusterObservation(endpoint: Option<string>)

  /** The managed resource. The hooks only read its name, spec and status,
      except that they set its conditions. */
  class DBCluster {
    const externalName: string
    const forProvider: DBClusterParameters
    const atProvider: DBClusterObservation
    var conditions: map<string, Condition>

    constructor (externalName: string, forProvider: DBClusterParameters,
                 atProvider: DBClusterObservation, conditions: map<string, Condition>)
      ensures this.externalName == externalName && this.forProvider == forProvider
      ensures this.atProvider == atProvider && this.conditions == conditions
    {
      this.externalName := externalName;
      this.forProvider := forProvider;
      this.atProvider := atProvider;
      this.conditions := conditions;
    }

    /** Replaces the condition of the same type, leaving the others. */
    method SetConditions(c: Condition)
      modifies this`conditions
      ensures conditions == old(conditions)[c.kind := c]
    {
      conditions := conditions[c.kind := c];
    }
  }

  // Responses of the RDS API, the fields used.

  datatype ClusterPendingModifiedValues = ClusterPendingModifiedValues(masterUserPassword: Option<string>)

  /** One cluster as the RDS API describes it. */
  datatype DBClusterDescription = DBClusterDescription(
    dbClusterIdentifier: Option<string>,
    status: Option<string>,
    iamDatabaseAuthenticationEnabled: Option<bool>,
    pendingModifiedValues: Option<ClusterPendingModifiedValues>)

  datatype DescribeDBClustersOutput = DescribeDBClustersOutput(dbClusters: seq<DBClusterDescription>)

  datatype CreateDBClusterOutput = CreateDBClusterOutput(dbCluster: Option<DBClusterDescription>)

  /** out.DBCluster.PendingModifiedValues.MasterUserPassword, None if any
      pointer on the way is nil. */
  function PendingMasterUserPassword(out: CreateDBClusterOutput): Option<string>
  {
    if out.dbCluster.Some? && out.dbCluster.value.pendingModifiedValues.Some?
    then out.dbCluster.value.pendingModifiedValues.value.masterUserPassword
    else None
  }

  // Requests to the RDS API, the fields the hooks assign. The reconciler
  // builds each request and hands it to a hook, which fills it in place.

  class DescribeDBClustersInput {
    var dbClusterIdentifier: Option<string>

    constructor ()
      ensures dbClusterIdentifier == None
    {
      dbClusterIdentifier := None;
    }
  }

  class CreateDBClusterInput {
    var dbClusterIdentifier: Option<string>
    var masterUserPassword: Option<string>
    var vpcSecurityGroupIds: seq<Option<string>>

    constructor ()
      ensures dbClusterIdentifier == None && masterUserPassword == None
      ensures vpcSecurityGroupIds == []
    {
      dbClusterIdentifier := None;
      masterUserPassword := None;
      vpcSecurityGroupIds := [];
    }
  }

  class ModifyDBClusterInput {
    var dbClusterIdentifier: Option<string>
    var applyImmediately: Option<bool>

    constructor ()
      ensures dbClusterIdentifier == None && applyImmediately == None
    {
      dbClusterIdentifier := None;
      applyImmediately := None;
    }
  }

  class DeleteDBClusterInput {
    var dbClusterIdentifier: Option<string>
    var finalDBSnapshotIdentifier: Option<string>
    var skipFinalSnapshot: Option<bool>

    constructor ()
      ensures dbClusterIdentifier == None
      ensures finalDBSnapshotIdentifier == None && skipFinalSnapshot == None
    {
      dbClusterIdentifier := None;
      finalDBSnapshotIdentifier := None;
      skipFinalSnapshot := None;
    }
  }
}
