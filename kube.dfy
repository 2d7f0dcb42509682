/** The two collaborators the credential logic talks to: the Kubernetes secret
    store and the password generator, and the password lookup built on the store. */
module Kube {
  import opened Common

  /** The namespace and name that identify a secret. */
  datatype NamespacedName = NamespacedName(namespace: string, name: string)

  /** A reference to one key of one secret. */
  datatype SecretKeySelector = SecretKeySelector(name: string, namespace: string, key: string)
  {
    function Secret(): NamespacedName
    {
      NamespacedName(namespace, name)
    }
  }

  type SecretData = map<string, string>

  /** One write request sent to the store, whether or not it succeeded. */
  datatype Write =
    | Created(secret: NamespacedName, data: SecretData)
    | Updated(secret: NamespacedName, data: SecretData)

  /** The secret store. `readFaults` and `writeFaults` name the secrets whose
      reads or writes the store refuses, with the reason it gives; `writes`
      records every create and update request in order. */
  class SecretStore {
    var secrets: map<NamespacedName, SecretData>
    var readFaults: map<NamespacedName, string>
    var writeFaults: map<NamespacedName, string>
    var writes: seq<Write>

    constructor (secrets: map<NamespacedName, SecretData>,
                 readFaults: map<NamespacedName, string>,
                 writeFaults: map<NamespacedName, string>)
      ensures this.secrets == secrets
      ensures this.readFaults == readFaults && this.writeFaults == writeFaults
      ensures writes == []
    {
      this.secrets := secrets;
      this.readFaults := readFaults;
      this.writeFaults := writeFaults;
      writes := [];
    }

    /** Reads a secret: a refused read, the data, or NotFound. */
    function Get(n: NamespacedName): Result<SecretData>
      reads this
    {
      if n in readFaults then Err(Failed(readFaults[n]))
      else if n in secrets then Ok(secrets[n])
      else Err(NotFound)
    }

    /** Creates a secret; fails if the write is refused or the secret exists. */
    method Create(n: NamespacedName, data: SecretData) returns (err: Option<Error>)
      modifies this`secrets, this`writes
      ensures writes == old(writes) + [Created(n, data)]
      ensures err == if n in writeFaults then Some(Failed(writeFaults[n]))
                     else if n in old(secrets) then Some(AlreadyExists)
                     else None
      ensures secrets == if err.None? then old(secrets)[n := data] else old(secrets)
    {
      writes := writes + [Created(n, data)];
      if n in writeFaults {
        return Some(Failed(writeFaults[n]));
      }
      if n in secrets {
        return Some(AlreadyExists);
      }
      secrets := secrets[n := data];
      return None;
    }

    /** Replaces a secret; fails if the write is refused or the secret is missing. */
    method Update(n: NamespacedName, data: SecretData) returns (err: Option<Error>)
      modifies this`secrets, this`writes
      ensures writes == old(writes) + [Updated(n, data)]
      ensures err == if n in writeFaults then Some(Failed(writeFaults[n]))
                     else if n !in old(secrets) then Some(NotFound)
                     else None
      ensures secrets == if err.None? then old(secrets)[n := data] else old(secrets)
    {
      writes := writes + [Updated(n, data)];
      if n in writeFaults {
        return Some(Failed(writeFaults[n]));
      }
      if n !in secrets {
        return Some(NotFound);
      }
      secrets := secrets[n := data];
      return None;
    }
  }

  /** Reads the password a selector points to: "" when there is no selector or
      the key is absent, the store's error when the read fails. */
  function GetPassword(store: SecretStore, ref: Option<SecretKeySelector>): (r: Result<string>)
    reads store
    ensures ref.None? ==> r == Ok("")
    ensures ref.Some? ==> (r.Err? <==> store.Get(ref.value.Secret()).Err?)
    ensures r.Ok? && r.value != "" ==>
              ref.Some? && ref.value.Secret() in store.secrets
              && ref.value.key in store.secrets[ref.value.Secret()]
              && store.secrets[ref.value.Secret()][ref.value.key] == r.value
  {
    match ref
    case None => Ok("")
    case Some(sel) =>
      match store.Get(sel.Secret())
      case Err(e) => Err(e)
      case Ok(data) => Ok(if sel.key in data then data[sel.key] else "")
  }

  /** The password generator. `next` is the outcome the environment has chosen
      for the next call; `calls` counts the calls. */
  class PasswordGenerator {
    var next: Result<string>
    var calls: nat

    constructor (next: Result<string>)
      ensures this.next == next && calls == 0
    {
      this.next := next;
      calls := 0;
    }

    method Generate() returns (r: Result<string>)
      modifies this`calls
      ensures r == next
      ensures calls == old(calls) + 1
    {
      r := next;
      calls := calls + 1;
    }
  }
}
