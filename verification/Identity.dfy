/** The cluster identity set-up of common/pkg/clients/clusteragentclient: every external call may fail, which
    aborts the run; the next run starts from the stored secret. */
module Identity {
  import opened Common

  const UNKNOWN_CLUSTER_ID := "___unknown_cluster_id___"
  const UNKNOWN_API_KEY := "___unknown_api_key___"

  const APIKEY := "APIKEY"
  const CLUSTER_ID := "CLUSTER_ID"
  const CLUSTER_UID := "CLUSTER_UID"

  /** The Kubernetes secret. A stored secret may have no data at all: a nil map, which reads as empty and
      panics on a write. */
  datatype Secret = Absent | Present(data: Option<map<string, string>>)

  datatype Failure = InvalidConfig | CallFailed | WrongIdentityType | NoClusterName | NilMapPanic

  datatype Result = Done | Abort(failure: Failure)

  /** Go's string(secret.Data[key]): "" for an absent key. */
  function Read(secret: Secret, key: string): string {
    match secret
    case Present(Some(data)) => if key in data then data[key] else ""
    case _ => ""
  }

  /** The fields of the client that set-up assigns, and the process-wide CLUSTER_UID setting. */
  datatype Config = Config(identifier: string, apiKey: string, clusterUid: string)

  datatype Self = Self(isCluster: bool, name: string, uid: string)
  datatype Registration = Registration(clusterId: string, apiKey: string)

  /** The outcomes of the get and of the create or set inside one update of the secret. */
  datatype UpdateCalls = UpdateCalls(getOk: bool, writeOk: bool)

  /** Everything outside: one run's answers from Kubernetes, the interregator, the id generator and the ROR API.
      None is a failed call; for `interregated` it is the interregator's own unknown value. `configOk` says whether
      the configuration is there and has role, namespace, endpoint and secret name. */
  datatype Answers = Answers(
    configOk: bool, interregatorOk: bool,
    namespaceOk: bool, secretOk: bool,
    interregated: Option<string>,
    connectOk: bool, self: Option<Self>, selfUpdate: UpdateCalls,
    interregatedUpdate: UpdateCalls,
    clusterName: string, generated: string, generatedUpdate: UpdateCalls,
    registration: Option<Registration>, registrationUpdate: UpdateCalls,
    authorizeOk: bool, versionOk: bool, finalSelf: Option<Self>, finalUpdate: UpdateCalls)

  /** The stored secret, the client's fields, and the ids the run asked the ROR API to register. */
  datatype Machine = Machine(secret: Secret, config: Config, registrations: seq<string>)

  // ---- Specification of the steps ----

  function Created(c: Config): Secret {
    Present(Some(map[APIKEY := c.apiKey, CLUSTER_ID := c.identifier]))
  }

  /** Some known field of the configuration is not what the secret reads as. */
  predicate NeedsWrite(secret: Secret, c: Config) {
    || (c.apiKey != UNKNOWN_API_KEY && Read(secret, APIKEY) != c.apiKey)
    || (c.identifier != UNKNOWN_CLUSTER_ID && Read(secret, CLUSTER_ID) != c.identifier)
    || (c.clusterUid != "" && Read(secret, CLUSTER_UID) != c.clusterUid)
  }

  /** Fields that read the same are not written, so an absent key that should hold "" stays absent. */
  function Written(secret: Secret, c: Config): Secret
    requires secret.Present? && secret.data.Some?
  {
    var data := secret.data.value;
    var d0 := if c.apiKey != UNKNOWN_API_KEY && Read(secret, APIKEY) != c.apiKey then data[APIKEY := c.apiKey] else data;
    var d1 := if c.identifier != UNKNOWN_CLUSTER_ID && Read(secret, CLUSTER_ID) != c.identifier
              then d0[CLUSTER_ID := c.identifier] else d0;
    Present(Some(if c.clusterUid != "" && Read(secret, CLUSTER_UID) != c.clusterUid
                 then d1[CLUSTER_UID := c.clusterUid] else d1))
  }

  /** kubernetesUpdateOrCreateApiKeySecret: the secret afterwards, and how the call ended. */
  function Updated(secret: Secret, c: Config, calls: UpdateCalls): (Secret, Result) {
    if !calls.getOk then (secret, Abort(CallFailed))
    else if secret.Absent? then
      if calls.writeOk then (Created(c), Done) else (secret, Abort(CallFailed))
    else if !NeedsWrite(secret, c) then (secret, Done)
    else if secret.data.None? then (secret, Abort(NilMapPanic))
    else if calls.writeOk then (Written(secret, c), Done)
    else (secret, Abort(CallFailed))
  }

  /** Set the fields, then update the secret from them. */
  function Stored(m: Machine, c: Config, calls: UpdateCalls): (Machine, Result) {
    var (secret, result) := Updated(m.secret, c, calls);
    (m.(secret := secret, config := c), result)
  }

  /** getClusterAuthFromSecret. */
  function Loaded(secret: Secret, clusterUid: string): Config {
    var id, key, uid := Read(secret, CLUSTER_ID), Read(secret, APIKEY), Read(secret, CLUSTER_UID);
    Config(if id == "" then UNKNOWN_CLUSTER_ID else id,
           if key == "" then UNKNOWN_API_KEY else key,
           if uid == "" then clusterUid else uid)
  }

  function AskedSelf(m: Machine, a: Answers): (Machine, Result) {
    if !(m.config.identifier == UNKNOWN_CLUSTER_ID && a.interregated.None? && m.config.apiKey != UNKNOWN_API_KEY)
    then (m, Done)
    else if !a.connectOk || a.self.None? then (m, Abort(CallFailed))
    else if !a.self.value.isCluster then (m, Abort(WrongIdentityType))
    else Stored(m, m.config.(identifier := a.self.value.name), a.selfUpdate)
  }

  function AskedInterregator(m: Machine, a: Answers): (Machine, Result) {
    if m.config.identifier == UNKNOWN_CLUSTER_ID && a.interregated.Some?
    then Stored(m, m.config.(identifier := a.interregated.value), a.interregatedUpdate)
    else (m, Done)
  }

  function Generated(m: Machine, a: Answers): (Machine, Result) {
    if m.config.identifier != UNKNOWN_CLUSTER_ID then (m, Done)
    else if a.clusterName == "" then (m, Abort(NoClusterName))
    else Stored(m, m.config.(identifier := a.generated), a.generatedUpdate)
  }

  function Registered(m: Machine, a: Answers): (Machine, Result) {
    if m.config.apiKey != UNKNOWN_API_KEY then (m, Done)
    else
      var m' := m.(registrations := m.registrations + [m.config.identifier]);
      if a.registration.None? then (m', Abort(CallFailed)) else
      var reply := a.registration.value;
      Stored(m', m.config.(identifier := reply.clusterId, apiKey := reply.apiKey), a.registrationUpdate)
  }

  /** initRorAgentClientSetup. */
  function SetUp(m: Machine, a: Answers): (Machine, Result) {
    if !a.namespaceOk || !a.secretOk then (m, Abort(CallFailed)) else
    var m1 := m.(config := Loaded(m.secret, m.config.clusterUid));
    var (m2, r2) := AskedSelf(m1, a);
    if r2.Abort? then (m2, r2) else
    var (m3, r3) := AskedInterregator(m2, a);
    if r3.Abort? then (m3, r3) else
    var (m4, r4) := Generated(m3, a);
    if r4.Abort? then (m4, r4) else Registered(m4, a)
  }

  /** The rest of NewRorAgentClient: check the key against the ROR API, then persist the uid it reports. A failure
      of that last update is ignored; a panic is not. */
  function Finished(m: Machine, a: Answers): (Machine, Result) {
    if m.config.apiKey == UNKNOWN_API_KEY || !a.authorizeOk || !a.versionOk || a.finalSelf.None?
    then (m, Abort(CallFailed))
    else if !a.finalSelf.value.isCluster then (m, Abort(WrongIdentityType))
    else if a.finalSelf.value.uid == "" then (m, Done)
    else
      var (m', r) := Stored(m, m.config.(clusterUid := a.finalSelf.value.uid), a.finalUpdate);
      (m', if r == Abort(NilMapPanic) then r else Done)
  }

  /** NewRorAgentClient. */
  function Started(m: Machine, a: Answers): (Machine, Result) {
    if !a.configOk then (m, Abort(InvalidConfig)) else
    if !a.interregatorOk then (m, Abort(CallFailed)) else
    var (m', r) := SetUp(m, a);
    if r.Abort? then (m', r) else Finished(m', a)
  }

  // ---- The client ----

  class SecretStore {
    var secret: Secret

    constructor (secret: Secret)
      ensures this.secret == secret
    {
      this.secret := secret;
    }
  }

  class RorAgentClient {
    const store: SecretStore
    var config: Config
    var registrations: seq<string>

    constructor (store: SecretStore, clusterUid: string)
      ensures this.store == store && Abs() == Machine(store.secret, Config("", "", clusterUid), [])
    {
      this.store := store;
      config, registrations := Config("", "", clusterUid), [];
    }

    ghost function Abs(): Machine
      reads this, store
    {
      Machine(store.secret, config, registrations)
    }

    method KubernetesCreateApiKeySecret(writeOk: bool) returns (r: Result)
      modifies store
      ensures (store.secret, r) == if writeOk then (Created(config), Done) else (old(store.secret), Abort(CallFailed))
    {
      if !writeOk {
        return Abort(CallFailed);
      }
      store.secret := Present(Some(map[APIKEY := config.apiKey, CLUSTER_ID := config.identifier]));
      return Done;
    }

    method KubernetesUpdateOrCreateApiKeySecret(calls: UpdateCalls) returns (r: Result)
      modifies store
      ensures (store.secret, r) == Updated(old(store.secret), config, calls)
    {
      if !calls.getOk {
        return Abort(CallFailed);
      }
      var secret := store.secret;
      if secret.Absent? {
        r := KubernetesCreateApiKeySecret(calls.writeOk);
        return;
      }
      var data, hasChanged := secret.data, false;
      if config.apiKey != UNKNOWN_API_KEY && Read(secret, APIKEY) != config.apiKey {
        if data.None? { return Abort(NilMapPanic); }
        data, hasChanged := Some(data.value[APIKEY := config.apiKey]), true;
      }
      if config.identifier != UNKNOWN_CLUSTER_ID && Read(secret, CLUSTER_ID) != config.identifier {
        if data.None? { return Abort(NilMapPanic); }
        data, hasChanged := Some(data.value[CLUSTER_ID := config.identifier]), true;
      }
      if config.clusterUid != "" && Read(secret, CLUSTER_UID) != config.clusterUid {
        if data.None? { return Abort(NilMapPanic); }
        data, hasChanged := Some(data.value[CLUSTER_UID := config.clusterUid]), true;
      }
      if !hasChanged {
        return Done;
      }
      if !calls.writeOk {
        return Abort(CallFailed);
      }
      store.secret := Present(data);
      return Done;
    }

    method GetClusterAuthFromSecret(secretOk: bool) returns (r: Result)
      modifies this`config
      ensures r == if secretOk then Done else Abort(CallFailed)
      ensures config == if secretOk then Loaded(store.secret, old(config.clusterUid)) else old(config)
    {
      if !secretOk {
        return Abort(CallFailed);
      }
      r := Done;
      match store.secret
      case Absent =>
        config := config.(identifier := UNKNOWN_CLUSTER_ID, apiKey := UNKNOWN_API_KEY);
      case Present(_) =>
        config := config.(identifier := Read(store.secret, CLUSTER_ID));
        if config.identifier == "" {
          config := config.(identifier := UNKNOWN_CLUSTER_ID);
        }
        config := config.(apiKey := Read(store.secret, APIKEY));
        if config.apiKey == "" {
          config := config.(apiKey := UNKNOWN_API_KEY);
        }
        var uid := Read(store.secret, CLUSTER_UID);
        if uid != "" {
          config := config.(clusterUid := uid);
        }
    }

    method InitRorAgentClientSetup(a: Answers) returns (r: Result)
      modifies this, store
      ensures (Abs(), r) == SetUp(old(Abs()), a)
    {
      if !a.namespaceOk {
        return Abort(CallFailed);
      }
      r := GetClusterAuthFromSecret(a.secretOk);
      if r.Abort? {
        return;
      }
      if config.identifier == UNKNOWN_CLUSTER_ID && a.interregated.None? && config.apiKey != UNKNOWN_API_KEY {
        if !a.connectOk || a.self.None? {
          return Abort(CallFailed);
        }
        if !a.self.value.isCluster {
          return Abort(WrongIdentityType);
        }
        config := config.(identifier := a.self.value.name);
        r := KubernetesUpdateOrCreateApiKeySecret(a.selfUpdate);
        if r.Abort? { return; }
      }
      if config.identifier == UNKNOWN_CLUSTER_ID && a.interregated.Some? {
        config := config.(identifier := a.interregated.value);
        r := KubernetesUpdateOrCreateApiKeySecret(a.interregatedUpdate);
        if r.Abort? { return; }
      }
      if config.identifier == UNKNOWN_CLUSTER_ID {
        if a.clusterName == "" {
          return Abort(NoClusterName);
        }
        config := config.(identifier := a.generated);
        r := KubernetesUpdateOrCreateApiKeySecret(a.generatedUpdate);
        if r.Abort? { return; }
      }
      if config.apiKey == UNKNOWN_API_KEY {
        registrations := registrations + [config.identifier];
        if a.registration.None? {
          return Abort(CallFailed);
        }
        config := config.(identifier := a.registration.value.clusterId, apiKey := a.registration.value.apiKey);
        r := KubernetesUpdateOrCreateApiKeySecret(a.registrationUpdate);
        if r.Abort? { return; }
      }
      return Done;
    }

    method NewRorAgentClient(a: Answers) returns (r: Result)
      modifies this, store
      ensures (Abs(), r) == Started(old(Abs()), a)
    {
      if !a.configOk {
        return Abort(InvalidConfig);
      }
      if !a.interregatorOk {
        return Abort(CallFailed);
      }
      r := InitRorAgentClientSetup(a);
      if r.Abort? {
        return;
      }
      if config.apiKey == UNKNOWN_API_KEY || !a.authorizeOk || !a.versionOk || a.finalSelf.None? {
        return Abort(CallFailed);
      }
      if !a.finalSelf.value.isCluster {
        return Abort(WrongIdentityType);
      }
      if a.finalSelf.value.uid != "" {
        config := config.(clusterUid := a.finalSelf.value.uid);
        var ignored := KubernetesUpdateOrCreateApiKeySecret(a.finalUpdate);
        if ignored == Abort(NilMapPanic) {
          return ignored;
        }
      }
      return Done;
    }
  }
}
