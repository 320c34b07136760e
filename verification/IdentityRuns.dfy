/** Properties of the identity set-up over any sequence of runs, each of which may abort at any call. */
module IdentityRuns {
  import opened Common
  import opened Identity

  predicate Good(value: string, unknown: string) {
    value != "" && value != unknown
  }

  predicate KnowsId(secret: Secret) {
    Good(Read(secret, CLUSTER_ID), UNKNOWN_CLUSTER_ID)
  }

  predicate KnowsKey(secret: Secret) {
    Good(Read(secret, APIKEY), UNKNOWN_API_KEY)
  }

  /** A process starts with blank fields; CLUSTER_UID may come from its environment. */
  function Boot(secret: Secret, clusterUid: string): Machine {
    Machine(secret, Config("", "", clusterUid), [])
  }

  /** One process: its CLUSTER_UID setting and everything it is told. */
  datatype Process = Process(clusterUid: string, answers: Answers)

  function Ran(secret: Secret, p: Process): (Machine, Result) {
    Started(Boot(secret, p.clusterUid), p.answers)
  }

  /** The stored secret after a sequence of processes. */
  function SecretAfter(secret: Secret, runs: seq<Process>): Secret {
    if runs == [] then secret else
    Ran(SecretAfter(secret, runs[..|runs| - 1]), runs[|runs| - 1]).0.secret
  }

  // ---- Steps ----

  /** The update either leaves the secret or makes it read as the configuration wherever that is known. */
  lemma UpdatedReads(secret: Secret, c: Config, calls: UpdateCalls)
    ensures var (secret', r) := Updated(secret, c, calls);
            && (r.Abort? ==> secret' == secret)
            && (r.Done? ==>
                  && Read(secret', APIKEY) ==
                     (if c.apiKey != UNKNOWN_API_KEY || secret.Absent? then c.apiKey else Read(secret, APIKEY))
                  && Read(secret', CLUSTER_ID) ==
                     (if c.identifier != UNKNOWN_CLUSTER_ID || secret.Absent? then c.identifier
                      else Read(secret, CLUSTER_ID)))
  {
  }

  // ---- Crash-restart stability ----

  /** Once id and key are stored, a run neither registers nor changes them, however it ends, and it ends with
      exactly this identity if it succeeds. */
  lemma KnownIdentityIsKept(secret: Secret, p: Process)
    requires KnowsId(secret) && KnowsKey(secret)
    ensures var (m, r) := Ran(secret, p);
            && m.registrations == []
            && Read(m.secret, CLUSTER_ID) == Read(secret, CLUSTER_ID)
            && Read(m.secret, APIKEY) == Read(secret, APIKEY)
            && (r.Done? ==> m.config.identifier == Read(secret, CLUSTER_ID) && m.config.apiKey == Read(secret, APIKEY))
  {
    var loaded := Loaded(secret, p.clusterUid);
    if p.answers.finalSelf.Some? {
      UpdatedReads(secret, loaded.(clusterUid := p.answers.finalSelf.value.uid), p.answers.finalUpdate);
    }
  }

  /** Crash-restart stability: from the first moment the secret has a known id and key, no later run of any
      sequence registers, rewrites either one, or ends with another identity. */
  lemma {:induction false} IdentityIsStable(secret: Secret, runs: seq<Process>, i: nat, j: nat)
    requires i <= j < |runs|
    requires var s := SecretAfter(secret, runs[..i]); KnowsId(s) && KnowsKey(s)
    ensures var s, (m, r) := SecretAfter(secret, runs[..i]), Ran(SecretAfter(secret, runs[..j]), runs[j]);
            && Read(SecretAfter(secret, runs[..j]), CLUSTER_ID) == Read(s, CLUSTER_ID)
            && Read(SecretAfter(secret, runs[..j]), APIKEY) == Read(s, APIKEY)
            && m.registrations == []
            && Read(m.secret, CLUSTER_ID) == Read(s, CLUSTER_ID) && Read(m.secret, APIKEY) == Read(s, APIKEY)
            && (r.Done? ==> m.config.identifier == Read(s, CLUSTER_ID) && m.config.apiKey == Read(s, APIKEY))
  {
    hide Ran;
    if i < j {
      IdentityIsStable(secret, runs, i, j - 1);
      assert runs[..j][..j - 1] == runs[..j - 1];
    }
    KnownIdentityIsKept(SecretAfter(secret, runs[..j]), runs[j]);
  }

  ghost predicate KeyHeld(m: Machine, key: string) {
    key != UNKNOWN_API_KEY && m.config.apiKey == key && Read(m.secret, APIKEY) == key && m.registrations == []
  }

  lemma StoredHoldsKey(m: Machine, c: Config, calls: UpdateCalls, key: string)
    requires KeyHeld(m, key) && c.apiKey == key
    ensures KeyHeld(Stored(m, c, calls).0, key)
  {
    UpdatedReads(m.secret, c, calls);
  }

  lemma SetUpHoldsKey(m: Machine, a: Answers)
    requires KnowsKey(m.secret) && a.namespaceOk && a.secretOk && m.registrations == []
    ensures KeyHeld(SetUp(m, a).0, Read(m.secret, APIKEY))
  {
    var key := Read(m.secret, APIKEY);
    var m1 := m.(config := Loaded(m.secret, m.config.clusterUid));
    if a.self.Some? { StoredHoldsKey(m1, m1.config.(identifier := a.self.value.name), a.selfUpdate, key); }
    var m2 := AskedSelf(m1, a).0;
    assert KeyHeld(m2, key);
    if a.interregated.Some? {
      StoredHoldsKey(m2, m2.config.(identifier := a.interregated.value), a.interregatedUpdate, key);
    }
    var m3 := AskedInterregator(m2, a).0;
    assert KeyHeld(m3, key);
    StoredHoldsKey(m3, m3.config.(identifier := a.generated), a.generatedUpdate, key);
  }

  lemma FinishedReads(m: Machine, a: Answers)
    requires InStep(m)
    ensures var m' := Finished(m, a).0;
            && m'.registrations == m.registrations
            && m'.config.identifier == m.config.identifier && m'.config.apiKey == m.config.apiKey
            && (m.config.identifier != UNKNOWN_CLUSTER_ID ==> Read(m'.secret, CLUSTER_ID) == Read(m.secret, CLUSTER_ID))
            && (m.config.apiKey != UNKNOWN_API_KEY ==> Read(m'.secret, APIKEY) == Read(m.secret, APIKEY))
  {
    if a.finalSelf.Some? {
      UpdatedReads(m.secret, m.config.(clusterUid := a.finalSelf.value.uid), a.finalUpdate);
    }
  }

  /** Before that, a stored known key does not change at all. */
  lemma KnownKeyIsKept(secret: Secret, p: Process)
    requires KnowsKey(secret)
    ensures var m := Ran(secret, p).0;
            m.registrations == [] && Read(m.secret, APIKEY) == Read(secret, APIKEY)
  {
    var a, m := p.answers, Boot(secret, p.clusterUid);
    if a.namespaceOk && a.secretOk {
      SetUpHoldsKey(m, a);
      SetUpInStep(m, a);
      if SetUp(m, a).1.Done? { FinishedReads(SetUp(m, a).0, a); }
    }
  }

  /** And a stored known id changes only to the id in a registration reply of the same run. */
  lemma KnownIdChangesOnlyByRegistration(secret: Secret, p: Process)
    requires KnowsId(secret)
    ensures var m := Ran(secret, p).0;
            Read(m.secret, CLUSTER_ID) != Read(secret, CLUSTER_ID) ==>
              && |m.registrations| == 1
              && p.answers.registration.Some?
              && Read(m.secret, CLUSTER_ID) == p.answers.registration.value.clusterId
  {
    var a, m := p.answers, Boot(secret, p.clusterUid);
    var m1 := m.(config := Loaded(secret, p.clusterUid));
    if a.namespaceOk && a.secretOk {
      assert SetUp(m, a) == Registered(m1, a);
      var (m', r) := Registered(m1, a);
      if a.registration.Some? {
        var c := m1.config.(identifier := a.registration.value.clusterId, apiKey := a.registration.value.apiKey);
        UpdatedReads(secret, c, a.registrationUpdate);
      }
      if r.Done? {
        SetUpInStep(m, a);
        FinishedReads(m', a);
      }
    }
  }

  // ---- Success ----

  /** The secret reads as the configuration wherever that is known. */
  ghost predicate InStep(m: Machine) {
    && (m.config.apiKey != UNKNOWN_API_KEY ==> Read(m.secret, APIKEY) == m.config.apiKey)
    && (m.config.identifier != UNKNOWN_CLUSTER_ID ==> Read(m.secret, CLUSTER_ID) == m.config.identifier)
  }

  lemma StoredInStep(m: Machine, c: Config, calls: UpdateCalls)
    ensures Stored(m, c, calls).1.Done? ==> InStep(Stored(m, c, calls).0)
  {
    UpdatedReads(m.secret, c, calls);
  }

  /** The id a run takes before registration: the secret's, else the API's or the interregator's, else a
      generated one. */
  function SourcedId(secret: Secret, a: Answers): string {
    var loaded := Loaded(secret, "");
    var id := if loaded.identifier != UNKNOWN_CLUSTER_ID then loaded.identifier
              else if a.interregated.Some? then a.interregated.value
              else if loaded.apiKey != UNKNOWN_API_KEY && a.self.Some? then a.self.value.name
              else UNKNOWN_CLUSTER_ID;
    if id == UNKNOWN_CLUSTER_ID then a.generated else id
  }

  /** The identity a run ends with: the reply's if it has to register, else the stored key and the id taken. */
  function FinalId(secret: Secret, a: Answers): string {
    if Loaded(secret, "").apiKey == UNKNOWN_API_KEY && a.registration.Some? then a.registration.value.clusterId
    else SourcedId(secret, a)
  }

  function FinalKey(secret: Secret, a: Answers): string {
    var key := Loaded(secret, "").apiKey;
    if key == UNKNOWN_API_KEY && a.registration.Some? then a.registration.value.apiKey else key
  }

  lemma SetUpInStep(m: Machine, a: Answers)
    ensures var (m', r) := SetUp(m, a);
            r.Done? ==>
              && InStep(m')
              && m'.config.identifier == FinalId(m.secret, a) && m'.config.apiKey == FinalKey(m.secret, a)
  {
    if a.namespaceOk && a.secretOk {
      var m1 := m.(config := Loaded(m.secret, m.config.clusterUid));
      var (m2, r2) := AskedSelf(m1, a);
      if a.self.Some? { StoredInStep(m1, m1.config.(identifier := a.self.value.name), a.selfUpdate); }
      if r2.Done? {
        var (m3, r3) := AskedInterregator(m2, a);
        if a.interregated.Some? {
          StoredInStep(m2, m2.config.(identifier := a.interregated.value), a.interregatedUpdate);
        }
        if r3.Done? {
          StoredInStep(m3, m3.config.(identifier := a.generated), a.generatedUpdate);
          assert m3.config.apiKey == m1.config.apiKey;
          var (m4, r4) := Generated(m3, a);
          if r4.Done? {
            assert InStep(m4) && m4.config.identifier == SourcedId(m.secret, a) && m4.config.apiKey == m1.config.apiKey;
            if a.registration.Some? {
              var reply := a.registration.value;
              StoredInStep(m4.(registrations := m4.registrations + [m4.config.identifier]),
                           m4.config.(identifier := reply.clusterId, apiKey := reply.apiKey), a.registrationUpdate);
            }
          }
        }
      }
    }
  }

  /** The configuration holds a known id and key, and the stored secret holds exactly these two. */
  ghost predicate Settled(m: Machine) {
    && Good(m.config.identifier, UNKNOWN_CLUSTER_ID) && Good(m.config.apiKey, UNKNOWN_API_KEY)
    && Read(m.secret, CLUSTER_ID) == m.config.identifier && Read(m.secret, APIKEY) == m.config.apiKey
  }

  /** A successful run, from any secret, settles the identity exactly when the values it takes are non-empty and
      not one of the two sentinels. */
  lemma SuccessSettlesIdentity(secret: Secret, p: Process)
    ensures var (m, r) := Ran(secret, p);
            r.Done? ==> (Settled(m) <==> Good(FinalId(secret, p.answers), UNKNOWN_CLUSTER_ID) &&
                                         Good(FinalKey(secret, p.answers), UNKNOWN_API_KEY))
  {
    var m := Boot(secret, p.clusterUid);
    SetUpInStep(m, p.answers);
    if SetUp(m, p.answers).1.Done? {
      FinishedReads(SetUp(m, p.answers).0, p.answers);
    }
  }

  /** Everything a run may be told is non-empty and no sentinel. */
  predicate GoodAnswers(a: Answers) {
    && (a.interregated.Some? ==> Good(a.interregated.value, UNKNOWN_CLUSTER_ID))
    && (a.self.Some? ==> Good(a.self.value.name, UNKNOWN_CLUSTER_ID))
    && Good(a.generated, UNKNOWN_CLUSTER_ID)
    && (a.registration.Some? ==> Good(a.registration.value.clusterId, UNKNOWN_CLUSTER_ID))
    && (a.registration.Some? ==> Good(a.registration.value.apiKey, UNKNOWN_API_KEY))
  }

  lemma GoodAnswersSettle(secret: Secret, p: Process)
    requires GoodAnswers(p.answers)
    ensures Ran(secret, p).1.Done? ==> Settled(Ran(secret, p).0)
  {
    SuccessSettlesIdentity(secret, p);
    var m := Boot(secret, p.clusterUid);
    SetUpInStep(m, p.answers);
  }

  // ---- A secret without data ----

  predicate EveryCallSucceeds(a: Answers) {
    && a.configOk && a.interregatorOk
    && a.namespaceOk && a.secretOk && a.connectOk && a.self.Some? && a.self.value.isCluster && a.registration.Some?
    && a.authorizeOk && a.versionOk && a.finalSelf.Some? && a.finalSelf.value.isCluster
    && forall u :: u in {a.selfUpdate, a.interregatedUpdate, a.generatedUpdate, a.registrationUpdate, a.finalUpdate} ==>
         u.getOk && u.writeOk
  }

  /** With good answers and no failing call a run succeeds exactly when the secret is not one without data, and an
      id is known from somewhere or a cluster name is there to generate one from. */
  lemma SuccessCondition(secret: Secret, p: Process)
    requires GoodAnswers(p.answers) && EveryCallSucceeds(p.answers)
    ensures Ran(secret, p).1.Done? <==>
            && secret != Present(None)
            && (Loaded(secret, "").identifier != UNKNOWN_CLUSTER_ID || Loaded(secret, "").apiKey != UNKNOWN_API_KEY
                || p.answers.interregated.Some? || p.answers.clusterName != "")
  {
    var a := p.answers;
    assert a.selfUpdate.getOk && a.selfUpdate.writeOk && a.interregatedUpdate.getOk && a.interregatedUpdate.writeOk
        && a.generatedUpdate.getOk && a.generatedUpdate.writeOk && a.registrationUpdate.getOk
        && a.registrationUpdate.writeOk && a.finalUpdate.getOk && a.finalUpdate.writeOk;
    SetUpInStep(Boot(secret, p.clusterUid), a);
  }

  /** The run takes only empty or unknown values, so that no update of a secret without data needs a write, and no
      call fails but the get of the last update, whose failure is ignored. */
  predicate WritesNothing(p: Process) {
    var a := p.answers;
    var id := if a.interregated.Some? then a.interregated.value else UNKNOWN_CLUSTER_ID;
    && p.clusterUid == ""
    && a.configOk && a.interregatorOk && a.namespaceOk && a.secretOk
    && !Good(id, UNKNOWN_CLUSTER_ID) && (a.interregated.Some? ==> a.interregatedUpdate.getOk)
    && (id == UNKNOWN_CLUSTER_ID ==>
          a.clusterName != "" && !Good(a.generated, UNKNOWN_CLUSTER_ID) && a.generatedUpdate.getOk)
    && a.registration.Some? && a.registrationUpdate.getOk
    && !Good(a.registration.value.clusterId, UNKNOWN_CLUSTER_ID) && a.registration.value.apiKey == ""
    && a.authorizeOk && a.versionOk && a.finalSelf.Some? && a.finalSelf.value.isCluster
    && (a.finalSelf.value.uid != "" ==> !a.finalUpdate.getOk)
  }

  lemma NilSecretRun(p: Process)
    ensures Ran(Present(None), p).0.secret == Present(None)
    ensures Ran(Present(None), p).1.Done? <==> WritesNothing(p)
  {
    var a, m := p.answers, Boot(Present(None), p.clusterUid);
    assert UNKNOWN_API_KEY != "" && UNKNOWN_CLUSTER_ID != "";
    var m1 := m.(config := Loaded(m.secret, m.config.clusterUid));
    assert m1.config == Config(UNKNOWN_CLUSTER_ID, UNKNOWN_API_KEY, p.clusterUid);
    assert AskedSelf(m1, a) == (m1, Done);
  }

  /** A secret that exists without data is never written, whatever any sequence of runs is told, and a run on it
      succeeds exactly when it takes nothing worth storing; so with good answers none ever succeeds. */
  lemma {:induction false} NilSecretIsNeverRepaired(runs: seq<Process>, i: nat)
    requires i < |runs|
    ensures SecretAfter(Present(None), runs[..i]) == Present(None)
    ensures Ran(Present(None), runs[i]).0.secret == Present(None)
    ensures Ran(Present(None), runs[i]).1.Done? <==> WritesNothing(runs[i])
    ensures GoodAnswers(runs[i].answers) ==> Ran(Present(None), runs[i]).1.Abort?
  {
    NilSecretRun(runs[i]);
    if i > 0 {
      NilSecretIsNeverRepaired(runs, i - 1);
      assert runs[..i][..i - 1] == runs[..i - 1];
    }
  }
}
