/** Where a set-up run takes the identity from, what it demands for that, and what else it keeps or writes. */
module IdentitySources {
  import opened Common
  import opened Identity
  import opened IdentityRuns

  /** The secret has no id, or only the value that stands for none. */
  predicate NeedsId(secret: Secret) {
    Read(secret, CLUSTER_ID) == "" || Read(secret, CLUSTER_ID) == UNKNOWN_CLUSTER_ID
  }

  predicate NeedsKey(secret: Secret) {
    Read(secret, APIKEY) == "" || Read(secret, APIKEY) == UNKNOWN_API_KEY
  }

  // ---- The id behind a stored key ----

  /** The run gets as far as reading the secret. */
  predicate ReadsSecret(a: Answers) {
    a.configOk && a.interregatorOk && a.namespaceOk && a.secretOk
  }

  /** The API says whose key it is, and it is a cluster's. */
  predicate KeyIsACluster(a: Answers) {
    a.connectOk && a.self.Some? && a.self.value.isCluster
  }

  /** With a stored key and no id from secret or interregator, a run asks the API whose key it is. If that fails or
      the key is not a cluster's, the run aborts, registers nothing and leaves the secret alone. */
  lemma ForeignKeyStoresNothing(secret: Secret, p: Process)
    requires !NeedsKey(secret) && NeedsId(secret) && p.answers.interregated.None?
    requires !KeyIsACluster(p.answers)
    ensures var (m, r) := Ran(secret, p);
            && r.Abort? && m.secret == secret && m.registrations == []
            && (ReadsSecret(p.answers) && p.answers.connectOk && p.answers.self.Some? ==>
                  r == Abort(WrongIdentityType))
  {
  }

  /** Conversely, an id is then stored only if the key is a cluster's, and it is that cluster's name, or a
      generated one where the name is itself the unknown value. */
  lemma IdOfAKeyIsItsCluster(secret: Secret, p: Process)
    requires !NeedsKey(secret) && NeedsId(secret) && p.answers.interregated.None?
    ensures var m, name := Ran(secret, p).0, p.answers.self;
            Read(m.secret, CLUSTER_ID) != Read(secret, CLUSTER_ID) ==>
              && KeyIsACluster(p.answers)
              && Read(m.secret, CLUSTER_ID) ==
                 if p.answers.self.value.name != UNKNOWN_CLUSTER_ID then p.answers.self.value.name
                 else p.answers.generated
  {
    if KeyIsACluster(p.answers) {
      var a, m := p.answers, Boot(secret, p.clusterUid);
      var m1 := m.(config := Loaded(secret, p.clusterUid));
      var (m2, r2) := AskedSelf(m1, a);
      UpdatedReads(secret, m1.config.(identifier := a.self.value.name), a.selfUpdate);
      if r2.Done? && ReadsSecret(a) {
        assert AskedInterregator(m2, a) == (m2, Done);
        var (m4, r4) := Generated(m2, a);
        UpdatedReads(m2.secret, m2.config.(identifier := a.generated), a.generatedUpdate);
        if r4.Done? {
          assert Registered(m4, a) == (m4, Done);
          SetUpInStep(m, a);
          FinishedReads(m4, a);
        }
      }
    } else {
      ForeignKeyStoresNothing(secret, p);
    }
  }

  // ---- What success takes ----

  /** Whatever the secret, a run that succeeds had every answer it depends on: the final one from the API says that
      the key is a cluster's, an unknown key was registered, and an unknown id came from somewhere. */
  lemma SuccessTakes(secret: Secret, p: Process)
    ensures var a := p.answers;
            Ran(secret, p).1.Done? ==>
              && ReadsSecret(a)
              && a.authorizeOk && a.versionOk && a.finalSelf.Some? && a.finalSelf.value.isCluster
              && (NeedsKey(secret) ==> a.registration.Some?)
              && (NeedsId(secret) && a.interregated.None? && !NeedsKey(secret) ==> KeyIsACluster(a))
              && (NeedsId(secret) && a.interregated.None? && NeedsKey(secret) ==> a.clusterName != "")
  {
  }

  // ---- Registration ----

  /** A run asks for a registration only without a stored key, at most once, and for the id it has taken. */
  lemma RegistersTheIdTaken(secret: Secret, p: Process)
    ensures var m := Ran(secret, p).0;
            m.registrations == [] || (NeedsKey(secret) && m.registrations == [SourcedId(secret, p.answers)])
  {
    var a, m := p.answers, Boot(secret, p.clusterUid);
    if a.namespaceOk && a.secretOk {
      var m1 := m.(config := Loaded(secret, p.clusterUid));
      var m2 := AskedSelf(m1, a).0;
      assert m2.registrations == [] && m2.config.apiKey == m1.config.apiKey;
      var m3 := AskedInterregator(m2, a).0;
      assert m3.registrations == [] && m3.config.apiKey == m1.config.apiKey;
      var (m4, r4) := Generated(m3, a);
      assert m4.registrations == [] && m4.config.apiKey == m1.config.apiKey;
    }
  }

  /** The id is stored before it is registered: if the registration fails, the secret holds the id asked for. */
  lemma IdSurvivesFailedRegistration(secret: Secret, p: Process)
    requires GoodAnswers(p.answers) && p.answers.registration.None?
    ensures var (m, r) := Ran(secret, p);
            m.registrations != [] ==>
              r.Abort? && KnowsId(m.secret) && m.registrations == [Read(m.secret, CLUSTER_ID)] && NeedsKey(m.secret)
  {
    var a, m := p.answers, Boot(secret, p.clusterUid);
    if a.namespaceOk && a.secretOk && NeedsKey(secret) {
      var m1 := m.(config := Loaded(secret, p.clusterUid));
      assert AskedSelf(m1, a) == (m1, Done);
      var (m3, r3) := AskedInterregator(m1, a);
      if a.interregated.Some? {
        UpdatedReads(secret, m1.config.(identifier := a.interregated.value), a.interregatedUpdate);
      }
      if r3.Done? {
        var (m4, r4) := Generated(m3, a);
        UpdatedReads(m3.secret, m3.config.(identifier := a.generated), a.generatedUpdate);
      }
    }
  }

  /** So over any sequence of runs whose registrations fail, once an id is stored every one asks for that id. */
  lemma {:induction false} RetriesAskForTheSameId(secret: Secret, runs: seq<Process>, i: nat, j: nat)
    requires i <= j < |runs| && KnowsId(SecretAfter(secret, runs[..i]))
    requires forall n :: i <= n < j ==> runs[n].answers.registration.None?
    ensures var id := Read(SecretAfter(secret, runs[..i]), CLUSTER_ID);
            && Read(SecretAfter(secret, runs[..j]), CLUSTER_ID) == id
            && var asked := Ran(SecretAfter(secret, runs[..j]), runs[j]).0.registrations; asked == [] || asked == [id]
  {
    hide Ran;
    if i < j {
      RetriesAskForTheSameId(secret, runs, i, j - 1);
      assert runs[..j][..j - 1] == runs[..j - 1];
      KnownIdChangesOnlyByRegistration(SecretAfter(secret, runs[..j - 1]), runs[j - 1]);
    }
    RegistersTheIdTaken(SecretAfter(secret, runs[..j]), runs[j]);
  }

  // ---- The cluster uid ----

  lemma SetUpLoadsTheUid(m: Machine, a: Answers)
    requires a.namespaceOk && a.secretOk
    ensures var uid := Read(m.secret, CLUSTER_UID);
            SetUp(m, a).0.config.clusterUid == if uid != "" then uid else m.config.clusterUid
  {
    var m1 := m.(config := Loaded(m.secret, m.config.clusterUid));
    var (m2, r2) := AskedSelf(m1, a);
    assert m2.config.clusterUid == m1.config.clusterUid;
    var (m3, r3) := AskedInterregator(m2, a);
    assert m3.config.clusterUid == m1.config.clusterUid;
    var (m4, r4) := Generated(m3, a);
    assert m4.config.clusterUid == m1.config.clusterUid;
  }

  /** Set-up that succeeds leaves a secret behind. */
  lemma SetUpLeavesASecret(m: Machine, a: Answers)
    ensures SetUp(m, a).1.Done? ==> SetUp(m, a).0.secret.Present?
  {
    if a.namespaceOk && a.secretOk {
      var m1 := m.(config := Loaded(m.secret, m.config.clusterUid));
      var (m2, r2) := AskedSelf(m1, a);
      assert m2.config.apiKey == m1.config.apiKey && (m2.secret.Absent? ==> m1.secret.Absent?);
      var (m3, r3) := AskedInterregator(m2, a);
      assert m3.config.apiKey == m1.config.apiKey && (m3.secret.Absent? ==> m1.secret.Absent?);
      var (m4, r4) := Generated(m3, a);
      assert m4.config.apiKey == m1.config.apiKey && (m4.secret.Absent? ==> m1.secret.Absent?);
    }
  }

  /** A run that succeeds, and whose last update goes through, stores the uid the API reports. */
  lemma SuccessStoresTheUid(secret: Secret, p: Process)
    requires Ran(secret, p).1.Done? && p.answers.finalSelf.value.uid != ""
    requires p.answers.finalUpdate.getOk && p.answers.finalUpdate.writeOk
    ensures Read(Ran(secret, p).0.secret, CLUSTER_UID) == p.answers.finalSelf.value.uid
  {
    SetUpLeavesASecret(Boot(secret, p.clusterUid), p.answers);
    var m := SetUp(Boot(secret, p.clusterUid), p.answers).0;
    UidIsWritten(m.secret, m.config.(clusterUid := p.answers.finalSelf.value.uid), p.answers.finalUpdate);
  }

  lemma UidIsWritten(secret: Secret, c: Config, calls: UpdateCalls)
    requires secret.Present? && c.clusterUid != "" && Updated(secret, c, calls).1.Done?
    ensures Read(Updated(secret, c, calls).0, CLUSTER_UID) == c.clusterUid
  {
  }

  /** The uid comes back: the next process that reads the secret has the stored uid, whatever its environment says,
      unless the API reports another one. */
  lemma UidRoundTrip(secret: Secret, p: Process, next: Process)
    requires Ran(secret, p).1.Done? && p.answers.finalSelf.value.uid != ""
    requires p.answers.finalUpdate.getOk && p.answers.finalUpdate.writeOk
    requires ReadsSecret(next.answers)
    ensures var uid := Ran(Ran(secret, p).0.secret, next).0.config.clusterUid;
            || uid == p.answers.finalSelf.value.uid
            || (next.answers.finalSelf.Some? && uid == next.answers.finalSelf.value.uid)
  {
    SuccessStoresTheUid(secret, p);
    SetUpLoadsTheUid(Boot(Ran(secret, p).0.secret, next.clusterUid), next.answers);
  }

  // ---- What is left alone ----

  /** A secret that has to be created gets id and key and no more; its uid is left to a later update. */
  lemma CreatedHoldsTheIdentity(c: Config, calls: UpdateCalls)
    ensures var (secret, r) := Updated(Absent, c, calls);
            if calls.getOk && calls.writeOk then
              && r.Done? && secret.Present? && secret.data.Some?
              && secret.data.value.Keys == {"APIKEY", "CLUSTER_ID"}
              && secret.data.value["APIKEY"] == c.apiKey && secret.data.value["CLUSTER_ID"] == c.identifier
            else r.Abort? && secret == Absent
  {
  }

  /** The update of the uid at the end is a best effort: no failure of it turns success into an abort. */
  lemma LastUpdateMayFail(m: Machine, a: Answers, other: UpdateCalls)
    requires m.secret != Present(None) && Finished(m, a).1.Done?
    ensures Finished(m, a.(finalUpdate := other)).1.Done?
  {
  }

  /** The other data of a secret stay as they are. */
  ghost predicate OthersKept(a: Secret, b: Secret) {
    a.Present? && a.data.Some? ==>
      && b.Present? && b.data.Some?
      && forall k :: k != APIKEY && k != CLUSTER_ID && k != CLUSTER_UID ==> Get(b.data.value, k) == Get(a.data.value, k)
  }

  lemma UpdateKeepsOthers(secret: Secret, c: Config, calls: UpdateCalls)
    ensures OthersKept(secret, Updated(secret, c, calls).0)
  {
  }

  /** No run touches any other key of the secret, however it ends. */
  lemma RunKeepsOthers(secret: Secret, p: Process)
    ensures OthersKept(secret, Ran(secret, p).0.secret)
  {
    hide Updated;
    var a, m := p.answers, Boot(secret, p.clusterUid);
    var m1 := m.(config := Loaded(secret, p.clusterUid));
    if a.self.Some? { UpdateKeepsOthers(secret, m1.config.(identifier := a.self.value.name), a.selfUpdate); }
    var m2 := AskedSelf(m1, a).0;
    assert OthersKept(secret, m2.secret);
    if a.interregated.Some? {
      UpdateKeepsOthers(m2.secret, m2.config.(identifier := a.interregated.value), a.interregatedUpdate);
    }
    var m3 := AskedInterregator(m2, a).0;
    assert OthersKept(secret, m3.secret);
    UpdateKeepsOthers(m3.secret, m3.config.(identifier := a.generated), a.generatedUpdate);
    var m4 := Generated(m3, a).0;
    assert OthersKept(secret, m4.secret);
    if a.registration.Some? {
      var reply := a.registration.value;
      var c := m4.config.(identifier := reply.clusterId, apiKey := reply.apiKey);
      UpdateKeepsOthers(m4.secret, c, a.registrationUpdate);
    }
    var m5 := SetUp(m, a).0;
    assert OthersKept(secret, m5.secret);
    if a.finalSelf.Some? {
      UpdateKeepsOthers(m5.secret, m5.config.(clusterUid := a.finalSelf.value.uid), a.finalUpdate);
    }
  }
}
