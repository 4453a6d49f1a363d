/**
 * RedisFingerprintStorage: fingerprints of one Jenkins instance kept in a Redis
 * server that other instances may share.  A fingerprint with hash h is stored at
 * `instanceId + h`, and h is a member of the set `instanceId`; save and delete
 * change both in one MULTI/EXEC transaction.
 *
 * The pure part states each operation's effect on the server's data and proves
 * what the operations promise: the index invariant, the round trip, isolation
 * of instances, and that one instance's view of the server is exactly the
 * in-memory map of TestFingerprintStorage.
 */
module RedisStorage {
  import opened Wrappers
  import opened Codec
  import opened KeyScheme
  import opened RedisStore
  import opened Credentials
  import opened TestStorage
  import Settings

  /** JedisException (the server failed) and the IOException for a blob that is no fingerprint. */
  datatype Failure = JedisFailure | UnexpectedType

  /** The transaction `save` executes. */
  function SaveTx(instanceId: Digest, fp: Fingerprint): seq<Command>
  {
    [Set(RecordKey(instanceId, fp.hash), Encode(fp)), SAdd(IndexKey(instanceId), fp.hash)]
  }

  /** The transaction `delete` executes. */
  function DeleteTx(instanceId: Digest, id: string): seq<Command>
  {
    [Del(RecordKey(instanceId, id)), SRem(IndexKey(instanceId), id)]
  }

  /** The ids in the index set of instance `instanceId`. */
  function Index(s: State, instanceId: Digest): set<string>
  {
    Members(s, IndexKey(instanceId))
  }

  /** `load` on a responsive server: null, the decoded fingerprint, or the IOException. */
  function LoadFrom(s: State, instanceId: Digest, id: string): (r: Result<Option<Fingerprint>, Failure>)
    ensures r == Ok(None) <==>
      RecordKey(instanceId, id) !in s.kv || Decode(s.kv[RecordKey(instanceId, id)]).NullObject?
    ensures r.Err? <==>
      RecordKey(instanceId, id) in s.kv && Decode(s.kv[RecordKey(instanceId, id)]).NotAFingerprint?
    ensures r.Err? ==> r.error == UnexpectedType
    ensures r.Ok? && r.value.Some? ==> Encode(r.value.value) == s.kv[RecordKey(instanceId, id)]
  {
    match Lookup(s, RecordKey(instanceId, id))
    case None => Ok(None)
    case Some(blob) =>
      match Decode(blob)
      case NullObject => Ok(None)
      case NotAFingerprint => Err(UnexpectedType)
      case Record(fp) => Ok(Some(fp))
  }

  /** `isReady` on a responsive server. */
  function Ready(s: State, instanceId: Digest): bool
  {
    Index(s, instanceId) != {}
  }

  /** One SSCAN of the instance's index set, as the cleanup sweep sees it; `up` is whether the server is responsive. */
  function ScanAt(up: bool, scanner: Scanner, s: State, instanceId: Digest, cursor: string): (r: Result<ScanReply, Failure>)
    ensures r.Err? ==> r.error == JedisFailure
    ensures !up ==> r.Err?
    ensures up && scanner(s, IndexKey(instanceId), cursor).Some? ==> r == Ok(scanner(s, IndexKey(instanceId), cursor).value)
    ensures up && scanner(s, IndexKey(instanceId), cursor).None? ==> r == Err(JedisFailure)
  {
    if !up then Err(JedisFailure)
    else match scanner(s, IndexKey(instanceId), cursor)
      case None => Err(JedisFailure)
      case Some(reply) => Ok(reply)
  }

  /** `blob` is a fingerprint whose hash is `id`. */
  predicate DecodesTo(blob: string, id: string)
  {
    var r := Decode(blob);
    r.Record? && r.fp.hash == id
  }

  /** The class invariant: an id is in the index exactly when its record exists. */
  ghost predicate IndexConsistent(s: State, instanceId: Digest)
  {
    forall id :: id in Index(s, instanceId) <==> RecordKey(instanceId, id) in s.kv
  }

  /** Every indexed record is a fingerprint filed under its own hash. */
  ghost predicate RecordsDecode(s: State, instanceId: Digest)
  {
    forall id :: id in Index(s, instanceId) && RecordKey(instanceId, id) in s.kv ==>
      DecodesTo(s.kv[RecordKey(instanceId, id)], id)
  }

  /** What save and delete keep true of an instance's part of the server. */
  ghost predicate Healthy(s: State, instanceId: Digest)
  {
    IndexConsistent(s, instanceId) && RecordsDecode(s, instanceId)
  }

  /** One instance's part of the server, read as the map TestFingerprintStorage keeps. */
  ghost function Abstract(s: State, instanceId: Digest): map<string, Fingerprint>
  {
    map id | id in Index(s, instanceId) && RecordKey(instanceId, id) in s.kv
                && Decode(s.kv[RecordKey(instanceId, id)]).Record?
      :: Decode(s.kv[RecordKey(instanceId, id)]).fp
  }

  /** `save` writes the blob at the record key, adds the id to the index, and touches no other key. */
  lemma SaveWritesOnlyItsKeys(s: State, instanceId: Digest, fp: Fingerprint)
    ensures Apply(s, SaveTx(instanceId, fp)) ==
      State(s.kv[RecordKey(instanceId, fp.hash) := Encode(fp)],
            s.sets[IndexKey(instanceId) := Index(s, instanceId) + {fp.hash}])
  {
    ApplyPair(s, Set(RecordKey(instanceId, fp.hash), Encode(fp)), SAdd(IndexKey(instanceId), fp.hash));
  }

  /**
   * `delete` removes the record key and the id from the index, and touches no
   * other key.  The record key of the empty id is the index key itself, so
   * deleting "" drops the whole index set.
   */
  lemma DeleteRemovesBoth(s: State, instanceId: Digest, id: string)
    ensures var t := Apply(s, DeleteTx(instanceId, id));
      && t.kv == s.kv - {RecordKey(instanceId, id)}
      && Index(t, instanceId) == (if id == "" then {} else Index(s, instanceId) - {id})
      && (id == "" ==> IndexKey(instanceId) !in t.sets)
      && t.sets - {IndexKey(instanceId)} == s.sets - {IndexKey(instanceId), RecordKey(instanceId, id)}
  {
    var k, ix := RecordKey(instanceId, id), IndexKey(instanceId);
    ApplyPair(s, Del(k), SRem(ix, id));
    RecordKeyIsNoIndexKey(instanceId, instanceId, id);
    var t := Apply(s, DeleteTx(instanceId, id));
    var u := State(s.kv - {k}, s.sets - {k});
    assert t == Step(u, SRem(ix, id));
    if id == "" {
      assert k == ix && ix !in u.sets && t == u;
    } else {
      assert ix in u.sets <==> ix in s.sets;
      assert t.sets - {ix} == s.sets - {ix, k};
    }
  }

  /** Round trip: after `save(fp)`, `load(fp.hash)` gives `fp` back. */
  lemma SaveThenLoad(s: State, instanceId: Digest, fp: Fingerprint)
    ensures LoadFrom(Apply(s, SaveTx(instanceId, fp)), instanceId, fp.hash) == Ok(Some(fp))
  {
    SaveWritesOnlyItsKeys(s, instanceId, fp);
    DecodeEncode(fp);
  }

  /** After `delete(id)`, `load(id)` gives null and the id is not indexed. */
  lemma DeleteThenLoad(s: State, instanceId: Digest, id: string)
    ensures var t := Apply(s, DeleteTx(instanceId, id));
      LoadFrom(t, instanceId, id) == Ok(None) && id !in Index(t, instanceId)
  {
    DeleteRemovesBoth(s, instanceId, id);
  }

  /** Deleting an id that was never stored leaves the server as it was. */
  lemma DeleteNeverStoredIsNoOp(s: State, instanceId: Digest, id: string)
    requires id !in Index(s, instanceId)
    requires RecordKey(instanceId, id) !in s.kv && RecordKey(instanceId, id) !in s.sets
    ensures Apply(s, DeleteTx(instanceId, id)) == s
  {
    var k, ix := RecordKey(instanceId, id), IndexKey(instanceId);
    ApplyPair(s, Del(k), SRem(ix, id));
    assert s.kv - {k} == s.kv;
    assert s.sets - {k} == s.sets;
    if ix in s.sets {
      assert s.sets[ix] - {id} == s.sets[ix];
      assert s.sets[ix := s.sets[ix] - {id}] == s.sets;
    }
  }

  /** A second `delete(id)` changes nothing. */
  lemma DeleteIdempotent(s: State, instanceId: Digest, id: string)
    ensures var t := Apply(s, DeleteTx(instanceId, id));
      Apply(t, DeleteTx(instanceId, id)) == t
  {
    var t := Apply(s, DeleteTx(instanceId, id));
    DeleteRemovesBoth(s, instanceId, id);
    RecordKeyIsNoIndexKey(instanceId, instanceId, id);
    var k := RecordKey(instanceId, id);
    if id != "" {
      assert k !in t.sets - {IndexKey(instanceId)};
    }
    DeleteNeverStoredIsNoOp(t, instanceId, id);
  }

  /** `isReady()` holds after any `save`. */
  lemma ReadyAfterSave(s: State, instanceId: Digest, fp: Fingerprint)
    ensures Ready(Apply(s, SaveTx(instanceId, fp)), instanceId)
  {
    SaveWritesOnlyItsKeys(s, instanceId, fp);
  }

  /** `isReady()` is false again once the only indexed id is deleted. */
  lemma NotReadyAfterDeletingLast(s: State, instanceId: Digest, id: string)
    requires Index(s, instanceId) <= {id}
    ensures !Ready(Apply(s, DeleteTx(instanceId, id)), instanceId)
  {
    DeleteRemovesBoth(s, instanceId, id);
  }

  /** The server's other keys, as seen by instance `a`, are unchanged by a save of instance `b`. */
  lemma SavePreservesHealthy(s: State, a: Digest, b: Digest, fp: Fingerprint)
    requires Healthy(s, a)
    ensures Healthy(Apply(s, SaveTx(b, fp)), a)
  {
    SaveWritesOnlyItsKeys(s, b, fp);
    DecodeEncode(fp);
    var t := Apply(s, SaveTx(b, fp));
    forall id
      ensures id in Index(t, a) <==> RecordKey(a, id) in t.kv
      ensures id in Index(t, a) && RecordKey(a, id) in t.kv ==> DecodesTo(t.kv[RecordKey(a, id)], id)
    {
      RecordKeyInjective(a, b, id, fp.hash);
    }
  }

  /**
   * A delete of instance `b` keeps instance `a` healthy, unless it is the
   * delete of the empty id on `a` itself, which drops `a`'s index set.
   */
  lemma DeletePreservesHealthy(s: State, a: Digest, b: Digest, id: string)
    requires Healthy(s, a)
    requires a != b || id != ""
    ensures Healthy(Apply(s, DeleteTx(b, id)), a)
  {
    DeleteRemovesBoth(s, b, id);
    var t := Apply(s, DeleteTx(b, id));
    if a != b {
      RecordKeyIsNoIndexKey(b, a, id);
      assert IndexKey(a) in t.sets - {IndexKey(b)} <==> IndexKey(a) in s.sets - {IndexKey(b), RecordKey(b, id)};
      assert Index(t, a) == Index(s, a);
    }
    forall x
      ensures x in Index(t, a) <==> RecordKey(a, x) in t.kv
      ensures x in Index(t, a) && RecordKey(a, x) in t.kv ==> DecodesTo(t.kv[RecordKey(a, x)], x)
    {
      RecordKeyInjective(a, b, x, id);
    }
  }

  /** Another instance's save is invisible to instance `a`: its index and every load are unchanged. */
  lemma SaveIsInvisibleToOtherInstances(s: State, a: Digest, b: Digest, fp: Fingerprint, id: string)
    requires a != b
    ensures var t := Apply(s, SaveTx(b, fp));
      Index(t, a) == Index(s, a) && LoadFrom(t, a, id) == LoadFrom(s, a, id)
  {
    SaveWritesOnlyItsKeys(s, b, fp);
    RecordKeyInjective(a, b, id, fp.hash);
  }

  /** Another instance's delete is invisible to instance `a`: its index and every load are unchanged. */
  lemma DeleteIsInvisibleToOtherInstances(s: State, a: Digest, b: Digest, x: string, id: string)
    requires a != b
    ensures var t := Apply(s, DeleteTx(b, x));
      Index(t, a) == Index(s, a) && LoadFrom(t, a, id) == LoadFrom(s, a, id)
  {
    DeleteRemovesBoth(s, b, x);
    var t := Apply(s, DeleteTx(b, x));
    RecordKeyIsNoIndexKey(b, a, x);
    RecordKeyInjective(a, b, id, x);
    assert IndexKey(a) in t.sets - {IndexKey(b)} <==> IndexKey(a) in s.sets - {IndexKey(b), RecordKey(b, x)};
  }

  /** A save changes the instance's map view only at the saved hash. */
  lemma SaveAbstractAt(s: State, instanceId: Digest, fp: Fingerprint, id: string)
    ensures var m := Abstract(Apply(s, SaveTx(instanceId, fp)), instanceId);
      var m0 := Abstract(s, instanceId);
      && (id == fp.hash ==> id in m && m[id] == fp)
      && (id != fp.hash ==> (id in m <==> id in m0) && (id in m ==> m[id] == m0[id]))
  {
    SaveWritesOnlyItsKeys(s, instanceId, fp);
    DecodeEncode(fp);
    RecordKeyInjective(instanceId, instanceId, id, fp.hash);
  }

  /** Refinement of TestFingerprintStorage.save: the instance's map gains `fp` under its hash. */
  lemma SaveRefines(s: State, instanceId: Digest, fp: Fingerprint)
    ensures Abstract(Apply(s, SaveTx(instanceId, fp)), instanceId) == Abstract(s, instanceId)[fp.hash := fp]
  {
    var m := Abstract(Apply(s, SaveTx(instanceId, fp)), instanceId);
    var m' := Abstract(s, instanceId)[fp.hash := fp];
    forall id
      ensures id in m <==> id in m'
      ensures id in m ==> m[id] == m'[id]
    {
      SaveAbstractAt(s, instanceId, fp, id);
    }
    assert m == m';
  }

  /** Refinement of TestFingerprintStorage.delete: the instance's map loses the entry for `id`. */
  lemma DeleteRefines(s: State, instanceId: Digest, id: string)
    requires id != ""
    ensures Abstract(Apply(s, DeleteTx(instanceId, id)), instanceId) == Abstract(s, instanceId) - {id}
  {
    DeleteRemovesBoth(s, instanceId, id);
    var m := Abstract(Apply(s, DeleteTx(instanceId, id)), instanceId);
    var m' := Abstract(s, instanceId) - {id};
    forall x
      ensures x in m <==> x in m'
      ensures x in m ==> m[x] == m'[x]
    {
      RecordKeyInjective(instanceId, instanceId, x, id);
    }
    assert m == m';
  }

  /** Refinement of TestFingerprintStorage.load: on a healthy instance `load` is the map lookup. */
  lemma LoadRefines(s: State, instanceId: Digest, id: string)
    requires Healthy(s, instanceId)
    ensures LoadFrom(s, instanceId, id) == Ok(MapGet(Abstract(s, instanceId), id))
  {
    if RecordKey(instanceId, id) in s.kv {
      assert id in Index(s, instanceId);
      assert DecodesTo(s.kv[RecordKey(instanceId, id)], id);
    }
  }

  /** Refinement of TestFingerprintStorage.isReady: on a healthy instance the index is non-empty exactly when the map is. */
  lemma ReadyRefines(s: State, instanceId: Digest)
    requires Healthy(s, instanceId)
    ensures Ready(s, instanceId) <==> Abstract(s, instanceId) != map[]
  {
    if Ready(s, instanceId) {
      var id :| id in Index(s, instanceId);
      assert RecordKey(instanceId, id) in s.kv;
      assert DecodesTo(s.kv[RecordKey(instanceId, id)], id);
      assert id in Abstract(s, instanceId);
    }
  }

  /**
   * Deleting the empty id on a healthy, non-empty instance drops its index
   * while its records stay loadable: the index invariant no longer holds.
   */
  lemma DeleteOfEmptyIdOrphansRecords(s: State, instanceId: Digest)
    requires Healthy(s, instanceId) && Index(s, instanceId) != {}
    ensures var t := Apply(s, DeleteTx(instanceId, ""));
      && !Ready(t, instanceId)
      && exists id :: id in Index(s, instanceId) && LoadFrom(t, instanceId, id).Ok? && LoadFrom(t, instanceId, id).value.Some?
  {
    DeleteRemovesBoth(s, instanceId, "");
    var t := Apply(s, DeleteTx(instanceId, ""));
    var id :| id in Index(s, instanceId);
    assert DecodesTo(s.kv[RecordKey(instanceId, id)], id);
    assert id != "";
    assert RecordKey(instanceId, id) != RecordKey(instanceId, "");
    assert LoadFrom(t, instanceId, id) == LoadFrom(s, instanceId, id);
  }

  /** A blob that is not a fingerprint is reported as the IOException, not as null. */
  lemma GarbageIsUnexpectedType(s: State, instanceId: Digest, id: string)
    requires RecordKey(instanceId, id) in s.kv && s.kv[RecordKey(instanceId, id)] == "garbageData"
    ensures LoadFrom(s, instanceId, id) == Err(UnexpectedType)
  {
  }

  /** A record that reads as the null object loads as null, like a missing one. */
  lemma NullObjectLoadsAsNull(s: State, instanceId: Digest, id: string)
    requires RecordKey(instanceId, id) in s.kv && s.kv[RecordKey(instanceId, id)] == NullBlob
    ensures LoadFrom(s, instanceId, id) == Ok(None)
  {
  }

  class RedisFingerprintStorage {
    const instanceId: Digest
    const server: Server
    var host: string
    var port: int
    var database: int
    var ssl: bool
    var connectionTimeout: int
    var socketTimeout: int
    var credentialsId: string

    /** The class invariant on this instance's part of the server. */
    ghost predicate Valid()
      reads server
    {
      Healthy(server.state, instanceId)
    }

    /** This instance's fingerprints, as a map from id to fingerprint. */
    ghost function Contents(): map<string, Fingerprint>
      reads server
    {
      Abstract(server.state, instanceId)
    }

    /** `instanceId` is the digest of the instance's public key; `server` is the configured pool's server. */
    constructor (instanceId: Digest, server: Server)
      ensures this.instanceId == instanceId && this.server == server
      ensures host == Settings.DefaultHost && port == Settings.DefaultPort && database == Settings.DefaultDatabase
      ensures ssl == Settings.DefaultSsl && credentialsId == Settings.DefaultCredentialsId
      ensures connectionTimeout == Settings.DefaultConnectionTimeout && socketTimeout == Settings.DefaultSocketTimeout
    {
      this.instanceId := instanceId;
      this.server := server;
      host := Settings.DefaultHost;
      port := Settings.DefaultPort;
      database := Settings.DefaultDatabase;
      ssl := Settings.DefaultSsl;
      connectionTimeout := Settings.DefaultConnectionTimeout;
      socketTimeout := Settings.DefaultSocketTimeout;
      credentialsId := Settings.DefaultCredentialsId;
    }

    /**
     * save: one transaction writes the blob and indexes the hash; a failure is
     * rethrown.  A failed save changes nothing, whether the connection is cut or
     * its replies come after the socket timeout.
     */
    method Save(fp: Fingerprint) returns (r: Outcome<Failure>)
      modifies server
      ensures server.reachable == old(server.reachable) && server.slow == old(server.slow)
      ensures r == if old(server.Responsive()) then Pass else Fail(JedisFailure)
      ensures server.state ==
        if old(server.Responsive()) then Apply(old(server.state), SaveTx(instanceId, fp)) else old(server.state)
      ensures old(Valid()) ==> Valid()
      ensures old(server.Responsive()) ==> Contents() == old(Contents())[fp.hash := fp]
    {
      ghost var s := server.state;
      var ok := server.Exec(SaveTx(instanceId, fp));
      r := if ok then Pass else Fail(JedisFailure);
      if ok {
        SaveRefines(s, instanceId, fp);
        if Healthy(s, instanceId) {
          SavePreservesHealthy(s, instanceId, instanceId, fp);
        }
      }
    }

    /**
     * load: null when nothing is stored or the blob reads as null, the
     * IOException for a blob that is no fingerprint, and a failure is rethrown.
     */
    method Load(id: string) returns (r: Result<Option<Fingerprint>, Failure>)
      ensures r == if server.Responsive() then LoadFrom(server.state, instanceId, id) else Err(JedisFailure)
      ensures Valid() && server.Responsive() ==> r == Ok(MapGet(Contents(), id))
    {
      var ok, loadedData := server.Get(RecordKey(instanceId, id));
      if !ok {
        r := Err(JedisFailure);
      } else if loadedData.None? {
        r := Ok(None);
      } else {
        var loaded := Decode(loadedData.value);
        match loaded
        case NullObject => r := Ok(None);
        case NotAFingerprint => r := Err(UnexpectedType);
        case Record(fingerprint) => r := Ok(Some(fingerprint));
      }
      if Valid() {
        LoadRefines(server.state, instanceId, id);
      }
    }

    /**
     * delete: one transaction removes the blob and the index entry; a failure
     * is rethrown.  A failed delete changes nothing, whether the connection is
     * cut or its replies come after the socket timeout.
     */
    method Delete(id: string) returns (r: Outcome<Failure>)
      modifies server
      ensures server.reachable == old(server.reachable) && server.slow == old(server.slow)
      ensures r == if old(server.Responsive()) then Pass else Fail(JedisFailure)
      ensures server.state ==
        if old(server.Responsive()) then Apply(old(server.state), DeleteTx(instanceId, id)) else old(server.state)
      ensures id != "" && old(Valid()) ==> Valid()
      ensures id != "" && old(server.Responsive()) ==> Contents() == old(Contents()) - {id}
    {
      ghost var s := server.state;
      var ok := server.Exec(DeleteTx(instanceId, id));
      r := if ok then Pass else Fail(JedisFailure);
      if ok && id != "" {
        DeleteRefines(s, instanceId, id);
        if Healthy(s, instanceId) {
          DeletePreservesHealthy(s, instanceId, instanceId, id);
        }
      }
    }

    /** isReady: whether the instance's index set has a member; a failure is rethrown, not read as false. */
    method IsReady() returns (r: Result<bool, Failure>)
      ensures r == if server.Responsive() then Ok(Ready(server.state, instanceId)) else Err(JedisFailure)
      ensures Valid() && server.Responsive() ==> r == Ok(Contents() != map[])
    {
      var ok, members := server.SMembers(IndexKey(instanceId));
      r := if ok then Ok(|members| != 0) else Err(JedisFailure);
      if Valid() {
        ReadyRefines(server.state, instanceId);
      }
    }

    /** One batch of the index set for the cleanup sweep, resuming at `cursor`. */
    method GetFingerprintIdsForCleanup(cursor: string, scanner: Scanner) returns (r: Result<ScanReply, Failure>)
      ensures r == ScanAt(server.Responsive(), scanner, server.state, instanceId, cursor)
    {
      var reply := server.SScan(IndexKey(instanceId), cursor, scanner);
      r := if reply.Some? then Ok(reply.value) else Err(JedisFailure);
    }

    /** The username of the configured credential, defaulted. */
    method GetUsername(credentials: seq<Credential>) returns (username: string)
      ensures username == UsernameFromCredential(LastMatch(credentials, credentialsId))
    {
      var credential := GetCredential(credentials, credentialsId);
      username := UsernameFromCredential(credential);
    }

    /** The password of the configured credential, defaulted. */
    method GetPassword(credentials: seq<Credential>) returns (password: string)
      ensures password == PasswordFromCredential(LastMatch(credentials, credentialsId))
    {
      var credential := GetCredential(credentials, credentialsId);
      password := PasswordFromCredential(credential);
    }
  }

  /** A fresh, empty server holds no part of any instance that is out of line. */
  lemma EmptyServerIsHealthy(instanceId: Digest)
    ensures Healthy(State(map[], map[]), instanceId)
  {
  }

  /** Save, load, isReady, delete, load, isReady on a fresh server, from the method contracts alone. */
  method LifecycleScenario(instanceId: Digest, fp: Fingerprint)
    returns (loaded: Result<Option<Fingerprint>, Failure>, readyAfterSave: Result<bool, Failure>,
             loadedAfterDelete: Result<Option<Fingerprint>, Failure>, readyAfterDelete: Result<bool, Failure>)
    ensures loaded == Ok(Some(fp)) && readyAfterSave == Ok(true)
    ensures loadedAfterDelete == Ok(None) && readyAfterDelete == Ok(false)
  {
    var server := new Server();
    var storage := new RedisFingerprintStorage(instanceId, server);
    EmptyServerIsHealthy(instanceId);
    var saved := storage.Save(fp);
    loaded := storage.Load(fp.hash);
    readyAfterSave := storage.IsReady();
    var deleted := storage.Delete(fp.hash);
    loadedAfterDelete := storage.Load(fp.hash);
    readyAfterDelete := storage.IsReady();
  }

  /** Two instances sharing one server: a fingerprint saved by one cannot be loaded by the other. */
  method IsolationScenario(a: Digest, b: Digest, fp: Fingerprint)
    returns (loadedByOwner: Result<Option<Fingerprint>, Failure>, loadedByOther: Result<Option<Fingerprint>, Failure>,
             otherReady: Result<bool, Failure>)
    requires a != b
    ensures loadedByOwner == Ok(Some(fp)) && loadedByOther == Ok(None) && otherReady == Ok(false)
  {
    var server := new Server();
    var owner := new RedisFingerprintStorage(a, server);
    var other := new RedisFingerprintStorage(b, server);
    ghost var s := server.state;
    var saved := owner.Save(fp);
    SaveThenLoad(s, a, fp);
    SaveIsInvisibleToOtherInstances(s, b, a, fp, fp.hash);
    loadedByOwner := owner.Load(fp.hash);
    loadedByOther := other.Load(fp.hash);
    otherReady := other.IsReady();
  }

  /** A cut connection: the failed save leaves the id absent, the failed delete leaves it present. */
  method ConnectionFailureScenario(instanceId: Digest, fp: Fingerprint, other: Fingerprint)
    returns (failedSave: Outcome<Failure>, loadedAfterFailedSave: Result<Option<Fingerprint>, Failure>,
             failedDelete: Outcome<Failure>, loadedAfterFailedDelete: Result<Option<Fingerprint>, Failure>)
    ensures failedSave == Fail(JedisFailure) && loadedAfterFailedSave == Ok(None)
    ensures failedDelete == Fail(JedisFailure) && loadedAfterFailedDelete == Ok(Some(other))
  {
    var server := new Server();
    var storage := new RedisFingerprintStorage(instanceId, server);
    EmptyServerIsHealthy(instanceId);
    server.SetReachable(false);
    failedSave := storage.Save(fp);
    server.SetReachable(true);
    loadedAfterFailedSave := storage.Load(fp.hash);
    var saved := storage.Save(other);
    server.SetReachable(false);
    failedDelete := storage.Delete(other.hash);
    server.SetReachable(true);
    loadedAfterFailedDelete := storage.Load(other.hash);
  }

  /**
   * Replies slower than the socket timeout: save and delete both report a
   * failure and change nothing, so the fingerprint is absent after the
   * failed save and still loadable after the failed delete.
   */
  method SlowConnectionScenario(instanceId: Digest, fp: Fingerprint)
    returns (slowSave: Outcome<Failure>, loadedAfterSlowSave: Result<Option<Fingerprint>, Failure>,
             slowDelete: Outcome<Failure>, loadedAfterSlowDelete: Result<Option<Fingerprint>, Failure>)
    ensures slowSave == Fail(JedisFailure) && loadedAfterSlowSave == Ok(None)
    ensures slowDelete == Fail(JedisFailure) && loadedAfterSlowDelete == Ok(Some(fp))
  {
    var server := new Server();
    var storage := new RedisFingerprintStorage(instanceId, server);
    EmptyServerIsHealthy(instanceId);
    server.SetSlow(true);
    slowSave := storage.Save(fp);
    server.SetSlow(false);
    loadedAfterSlowSave := storage.Load(fp.hash);
    var saved := storage.Save(fp);
    server.SetSlow(true);
    slowDelete := storage.Delete(fp.hash);
    server.SetSlow(false);
    loadedAfterSlowDelete := storage.Load(fp.hash);
  }
}
