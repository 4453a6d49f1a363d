# Redis fingerprint storage, modelled in Dafny

This project models the core of the Jenkins Redis Fingerprint Storage plugin. The plugin stores Jenkins fingerprints in a Redis server instead of on the controller's disk. The model covers five parts:

- **RedisFingerprintStorage** (`RedisStorage.dfy`). It keeps each instance's fingerprints under keys prefixed by that instance's id, a 32-character digest.
  - A fingerprint with hash `h` is stored as a blob at `instanceId + h`, and `h` is a member of the set `instanceId`.
  - `save` and `delete` update both keys in one MULTI/EXEC transaction.
  - `load` returns null (no record, or a record that reads as the null object), the fingerprint, or an "unexpected type" IOException.
  - `isReady` asks whether the instance's set is non-empty.
  - Every server failure is rethrown.
- **RedisFingerprintCleanup.execute** (`Cleanup.dfy`). This is the periodic sweep.
  - It SSCANs the instance's set from the start pointer until the server returns the start pointer again, loading every id of every batch.
  - Missing and malformed records are skipped.
  - Every fingerprint that loads is offered to the cleanup callback, which deletes obsolete ones.
  - A server failure ends the sweep quietly.
- **CredentialHelper** (`Credentials.dfy`). It holds the username/password defaulting and the last-match-wins credential lookup. The same code appears in the storage class and the global configuration, and it is modelled once.
- **TestFingerprintStorage** (`TestStorage.dfy`). This is the in-memory map store with the same four operations. It serves as the abstract specification that one instance's part of the Redis server is proved to refine.
- **GlobalRedisConfiguration** (`Configuration.dfy`). It covers the field defaults, `setEnabled` choosing the storage engine, and `configure` copying the submitted form.

Supporting modules:

- `RedisStore.dfy` models the Redis server as two maps: string values and set values. A transaction is a list of commands applied in order. The `Server` class holds that data plus two flags. `reachable` stands for a cut or restored connection. `slow` stands for replies that arrive after the client's socket timeout. The client waits for the replies to MULTI and to each queued command before it sends EXEC, so with late replies the transaction is never committed and the client reports a failure.
- `Codec.dfy` is a concrete stand-in for the XStream serialisation, with a proved round trip. One blob reads as the null object, as XStream's `<null/>` does.
- `KeyScheme.dfy` holds the key layout and its injectivity.
- `Settings.dfy` holds the shared default values.

What is proved:

- The class invariant: an id is in the index set exactly when its record exists, and every indexed record decodes to a fingerprint with that hash. `save` always preserves it. `delete` preserves it for every non-empty id.
- The round trip for save and load, and the reads after delete.
- Atomic failure: a save or delete fails when the connection is cut or the replies come after the socket timeout, and then it leaves the server unchanged (RedisStorage.ConnectionFailureScenario, RedisStorage.SlowConnectionScenario).
- Isolation of instances that share one server.
- Refinement of the TestFingerprintStorage map.
- For cleanup: the shape of the cursor loop, which ids are loaded, and that the sweep deletes exactly the fingerprints the callback rejects: those are gone, the accepted ones still load, and every other id keeps its index entry and its load.
- `Cleanup.Execute` (the do-while with its inner loop) is proved to compute the pure specification `Cleanup.RunSweep`.

## Model

| member | source | states |
|---|---|---|
| Codec.Decode | plugin/src/main/java/io/jenkins/plugins/redis/RedisFingerprintStorage.java:127-135 | a blob reads as the null object exactly when it is the null blob; a blob decodes to a fingerprint only if it is that fingerprint's encoding; anything else is not a fingerprint |
| Codec.Encode | plugin/src/main/java/io/jenkins/plugins/redis/RedisFingerprintStorage.java:96-97 | the blob save writes for a fingerprint (toXML); its round trip is stated by DecodeEncode |
| Codec.DecodeEncode | plugin/src/main/java/io/jenkins/plugins/redis/RedisFingerprintStorage.java:96-97 | decoding what save serialises gives the same fingerprint back |
| Codec.EncodeInjective | plugin/src/main/java/io/jenkins/plugins/redis/RedisFingerprintStorage.java:96-97 | distinct fingerprints serialise to distinct blobs |
| KeyScheme.RecordKey | plugin/src/main/java/io/jenkins/plugins/redis/RedisFingerprintStorage.java:100 | the record key `instanceId + id`, also used at lines 116 and 145; its injectivity is stated by RecordKeyInjective |
| KeyScheme.IndexKey | plugin/src/main/java/io/jenkins/plugins/redis/RedisFingerprintStorage.java:101 | the index set's key, the instance id itself, also used at line 146 |
| KeyScheme.RecordKeyInjective | plugin/src/main/java/io/jenkins/plugins/redis/RedisFingerprintStorage.java:100 | with a 32-character instance id, `instanceId + id` determines both the instance and the id |
| KeyScheme.RecordKeyIsNoIndexKey | plugin/src/main/java/io/jenkins/plugins/redis/RedisFingerprintStorage.java:100-101 | a record key equals an index key exactly when the id is empty and the instance is the same |
| RedisStore.ApplyPair | plugin/src/main/java/io/jenkins/plugins/redis/RedisFingerprintStorage.java:99-102 | a two-command transaction applies its commands in order |
| RedisStore.Server.Exec | plugin/src/main/java/io/jenkins/plugins/redis/RedisFingerprintStorage.java:99-102 | MULTI ... EXEC: success exactly when the server is reachable and replies in time; the whole transaction is applied on success and nothing otherwise |
| Credentials.UsernameFromCredential | plugin/src/main/java/io/jenkins/plugins/redis/CredentialHelper.java:42-51 | no credential, or an empty username, gives "default"; otherwise the credential's username; never empty |
| Credentials.PasswordFromCredential | plugin/src/main/java/io/jenkins/plugins/redis/CredentialHelper.java:53-58 | no credential gives ""; otherwise the credential's password |
| Credentials.LastMatch | plugin/src/main/java/io/jenkins/plugins/redis/CredentialHelper.java:60-71 | the credential getCredential returns; when there is one, it is in the list and has the requested id |
| Credentials.LastMatchIsLast | plugin/src/main/java/io/jenkins/plugins/redis/CredentialHelper.java:60-71 | the lookup finds nothing exactly when no id matches; otherwise it finds a matching credential with no match after it |
| Credentials.GetCredential | plugin/src/main/java/io/jenkins/plugins/redis/CredentialHelper.java:60-71 | the loop that reassigns on every match returns the last match |
| TestStorage.TestFingerprintStorage.constructor | plugin/src/main/java/io/jenkins/plugins/redis/TestFingerprintStorage.java:16-32 | the host defaults to "localhost" and the map starts empty |
| TestStorage.TestFingerprintStorage.Save | plugin/src/main/java/io/jenkins/plugins/redis/TestFingerprintStorage.java:34-37 | the map gains fp under its hash, replacing any earlier entry; the invariant is kept |
| TestStorage.TestFingerprintStorage.Load | plugin/src/main/java/io/jenkins/plugins/redis/TestFingerprintStorage.java:40-43 | returns the map's entry for id or null; under the invariant, a loaded fingerprint's hash is id |
| TestStorage.TestFingerprintStorage.Delete | plugin/src/main/java/io/jenkins/plugins/redis/TestFingerprintStorage.java:45-48 | removes only the entry for id |
| TestStorage.TestFingerprintStorage.IsReady | plugin/src/main/java/io/jenkins/plugins/redis/TestFingerprintStorage.java:50-53 | true exactly when the map is non-empty |
| TestStorage.SaveLoadDeleteScenario | plugin/src/main/java/io/jenkins/plugins/redis/TestFingerprintStorage.java:34-53 | a second save with the same hash overwrites the first; after delete, load is null and isReady is false |
| RedisStorage.LoadFrom | plugin/src/main/java/io/jenkins/plugins/redis/RedisFingerprintStorage.java:112-137 | null exactly when no record exists or the record reads as the null object; the IOException exactly when the record is not a fingerprint; otherwise the fingerprint whose encoding is the record |
| RedisStorage.SaveTx | plugin/src/main/java/io/jenkins/plugins/redis/RedisFingerprintStorage.java:99-102 | the queued SET of the blob at the record key and SADD of the hash to the index set; its effect is stated by SaveWritesOnlyItsKeys |
| RedisStorage.DeleteTx | plugin/src/main/java/io/jenkins/plugins/redis/RedisFingerprintStorage.java:144-147 | the queued DEL of the record key and SREM of the id from the index set; its effect is stated by DeleteRemovesBoth |
| RedisStorage.Ready | plugin/src/main/java/io/jenkins/plugins/redis/RedisFingerprintStorage.java:159 | whether the index set has a member; related to the map view by ReadyRefines |
| RedisStorage.ScanAt | plugin/src/main/java/io/jenkins/plugins/redis/RedisFingerprintCleanup.java:48 | an unresponsive server gives JedisFailure; a responsive one gives the scanner's reply for the index key at the cursor, or JedisFailure when the scanner has none |
| RedisStorage.SaveWritesOnlyItsKeys | plugin/src/main/java/io/jenkins/plugins/redis/RedisFingerprintStorage.java:95-107 | save sets the record key to the blob and adds the hash to the index set; no other key changes |
| RedisStorage.DeleteRemovesBoth | plugin/src/main/java/io/jenkins/plugins/redis/RedisFingerprintStorage.java:142-152 | delete removes the record key and the id from the index set, and no other key; the empty id drops the index set |
| RedisStorage.SaveThenLoad | plugin/src/main/java/io/jenkins/plugins/redis/RedisFingerprintStorage.java:95-137 | after save(fp), load(fp.hash) returns fp |
| RedisStorage.DeleteThenLoad | plugin/src/main/java/io/jenkins/plugins/redis/RedisFingerprintStorage.java:112-152 | after delete(id), load(id) returns null and id is not indexed |
| RedisStorage.DeleteNeverStoredIsNoOp | plugin/src/main/java/io/jenkins/plugins/redis/RedisFingerprintStorage.java:142-152 | deleting an id that was never stored leaves the server unchanged (for an id whose record key holds no set; that excludes only the empty id while the index set exists, since its record key is the index key) |
| RedisStorage.DeleteIdempotent | plugin/src/main/java/io/jenkins/plugins/redis/RedisFingerprintStorage.java:142-152 | a second delete of the same id changes nothing |
| RedisStorage.ReadyAfterSave | plugin/src/main/java/io/jenkins/plugins/redis/RedisFingerprintStorage.java:157-164 | isReady holds after any save |
| RedisStorage.NotReadyAfterDeletingLast | plugin/src/main/java/io/jenkins/plugins/redis/RedisFingerprintStorage.java:157-164 | isReady is false after deleting the only indexed id |
| RedisStorage.SavePreservesHealthy | plugin/src/main/java/io/jenkins/plugins/redis/RedisFingerprintStorage.java:95-107 | a save by any instance keeps every instance's index invariant |
| RedisStorage.DeletePreservesHealthy | plugin/src/main/java/io/jenkins/plugins/redis/RedisFingerprintStorage.java:142-152 | a delete keeps the index invariant, unless it is the empty id on the same instance |
| RedisStorage.SaveIsInvisibleToOtherInstances | plugin/src/main/java/io/jenkins/plugins/redis/RedisFingerprintStorage.java:99-101 | a save by another instance changes neither this instance's index nor any of its loads |
| RedisStorage.DeleteIsInvisibleToOtherInstances | plugin/src/main/java/io/jenkins/plugins/redis/RedisFingerprintStorage.java:144-147 | a delete by another instance changes neither this instance's index nor any of its loads |
| RedisStorage.SaveAbstractAt | plugin/src/main/java/io/jenkins/plugins/redis/RedisFingerprintStorage.java:99-101 | after a save, the instance's map view holds fp at its hash and is unchanged at every other id |
| RedisStorage.SaveRefines | plugin/src/main/java/io/jenkins/plugins/redis/RedisFingerprintStorage.java:95-107 | seen as a map, the instance gains fp under its hash, as TestFingerprintStorage.save does |
| RedisStorage.DeleteRefines | plugin/src/main/java/io/jenkins/plugins/redis/RedisFingerprintStorage.java:142-152 | seen as a map, the instance loses the entry for id, as TestFingerprintStorage.delete does |
| RedisStorage.LoadRefines | plugin/src/main/java/io/jenkins/plugins/redis/RedisFingerprintStorage.java:112-137 | on a healthy instance, load is the map lookup of TestFingerprintStorage.load |
| RedisStorage.ReadyRefines | plugin/src/main/java/io/jenkins/plugins/redis/RedisFingerprintStorage.java:157-164 | on a healthy instance, isReady is the map's non-emptiness, as in TestFingerprintStorage.isReady |
| RedisStorage.DeleteOfEmptyIdOrphansRecords | plugin/src/main/java/io/jenkins/plugins/redis/RedisFingerprintStorage.java:145-146 | on a non-empty healthy instance, delete("") empties the index while the records stay loadable |
| RedisStorage.GarbageIsUnexpectedType | plugin/src/main/java/io/jenkins/plugins/redis/RedisFingerprintStorage.java:127-133 | a record holding "garbageData" loads as the IOException, not as null |
| RedisStorage.NullObjectLoadsAsNull | plugin/src/main/java/io/jenkins/plugins/redis/RedisFingerprintStorage.java:128-135 | a record that reads as the null object loads as null, not as the IOException |
| RedisStorage.EmptyServerIsHealthy | plugin/src/main/java/io/jenkins/plugins/redis/RedisFingerprintStorage.java:86-90 | an empty server satisfies every instance's invariant |
| RedisStorage.RedisFingerprintStorage.constructor | plugin/src/main/java/io/jenkins/plugins/redis/RedisFingerprintStorage.java:166-172 | the connection fields start at localhost, 6379, database 0, no ssl, 2000 ms timeouts, no credential |
| RedisStorage.RedisFingerprintStorage.Save | plugin/src/main/java/io/jenkins/plugins/redis/RedisFingerprintStorage.java:95-107 | Pass exactly when the server is reachable and replies in time, JedisFailure otherwise; the transaction is applied exactly on Pass, and a failed save changes nothing; the invariant is kept; on Pass the map view gains fp |
| RedisStorage.RedisFingerprintStorage.Load | plugin/src/main/java/io/jenkins/plugins/redis/RedisFingerprintStorage.java:112-137 | JedisFailure when the server does not reply in time, otherwise LoadFrom; on a healthy instance, the map lookup |
| RedisStorage.RedisFingerprintStorage.Delete | plugin/src/main/java/io/jenkins/plugins/redis/RedisFingerprintStorage.java:142-152 | Pass exactly when the server is reachable and replies in time, JedisFailure otherwise; the transaction is applied exactly on Pass, and a failed delete changes nothing; for a non-empty id the invariant is kept and on Pass the map view loses id |
| RedisStorage.RedisFingerprintStorage.IsReady | plugin/src/main/java/io/jenkins/plugins/redis/RedisFingerprintStorage.java:157-164 | JedisFailure when the server does not reply in time, otherwise whether the index set is non-empty; on a healthy instance, whether the map view is non-empty |
| RedisStorage.RedisFingerprintStorage.GetFingerprintIdsForCleanup | plugin/src/main/java/io/jenkins/plugins/redis/RedisFingerprintCleanup.java:48 | one SSCAN of the instance's index set at the given cursor; JedisFailure when the server fails |
| RedisStorage.RedisFingerprintStorage.GetUsername | plugin/src/main/java/io/jenkins/plugins/redis/RedisFingerprintStorage.java:237-240 | the defaulted username of the last credential matching credentialsId |
| RedisStorage.RedisFingerprintStorage.GetPassword | plugin/src/main/java/io/jenkins/plugins/redis/RedisFingerprintStorage.java:242-245 | the defaulted password of the last credential matching credentialsId |
| RedisStorage.LifecycleScenario | plugin/src/main/java/io/jenkins/plugins/redis/RedisFingerprintStorage.java:95-164 | save, load, isReady, delete, load, isReady on a fresh server give fp, true, null, false |
| RedisStorage.IsolationScenario | plugin/src/main/java/io/jenkins/plugins/redis/RedisFingerprintStorage.java:99-116 | a fingerprint saved by one instance is loaded by it and not by another instance on the same server |
| RedisStorage.ConnectionFailureScenario | plugin/src/main/java/io/jenkins/plugins/redis/RedisFingerprintStorage.java:103-106 | with the connection cut, a save fails and leaves the id absent, and a delete fails and leaves the fingerprint loadable |
| RedisStorage.SlowConnectionScenario | plugin/src/test/java/io/jenkins/plugins/redis/RedisConnectionTest.java:138-166 | with replies slower than the socket timeout, a save and a delete both fail with the Jedis exception and change nothing: the fingerprint is absent after the failed save and still loads after the failed delete |
| Cleanup.VisitId | plugin/src/main/java/io/jenkins/plugins/redis/RedisFingerprintCleanup.java:52-59 | the id is loaded; the fingerprint is offered exactly when the load returns one; a failed load marks the sweep failed |
| Cleanup.VisitBatch | plugin/src/main/java/io/jenkins/plugins/redis/RedisFingerprintCleanup.java:51-60 | on a reachable server no load fails and every id of the batch is loaded, in order |
| Cleanup.SweepFrom | plugin/src/main/java/io/jenkins/plugins/redis/RedisFingerprintCleanup.java:47-65 | the rest of the do-while from a cursor; the fingerprints offered only grow; its shape is stated by SweepShape |
| Cleanup.RunSweep | plugin/src/main/java/io/jenkins/plugins/redis/RedisFingerprintCleanup.java:43-67 | the whole sweep: at least one scan when there is fuel, the first at the start pointer, and no more scans than the fuel |
| Cleanup.UnloadableRecordIsSkipped | plugin/src/main/java/io/jenkins/plugins/redis/RedisFingerprintCleanup.java:53-59 | a missing or malformed record is skipped and the next id is visited |
| Cleanup.SweepShape | plugin/src/main/java/io/jenkins/plugins/redis/RedisFingerprintCleanup.java:44-62 | at least one scan, the first at the start pointer; each scan resumes at the previous scan's cursor; only the last can return the start pointer; a completed sweep ended on it |
| Cleanup.SweepLoadsEveryDeliveredId | plugin/src/main/java/io/jenkins/plugins/redis/RedisFingerprintCleanup.java:47-62 | the ids loaded are exactly the ids the scans delivered, in order |
| Cleanup.ReachableSweepAbortsOnlyOnFailedScan | plugin/src/main/java/io/jenkins/plugins/redis/RedisFingerprintCleanup.java:46-65 | on a server that replies in time, a sweep aborts only when its last scan failed |
| Cleanup.UnresponsiveSweepAborts | plugin/src/main/java/io/jenkins/plugins/redis/RedisFingerprintCleanup.java:63-65 | on a server that does not reply in time, the first scan fails and the sweep ends with nothing loaded, offered or changed |
| Cleanup.GoneStaysGone | plugin/src/main/java/io/jenkins/plugins/redis/RedisFingerprintStorage.java:142-152 | a deleted record stays deleted under any later delete |
| Cleanup.VisitIdSettles | plugin/src/main/java/io/jenkins/plugins/redis/RedisFingerprintCleanup.java:52-56 | visiting one id keeps the instance healthy, rejected fingerprints gone and kept ones loadable |
| Cleanup.VisitBatchSettles | plugin/src/main/java/io/jenkins/plugins/redis/RedisFingerprintCleanup.java:51-60 | the same for a whole batch |
| Cleanup.SweepFromSettles | plugin/src/main/java/io/jenkins/plugins/redis/RedisFingerprintCleanup.java:47-62 | the same for the rest of the sweep |
| Cleanup.SweepDeletesExactlyTheRejected | plugin/src/main/java/io/jenkins/plugins/redis/RedisFingerprintCleanup.java:43-67 | after a sweep of a healthy instance, a rejected fingerprint is not loadable and its id is not indexed; an accepted one still loads unchanged |
| Cleanup.VisitIdSpares | plugin/src/main/java/io/jenkins/plugins/redis/RedisFingerprintCleanup.java:52-56 | visiting one id changes no record except one the callback rejected |
| Cleanup.VisitBatchSpares | plugin/src/main/java/io/jenkins/plugins/redis/RedisFingerprintCleanup.java:51-60 | the same for a whole batch |
| Cleanup.SweepFromSpares | plugin/src/main/java/io/jenkins/plugins/redis/RedisFingerprintCleanup.java:47-62 | the same for the rest of the sweep |
| Cleanup.SweepDeletesNothingElse | plugin/src/main/java/io/jenkins/plugins/redis/RedisFingerprintCleanup.java:43-67 | after a sweep, every id that is not the hash of a rejected fingerprint keeps its index membership and its load, whether it was never delivered, did not decode or was kept |
| Cleanup.VisitIdTracks | plugin/src/main/java/io/jenkins/plugins/redis/RedisFingerprintCleanup.java:52-56 | visiting one id keeps the fingerprint stored under x loadable until it is offered, and offers it once x is loaded |
| Cleanup.VisitBatchTracks | plugin/src/main/java/io/jenkins/plugins/redis/RedisFingerprintCleanup.java:51-60 | the same for a whole batch |
| Cleanup.SweepFromTracks | plugin/src/main/java/io/jenkins/plugins/redis/RedisFingerprintCleanup.java:47-62 | the same for the rest of the sweep |
| Cleanup.SweepSettlesEveryDeliveredId | plugin/src/test/java/io/jenkins/plugins/redis/RedisFingerprintCleanupTest.java:90-102 | every id a scan delivered, holding fingerprint f, is gone (unindexed, no record) when the callback rejects f and still loads f when it accepts it |
| Cleanup.SweepLeavesOtherInstances | plugin/src/main/java/io/jenkins/plugins/redis/RedisFingerprintCleanup.java:43-67 | a sweep changes no other instance's index or loads |
| Cleanup.BatchLeavesOtherInstances | plugin/src/main/java/io/jenkins/plugins/redis/RedisFingerprintCleanup.java:51-60 | the same for one batch |
| Cleanup.CleanFingerprint | plugin/src/main/java/io/jenkins/plugins/redis/RedisFingerprintCleanup.java:55 | an accepted fingerprint changes nothing and passes; an obsolete one is deleted by its hash when the server responds, and otherwise the failure is reported and nothing changes |
| Cleanup.Execute | plugin/src/main/java/io/jenkins/plugins/redis/RedisFingerprintCleanup.java:43-67 | the do-while with its inner loop computes RunSweep: the same status, the same fingerprints offered, the same final server data |
| Configuration.EngineFor | plugin/src/main/java/io/jenkins/plugins/redis/GlobalRedisConfiguration.java:86-93 | the Redis engine class exactly when enabled; the file storage engine exactly when disabled |
| Configuration.GlobalRedisConfiguration.constructor | plugin/src/main/java/io/jenkins/plugins/redis/GlobalRedisConfiguration.java:64-76 | the stored settings if any, else the defaults; the engine property matches enabled |
| Configuration.GlobalRedisConfiguration.SetEnabled | plugin/src/main/java/io/jenkins/plugins/redis/GlobalRedisConfiguration.java:86-93 | enabled becomes b and the engine property names the matching class; no other field changes |
| Configuration.GlobalRedisConfiguration.Configure | plugin/src/main/java/io/jenkins/plugins/redis/GlobalRedisConfiguration.java:193-205 | as written: all fields come from the form, except that the connection timeout gets the form's socket timeout and the socket timeout keeps its old value; returns true |
| Configuration.GlobalRedisConfiguration.ConfigureCorrected | plugin/src/main/java/io/jenkins/plugins/redis/GlobalRedisConfiguration.java:193-205 | as intended: every field, both timeouts included, comes from the form; returns true |
| Configuration.GlobalRedisConfiguration.GetUsername | plugin/src/main/java/io/jenkins/plugins/redis/GlobalRedisConfiguration.java:151-165 | the defaulted username of the last credential matching credentialsId |
| Configuration.GlobalRedisConfiguration.GetPassword | plugin/src/main/java/io/jenkins/plugins/redis/GlobalRedisConfiguration.java:167-177 | the defaulted password of the last credential matching credentialsId |
| Configuration.SubmitAsWritten | plugin/src/main/java/io/jenkins/plugins/redis/GlobalRedisConfiguration.java:193-205 | a submitted form reads back unchanged exactly when its two timeouts agree with each other and with the previous socket timeout |
| Configuration.SubmitCorrected | plugin/src/main/java/io/jenkins/plugins/redis/GlobalRedisConfiguration.java:193-205 | with the corrected configure, a submitted form always reads back unchanged |
| Configuration.ConfigureLosesSocketTimeoutWitness | plugin/src/main/java/io/jenkins/plugins/redis/GlobalRedisConfiguration.java:201-202 | configuring 1000/5000 on a fresh section leaves 5000/2000 |
| Configuration.ConfigureCorrectedKeepsTimeoutsWitness | plugin/src/main/java/io/jenkins/plugins/redis/GlobalRedisConfiguration.java:201-202 | the corrected configure leaves 1000/5000 |

## Left out

- The Jedis pool (`JedisPoolManager.java`), `synchronized`, and concurrent use of one server: each transaction is one atomic step on a single-threaded server.
- XStream serialisation: it is replaced by a concrete codec (a header, the 32-character hash, the payload) whose round trip is proved, not assumed. A fingerprint is modelled as its hash and an opaque payload.
- Codec.Decode: the stand-in is canonical. A fingerprint has exactly one blob that decodes to it, and only `<null/>` reads as the null object, whereas XStream's fromXML also accepts other spellings of the same fingerprint and of null.
- RedisStorage.LoadFrom: because of the canonical stand-in, a record loads as a fingerprint only when it is exactly that fingerprint's encoding.
- The instance identity digest comes from a foreign call. It is a constructor parameter of length 32.
- The credentials provider and `IdMatcher`: the credential list is a parameter of `(id, username, password)` records, and matching is equality of ids.
- The UI, descriptors and connection testing (`RedisFingerprintStorageDescriptor.java`, the `doFill`/`doCheck`/`doTest` methods) are UI and network code.
- The plain getters and setters are not modelled as separate members.
- Persisting the global configuration (`save()` and `load()`): the stored settings are a constructor parameter, and `configure`'s `save()` is not modelled.
- `System.setProperty`: the FingerprintStorageEngine property is a field of the configuration object.
- JSON parsing in `configure`: the submitted form is an already-parsed record.
- Logging: it has no effect on state.
- `getFingerprintIdsForCleanup` is called by the cleanup but is not among the storage class's methods. It is modelled as an SSCAN of the instance's index set.
- Cleanup.RunSweep: the SSCAN reply is an arbitrary function of the server data, key and cursor. The model does not require the server's guarantee that a full iteration returns every element, so no lemma claims that a completed sweep visited every indexed id. What is proved instead, by Cleanup.SweepSettlesEveryDeliveredId, is that every id a scan delivered ends up deleted or still loadable, as the callback decided.
- Cleanup.Execute: termination of the do-while depends on the server's cursors. A fuel bound limits the number of scans, and running out of fuel is a third outcome beside completion and abort.
- Cleanup.Execute: whether the server is reachable and replies in time is fixed for the duration of one sweep. A connection lost or slowed partway through a sweep is not modelled, although a failed first scan is. So the per-id failure branches of Cleanup.VisitId and Cleanup.VisitBatch are never reached from Cleanup.RunSweep.
- The cleanup callback (`cleanFingerprint` in Jenkins core) is reduced to its decision: delete the fingerprint or keep it. Its trimming of a kept fingerprint and the save that follows are not modelled.
- RedisStorage.RedisFingerprintStorage.Load: GET on a key that holds a set returns a WRONGTYPE error in Redis, while in the model such a key holds no string value. This only arises for the empty id: on an instance whose index set exists, `load("")` rethrows a JedisDataException in the source, and the model returns null (`Ok(None)`) instead.
- SREM that empties a set keeps the empty set, where Redis drops the key. SMEMBERS and SSCAN observe no difference.
- The socket timeout is a yes/no property of the server (`slow`), not a duration compared with the configured timeout. Slowness is modelled as every reply of a call arriving late, so the client gives up before it sends EXEC. A reply that alone arrives late after EXEC has run is not modelled.
- RedisStorage.RedisFingerprintStorage.Delete: the invariant and refinement clauses are stated only for a non-empty id, because `delete("")` removes the whole index set (see RedisStorage.DeleteOfEmptyIdOrphansRecords).
- `RedisConfiguration.java` (main) duplicates `setEnabled` over static fields and is not part of this model.

## Findings

| source | as written | input that shows it | evidently intended | confidence | as-written member | corrected member |
|---|---|---|---|---|---|---|
| plugin/src/main/java/io/jenkins/plugins/redis/GlobalRedisConfiguration.java:202 | `configure` calls `setConnectionTimeout` with the form's socket timeout. The connection timeout is overwritten, and the socket timeout is never stored. | a form with connectionTimeout 1000 and socketTimeout 5000 on a fresh section leaves connectionTimeout 5000 and socketTimeout 2000 | `setSocketTimeout(json.getInt("socketTimeout"))`, so that both timeouts come from the form | high; not executed | Configuration.GlobalRedisConfiguration.Configure, Configuration.ConfigureLosesSocketTimeoutWitness | Configuration.GlobalRedisConfiguration.ConfigureCorrected, Configuration.ConfigureCorrectedKeepsTimeoutsWitness |
