/** The in-memory fingerprint store: a map from fingerprint id to fingerprint. */
module TestStorage {
  import opened Wrappers
  import opened Codec
  import Settings

  /** HashMap.get: the fingerprint stored under `id`, or null. */
  function MapGet(m: map<string, Fingerprint>, id: string): Option<Fingerprint>
  {
    if id in m then Some(m[id]) else None
  }

  class TestFingerprintStorage {
    var host: string
    var storage: map<string, Fingerprint>

    /** Every fingerprint is filed under its own hash. */
    ghost predicate Valid()
      reads this
    {
      forall id :: id in storage ==> storage[id].hash == id
    }

    constructor ()
      ensures host == Settings.DefaultHost && storage == map[] && Valid()
    {
      host := Settings.DefaultHost;
      storage := map[];
    }

    /** Files `fp` under its hash, replacing whatever was filed there. */
    method Save(fp: Fingerprint)
      modifies this
      ensures old(Valid()) ==> Valid()
      ensures storage == old(storage)[fp.hash := fp] && host == old(host)
    {
      storage := storage[fp.hash := fp];
    }

    method Load(id: string) returns (fp: Option<Fingerprint>)
      ensures fp == MapGet(storage, id)
      ensures Valid() && fp.Some? ==> fp.value.hash == id
    {
      fp := if id in storage then Some(storage[id]) else None;
    }

    /** Removes the entry for `id`, if any, and no other. */
    method Delete(id: string)
      modifies this
      ensures old(Valid()) ==> Valid()
      ensures storage == old(storage) - {id} && host == old(host)
    {
      storage := storage - {id};
    }

    method IsReady() returns (ready: bool)
      ensures ready <==> storage != map[]
    {
      ready := |storage| != 0;
    }
  }

  /** A save, two loads, a delete: what a client sees, from the contracts alone. */
  method SaveLoadDeleteScenario(fp: Fingerprint, newer: Fingerprint)
    returns (loaded: Option<Fingerprint>, loadedAfterDelete: Option<Fingerprint>, readyAfterSave: bool, readyAfterDelete: bool)
    requires newer.hash == fp.hash
    ensures loaded == Some(newer)
    ensures loadedAfterDelete == None
    ensures readyAfterSave && !readyAfterDelete
  {
    var store := new TestFingerprintStorage();
    store.Save(fp);
    store.Save(newer);
    loaded := store.Load(fp.hash);
    readyAfterSave := store.IsReady();
    store.Delete(fp.hash);
    loadedAfterDelete := store.Load(fp.hash);
    readyAfterDelete := store.IsReady();
  }
}
