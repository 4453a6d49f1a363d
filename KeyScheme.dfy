/**
 * Where a fingerprint lives in the shared key space: its blob at
 * `instanceId + id`, its id as a member of the set named `instanceId`.
 */
module KeyScheme {
  import opened Codec

  /** The key of the blob of fingerprint `id` of instance `instanceId`. */
  function RecordKey(instanceId: Digest, id: string): string
  {
    instanceId + id
  }

  /** The key of the set indexing every fingerprint id of instance `instanceId`. */
  function IndexKey(instanceId: Digest): string
  {
    instanceId
  }

  /**
   * Record keys never collide: the same key means the same instance and the
   * same id, since every instance id has the same length.
   */
  lemma RecordKeyInjective(a: Digest, b: Digest, x: string, y: string)
    ensures RecordKey(a, x) == RecordKey(b, y) <==> a == b && x == y
  {
    if RecordKey(a, x) == RecordKey(b, y) {
      var k := RecordKey(a, x);
      assert k[..32] == a;
      assert RecordKey(b, y)[..32] == b;
      assert k[32..] == x;
      assert RecordKey(b, y)[32..] == y;
    }
  }

  /** The record key of a non-empty id is no instance's index key. */
  lemma RecordKeyIsNoIndexKey(a: Digest, b: Digest, id: string)
    ensures RecordKey(a, id) == IndexKey(b) <==> id == "" && a == b
  {
    if RecordKey(a, id) == IndexKey(b) {
      assert |id| == 0;
      assert RecordKey(a, id) == a;
    }
  }
}
