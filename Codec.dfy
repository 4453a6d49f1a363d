/**
 * The serialisation boundary of the storage engine.  The host serialises a
 * fingerprint to an XML blob and back; here the blob is a tagged string, which
 * keeps the property the engine relies on (decoding an encoded record gives
 * the record back), reads one blob as the null object, and rejects any other
 * string.
 */
module Codec {
  import opened Wrappers

  /** An MD5 digest rendered as 32 hex characters: a fingerprint's hash and the instance id. */
  type Digest = s: string | |s| == 32
    witness "d41d8cd98f00b204e9800998ecf8427e"

  /** A fingerprint record: identified by its hash; the rest of the record is opaque to the engine. */
  datatype Fingerprint = Fingerprint(hash: Digest, payload: string)

  const Header: string := "<fingerprint>"

  /** The blob written for a fingerprint (XStream's toXML). */
  function Encode(fp: Fingerprint): string
  {
    Header + fp.hash + fp.payload
  }

  /** What XStream's fromXML followed by the cast makes of a blob. */
  datatype Decoded = Record(fp: Fingerprint) | NullObject | NotAFingerprint

  /** The blob XStream reads as a null object; the cast lets it through. */
  const NullBlob: string := "<null/>"

  /** Reads a blob back: a fingerprint, the null object, or something that is not a fingerprint. */
  function Decode(blob: string): (r: Decoded)
    ensures r.Record? ==> Encode(r.fp) == blob
    ensures r.NullObject? <==> blob == NullBlob
  {
    var n := |Header|;
    if blob == NullBlob then
      NullObject
    else if |blob| >= n + 32 && blob[..n] == Header then
      assert blob == blob[..n] + blob[n..n + 32] + blob[n + 32..];
      Record(Fingerprint(blob[n..n + 32], blob[n + 32..]))
    else
      NotAFingerprint
  }

  /** Decoding is a left inverse of encoding. */
  lemma DecodeEncode(fp: Fingerprint)
    ensures Decode(Encode(fp)) == Record(fp)
  {
    var blob := Encode(fp);
    var n := |Header|;
    assert blob[..n] == Header;
    assert blob[n..n + 32] == fp.hash;
    assert blob[n + 32..] == fp.payload;
  }

  /** Distinct fingerprints are stored as distinct blobs. */
  lemma EncodeInjective(f: Fingerprint, g: Fingerprint)
    ensures Encode(f) == Encode(g) ==> f == g
  {
    DecodeEncode(f);
    DecodeEncode(g);
  }
}
