/**
 Indexed event ids have the form `<txHash>-<logIndex>`; every mapper keeps
 only the transaction hash, written `id.split('-')[0]` in the source.
 */
module CompositeId {
  import opened Strings

  /** `hash` is the part of `id` before its first `-`, or all of it. */
  predicate IsHashOf(hash: string, id: string) {
    && hash <= id
    && '-' !in hash
    && (|hash| < |id| ==> id[|hash|] == '-')
  }

  /** The transaction hash of a composite id: everything before the first `-`. */
  function HashOf(id: string): (r: string)
    ensures IsHashOf(r, id)
  {
    var parts := Split(id, '-');
    assert |parts| > 1 ==> id == parts[0] + ['-'] + Join(parts[1..], '-');
    parts[0]
  }

  /** The characterisation leaves exactly one candidate hash. */
  lemma HashIsUnique(h1: string, h2: string, id: string)
    requires IsHashOf(h1, id) && IsHashOf(h2, id)
    ensures h1 == h2
  {
  }

  /** An id built from a hash and any log index gives that hash back. */
  lemma HashOfComposite(hash: string, logIndex: string)
    requires '-' !in hash
    ensures HashOf(hash + "-" + logIndex) == hash
  {
    SplitAtFirst(hash, '-', logIndex);
  }

  /** An id without `-` is its own hash, so HashOf is idempotent. */
  lemma HashOfIdempotent(id: string)
    ensures HashOf(HashOf(id)) == HashOf(id)
  {
    SplitWithoutSeparator(HashOf(id), '-');
  }

  /** Example: `0xabc123-5` has hash `0xabc123`. */
  lemma HashOfExample()
    ensures HashOf("0xabc123-5") == "0xabc123"
  {
    HashOfComposite("0xabc123", "5");
    assert "0xabc123" + "-" + "5" == "0xabc123-5";
  }
}
