/** The keys under which aggregated force/month records are cached:
    `aggregated:{force}:{month}`. The client's batched driver builds them and
    reads them back with `split(':')`; the cache analytics parse them the
    same way. */
module AggKeys {
  import opened Text

  const Prefix := "aggregated"

  /** `aggregated:${forceId}:${month}`. */
  function AggKey(force: string, month: string): (k: string)
    ensures StartsWith(k, Prefix + ":")
  {
    assert Prefix + ":" + force + ":" + month == (Prefix + ":") + (force + ":" + month);
    Prefix + ":" + force + ":" + month
  }

  predicate NoColon(s: string) {
    ':' !in s
  }

  /** A key built from a colon-free force and month splits back into its
      three parts. */
  lemma AggKeySplits(force: string, month: string)
    requires NoColon(force) && NoColon(month)
    ensures Split(AggKey(force, month), ':') == [Prefix, force, month]
  {
    var tail := force + [':'] + month;
    assert AggKey(force, month) == Prefix + [':'] + tail;
    SplitAfterPiece(Prefix, ':', tail);
    SplitAfterPiece(force, ':', month);
    SplitNoSep(month, ':');
  }
}
