/** What an `impl_transport!` table is made of. Each row reads
    `Src[SrcNative] => Dst[DstNative] | conversion <policy>`; the macro turns the table into
    the per-tag dispatch of a transport and, for some policies, into a
    `TypeConversion<SrcNative, DstNative>` impl. The macro itself is not part of this model;
    the meaning of the policies below is the one the tables rely on. */
module Transport {

  /** The conversion clause of a row. */
  datatype Policy =
    | Auto    // `conversion auto`: an impl that returns the value unchanged is generated
    | Owned   // `conversion owned`: an impl that returns an owned copy is generated
    | Manual  // `conversion option`: nothing is generated; a hand-written impl is used
    | Reuse   // `conversion none`: nothing is generated; the impl another row provides is used

  /** A row of a table, without its source tag (the tag is the key the row is found by). */
  datatype Row<D, N> = Row(srcNative: N, dst: D, dstNative: N, policy: Policy)

  /** The row makes the macro generate the impl for its native pair. */
  predicate Generates<D, N>(r: Row<D, N>) {
    r.policy == Auto || r.policy == Owned
  }

  /** Two rows convert between the same pair of native types. */
  predicate SamePair<D, N(==)>(r: Row<D, N>, s: Row<D, N>) {
    r.srcNative == s.srcNative && r.dstNative == s.dstNative
  }
}
