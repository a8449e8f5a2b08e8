/** CShroudnode::CalculateScore: the distance between two hashes seeded by a
    block hash, one of them mixed with the collateral reference. The hash
    function is left uninterpreted: `hashBlock` stands for hashing the block
    hash alone, `hashBlockAux` for hashing the block hash followed by `aux`. */
module Score {
  import opened ShroudTypes

  /** aux = txid + index, as 256-bit wrap-around addition. */
  function Aux(o: Outpoint): (r: U256)
    ensures o.hash + o.n < TWO_256 ==> r == o.hash + o.n
    ensures o.hash + o.n >= TWO_256 ==> r == o.hash + o.n - TWO_256
  {
    (o.hash + o.n) % TWO_256
  }

  /** The score is the absolute difference of the two hashes: it fits in
      256 bits, is zero exactly when the hashes agree, and added to the
      smaller hash gives the larger. */
  function CalculateScore(o: Outpoint, blockHash: U256,
                          hashBlock: U256 -> U256, hashBlockAux: (U256, U256) -> U256): (r: U256)
    ensures var h2, h3 := hashBlock(blockHash), hashBlockAux(blockHash, Aux(o));
      && (r == 0 <==> h2 == h3)
      && (h3 > h2 ==> h2 + r == h3)
      && (h3 <= h2 ==> h3 + r == h2)
  {
    var hash2 := hashBlock(blockHash);
    var hash3 := hashBlockAux(blockHash, Aux(o));
    if hash3 > hash2 then hash3 - hash2 else hash2 - hash3
  }

  /** The collateral reference enters the score only through aux. */
  lemma ScoreDependsOnlyOnAux(o1: Outpoint, o2: Outpoint, blockHash: U256,
                              hashBlock: U256 -> U256, hashBlockAux: (U256, U256) -> U256)
    requires Aux(o1) == Aux(o2)
    ensures CalculateScore(o1, blockHash, hashBlock, hashBlockAux)
         == CalculateScore(o2, blockHash, hashBlock, hashBlockAux)
  {
  }

  /** Two different collateral references whose aux coincide, (h, n + 1)
      and (h + 1, n), receive the same score for every block and every hash
      function: the scheduler cannot tell them apart. */
  lemma AdjacentOutpointsShareScore(h: U256, n: U32, blockHash: U256,
                                    hashBlock: U256 -> U256, hashBlockAux: (U256, U256) -> U256)
    requires h + 1 < TWO_256 && n + 1 < 0x1_0000_0000
    ensures Outpoint(h, n + 1) != Outpoint(h + 1, n)
    ensures CalculateScore(Outpoint(h, n + 1), blockHash, hashBlock, hashBlockAux)
         == CalculateScore(Outpoint(h + 1, n), blockHash, hashBlock, hashBlockAux)
  {
    assert Aux(Outpoint(h, n + 1)) == Aux(Outpoint(h + 1, n));
  }
}
