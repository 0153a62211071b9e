/**
  Hashes worked out step by step: published test vectors of the 32-bit MurmurHash3, and
  flows whose hashes the program itself wrote into its result files.
*/
module HashVectors {
  import opened Packets
  import opened Murmur3
  import opened FlowKey

  // ---------- published vectors ----------

  lemma ShortLengths()
    ensures LengthWord(0) == 0 && LengthWord(3) == 3 && LengthWord(4) == 4 && LengthWord(16) == 16
  {
    assert LowByte(0) == 0 && LowByte(3) == 3 && LowByte(4) == 4 && LowByte(16) == 16;
  }

  lemma EmptyKey()
    ensures Hash([], 1) == 0x514e28b7
  {
    ShortLengths();
    assert Fmix32(1) == 0x514e28b7;
  }

  lemma OneBlockKey()
    ensures Hash([0x21, 0x43, 0x65, 0x87], 0) == 0xf55b516b
  {
    hide LengthWord;
    ShortLengths();
    var key: seq<bv8> := [0x21, 0x43, 0x65, 0x87];
    assert Block(key, 0) == 0x87654321;
    assert MixBlock(0, 0x87654321) == 0xbb095db4;
    assert Fmix32(0xbb095db0) == 0xf55b516b;
  }

  lemma KeyWithoutABlock()
    ensures Hash([0x21, 0x43, 0x65], 0) == 0x7e4a8634
  {
    hide LengthWord;
    ShortLengths();
    var key: seq<bv8> := [0x21, 0x43, 0x65];
    assert TailWord(key) == 0x654321;
    assert MixTail(0, key) == 0x17a6636e;
    assert Fmix32(0x17a6636d) == 0x7e4a8634;
  }

  // ---------- hashes the program wrote ----------

  lemma HashOfWords(k: Words)
    ensures Murmur3.Hash(KeyBytes(k), SEED) == Fmix32(MixBlock(MixBlock(MixBlock(MixBlock(SEED, k.w0), k.w1), k.w2), k.w3) ^ 16)
  {
    hide Fmix32, MixBlock, LengthWord, Bytes, Word;
    ShortLengths();
    var key := KeyBytes(k);
    forall i: nat | i < 4 ensures Block(key, i) == k.At(i) {
      KeyBytesHoldTheWords(k, i);
      BytesAreInjective(k.At(i));
    }
    hide Block, KeyBytes;
    BodyStep(key, 0, SEED);
    BodyStep(key, 1, SEED);
    BodyStep(key, 2, SEED);
    BodyStep(key, 3, SEED);
  }

  lemma UdpFlowOutOfOrderRounds()
    ensures MixBlock(0x1002, 0x475b3eb2) == 0x4e5a39c6
    ensures MixBlock(0x4e5a39c6, 0x870a0a0a) == 0x32b40766
    ensures MixBlock(0x32b40766, 0xebe1fa70) == 0x861a6c18
    ensures MixBlock(0x861a6c18, 0x11) == 0x867bda7c
    ensures Fmix32(0x867bda6c) == 2765449629
  {
  }

  lemma UdpFlowOutOfOrderWords()
    ensures Canonical(Tuple(0x870a0a0a, 64112, 0x475b3eb2, 60385, 17)) == Words(0x475b3eb2, 0x870a0a0a, 0xebe1fa70, 0x11)
  {
    assert !Below(0x870a0a0a, 0x475b3eb2);
    assert Ports(60385, 64112) == 0xebe1fa70;
  }

  /** UDP from 10.10.10.135:64112 to 178.62.91.71:60385; addresses are in network order on a little-endian
      machine, and the higher one sends. */
  lemma UdpFlowOutOfOrder()
    ensures FlowHash(Tuple(0x870a0a0a, 64112, 0x475b3eb2, 60385, 17)) == 2765449629
  {
    hide Murmur3.Hash, KeyBytes, MixBlock, Fmix32, Canonical;
    UdpFlowOutOfOrderRounds();
    UdpFlowOutOfOrderWords();
    HashOfWords(Words(0x475b3eb2, 0x870a0a0a, 0xebe1fa70, 0x11));
  }

  lemma TcpFlowOutOfOrderRounds()
    ensures MixBlock(0x1002, 0x475b3eb2) == 0x4e5a39c6
    ensures MixBlock(0x4e5a39c6, 0x870a0a0a) == 0x32b40766
    ensures MixBlock(0x32b40766, 0x216afb6f) == 0x9dca7314
    ensures MixBlock(0x9dca7314, 0x6) == 0x9a991c84
    ensures Fmix32(0x9a991c94) == 2776004583
  {
  }

  lemma TcpFlowOutOfOrderWords()
    ensures Canonical(Tuple(0x870a0a0a, 64367, 0x475b3eb2, 8554, 6)) == Words(0x475b3eb2, 0x870a0a0a, 0x216afb6f, 0x6)
  {
    assert !Below(0x870a0a0a, 0x475b3eb2);
    assert Ports(8554, 64367) == 0x216afb6f;
  }

  /** TCP from 10.10.10.135:64367 to 178.62.91.71:8554. */
  lemma TcpFlowOutOfOrder()
    ensures FlowHash(Tuple(0x870a0a0a, 64367, 0x475b3eb2, 8554, 6)) == 2776004583
  {
    hide Murmur3.Hash, KeyBytes, MixBlock, Fmix32, Canonical;
    TcpFlowOutOfOrderRounds();
    TcpFlowOutOfOrderWords();
    HashOfWords(Words(0x475b3eb2, 0x870a0a0a, 0x216afb6f, 0x6));
  }

  lemma TcpFlowInOrderRounds()
    ensures MixBlock(0x1002, 0x8f0a0a0a) == 0xee19da9f
    ensures MixBlock(0xee19da9f, 0x99647d4a) == 0x3d816ec
    ensures MixBlock(0x3d816ec, 0xcd8a01bb) == 0x33365043
    ensures MixBlock(0x33365043, 0x6) == 0x7589cdf
    ensures Fmix32(0x7589ccf) == 138688336
  {
  }

  lemma TcpFlowInOrderWords()
    ensures Canonical(Tuple(0x8f0a0a0a, 52618, 0x99647d4a, 443, 6)) == Words(0x8f0a0a0a, 0x99647d4a, 0xcd8a01bb, 0x6)
  {
    assert Below(0x8f0a0a0a, 0x99647d4a);
    assert Ports(52618, 443) == 0xcd8a01bb;
  }

  /** TCP from 10.10.10.143:52618 to 74.125.100.153:443; the lower address sends. */
  lemma TcpFlowInOrder()
    ensures FlowHash(Tuple(0x8f0a0a0a, 52618, 0x99647d4a, 443, 6)) == 138688336
  {
    hide Murmur3.Hash, KeyBytes, MixBlock, Fmix32, Canonical;
    TcpFlowInOrderRounds();
    TcpFlowInOrderWords();
    HashOfWords(Words(0x8f0a0a0a, 0x99647d4a, 0xcd8a01bb, 0x6));
  }
}
