/**
 The in-memory E2EE key store: one key and one keyring slot per channel. Keys are opaque
 tokens; the caller supplies a token that was never used before wherever the source draws
 fresh random material.
 */
module KeyRing {
  import opened Domain

  const KEYRING_SIZE: nat := 16

  datatype ChannelKey = ChannelKey(key: nat, index: nat)
  type Ring = map<ChannelId, ChannelKey>

  /** The keyring slot the next freshly minted key of a channel takes. */
  function NextIndex(ring: Ring, c: ChannelId): nat {
    if c in ring then (ring[c].index + 1) % KEYRING_SIZE else 0
  }

  datatype RingOp =
    | GetOrCreate(channel: ChannelId, token: nat)
    | Rotate(channel: ChannelId, token: nat)
    | SetKey(channel: ChannelId, key: nat, index: nat)
    | Clear(channel: ChannelId)

  function Apply(ring: Ring, op: RingOp): Ring {
    match op
    case GetOrCreate(c, token) => if c in ring then ring else ring[c := ChannelKey(token, 0)]
    case Rotate(c, token) => ring[c := ChannelKey(token, NextIndex(ring, c))]
    case SetKey(c, key, index) => ring[c := ChannelKey(key, index % KEYRING_SIZE)]
    case Clear(c) => ring - {c}
  }

  class E2EEKeyManager {
    var channels: Ring

    constructor ()
      ensures channels == map[]
    {
      channels := map[];
    }

    method GetOrCreateKey(channel: ChannelId, token: nat) returns (k: ChannelKey)
      modifies this
      ensures channels == Apply(old(channels), GetOrCreate(channel, token))
      ensures Lookup(channels, channel) == Some(k)
    {
      if channel in channels {
        return channels[channel];
      }
      k := ChannelKey(token, 0);
      channels := channels[channel := k];
    }

    method Install(channel: ChannelId, key: nat, index: nat)
      modifies this
      ensures channels == Apply(old(channels), SetKey(channel, key, index))
    {
      channels := channels[channel := ChannelKey(key, index % KEYRING_SIZE)];
    }

    method RotateKey(channel: ChannelId, token: nat) returns (k: ChannelKey)
      modifies this
      ensures channels == Apply(old(channels), Rotate(channel, token))
      ensures Lookup(channels, channel) == Some(k)
    {
      var hadKey := channel in channels;
      k := ChannelKey(token, if hadKey then (channels[channel].index + 1) % KEYRING_SIZE else 0);
      channels := channels[channel := k];
    }

    method ClearKey(channel: ChannelId)
      modifies this
      ensures channels == Apply(old(channels), Clear(channel))
    {
      channels := channels - {channel};
    }
  }

  // ---------------------------------------------------------------------------
  // Slots over whole runs.
  // ---------------------------------------------------------------------------

  ghost predicate SlotsInRange(ring: Ring) {
    forall c | c in ring :: ring[c].index < KEYRING_SIZE
  }

  function Run(ring: Ring, ops: seq<RingOp>): Ring
    decreases |ops|
  {
    if ops == [] then ring else Run(Apply(ring, ops[0]), ops[1..])
  }

  /** In every run the slot of every key stays below the keyring size. */
  lemma {:induction false} SlotsStayInRange(ring: Ring, ops: seq<RingOp>)
    requires SlotsInRange(ring)
    ensures SlotsInRange(Run(ring, ops))
    decreases |ops|
  {
    if ops != [] {
      SlotsStayInRange(Apply(ring, ops[0]), ops[1..]);
    }
  }

  /** True when the operation gives the channel a key it did not have before. */
  predicate Mints(ring: Ring, op: RingOp, c: ChannelId) {
    op.channel == c && (op.Rotate? || (op.GetOrCreate? && c !in ring))
  }

  /** The keys minted for one channel during a run, oldest first. */
  function MintedKeys(ring: Ring, ops: seq<RingOp>, c: ChannelId): seq<ChannelKey>
    decreases |ops|
  {
    if ops == [] then []
    else
      var next := Apply(ring, ops[0]);
      (if Mints(ring, ops[0], c) then [next[c]] else []) + MintedKeys(next, ops[1..], c)
  }

  predicate KeepsChannel(op: RingOp, c: ChannelId) {
    op.channel != c || op.GetOrCreate? || op.Rotate?
  }

  /** As long as the channel is not cleared or overwritten, its keys walk round the keyring. */
  lemma {:induction false} MintedKeysWalkTheRing(ring: Ring, ops: seq<RingOp>, c: ChannelId, j: nat)
    requires forall i | 0 <= i < |ops| :: KeepsChannel(ops[i], c)
    requires j < |MintedKeys(ring, ops, c)|
    ensures MintedKeys(ring, ops, c)[j].index == (NextIndex(ring, c) + j) % KEYRING_SIZE
    decreases |ops|
  {
    assert KeepsChannel(ops[0], c);
    var next := Apply(ring, ops[0]);
    if Mints(ring, ops[0], c) {
      if j > 0 {
        MintedKeysWalkTheRing(next, ops[1..], c, j - 1);
        WrapStep(NextIndex(ring, c), j);
      }
    } else {
      assert NextIndex(next, c) == NextIndex(ring, c);
      MintedKeysWalkTheRing(next, ops[1..], c, j);
    }
  }

  lemma WrapStep(i: nat, j: nat)
    requires i < KEYRING_SIZE && j > 0
    ensures ((i + 1) % KEYRING_SIZE + (j - 1)) % KEYRING_SIZE == (i + j) % KEYRING_SIZE
  {
  }

  /** Any sixteen consecutive keys of an uncleared channel sit in sixteen different slots. */
  lemma RecentKeysDoNotCollide(ring: Ring, ops: seq<RingOp>, c: ChannelId, j: nat, l: nat)
    requires forall i | 0 <= i < |ops| :: KeepsChannel(ops[i], c)
    requires j < l < |MintedKeys(ring, ops, c)| && l - j < KEYRING_SIZE
    ensures MintedKeys(ring, ops, c)[j].index != MintedKeys(ring, ops, c)[l].index
  {
    MintedKeysWalkTheRing(ring, ops, c, j);
    MintedKeysWalkTheRing(ring, ops, c, l);
    DistinctResidues(NextIndex(ring, c) + j, l - j);
  }

  lemma DistinctResidues(a: nat, d: nat)
    requires 0 < d < KEYRING_SIZE
    ensures a % KEYRING_SIZE != (a + d) % KEYRING_SIZE
  {
  }
}
