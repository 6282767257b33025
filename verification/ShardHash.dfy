/** How a topic name selects its shard: FNV-1a on 32 bits, reduced modulo 32. */
module ShardHash {
  import opened Model

  type Bytestring = seq<bv8>

  const OFFSET_BASIS: bv32 := 2166136261
  const PRIME: bv32 := 16777619

  /** FNV-1a as section 2 of draft-eastlake-fnv defines it: xor the byte in, then multiply. */
  function Fnv1a(name: Bytestring): bv32 {
    if name == [] then OFFSET_BASIS
    else Mix(Fnv1a(name[..|name| - 1]), name[|name| - 1])
  }

  function Mix(hash: bv32, b: bv8): bv32 {
    (hash ^ (b as bv32)) * PRIME
  }

  function ShardIndex(name: Bytestring): (index: nat)
    ensures index < SHARD_COUNT
  {
    (Fnv1a(name) % 32) as bv5 as nat
  }

  function ShardOf(topic: Name): (index: nat)
    ensures index < SHARD_COUNT
  {
    ShardIndex(topic.bytes)
  }

  /** The values the draft's appendix gives for the empty string, "a" and "foobar". */
  lemma KnownHashes()
    ensures Fnv1a([]) == 0x811c9dc5
    ensures Fnv1a([0x61]) == 0xe40c292c
    ensures Fnv1a([0x66, 0x6f, 0x6f, 0x62, 0x61, 0x72]) == 0xbf9cf968
  {
    HashOfOne([], 0x61);
    assert [] + [0x61 as bv8] == [0x61 as bv8];
    MixesOfFoobar();
    var foobar: Bytestring := [0x66, 0x6f, 0x6f, 0x62, 0x61, 0x72];
    assert foobar[..0] == [] && foobar[..6] == foobar;
    HashOfOne(foobar[..0], foobar[0]);
    assert foobar[..0] + [foobar[0]] == foobar[..1];
    HashOfOne(foobar[..1], foobar[1]);
    assert foobar[..1] + [foobar[1]] == foobar[..2];
    HashOfOne(foobar[..2], foobar[2]);
    assert foobar[..2] + [foobar[2]] == foobar[..3];
    HashOfOne(foobar[..3], foobar[3]);
    assert foobar[..3] + [foobar[3]] == foobar[..4];
    HashOfOne(foobar[..4], foobar[4]);
    assert foobar[..4] + [foobar[4]] == foobar[..5];
    HashOfOne(foobar[..5], foobar[5]);
    assert foobar[..5] + [foobar[5]] == foobar[..6];
  }

  lemma MixesOfFoobar()
    ensures Mix(0x811c9dc5, 0x66) == 0xe30c2799
    ensures Mix(0xe30c2799, 0x6f) == 0x6222e842
    ensures Mix(0x6222e842, 0x6f) == 0xa9f37ed7
    ensures Mix(0xa9f37ed7, 0x62) == 0x3f5076ef
    ensures Mix(0x3f5076ef, 0x61) == 0x39aaa18a
    ensures Mix(0x39aaa18a, 0x72) == 0xbf9cf968
  {}

  lemma HashOfOne(name: Bytestring, b: bv8)
    ensures Fnv1a(name + [b]) == Mix(Fnv1a(name), b)
  {
    assert (name + [b])[..|name + [b]| - 1] == name;
  }

  /** One byte's effect on the low five bits alone. */
  function Step5(state: bv5, b: bv8): bv5 {
    (state ^ ((b % 32) as bv5)) * 19
  }

  function Walk5(name: Bytestring): bv5 {
    if name == [] then 5 else Step5(Walk5(name[..|name| - 1]), name[|name| - 1])
  }

  lemma LowBitsStep(h: bv32, b: bv8)
    ensures (((h ^ (b as bv32)) * PRIME) % 32) as bv5 == Step5((h % 32) as bv5, b)
  {}

  /** The shard is a walk on five bits: nothing above the low five bits of any byte reaches it. */
  lemma {:induction false} ShardIsFiveBitWalk(name: Bytestring)
    ensures (Fnv1a(name) % 32) as bv5 == Walk5(name)
    ensures ShardIndex(name) == Walk5(name) as nat
  {
    if name != [] {
      var rest, b := name[..|name| - 1], name[|name| - 1];
      ShardIsFiveBitWalk(rest);
      LowBitsStep(Fnv1a(rest), b);
    }
  }

  function Byte(i: nat): bv8
    requires i < 256
  {
    i as bv8
  }

  ghost function Bytes(): (all: set<bv8>)
    ensures forall b: bv8 :: b in all
  {
    var all := set i: nat | i < 256 :: Byte(i);
    assert forall b: bv8 :: b in all by {
      forall b: bv8 ensures b in all {
        assert Byte(b as nat) == b;
      }
    }
    all
  }

  /** Every byte string of length `k`. */
  ghost function Bytestrings(k: nat): (all: set<Bytestring>)
    ensures forall name: Bytestring :: name in all <==> |name| == k
  {
    if k == 0 then {[]}
    else
      var all := set name, b | name in Bytestrings(k - 1) && b in Bytes() :: name + [b];
      assert forall name: Bytestring | |name| == k :: name in all by {
        forall name: Bytestring | |name| == k ensures name in all {
          var stem, b := name[..k - 1], name[k - 1];
          assert stem in Bytestrings(k - 1) && b in Bytes();
          assert name == stem + [b];
        }
      }
      all
  }

  ghost function NamesInShard(k: nat, state: bv5): set<Bytestring> {
    set name | name in Bytestrings(k) && Walk5(name) == state
  }

  /** The bytes that take one five-bit state to another: eight of the 256, whatever the states. */
  ghost function BytesBetween(from: bv5, to: bv5): (between: set<bv8>)
    ensures |between| == 8
    ensures forall b: bv8 :: b in between <==> Step5(from, b) == to
  {
    var low := ((to * 27) ^ from) as bv8;
    {low, low | 32, low | 64, low | 96, low | 128, low | 160, low | 192, low | 224}
  }

  /** The one-byte extensions of `stems` whose walk ends in `to`. */
  ghost function Extensions(stems: set<Bytestring>, to: bv5): set<Bytestring> {
    set name, b | name in stems && b in BytesBetween(Walk5(name), to) :: name + [b]
  }

  ghost function OneLonger<T>(stem: seq<T>, lasts: set<T>): set<seq<T>> {
    set b | b in lasts :: stem + [b]
  }

  lemma {:induction false} OneLongerCount<T>(stem: seq<T>, lasts: set<T>)
    ensures |OneLonger(stem, lasts)| == |lasts|
    decreases lasts
  {
    if lasts == {} {
      assert OneLonger(stem, lasts) == {};
    } else {
      var b :| b in lasts;
      var others := lasts - {b};
      OneLongerCount(stem, others);
      assert stem + [b] !in OneLonger(stem, others) by {
        forall c | c in others ensures stem + [c] != stem + [b] {
          assert (stem + [c])[|stem|] == c && (stem + [b])[|stem|] == b;
        }
      }
      assert OneLonger(stem, lasts) == OneLonger(stem, others) + {stem + [b]};
    }
  }

  ghost function ExtensionsOf(stem: Bytestring, to: bv5): (extensions: set<Bytestring>)
    ensures |extensions| == 8
  {
    OneLongerCount(stem, BytesBetween(Walk5(stem), to));
    OneLonger(stem, BytesBetween(Walk5(stem), to))
  }

  lemma LastIsUnique<T>(stem: seq<T>, b: T, other: seq<T>, c: T)
    requires stem + [b] == other + [c]
    ensures stem == other && b == c
  {
    assert (stem + [b])[..|stem|] == stem && (other + [c])[..|other|] == other;
    assert (stem + [b])[|stem|] == b && (other + [c])[|other|] == c;
  }

  /** Extensions of one stem, and extensions of the others: nothing in common. */
  lemma ExtensionsSplit(stem: Bytestring, others: set<Bytestring>, to: bv5)
    requires stem !in others
    ensures Extensions({stem} + others, to) == ExtensionsOf(stem, to) + Extensions(others, to)
    ensures ExtensionsOf(stem, to) !! Extensions(others, to)
  {
    forall b, other, c | other in others ensures stem + [b] != other + [c] {
      if stem + [b] == other + [c] {
        LastIsUnique(stem, b, other, c);
      }
    }
    forall name
      ensures name in Extensions({stem} + others, to) <==> name in ExtensionsOf(stem, to) || name in Extensions(others, to)
    {}
  }

  lemma {:induction false} ExtensionsCount(stems: set<Bytestring>, to: bv5)
    ensures |Extensions(stems, to)| == 8 * |stems|
    decreases stems
  {
    if stems == {} {
      assert Extensions(stems, to) == {};
    } else {
      var stem :| stem in stems;
      var others := stems - {stem};
      ExtensionsCount(others, to);
      ExtensionsSplit(stem, others, to);
      assert stems == {stem} + others;
    }
  }

  lemma NamesInShardAreExtensions(k: nat, to: bv5)
    requires k > 0
    ensures NamesInShard(k, to) == Extensions(Bytestrings(k - 1), to)
  {
    forall name: Bytestring ensures name in NamesInShard(k, to) <==> name in Extensions(Bytestrings(k - 1), to) {
      if name in NamesInShard(k, to) {
        NameExtends(k, to, name);
      }
      if name in Extensions(Bytestrings(k - 1), to) {
        ExtensionIsName(k, to, name);
      }
    }
  }

  lemma NameExtends(k: nat, to: bv5, name: Bytestring)
    requires k > 0 && name in NamesInShard(k, to)
    ensures name in Extensions(Bytestrings(k - 1), to)
  {
    var stem, b := name[..k - 1], name[k - 1];
    assert stem in Bytestrings(k - 1) && b in BytesBetween(Walk5(stem), to);
    assert name == stem + [b];
  }

  lemma ExtensionIsName(k: nat, to: bv5, name: Bytestring)
    requires k > 0 && name in Extensions(Bytestrings(k - 1), to)
    ensures name in NamesInShard(k, to)
  {
    var stem, b :| stem in Bytestrings(k - 1) && b in BytesBetween(Walk5(stem), to) && name == stem + [b];
    assert name[..|name| - 1] == stem;
  }

  function Power256(k: nat): nat {
    if k == 0 then 1 else 256 * Power256(k - 1)
  }

  ghost function NamesBelow(k: nat, bound: nat): set<Bytestring> {
    set name | name in Bytestrings(k) && Walk5(name) as nat < bound
  }

  lemma NamesInShardCount(k: nat, state: bv5)
    requires k > 0
    ensures |NamesInShard(k, state)| == 8 * |Bytestrings(k - 1)|
  {
    NamesInShardAreExtensions(k, state);
    ExtensionsCount(Bytestrings(k - 1), state);
  }

  function Lane(i: nat): (lane: bv5)
    requires i < SHARD_COUNT
    ensures lane as nat == i
  {
    i as bv5
  }

  lemma InLane(name: Bytestring, i: nat)
    requires i < SHARD_COUNT
    ensures ShardIndex(name) == i <==> Walk5(name) == Lane(i)
    ensures ShardIndex(name) == Walk5(name) as nat
  {
    ShardIsFiveBitWalk(name);
    assert (Walk5(name) as nat) as bv5 == Walk5(name);
    assert (Lane(i) as nat) as bv5 == Lane(i);
  }

  lemma NextLane(k: nat, bound: nat)
    requires bound < SHARD_COUNT
    ensures NamesBelow(k, bound + 1) == NamesBelow(k, bound) + NamesInShard(k, Lane(bound))
    ensures NamesBelow(k, bound) !! NamesInShard(k, Lane(bound))
  {
    forall name | name in Bytestrings(k)
      ensures Walk5(name) as nat == bound <==> Walk5(name) == Lane(bound)
    {
      InLane(name, bound);
    }
  }

  /** The names whose walk ends below `bound`, counted lane by lane. */
  lemma {:induction false} CountByLanes(k: nat, bound: nat)
    requires k > 0 && bound <= SHARD_COUNT
    ensures |NamesBelow(k, bound)| == bound * (8 * |Bytestrings(k - 1)|)
  {
    var share := 8 * |Bytestrings(k - 1)|;
    if bound == 0 {
      assert NamesBelow(k, bound) == {};
    } else {
      CountByLanes(k, bound - 1);
      NextLane(k, bound - 1);
      NamesInShardCount(k, Lane(bound - 1));
      Distribute(bound, share);
    }
  }

  lemma Distribute(n: nat, share: nat)
    requires n > 0
    ensures n * share == (n - 1) * share + share
  {}

  lemma {:induction false} NamesCount(k: nat)
    ensures |Bytestrings(k)| == Power256(k)
  {
    if k == 0 {
      assert Bytestrings(0) == {[]};
    } else {
      NamesCount(k - 1);
      CountByLanes(k, 32);
      assert Bytestrings(k) == NamesBelow(k, 32) by {
        forall name | name in Bytestrings(k) ensures Walk5(name) as nat < 32 {
          ShardIsFiveBitWalk(name);
        }
      }
    }
  }

  ghost function NamesOfShard(k: nat, index: nat): set<Bytestring> {
    set name | name in Bytestrings(k) && ShardIndex(name) == index
  }

  lemma MembersAreInLane(k: nat, index: nat)
    requires index < SHARD_COUNT
    ensures NamesOfShard(k, index) == NamesInShard(k, Lane(index))
  {
    forall name | name in Bytestrings(k) ensures ShardIndex(name) == index <==> Walk5(name) == Lane(index) {
      InLane(name, index);
    }
  }

  /** Among all names of one length every shard holds the same share. */
  lemma ShardsAreEven(k: nat, index: nat)
    requires k > 0 && index < SHARD_COUNT
    ensures |NamesOfShard(k, index)| * SHARD_COUNT == Power256(k) == |Bytestrings(k)|
  {
    MembersAreInLane(k, index);
    NamesInShardCount(k, Lane(index));
    NamesCount(k - 1);
    NamesCount(k);
  }
}
