/** Which container loads which partition key, and which address is announced for it: two loops of
    `LoadGraph` that index differently. */
module KeyAddress {
  import opened Sums

  function Min(a: int, b: int): int { if a <= b then a else b }

  function Repeat(x: nat, times: nat): (s: seq<nat>)
    ensures |s| == times && forall k :: 0 <= k < times ==> s[k] == x
  {
    seq(times, _ => x)
  }

  /** How many times the inner loop runs from index `i`: it stops at the first `i + j >= partition`. */
  function Runs(i: int, slots: nat, partition: nat): nat {
    if i >= partition then 0 else Min(slots, partition - i)
  }

  /** The address list: its outer index is the container's, because advancing the index inside a range loop
      has no effect. */
  function AddressList(containers: nat, slots: nat, partition: nat): seq<nat> {
    if containers == 0 then []
    else AddressList(containers - 1, slots, partition) +
         Repeat(containers - 1, Runs(containers - 1, slots, partition))
  }

  /** The container of each key, in key order: here the index does advance by `slots` per container. */
  function KeyList(containers: nat, slots: nat, partition: nat): seq<nat> {
    if containers == 0 then []
    else KeyList(containers - 1, slots, partition) +
         Repeat(containers - 1, Runs((containers - 1) * slots, slots, partition))
  }

  method BuildAddressList(containers: nat, slots: nat, partition: nat) returns (addrs: seq<nat>)
    ensures addrs == AddressList(containers, slots, partition)
  {
    addrs := [];
    for c: nat := 0 to containers
      invariant addrs == AddressList(c, slots, partition)
    {
      var i, j := c, 0;
      while j < slots && i + j < partition
        invariant j <= Runs(c, slots, partition)
        invariant addrs == AddressList(c, slots, partition) + Repeat(c, j)
        decreases slots - j
      {
        addrs := addrs + [c];
        assert Repeat(c, j) + [c] == Repeat(c, j + 1);
        j := j + 1;
      }
      i := i + slots;
    }
  }

  /** `keyContainer[k]` is the container that loads the key of the `k`-th start node. */
  method AssignKeys(containers: nat, slots: nat, partition: nat) returns (keyContainer: seq<nat>)
    ensures keyContainer == KeyList(containers, slots, partition)
  {
    keyContainer := [];
    var i := 0;
    for c: nat := 0 to containers
      invariant i == c * slots
      invariant keyContainer == KeyList(c, slots, partition)
      invariant |keyContainer| == Min(i, partition)
    {
      var j := 0;
      while j < slots && i + j < partition
        invariant j <= Runs(i, slots, partition)
        invariant keyContainer == KeyList(c, slots, partition) + Repeat(c, j)
        decreases slots - j
      {
        assert |keyContainer| == i + j;
        keyContainer := keyContainer + [c];
        assert Repeat(c, j) + [c] == Repeat(c, j + 1);
        j := j + 1;
      }
      i := i + slots;
      assert i == (c + 1) * slots;
    }
  }

  /** Every partition key is loaded exactly once, and the `k`-th address is that of the container that
      loaded the `k`-th key. */
  ghost predicate Agree(containers: nat, slots: nat, partition: nat) {
    && |KeyList(containers, slots, partition)| == partition
    && AddressList(containers, slots, partition) == KeyList(containers, slots, partition)
  }

  /** The configurations in which the two loops agree. */
  predicate Supported(containers: nat, slots: nat, partition: nat) {
    || containers * slots == partition
    || partition == 1
    || (slots == 1 && partition <= containers)
    || (containers == 1 && partition <= slots)
  }

  lemma {:induction false} KeyCount(containers: nat, slots: nat, partition: nat)
    ensures |KeyList(containers, slots, partition)| == Min(containers * slots, partition)
  {
    if containers > 0 {
      KeyCount(containers - 1, slots, partition);
      assert containers * slots == (containers - 1) * slots + slots;
    }
  }

  /** Key `k` goes to container `k / slots`. */
  lemma {:induction false} KeyOwner(containers: nat, slots: nat, partition: nat, k: nat)
    requires slots >= 1 && k < |KeyList(containers, slots, partition)|
    ensures KeyList(containers, slots, partition)[k] * slots <= k < (KeyList(containers, slots, partition)[k] + 1) * slots
    ensures KeyList(containers, slots, partition)[k] < containers
  {
    if containers > 0 {
      KeyCount(containers - 1, slots, partition);
      if k < |KeyList(containers - 1, slots, partition)| {
        KeyOwner(containers - 1, slots, partition, k);
      } else {
        assert containers * slots == (containers - 1) * slots + slots;
      }
    }
  }

  /** With enough room the two inner loops run equally often for every container up to `c`. */
  lemma {:induction false} SameRuns(c: nat, slots: nat, partition: nat)
    requires forall i: nat :: i < c ==> Runs(i, slots, partition) == Runs(i * slots, slots, partition)
    ensures AddressList(c, slots, partition) == KeyList(c, slots, partition)
  {
    if c > 0 {
      SameRuns(c - 1, slots, partition);
      assert Runs(c - 1, slots, partition) == Runs((c - 1) * slots, slots, partition);
    }
  }

  lemma {:induction false} RepeatCount(x: nat, times: nat, i: nat)
    ensures multiset(Repeat(x, times))[i] == if i == x then times else 0
  {
    if times > 0 {
      RepeatCount(x, times - 1, i);
      assert Repeat(x, times) == Repeat(x, times - 1) + [x];
    }
  }

  lemma {:induction false} AddressCount(c: nat, slots: nat, partition: nat, i: nat)
    ensures multiset(AddressList(c, slots, partition))[i] == if i < c then Runs(i, slots, partition) else 0
  {
    if c > 0 {
      AddressCount(c - 1, slots, partition, i);
      RepeatCount(c - 1, Runs(c - 1, slots, partition), i);
    }
  }

  lemma {:induction false} OwnedCount(c: nat, slots: nat, partition: nat, i: nat)
    ensures multiset(KeyList(c, slots, partition))[i] == if i < c then Runs(i * slots, slots, partition) else 0
  {
    if c > 0 {
      OwnedCount(c - 1, slots, partition, i);
      RepeatCount(c - 1, Runs((c - 1) * slots, slots, partition), i);
    }
  }

  /** `extra + 1` slots put container `i` at least `i * extra` keys past its own index. */
  lemma {:induction false} Ahead(i: nat, slots: nat, extra: nat)
    requires slots >= extra + 1
    ensures i * slots >= i + i * extra
  {
    if i > 0 {
      Ahead(i - 1, slots, extra);
      assert i * slots == (i - 1) * slots + slots;
      assert i * extra == (i - 1) * extra + extra;
    }
  }

  lemma Room(containers: nat, slots: nat, i: nat)
    requires i < containers && slots >= 1
    ensures i * slots + slots <= containers * slots
    ensures i <= i * slots
  {
    MulMonotone(i + 1, containers, slots);
    assert (i + 1) * slots == i * slots + slots;
    Ahead(i, slots, 0);
  }

  lemma SupportedAgrees(containers: nat, slots: nat, partition: nat)
    requires containers >= 1 && slots >= 1 && partition >= 1 && Supported(containers, slots, partition)
    ensures Agree(containers, slots, partition)
  {
    KeyCount(containers, slots, partition);
    Room(containers, slots, containers - 1);
    forall i: nat | i < containers
      ensures Runs(i, slots, partition) == Runs(i * slots, slots, partition)
    {
      Room(containers, slots, i);
    }
    SameRuns(containers, slots, partition);
  }

  /** The lists disagree as soon as one container's inner loops run a different number of times. */
  lemma CountsDiffer(containers: nat, slots: nat, partition: nat, i: nat)
    requires i < containers
    requires Runs(i, slots, partition) != Runs(i * slots, slots, partition)
    ensures AddressList(containers, slots, partition) != KeyList(containers, slots, partition)
  {
    AddressCount(containers, slots, partition, i);
    OwnedCount(containers, slots, partition, i);
  }

  lemma UnsupportedDisagrees(containers: nat, slots: nat, partition: nat)
    requires containers >= 1 && slots >= 1 && partition >= 1 && !Supported(containers, slots, partition)
    ensures !Agree(containers, slots, partition)
  {
    KeyCount(containers, slots, partition);
    if containers * slots > partition {
      var last := containers - 1;
      assert containers * slots == last * slots + slots;
      if last < partition {
        Ahead(last, slots, 1);
        assert last * 1 == last;
        CountsDiffer(containers, slots, partition, last);
      } else {
        var i := partition - 1;
        Ahead(i, slots, 1);
        assert i * 1 == i;
        CountsDiffer(containers, slots, partition, i);
      }
    }
  }

  /** The address list agrees with the key assignment exactly in the supported configurations; among them
      is every one with `containers * slots == partition`. */
  lemma AgreeExactly(containers: nat, slots: nat, partition: nat)
    requires containers >= 1 && slots >= 1 && partition >= 1
    ensures Agree(containers, slots, partition) <==> Supported(containers, slots, partition)
  {
    if Supported(containers, slots, partition) {
      SupportedAgrees(containers, slots, partition);
    } else {
      UnsupportedDisagrees(containers, slots, partition);
    }
  }
}
