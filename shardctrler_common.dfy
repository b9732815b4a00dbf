/** The shard controller's configuration value type: which replica group
    owns each shard, and which servers make up each group. */
module ShardCtrler {

  /** The number of shards the key space is split into. */
  const NShards: nat := 10

  /** Group id 0 is the invalid group: a shard assigned to it is unassigned. */
  const InvalidGroup: int := 0

  /** A fixed-length shard -> gid array; Go's `[NShards]int` always has exactly
      NShards entries, which this subset type keeps as a type invariant. */
  type ShardAssignment = s: seq<int> | |s| == NShards witness seq(NShards, _ => InvalidGroup)

  /** A configuration: its number, the shard assignment and the servers of each group. */
  datatype Config = Config(num: int, shards: ShardAssignment, groups: map<int, seq<string>>)

  /** Config number 0: no groups, every shard assigned to the invalid group. */
  function DefaultConfig(): (c: Config)
    ensures c.num == 0
    ensures |c.shards| == NShards == 10
    ensures forall i :: 0 <= i < |c.shards| ==> c.shards[i] == InvalidGroup
    ensures c.groups == map[]
  {
    Config(0, seq(NShards, _ => InvalidGroup), map[])
  }

  /** Copies the number and the shard array, then fills a new Groups map
      entry by entry (Go's map iteration order is arbitrary, so each step picks
      any key not yet copied). */
  method Clone(c: Config) returns (r: Config)
    ensures r.num == c.num
    ensures r.shards == c.shards
    ensures r.groups.Keys == c.groups.Keys
    ensures forall g :: g in c.groups ==> r.groups[g] == c.groups[g]
    ensures r == c
  {
    var groups: map<int, seq<string>> := map[];
    var remaining := c.groups.Keys;
    while remaining != {}
      invariant remaining <= c.groups.Keys
      invariant groups.Keys == c.groups.Keys - remaining
      invariant forall g :: g in groups ==> groups[g] == c.groups[g]
      decreases remaining
    {
      if forall g :: g !in remaining { assert false; }
      var g :| g in remaining;
      groups := groups[g := c.groups[g]];
      remaining := remaining - {g};
    }
    r := Config(c.num, c.shards, groups);
  }
}
