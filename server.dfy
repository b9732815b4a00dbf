/** One replica group's key/value server: the shard state machines it holds,
    the duplicate table, the notification registry and the configuration pair,
    with the client entry points' checks, the operation dispatcher and the
    snapshot save/restore. The consensus module is outside the model: what
    its Start call answers, and whether a reply arrives before the timeout,
    are parameters. */
module Server {
  import opened ShardCtrler
  import opened KVCommon
  import opened StateMachine
  import opened Snapshot

  /** A single-slot buffered channel on which the apply loop hands a reply to
      the client call waiting on that log index. */
  class NotifyChan {
    const capacity: nat

    constructor ()
      ensures capacity == 1
    {
      capacity := 1;
    }
  }

  /** The consensus module's answer to Start: log index, term, and whether this server leads. */
  datatype StartResult = StartResult(index: int, term: int, isLeader: bool)

  /** What a PutAppend call decides under the lock before it submits anything. */
  datatype Precheck = Reject(err: Err) | Submit

  /** Shard ids 0 to n-1, each with an empty, Normal state machine. */
  function EmptyShards(n: nat): (m: map<int, ShardData>)
    ensures forall i :: i in m <==> 0 <= i < n
    ensures forall i :: i in m ==> m[i] == ShardData(map[], Normal)
  {
    if n == 0 then map[] else EmptyShards(n - 1)[n - 1 := ShardData(map[], Normal)]
  }

  /** The state of a freshly started server restored from an empty snapshot:
      every shard empty and Normal, no clients, both configs the default one. */
  function BootstrapState(): ServerState
  {
    ServerState(EmptyShards(NShards), map[], DefaultConfig(), DefaultConfig())
  }

  /** The saved state has a shard for every shard id. */
  predicate HasEveryShard(s: ServerState) {
    forall i :: 0 <= i < NShards ==> i in s.shards
  }

  class ShardKV {
    const gid: int
    var lastApplied: int
    var shards: map<int, MemoryKVStateMachine>
    var notifyChans: map<int, NotifyChan>
    var duplicateTable: map<int, LastOperation>
    var currentConfig: Config
    var preConfig: Config

    /** No state machine is shared by two shard ids. */
    ghost predicate Valid()
      reads this
    {
      forall i, j :: i in shards && j in shards && i != j ==> shards[i] != shards[j]
    }

    /** Every shard id has a state machine. */
    predicate HasAllShards()
      reads this
    {
      forall i :: 0 <= i < NShards ==> i in shards
    }

    /** The four-part state a snapshot saves. */
    function State(): (s: ServerState)
      reads this, shards.Values
      ensures s.shards.Keys == shards.Keys
      ensures forall i :: i in shards ==> s.shards[i] == shards[i].Data()
      ensures s.duplicateTable == duplicateTable
      ensures s.currentConfig == currentConfig && s.preConfig == preConfig
    {
      ServerState(map i | i in shards :: shards[i].Data(), duplicateTable, currentConfig, preConfig)
    }

    /** Sets up empty tables and the default configs, then restores from the
        persisted snapshot (a snapshot that does not decode is fatal). */
    constructor (gid: int, snapshot: Blob)
      requires |snapshot| == 0 || Decode(snapshot).Some?
      ensures Valid()
      ensures this.gid == gid && lastApplied == 0 && notifyChans == map[]
      ensures forall i :: i in shards ==> fresh(shards[i])
      ensures |snapshot| == 0 ==> HasAllShards() && State() == BootstrapState()
      ensures |snapshot| > 0 ==> State() == Decode(snapshot).value
      ensures HasAllShards() <==> |snapshot| == 0 || HasEveryShard(Decode(snapshot).value)
    {
      this.gid := gid;
      lastApplied := 0;
      shards := map[];
      notifyChans := map[];
      duplicateTable := map[];
      currentConfig := DefaultConfig();
      preConfig := DefaultConfig();
      new;
      var ok := RestoreFromSnapshot(snapshot);
      if |snapshot| == 0 {
        assert State().shards == BootstrapState().shards;
      }
    }

    /** This group may serve `key`: the current config assigns its shard to
        this group and the shard is Normal or GC here. */
    function MatchGroup(key: string): (b: bool)
      reads this, shards.Values
      requires Key2Shard(key) in shards
      ensures b <==> currentConfig.shards[Key2Shard(key)] == gid && Serves(shards[Key2Shard(key)].status)
    {
      var shard := Key2Shard(key);
      currentConfig.shards[shard] == gid && Serves(shards[shard].status)
    }

    /** The client's request has already been applied: the table has an entry
        for it whose request id is at least `requestId`. */
    function IsDuplicate(clientId: int, requestId: int): (b: bool)
      reads this
      ensures clientId !in duplicateTable ==> !b
      ensures clientId in duplicateTable ==> (b <==> duplicateTable[clientId].requestId >= requestId)
    {
      clientId in duplicateTable && duplicateTable[clientId].requestId >= requestId
    }

    /** The checks PutAppend makes before submitting: the wrong group first,
        without looking at the duplicate table, then a duplicate, answered
        with the error of the cached reply. */
    function PutAppendPrecheck(args: PutAppendArgs): (d: Precheck)
      reads this, shards.Values
      requires Key2Shard(args.key) in shards
      ensures !MatchGroup(args.key) ==> d == Reject(ErrWrongGroup)
      ensures MatchGroup(args.key) && IsDuplicate(args.clientId, args.requestId) ==>
                d == Reject(duplicateTable[args.clientId].reply.err)
      ensures MatchGroup(args.key) && !IsDuplicate(args.clientId, args.requestId) ==> d == Submit
    {
      if !MatchGroup(args.key) then Reject(ErrWrongGroup)
      else if IsDuplicate(args.clientId, args.requestId) then Reject(duplicateTable[args.clientId].reply.err)
      else Submit
    }

    /** The channel registered for `index`, registering a new one if there is none. */
    method GetNotifyChan(index: int) returns (ch: NotifyChan)
      requires Valid()
      modifies this`notifyChans
      ensures Valid()
      ensures notifyChans == old(notifyChans)[index := ch]
      ensures index in old(notifyChans) ==> ch == old(notifyChans)[index] && notifyChans == old(notifyChans)
      ensures index !in old(notifyChans) ==> fresh(ch) && ch.capacity == 1
    {
      if index in notifyChans {
        ch := notifyChans[index];
      } else {
        ch := new NotifyChan();
        notifyChans := notifyChans[index := ch];
      }
    }

    /** Drops the channel of `index` once the waiting call is done with it. */
    method RemoveNotifyChan(index: int)
      requires Valid()
      modifies this`notifyChans
      ensures Valid()
      ensures notifyChans == old(notifyChans) - {index}
    {
      notifyChans := notifyChans - {index};
    }

    /** Applies one client operation to the state machine of `shardId`. */
    method ApplyToStateMachine(op: Op, shardId: int) returns (reply: OpReply)
      requires Valid() && shardId in shards
      modifies shards[shardId]
      ensures Valid()
      ensures op.opType == GetOp ==> reply == Lookup(old(shards[shardId].kv), op.key)
      ensures op.opType == GetOp ==> shards[shardId].kv == old(shards[shardId].kv)
      ensures op.opType == PutOp ==> shards[shardId].kv == old(shards[shardId].kv)[op.key := op.value]
      ensures op.opType == AppendOp ==> shards[shardId].kv == Appended(old(shards[shardId].kv), op.key, op.value)
      ensures op.opType != GetOp ==> reply == OpReply("", OK)
      ensures shards[shardId].status == old(shards[shardId].status)
      ensures forall i :: i in shards && i != shardId ==> shards[i].Data() == old(shards[i].Data())
    {
      var shard := shards[shardId];
      var value := "";
      var err: Err;
      match op.opType {
        case GetOp =>
          value, err := shard.Get(op.key);
        case PutOp =>
          err := shard.Put(op.key, op.value);
        case AppendOp =>
          err := shard.Append(op.key, op.value);
      }
      reply := OpReply(value, err);
    }

    /** The snapshot of the current state. */
    method MakeSnapshot() returns (blob: Blob)
      ensures Decode(blob) == Some(State())
      ensures blob == Encode(State())
      ensures HasAllShards() ==> HasEveryShard(Decode(blob).value)
    {
      blob := Encode(State());
      DecodeEncode(State());
    }

    /** An empty snapshot fills in a new, empty, Normal state machine for every
        shard id that has none and changes nothing else; any other snapshot
        replaces the four saved parts with what it decodes to, or is refused
        (`ok` false, nothing changed) when it does not decode. */
    method RestoreFromSnapshot(snapshot: Blob) returns (ok: bool)
      requires Valid()
      modifies this`shards, this`duplicateTable, this`currentConfig, this`preConfig
      ensures Valid()
      ensures ok <==> |snapshot| == 0 || Decode(snapshot).Some?
      ensures |snapshot| == 0 ==> HasAllShards()
      ensures |snapshot| == 0 ==> forall i :: i in shards <==> i in old(shards) || 0 <= i < NShards
      ensures |snapshot| == 0 ==> forall i :: i in old(shards) ==> shards[i] == old(shards)[i]
      ensures |snapshot| == 0 ==> forall i :: i in shards && i !in old(shards) ==>
                fresh(shards[i]) && shards[i].kv == map[] && shards[i].status == Normal
      ensures |snapshot| == 0 || !ok ==>
                duplicateTable == old(duplicateTable) && currentConfig == old(currentConfig) && preConfig == old(preConfig)
      ensures !ok ==> shards == old(shards)
      ensures |snapshot| > 0 && ok ==> State() == Decode(snapshot).value
      ensures |snapshot| > 0 && ok ==> forall i :: i in shards ==> fresh(shards[i])
      ensures |snapshot| > 0 && ok ==> (HasAllShards() <==> HasEveryShard(Decode(snapshot).value))
    {
      if |snapshot| < 1 {
        var i := 0;
        while i < NShards
          invariant 0 <= i <= NShards
          invariant Valid()
          invariant forall j :: j in shards <==> j in old(shards) || 0 <= j < i
          invariant duplicateTable == old(duplicateTable) && currentConfig == old(currentConfig)
          invariant preConfig == old(preConfig)
          invariant forall j :: j in old(shards) ==> shards[j] == old(shards)[j]
          invariant forall j :: j in shards && j !in old(shards) ==>
                      fresh(shards[j]) && shards[j].kv == map[] && shards[j].status == Normal
        {
          if i !in shards {
            var m := new MemoryKVStateMachine();
            shards := shards[i := m];
          }
          i := i + 1;
        }
        return true;
      }

      var decoded := Decode(snapshot);
      if decoded.None? {
        return false;
      }
      var s := decoded.value;
      var restored: map<int, MemoryKVStateMachine> := map[];
      var remaining := s.shards.Keys;
      while remaining != {}
        invariant remaining <= s.shards.Keys
        invariant restored.Keys == s.shards.Keys - remaining
        invariant forall i :: i in restored ==> fresh(restored[i]) && restored[i].Data() == s.shards[i]
        invariant forall i, j :: i in restored && j in restored && i != j ==> restored[i] != restored[j]
        decreases remaining
      {
        if forall i :: i !in remaining { assert false; }
        var i :| i in remaining;
        var m := new MemoryKVStateMachine();
        m.kv := s.shards[i].kv;
        m.status := s.shards[i].status;
        restored := restored[i := m];
        remaining := remaining - {i};
      }
      shards := restored;
      duplicateTable := s.duplicateTable;
      currentConfig := s.currentConfig;
      preConfig := s.preConfig;
      assert State().shards.Keys == s.shards.Keys;
      assert forall i :: i in shards ==> State().shards[i] == s.shards[i];
      assert State().shards == s.shards;
      return true;
    }

    /** The Get entry point: fails fast with ErrWrongGroup, otherwise submits a
        Get (`submitted`; `start` is the consensus module's answer), gives
        ErrWrongLeader when this server does not lead, and otherwise answers
        with the reply delivered on the index's channel, or ErrTimeout when none
        was (`delivered` is None). The channel is removed afterwards. */
    method Get(args: GetArgs, start: StartResult, delivered: Option<OpReply>) returns (reply: GetReply, submitted: Option<Op>)
      requires Valid() && Key2Shard(args.key) in shards
      modifies this`notifyChans
      ensures Valid()
      ensures !old(MatchGroup(args.key)) ==>
                reply == GetReply(ErrWrongGroup, "") && submitted == None && notifyChans == old(notifyChans)
      ensures old(MatchGroup(args.key)) ==> submitted == Some(Op(args.key, "", GetOp, 0, 0))
      ensures old(MatchGroup(args.key)) && !start.isLeader ==>
                reply == GetReply(ErrWrongLeader, "") && notifyChans == old(notifyChans)
      ensures old(MatchGroup(args.key)) && start.isLeader ==>
                reply == (if delivered.Some? then GetReply(delivered.value.err, delivered.value.value) else GetReply(ErrTimeout, ""))
                && notifyChans == old(notifyChans) - {start.index}
    {
      if !MatchGroup(args.key) {
        return GetReply(ErrWrongGroup, ""), None;
      }
      submitted := Some(Op(args.key, "", GetOp, 0, 0));
      if !start.isLeader {
        return GetReply(ErrWrongLeader, ""), submitted;
      }
      var ch := GetNotifyChan(start.index);
      match delivered {
        case Some(opReply) =>
          reply := GetReply(opReply.err, opReply.value);
        case None =>
          reply := GetReply(ErrTimeout, "");
      }
      RemoveNotifyChan(start.index);
    }

    /** The PutAppend entry point: the prechecks first (wrong group, then a
        duplicate answered from the table, neither submitting anything), then
        as Get: submit, ErrWrongLeader, the delivered reply's error or
        ErrTimeout, and the channel removed afterwards. */
    method PutAppend(args: PutAppendArgs, start: StartResult, delivered: Option<OpReply>)
      returns (reply: PutAppendReply, submitted: Option<Op>)
      requires Valid() && Key2Shard(args.key) in shards
      modifies this`notifyChans
      ensures Valid()
      ensures old(PutAppendPrecheck(args)).Reject? ==>
                reply.err == old(PutAppendPrecheck(args)).err && submitted == None && notifyChans == old(notifyChans)
      ensures old(PutAppendPrecheck(args)).Submit? ==>
                submitted == Some(Op(args.key, args.value, ToOpType(args.op), args.clientId, args.requestId))
      ensures old(PutAppendPrecheck(args)).Submit? && !start.isLeader ==>
                reply.err == ErrWrongLeader && notifyChans == old(notifyChans)
      ensures old(PutAppendPrecheck(args)).Submit? && start.isLeader ==>
                reply.err == (if delivered.Some? then delivered.value.err else ErrTimeout)
                && notifyChans == old(notifyChans) - {start.index}
    {
      if !MatchGroup(args.key) {
        return PutAppendReply(ErrWrongGroup), None;
      }
      if IsDuplicate(args.clientId, args.requestId) {
        var opReply := duplicateTable[args.clientId].reply;
        return PutAppendReply(opReply.err), None;
      }
      submitted := Some(Op(args.key, args.value, ToOpType(args.op), args.clientId, args.requestId));
      if !start.isLeader {
        return PutAppendReply(ErrWrongLeader), submitted;
      }
      var ch := GetNotifyChan(start.index);
      match delivered {
        case Some(opReply) =>
          reply := PutAppendReply(opReply.err);
        case None =>
          reply := PutAppendReply(ErrTimeout);
      }
      RemoveNotifyChan(start.index);
    }
  }

  /** A client whose request `requestId` counts as a duplicate has every
      earlier request counted as one too. */
  lemma IsDuplicateDownwardClosed(kv: ShardKV, clientId: int, requestId: int, earlier: int)
    requires earlier <= requestId
    requires kv.IsDuplicate(clientId, requestId)
    ensures kv.IsDuplicate(clientId, earlier)
  {
  }

  /** Two groups working from the same shard assignment never both accept the same key. */
  lemma AtMostOneGroupServes(a: ShardKV, b: ShardKV, key: string)
    requires a.gid != b.gid
    requires a.currentConfig.shards == b.currentConfig.shards
    requires Key2Shard(key) in a.shards && Key2Shard(key) in b.shards
    ensures !(a.MatchGroup(key) && b.MatchGroup(key))
  {
  }

  /** Under the default config no real group (gid other than 0) accepts any key. */
  lemma DefaultConfigServesNothing(kv: ShardKV, key: string)
    requires kv.gid != InvalidGroup
    requires kv.currentConfig == DefaultConfig()
    requires Key2Shard(key) in kv.shards
    ensures !kv.MatchGroup(key)
  {
  }

  /** Registering the same index twice hands out the same channel and adds one entry. */
  method GetNotifyChanTwice(kv: ShardKV, index: int) returns (first: NotifyChan, second: NotifyChan)
    requires kv.Valid()
    modifies kv`notifyChans
    ensures first == second
    ensures kv.notifyChans == old(kv.notifyChans)[index := first]
  {
    first := kv.GetNotifyChan(index);
    second := kv.GetNotifyChan(index);
  }

  /** A server started from an empty snapshot owns its state machines, so the
      apply loop can write a key to it and read the value back. */
  method StartAndApply(gid: int, key: string, value: string) returns (kv: ShardKV, reply: OpReply)
    ensures fresh(kv)
    ensures kv.gid == gid
    ensures reply == OpReply(value, OK)
  {
    kv := new ShardKV(gid, []);
    var shard := Key2Shard(key);
    var put := kv.ApplyToStateMachine(Op(key, value, PutOp, 0, 0), shard);
    reply := kv.ApplyToStateMachine(Op(key, "", GetOp, 0, 1), shard);
  }

  /** Restoring the snapshot a server has just made gives back the same four-part state. */
  method SnapshotRoundTrip(kv: ShardKV) returns (ok: bool)
    requires kv.Valid()
    modifies kv`shards, kv`duplicateTable, kv`currentConfig, kv`preConfig
    ensures ok
    ensures kv.State() == old(kv.State())
    ensures kv.HasAllShards() == old(kv.HasAllShards())
  {
    var blob := kv.MakeSnapshot();
    ok := kv.RestoreFromSnapshot(blob);
  }
}
