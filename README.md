# Sharded key/value server: per-shard state and server bookkeeping

This project is a Dafny model of the core of one replica group's server in a
sharded key/value store. The key space is split into `NShards = 10` shards.
The shard controller publishes numbered configurations that assign each
shard to a group. Each server keeps one key/value state machine per shard.

The model covers:

- the shard state machine (`MemoryKVStateMachine`). It is a class with a
  `kv` map and a `status` field. `Put` and `Append` update the map in place.
  `Clone` and `CopyData` copy it entry by entry.
- the server object (`ShardKV`). It is a class whose fields are the shard
  map, the notification registry, the duplicate table and the current and
  previous configs. Its members are the ownership check `MatchGroup`, the
  at-most-once check `IsDuplicate`, and the PutAppend pre-check order. They
  also include registering and removing notification channels, the operation
  dispatcher `ApplyToStateMachine`, and snapshot save and restore. The two
  client entry points, `Get` and `PutAppend`, are modelled too.
- the configuration value type (`Config`), with `DefaultConfig` and `Clone`.

Modules follow the source files:

- `ShardCtrler` (shardctrler_common.dfy) models src/shardctrler/common.go.
- `StateMachine` (state_machine.dfy) models src/shardkv/state_machine.go.
- `Server` (server.dfy) models src/shardkv/server.go.
- `Snapshot` (snapshot.dfy) models the state that `makeSnapshot` and
  `restoreFromSnapshot` save and load.
- `KVCommon` (kv_common.dfy) holds the types that server.go and
  state_machine.go share: `Err`, `ShardStatus`, `Op`, `OpReply`,
  `LastOperation`, the RPC argument and reply records, and `key2shard`.
  They are defined in files of src/shardkv that are not part of this model;
  the types here are written from their uses in server.go and state_machine.go.

Parts that lie outside the server are parameters:

- the consensus module's answer to `Start` is the `start` parameter;
- the `select` between a delivered reply and the client request timeout is the
  `delivered` parameter, where `None` means the timeout fired first;
- the persisted snapshot is passed to the constructor.

How the model reads the code:

- server.go only shows the statuses `Normal` and `GC`, and `matchGroup`
  accepts exactly those two. The model's `ShardStatus` is
  `Normal | Pulling | MovingOut | GC`. `Pulling` and `MovingOut` are added
  as statuses that do not serve, so that the ownership check has something
  to reject.
- An empty snapshot only adds a new, empty, `Normal` state machine for each
  missing shard id. It keeps existing shards, the duplicate table and both
  configs. The constructor sets up empty tables and default configs first,
  so a fresh server ends in `BootstrapState()`.

## Model

| member | source | states |
|---|---|---|
| ShardCtrler.DefaultConfig | src/shardctrler/common.go:58-62 | config number 0, every one of the `NShards == 10` shards assigned to group 0 (the invalid group), no groups |
| ShardCtrler.Clone | src/shardctrler/common.go:46-56 | the clone has the same `Num`, the same whole `Shards` array, and exactly the source's group ids, each mapped to the same server list; the source is a value and is not changed |
| KVCommon.Key2Shard | src/shardkv/server.go:77-78 | the shard of a key is an index in `[0, NShards)`, so it always selects an entry of the config's `Shards` array |
| KVCommon.ToOpType | src/shardkv/server.go:123 | a Put or Append request becomes a `PutOp` or `AppendOp` operation, never a `GetOp` |
| StateMachine.Stored | src/shardkv/state_machine.go:44-46 | reading a key yields the stored string, or `""` when the key is absent |
| StateMachine.Lookup | src/shardkv/state_machine.go:32-37 | a Get reply is `OK` exactly when the key is present, otherwise `ErrNoKey`; its value is the stored string or `""` |
| StateMachine.Appended | src/shardkv/state_machine.go:44-47 | after an append, the key set is the old one plus the key, the key maps to the old value (or `""`) followed by the appended string, and every other key keeps its value |
| StateMachine.MemoryKVStateMachine.constructor | src/shardkv/state_machine.go:8-13 | a new state machine has an empty map and status `Normal` |
| StateMachine.MemoryKVStateMachine.Data | src/shardkv/state_machine.go:3-6 | the value of a state machine is its map and its status |
| StateMachine.MemoryKVStateMachine.Clone | src/shardkv/state_machine.go:15-22 | the clone is a new object with the same map and the same status; the receiver is not modified |
| StateMachine.MemoryKVStateMachine.CopyData | src/shardkv/state_machine.go:24-30 | the copy has exactly the receiver's keys with the same values; the receiver is not modified |
| StateMachine.MemoryKVStateMachine.Get | src/shardkv/state_machine.go:32-37 | returns the value and `OK` for a present key, `""` and `ErrNoKey` otherwise; changes nothing |
| StateMachine.MemoryKVStateMachine.Put | src/shardkv/state_machine.go:39-42 | the key now maps to the value, every other key and the status are unchanged, and the result is `OK` |
| StateMachine.MemoryKVStateMachine.Append | src/shardkv/state_machine.go:44-47 | the key now maps to its old value (or `""`) followed by the value, every other key and the status are unchanged, and the result is `OK` |
| StateMachine.PutIdempotent | src/shardkv/state_machine.go:39-42 | applying the same Put twice gives the same map as applying it once |
| StateMachine.GetAfterPut | src/shardkv/state_machine.go:32-42 | a Get after a Put reads the value put with `OK`; a Get of any other key reads as before |
| StateMachine.GetAfterAppend | src/shardkv/state_machine.go:32-47 | a Get after an Append reads the old value (or `""`) followed by the appended string with `OK`; a Get of any other key reads as before |
| StateMachine.AppendAbsentIsPut | src/shardkv/state_machine.go:39-47 | an Append to an absent key has the same effect as a Put |
| StateMachine.AppendsConcatenate | src/shardkv/state_machine.go:44-47 | two Appends to a key equal one Append of the concatenation, so a re-applied Append is not harmless |
| Snapshot.Encode | src/shardkv/server.go:254-262 | the snapshot is a stream of exactly four values (shards, duplicate table, current config, previous config), so it is never empty and restoring it never takes the bootstrap branch |
| Snapshot.Decode | src/shardkv/server.go:274-284 | decoding succeeds exactly when the stream starts with four values of the kinds written, in that order |
| Snapshot.DecodeEncode | src/shardkv/server.go:254-289 | decoding what was encoded gives back the same four-part state |
| Snapshot.EncodeDecode | src/shardkv/server.go:254-289 | a stream that decodes begins with the encoding of the state it decodes to |
| Server.EmptyShards | src/shardkv/server.go:266-270 | the map has exactly the ids `0..n-1`, each with an empty, `Normal` shard |
| Server.NotifyChan.constructor | src/shardkv/server.go:86 | a new notify channel has exactly one slot |
| Server.ShardKV.State | src/shardkv/server.go:254-260 | the saved state consists of each shard's map and status, the duplicate table and both configs |
| Server.ShardKV.constructor | src/shardkv/server.go:202-227 | a new server has the given gid, `lastApplied == 0` and no channels. After an empty snapshot it holds every shard empty and `Normal`, no clients and the default configs; otherwise it holds what the snapshot decodes to. It has every shard id exactly when the snapshot is empty or the decoded state has every shard id. Every shard state machine it holds is a new object of its own |
| Server.ShardKV.MatchGroup | src/shardkv/server.go:76-81 | holds exactly when the current config assigns the key's shard to this group and that shard's status is `Normal` or `GC` |
| Server.ShardKV.IsDuplicate | src/shardkv/server.go:92-98 | false for a client with no entry; otherwise true exactly when the stored request id is at least the given one |
| Server.ShardKV.PutAppendPrecheck | src/shardkv/server.go:100-116 | the wrong group gives `ErrWrongGroup` whatever the duplicate table holds; otherwise a duplicate gives the cached reply's error; otherwise the operation is submitted |
| Server.ShardKV.GetNotifyChan | src/shardkv/server.go:83-90 | afterwards `index` is registered. An existing channel is returned and the registry is unchanged; otherwise a new single-slot channel is added under `index` only |
| Server.ShardKV.RemoveNotifyChan | src/shardkv/server.go:145-149 | removes exactly `index` from the registry; nothing else changes |
| Server.ShardKV.ApplyToStateMachine | src/shardkv/server.go:238-252 | only the state machine of `shardId` may change. A Get changes nothing and replies as `Lookup`. A Put or Append changes that map as Put or Append does and replies `OK` with an empty value. The status and every other shard are unchanged |
| Server.ShardKV.MakeSnapshot | src/shardkv/server.go:254-262 | the snapshot decodes to the current four-part state; a server with every shard id makes a snapshot whose state has every shard id |
| Server.ShardKV.RestoreFromSnapshot | src/shardkv/server.go:264-290 | on an empty snapshot, every shard id `0..NShards-1` afterwards has a state machine. Existing ones are kept and new ones are empty and `Normal`; the duplicate table and both configs are unchanged. Otherwise the four parts become what the snapshot decodes to, with new objects. A snapshot that does not decode changes nothing and reports failure. After a decoded snapshot, the server has every shard id exactly when the decoded state does |
| Server.ShardKV.Get | src/shardkv/server.go:36-74 | wrong group gives `ErrWrongGroup` with nothing submitted. Otherwise a Get is submitted: a non-leader gives `ErrWrongLeader`; a leader gives the delivered reply, or `ErrTimeout`, and the index's channel is removed afterwards |
| Server.ShardKV.PutAppend | src/shardkv/server.go:100-150 | a rejected pre-check returns its error with nothing submitted and no channel. Otherwise the operation is submitted with its client and request ids: a non-leader gives `ErrWrongLeader`; a leader gives the delivered error, or `ErrTimeout`, and the index's channel is removed afterwards |
| Server.IsDuplicateDownwardClosed | src/shardkv/server.go:92-98 | a request that counts as a duplicate makes every earlier request id of that client count as one |
| Server.AtMostOneGroupServes | src/shardkv/server.go:76-81 | two different groups using the same shard assignment never both accept the same key |
| Server.DefaultConfigServesNothing | src/shardkv/server.go:76-81 | under the default config no group with a real gid accepts any key |
| Server.GetNotifyChanTwice | src/shardkv/server.go:83-90 | two consecutive registrations of one index return the same channel and leave the registry as one registration would |
| Server.StartAndApply | src/shardkv/server.go:202-227 | a server started from an empty snapshot applies a Put of a key and a following Get of that key replies with the value put and `OK` |
| Server.SnapshotRoundTrip | src/shardkv/server.go:254-290 | restoring the snapshot a server has just made succeeds and gives back the same four-part state; whether the server has every shard id is unchanged |

## Left out

- The consensus module (`rf.Start`, the apply channel, `rf.Snapshot`, the persister) is outside the model. Its code is not part of this model. `Start`'s answer is a parameter.
- The apply loop and the periodic tasks (`applyTask`, `fetchConfigTask`, `shardMigrationTask`, `shardGCTask`) are not modelled. Their bodies are not in the modelled files. So the recording of requests in the duplicate table is not modelled, and neither are the shard-status transitions.
- The wait on the notify channel with its client request timeout is concurrency and timing. The outcome is the `delivered` parameter.
- The asynchronous goroutine that deletes a notify slot is modelled as a call to `RemoveNotifyChan` at the end of the handler. Interleavings with other calls are not modelled.
- The server's mutex is not modelled. Each method runs as one uninterrupted step. Between the pre-check and the registration of the channel, no other call runs.
- `Kill` sets an atomic flag and stops the consensus module; `killed` reads the flag. Neither is modelled, because the consensus module is outside the model and the flag only matters to the background goroutines.
- `StartServer`'s goroutine wiring and the controller clerk it creates are not modelled. Its state setup and snapshot restore are the `ShardKV` constructor.
- The encoder's byte format is not modelled. A snapshot is a sequence of typed values written and read in order.
- `Server.ShardKV.MatchGroup`, `Server.ShardKV.PutAppendPrecheck`, `Server.ShardKV.ApplyToStateMachine`, `Server.ShardKV.Get` and `Server.ShardKV.PutAppend`: a shard id missing from the shard map is excluded by a `requires`. The source dereferences the missing entry and panics on the nil pointer. Every server started from an empty snapshot has every shard id, and so does one restored from a snapshot that a server with every shard id made (the constructor, `RestoreFromSnapshot`, `MakeSnapshot` and `SnapshotRoundTrip` state this).
- `Server.ShardKV.constructor`: a snapshot that does not decode is excluded by a `requires`, because the source panics on it.
- `Server.ShardKV.RestoreFromSnapshot`: that panic becomes the result `false` with nothing changed.
- `Server.ShardKV.ApplyToStateMachine`: the `default: panic` branch is not modelled. The operation type is a closed datatype with only Get, Put and Append.
- `ShardCtrler.Clone`: it does not state that the new `Groups` map is a separate object. Maps are values here, so aliasing between the copy and the source cannot arise. The server-list slices, which the source shares between the two, are equal values.
- `StateMachine.MemoryKVStateMachine.CopyData`: the same holds for the returned map. It is a value, so a fresh map cannot be told from a shared one.
- `key2shard` is not part of this model. `KVCommon.Key2Shard` stands in for it: the first character modulo `NShards`, or 0 for the empty key. Only its range `[0, NShards)` is relied on.
- `getOpType` is not part of this model. `KVCommon.ToOpType` maps the Put/Append kind to the operation type.
- Client and request ids are `int64` in the source and unbounded integers here. They are only compared, never computed with, so no overflow can arise.
- `DPrintf` and logging are not modelled. Neither are the controller's `Op`, RPC argument and reply structs, its `Timeout` constant, or its error strings, which are all plain data.
- `src/shardctrler/client.go` is not modelled. It is a network clerk: RPC retry loops and random client ids.
