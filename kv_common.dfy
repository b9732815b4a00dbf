/** Types the shard key/value server shares between its files: error codes,
    shard statuses, client operations and their replies, the duplicate-table
    entry, and the key -> shard map. */
module KVCommon {
  import opened ShardCtrler

  datatype Option<+T> = None | Some(value: T)

  /** The error codes a client call can end with. */
  datatype Err = OK | ErrNoKey | ErrWrongGroup | ErrWrongLeader | ErrTimeout

  /** Status of one shard on this server. `Normal` and `GC` are the two
      statuses in which the shard may serve clients; `Pulling` and `MovingOut`
      stand for the statuses in which it may not. */
  datatype ShardStatus = Normal | Pulling | MovingOut | GC

  /** A shard in this status accepts client operations. */
  predicate Serves(s: ShardStatus) {
    s == Normal || s == GC
  }

  /** Which shard a key belongs to: the first character modulo NShards, an
      empty key going to shard 0. Only the range of the result is relied on. */
  function Key2Shard(key: string): (shard: nat)
    ensures shard < NShards
  {
    if |key| > 0 then (key[0] as int) % NShards else 0
  }

  datatype OpType = GetOp | PutOp | AppendOp

  /** A client operation as it is submitted to the consensus log. */
  datatype Op = Op(key: string, value: string, opType: OpType, clientId: int, requestId: int)

  /** The result delivered back to a waiting client call. */
  datatype OpReply = OpReply(value: string, err: Err)

  /** The duplicate-table entry of one client: its last applied request and that request's reply. */
  datatype LastOperation = LastOperation(requestId: int, reply: OpReply)

  datatype GetArgs = GetArgs(key: string)
  datatype GetReply = GetReply(err: Err, value: string)

  /** The `Op` string of a PutAppend call, "Put" or "Append". */
  datatype PutAppendKind = Put | Append

  datatype PutAppendArgs = PutAppendArgs(key: string, value: string, op: PutAppendKind, clientId: int, requestId: int)
  datatype PutAppendReply = PutAppendReply(err: Err)

  function ToOpType(k: PutAppendKind): (t: OpType)
    ensures t != GetOp
    ensures (t == PutOp) <==> (k == Put)
  {
    match k
    case Put => PutOp
    case Append => AppendOp
  }
}
