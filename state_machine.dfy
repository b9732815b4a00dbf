/** The per-shard key/value state machine: a string -> string map plus the
    shard's status, updated in place by Put and Append. */
module StateMachine {
  import opened KVCommon

  /** The value a read of `kv[key]` yields: the stored string, or the empty
      string when the key is absent. */
  function Stored(kv: map<string, string>, key: string): (v: string)
    ensures key in kv ==> v == kv[key]
    ensures key !in kv ==> v == ""
  {
    if key in kv then kv[key] else ""
  }

  /** The reply of a Get on a shard holding `kv`: the value and OK when the
      key is present, the empty string and ErrNoKey otherwise. */
  function Lookup(kv: map<string, string>, key: string): (r: OpReply)
    ensures r.err == OK || r.err == ErrNoKey
    ensures r.err == OK <==> key in kv
    ensures r.value == Stored(kv, key)
  {
    if key in kv then OpReply(kv[key], OK) else OpReply("", ErrNoKey)
  }

  /** `kv` after appending `value` to the entry of `key`; an absent key is
      read as the empty string, so the append creates it. */
  function Appended(kv: map<string, string>, key: string, value: string): (r: map<string, string>)
    ensures r.Keys == kv.Keys + {key}
    ensures r[key] == Stored(kv, key) + value
    ensures forall k :: k in kv && k != key ==> r[k] == kv[k]
  {
    kv[key := Stored(kv, key) + value]
  }

  /** The value of one shard state machine. */
  datatype ShardData = ShardData(kv: map<string, string>, status: ShardStatus)

  class MemoryKVStateMachine {
    var kv: map<string, string>
    var status: ShardStatus

    /** The shard's current value. */
    function Data(): (d: ShardData)
      reads this
      ensures d.kv == kv && d.status == status
    {
      ShardData(kv, status)
    }

    /** A new shard: no keys, status Normal. */
    constructor ()
      ensures kv == map[]
      ensures status == Normal
    {
      kv := map[];
      status := Normal;
    }

    /** A new, separate state machine with the same keys, values and status. */
    method Clone() returns (r: MemoryKVStateMachine)
      ensures fresh(r)
      ensures r.kv == kv && r.status == status
    {
      r := new MemoryKVStateMachine();
      var remaining := kv.Keys;
      while remaining != {}
        invariant remaining <= kv.Keys
        invariant r.kv.Keys == kv.Keys - remaining
        invariant forall k :: k in r.kv ==> r.kv[k] == kv[k]
        decreases remaining
      {
        if forall k :: k !in remaining { assert false; }
        var k :| k in remaining;
        r.kv := r.kv[k := kv[k]];
        remaining := remaining - {k};
      }
      r.status := status;
    }

    /** A copy of the key/value map, filled entry by entry. */
    method CopyData() returns (data: map<string, string>)
      ensures data.Keys == kv.Keys
      ensures forall k :: k in kv ==> data[k] == kv[k]
    {
      data := map[];
      var remaining := kv.Keys;
      while remaining != {}
        invariant remaining <= kv.Keys
        invariant data.Keys == kv.Keys - remaining
        invariant forall k :: k in data ==> data[k] == kv[k]
        decreases remaining
      {
        if forall k :: k !in remaining { assert false; }
        var k :| k in remaining;
        data := data[k := kv[k]];
        remaining := remaining - {k};
      }
    }

    /** The stored value and OK, or the empty string and ErrNoKey. */
    method Get(key: string) returns (value: string, err: Err)
      ensures key in kv ==> value == kv[key] && err == OK
      ensures key !in kv ==> value == "" && err == ErrNoKey
      ensures OpReply(value, err) == Lookup(kv, key)
    {
      if key in kv {
        return kv[key], OK;
      }
      return "", ErrNoKey;
    }

    /** Overwrites the entry of `key`; nothing else changes. */
    method Put(key: string, value: string) returns (err: Err)
      modifies this`kv
      ensures kv == old(kv)[key := value]
      ensures err == OK
    {
      kv := kv[key := value];
      return OK;
    }

    /** Appends `value` to the entry of `key` (creating it if absent); nothing else changes. */
    method Append(key: string, value: string) returns (err: Err)
      modifies this`kv
      ensures kv == Appended(old(kv), key, value)
      ensures err == OK
    {
      kv := kv[key := Stored(kv, key) + value];
      return OK;
    }
  }

  /** Putting the same value twice leaves the map as putting it once. */
  lemma PutIdempotent(kv: map<string, string>, key: string, value: string)
    ensures kv[key := value][key := value] == kv[key := value]
  {
  }

  /** A Get after a Put of the same key reads the value put; other keys read as before. */
  lemma GetAfterPut(kv: map<string, string>, key: string, value: string, other: string)
    ensures Lookup(kv[key := value], key) == OpReply(value, OK)
    ensures other != key ==> Lookup(kv[key := value], other) == Lookup(kv, other)
  {
  }

  /** A Get after an Append reads the old value (or "") followed by the
      appended string; other keys read as before. */
  lemma GetAfterAppend(kv: map<string, string>, key: string, value: string, other: string)
    ensures Lookup(Appended(kv, key, value), key) == OpReply(Stored(kv, key) + value, OK)
    ensures other != key ==> Lookup(Appended(kv, key, value), other) == Lookup(kv, other)
  {
  }

  /** Appending to an absent key is the same as putting. */
  lemma AppendAbsentIsPut(kv: map<string, string>, key: string, value: string)
    requires key !in kv
    ensures Appended(kv, key, value) == kv[key := value]
  {
    assert Stored(kv, key) + value == value;
  }

  /** Two appends to one key equal one append of the concatenation: unlike
      Put, an Append applied twice is not the same as applied once. */
  lemma AppendsConcatenate(kv: map<string, string>, key: string, a: string, b: string)
    ensures Appended(Appended(kv, key, a), key, b) == Appended(kv, key, a + b)
  {
    assert Stored(kv, key) + a + b == Stored(kv, key) + (a + b);
  }
}
