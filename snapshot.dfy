/** The server state a snapshot carries, and the encoding of that state as a
    stream of typed values written and read back in a fixed order. The byte
    format of the encoder is not modelled: each value of the stream is kept as
    a tagged value, and a decode reads the values in order, failing when the
    stream ends early or holds a value of the wrong kind. */
module Snapshot {
  import opened ShardCtrler
  import opened KVCommon
  import opened StateMachine

  /** The four parts of the server state a snapshot saves, in the order they
      are encoded: shards, duplicate table, current config, previous config. */
  datatype ServerState = ServerState(
    shards: map<int, ShardData>,
    duplicateTable: map<int, LastOperation>,
    currentConfig: Config,
    preConfig: Config)

  /** One value of the encoded stream. */
  datatype Encoded =
    | EncodedShards(shards: map<int, ShardData>)
    | EncodedTable(table: map<int, LastOperation>)
    | EncodedConfig(config: Config)

  /** A snapshot as handed to and read back from the consensus module. */
  type Blob = seq<Encoded>

  /** Writes the four parts one after the other. */
  function Encode(s: ServerState): (b: Blob)
    ensures |b| == 4
  {
    [EncodedShards(s.shards), EncodedTable(s.duplicateTable),
     EncodedConfig(s.currentConfig), EncodedConfig(s.preConfig)]
  }

  /** Reads the four parts back in the order they were written; anything
      after them is not read. */
  function Decode(b: Blob): (r: Option<ServerState>)
    ensures r.Some? <==> |b| >= 4 && b[0].EncodedShards? && b[1].EncodedTable?
                         && b[2].EncodedConfig? && b[3].EncodedConfig?
  {
    if |b| < 4 then None
    else if !b[0].EncodedShards? then None
    else if !b[1].EncodedTable? then None
    else if !b[2].EncodedConfig? || !b[3].EncodedConfig? then None
    else Some(ServerState(b[0].shards, b[1].table, b[2].config, b[3].config))
  }

  /** Decoding an encoded state gives back exactly that state. */
  lemma DecodeEncode(s: ServerState)
    ensures Decode(Encode(s)) == Some(s)
  {
  }

  /** A stream that decodes starts with the encoding of what it decodes to. */
  lemma EncodeDecode(b: Blob)
    requires Decode(b).Some?
    ensures Encode(Decode(b).value) == b[..4]
  {
  }
}
