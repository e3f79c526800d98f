/**
 Terminal frame records too large for one message arrive in chunks and are put together again
 (crates/condr-client/src/frames.rs). Decoding a complete record is a parameter.
 */
module FrameChunks {
  import opened Wrappers
  import opened Sequences
  import opened ProtocolLimits
  import opened TerminalViews
  import opened VisualSlot

  /** What all chunks of one record share. */
  datatype Identity = Identity(server: nat, session: nat, pane: PaneId, revision: nat, count: nat)

  datatype Chunk = Chunk(identity: Identity, index: nat, payload: Bytes)

  datatype Assembly = Assembly(identity: Identity, nextIndex: nat, payload: Bytes, discard: bool)

  /** What the record's bytes decode to. */
  datatype Decoded = Malformed(reason: string) | NewerProtocol | Record(pane: PaneFrame)

  type Decoder = Bytes -> Decoded

  datatype ChunkError =
    | InvalidRange | InvalidPayloadSize | NotContiguous | TooLarge
    | Undecodable(reason: string) | FromNewerProtocol | WrongMetadata

  datatype Assembled = Refused(error: ChunkError) | Partial | Complete(pane: PaneFrame)

  /** Adds a chunk to its record. */
  function Assemble(assembly: Option<Assembly>, chunk: Chunk, watched: Option<set<PaneId>>, decode: Decoder)
    : (Option<Assembly>, Assembled)
  {
    if chunk.identity.count == 0 || chunk.index >= chunk.identity.count then
      (assembly, Refused(InvalidRange))
    else if chunk.payload == [] || |chunk.payload| > MAX_CHUNK_PAYLOAD_SIZE then
      (assembly, Refused(InvalidPayloadSize))
    else
      var state := if assembly.Some? then assembly.value else Assembly(chunk.identity, 0, [], false);
      if state.identity != chunk.identity || state.nextIndex != chunk.index then
        (Some(state), Refused(NotContiguous))
      else if state.discard || !Watches(watched, chunk.identity.pane) then
        var dropped := state.(discard := true, nextIndex := state.nextIndex + 1,
                              payload := if Watches(watched, chunk.identity.pane) then state.payload else []);
        (if dropped.nextIndex == chunk.identity.count then None else Some(dropped), Partial)
      else if |state.payload| + |chunk.payload| > MAX_CHUNKED_RECORD_SIZE then
        (Some(state), Refused(TooLarge))
      else
        var grown := state.(payload := state.payload + chunk.payload, nextIndex := state.nextIndex + 1);
        if grown.nextIndex != chunk.identity.count then (Some(grown), Partial)
        else (None, Finish(grown, decode(grown.payload)))
  }

  function Finish(record: Assembly, decoded: Decoded): Assembled {
    match decoded
    case Malformed(reason) => Refused(Undecodable(reason))
    case NewerProtocol => Refused(FromNewerProtocol)
    case Record(pane) =>
      if pane.pane != record.identity.pane || pane.frame.Revision() != record.identity.revision then
        Refused(WrongMetadata)
      else Complete(pane)
  }

  /** The one assembly of a reader. */
  class ChunkAssembler {
    var assembly: Option<Assembly>

    constructor ()
      ensures assembly.None?
    {
      assembly := None;
    }

    method Add(chunk: Chunk, watched: Option<set<PaneId>>, decode: Decoder) returns (result: Assembled)
      modifies this
      ensures (assembly, result) == Assemble(old(assembly), chunk, watched, decode)
    {
      if chunk.identity.count == 0 || chunk.index >= chunk.identity.count {
        return Refused(InvalidRange);
      }
      if chunk.payload == [] || |chunk.payload| > MAX_CHUNK_PAYLOAD_SIZE {
        return Refused(InvalidPayloadSize);
      }
      if assembly.None? {
        assembly := Some(Assembly(chunk.identity, 0, [], false));
      }
      var state := assembly.value;
      if state.identity != chunk.identity || state.nextIndex != chunk.index {
        return Refused(NotContiguous);
      }
      if watched.Some? && chunk.identity.pane !in watched.value {
        state := state.(discard := true, payload := []);
      }
      if state.discard {
        state := state.(nextIndex := state.nextIndex + 1);
        assembly := if state.nextIndex == chunk.identity.count then None else Some(state);
        return Partial;
      }
      if |state.payload| + |chunk.payload| > MAX_CHUNKED_RECORD_SIZE {
        return Refused(TooLarge);
      }
      state := state.(payload := state.payload + chunk.payload, nextIndex := state.nextIndex + 1);
      if state.nextIndex != chunk.identity.count {
        assembly := Some(state);
        return Partial;
      }
      assembly := None;
      match decode(state.payload) {
        case Malformed(reason) => return Refused(Undecodable(reason));
        case NewerProtocol => return Refused(FromNewerProtocol);
        case Record(pane) =>
          if pane.pane != state.identity.pane || pane.frame.Revision() != state.identity.revision {
            return Refused(WrongMetadata);
          }
          return Complete(pane);
      }
    }
  }

  // ----- Reassembly undoes splitting -----

  /** A record cut into parts, as the Server sends it. */
  function Cut(identity: Identity, parts: seq<Bytes>): seq<Chunk> {
    seq(|parts|, k requires 0 <= k < |parts| => Chunk(identity, k, parts[k]))
  }

  predicate Sendable(identity: Identity, parts: seq<Bytes>) {
    && identity.count == |parts| > 0
    && (forall k :: 0 <= k < |parts| ==> 0 < |parts[k]| <= MAX_CHUNK_PAYLOAD_SIZE)
    && |Flat(parts)| <= MAX_CHUNKED_RECORD_SIZE
  }

  /** The assembly and the last answer after chunks arrive one by one, each under the set watched then. */
  function Feed(chunks: seq<Chunk>, watched: seq<Option<set<PaneId>>>, decode: Decoder): (Option<Assembly>, Assembled)
    requires |watched| == |chunks|
    decreases |chunks|
  {
    if chunks == [] then (None, Partial)
    else
      var last := |chunks| - 1;
      var (assembly, before) := Feed(chunks[..last], watched[..last], decode);
      if before.Refused? then (assembly, before) else Assemble(assembly, chunks[last], watched[last], decode)
  }

  /** Feeding one chunk more is adding it to what is held. */
  lemma FeedNext(chunks: seq<Chunk>, watched: seq<Option<set<PaneId>>>, decode: Decoder, n: nat)
    requires |watched| == |chunks| && n < |chunks|
    ensures var (held, before) := Feed(chunks[..n], watched[..n], decode);
            Feed(chunks[..n + 1], watched[..n + 1], decode)
            == if before.Refused? then (held, before) else Assemble(held, chunks[n], watched[n], decode)
  {
    assert chunks[..n + 1][..n] == chunks[..n] && watched[..n + 1][..n] == watched[..n];
  }

  /** What is held after `n` chunks with the bytes `before`. */
  function Held(identity: Identity, n: nat, before: Bytes): Option<Assembly> {
    if n == 0 then None else Some(Assembly(identity, n, before, false))
  }

  /** The next chunk of a watched record adds its bytes; the last one completes the record. */
  lemma ChunkIsTaken(identity: Identity, n: nat, before: Bytes, part: Bytes, watched: Option<set<PaneId>>,
                     decode: Decoder)
    requires n < identity.count && 0 < |part| <= MAX_CHUNK_PAYLOAD_SIZE && Watches(watched, identity.pane)
    requires |before + part| <= MAX_CHUNKED_RECORD_SIZE && (n == 0 ==> before == [])
    ensures Assemble(Held(identity, n, before), Chunk(identity, n, part), watched, decode) ==
            if n + 1 < identity.count then (Held(identity, n + 1, before + part), Partial)
            else (None, Finish(Assembly(identity, n + 1, before + part, false), decode(before + part)))
  {
  }

  /** After the first `n` chunks of a watched record, exactly their bytes are held. */
  lemma {:induction false} FedSoFar(identity: Identity, parts: seq<Bytes>, watched: seq<Option<set<PaneId>>>,
                                   decode: Decoder, n: nat)
    requires Sendable(identity, parts) && |watched| == |parts| && n < |parts|
    requires forall k :: 0 <= k < n ==> Watches(watched[k], identity.pane)
    ensures Feed(Cut(identity, parts)[..n], watched[..n], decode) == (Held(identity, n, Flat(parts[..n])), Partial)
    decreases n
  {
    if n > 0 {
      FedSoFar(identity, parts, watched, decode, n - 1);
      FeedNext(Cut(identity, parts), watched, decode, n - 1);
      FlatNext(parts, n - 1);
      FlatPrefix(parts, n);
      ChunkIsTaken(identity, n - 1, Flat(parts[..n - 1]), parts[n - 1], watched[n - 1], decode);
    }
  }

  /** A record cut any way and sent in order comes back byte for byte to the decoder. */
  lemma ReassemblyUndoesSplitting(identity: Identity, parts: seq<Bytes>, watched: seq<Option<set<PaneId>>>,
                                  decode: Decoder)
    requires Sendable(identity, parts) && |watched| == |parts|
    requires forall k :: 0 <= k < |parts| ==> Watches(watched[k], identity.pane)
    ensures Feed(Cut(identity, parts), watched, decode)
         == (None, Finish(Assembly(identity, |parts|, Flat(parts), false), decode(Flat(parts))))
  {
    var last := |parts| - 1;
    FedSoFar(identity, parts, watched, decode, last);
    FeedLast(Cut(identity, parts), watched, decode, Held(identity, last, Flat(parts[..last])));
    LastChunkCompletes(identity, parts, watched[last], decode);
  }

  lemma FeedLast(chunks: seq<Chunk>, watched: seq<Option<set<PaneId>>>, decode: Decoder, held: Option<Assembly>)
    requires |watched| == |chunks| > 0
    requires Feed(chunks[..|chunks| - 1], watched[..|chunks| - 1], decode) == (held, Partial)
    ensures Feed(chunks, watched, decode)
            == Assemble(held, chunks[|chunks| - 1], watched[|chunks| - 1], decode)
  {
  }

  lemma LastChunkCompletes(identity: Identity, parts: seq<Bytes>, watched: Option<set<PaneId>>, decode: Decoder)
    requires Sendable(identity, parts) && Watches(watched, identity.pane)
    ensures var last := |parts| - 1;
            Assemble(Held(identity, last, Flat(parts[..last])), Cut(identity, parts)[last], watched, decode)
            == (None, Finish(Assembly(identity, |parts|, Flat(parts), false), decode(Flat(parts))))
  {
    var last := |parts| - 1;
    FlatNext(parts, last);
    assert parts[..last + 1] == parts;
    ChunkIsTaken(identity, last, Flat(parts[..last]), parts[last], watched, decode);
  }

  /** One chunk that finds its Pane unwatched spoils the record: the rest is swallowed and nothing comes out. */
  lemma {:induction false} UnwatchedYieldsNothing(identity: Identity, parts: seq<Bytes>,
                                                  watched: seq<Option<set<PaneId>>>, decode: Decoder, at: nat, n: nat)
    requires Sendable(identity, parts) && |watched| == |parts| && at < n <= |parts|
    requires !Watches(watched[at], identity.pane)
    requires forall k :: 0 <= k < at ==> Watches(watched[k], identity.pane)
    ensures var (assembly, answer) := Feed(Cut(identity, parts)[..n], watched[..n], decode);
            && answer == Partial
            && (n == |parts| ==> assembly.None?)
            && (n < |parts| ==> assembly.Some? && assembly.value.discard
                                && assembly.value.identity == identity && assembly.value.nextIndex == n)
    decreases n
  {
    FeedNext(Cut(identity, parts), watched, decode, n - 1);
    if at == n - 1 {
      FedSoFar(identity, parts, watched, decode, at);
    } else {
      UnwatchedYieldsNothing(identity, parts, watched, decode, at, n - 1);
    }
  }

  /** A chunk is taken only as the first of a record or the next of the one begun; all else is refused. */
  lemma OnlyTheNextChunkIsTaken(assembly: Option<Assembly>, chunk: Chunk, watched: Option<set<PaneId>>,
                                decode: Decoder)
    ensures !Assemble(assembly, chunk, watched, decode).1.Refused? ==>
              && chunk.index < chunk.identity.count
              && 0 < |chunk.payload| <= MAX_CHUNK_PAYLOAD_SIZE
              && (assembly.None? ==> chunk.index == 0)
              && (assembly.Some? ==>
                    assembly.value.identity == chunk.identity && assembly.value.nextIndex == chunk.index)
    ensures Assemble(assembly, chunk, watched, decode).1.Complete? ==>
              && chunk.index == chunk.identity.count - 1
              && Watches(watched, chunk.identity.pane)
              && Assemble(assembly, chunk, watched, decode).1.pane.pane == chunk.identity.pane
  {
  }
}
