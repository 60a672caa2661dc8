/**
 What a connection does with the data of its stream: each chunk goes to its one decoder, until an exception
 of the decoder makes the connection give up the stream.
 */
module DataListener {
  import opened Bytes
  import opened RespMachine
  import opened RespWire
  import RespDecoder

  class Listener {
    const decoder: RespDecoder.Decoder

    constructor (typeMapping: TypeMapping)
      ensures fresh(decoder) && decoder.typeMapping == typeMapping && decoder.View() == Initial
    {
      decoder := new RespDecoder.Decoder(typeMapping);
    }

    /** One data event; true when the decoder has thrown. */
    method OnData(chunk: bytes) returns (fatal: bool)
      requires !decoder.dead
      modifies decoder
      ensures decoder.View() == Feed(old(decoder.View()), chunk, decoder.typeMapping)
      ensures fatal == decoder.dead
    {
      var ok := decoder.Write(chunk);
      fatal := !ok;
    }

    /**
     The data events of a stream, one after the other. From a new decoder on, chunks that make up the wire
     form of any messages fire one callback per message, in order, each with the value the message stands
     for, and leave the decoder between replies.
     */
    method Receive(chunks: seq<bytes>) returns (fatal: bool)
      requires !decoder.dead
      modifies decoder
      ensures decoder.View() == FeedAll(old(decoder.View()), chunks, decoder.typeMapping) && fatal == decoder.dead
      ensures old(decoder.View()) == Initial ==>
        forall ms :: Spells(chunks, ms) ==>
          !fatal && decoder.View() == State(Idle, 0, EventsOf(ms, decoder.typeMapping))
    {
      hide Feed, Scan, EventsOf, EncodeStream;
      fatal := false;
      ghost var before := decoder.View();
      ghost var target := FeedAll(before, chunks, decoder.typeMapping);
      for i := 0 to |chunks|
        invariant !decoder.dead && !fatal
        invariant FeedAll(decoder.View(), chunks[i..], decoder.typeMapping) == target
      {
        assert chunks[i..][0] == chunks[i] && chunks[i..][1..] == chunks[i + 1..];
        fatal := OnData(chunks[i]);
        if fatal {
          DeadStays(decoder.View(), chunks[i + 1..], decoder.typeMapping);
          break;
        }
      }
      if before == Initial {
        forall ms | Spells(chunks, ms)
          ensures target == State(Idle, 0, EventsOf(ms, decoder.typeMapping))
        {
          StreamRoundTrip(ms, chunks, decoder.typeMapping);
        }
      }
    }
  }

  /** The chunks are the wire form of these messages, cut anywhere. */
  ghost predicate Spells(chunks: seq<bytes>, ms: seq<Message>) {
    Concat(chunks) == EncodeStream(ms) && forall m :: m in ms ==> WellFormedMessage(m)
  }

  lemma {:induction false} DeadStays(st: State, chunks: seq<bytes>, tm: TypeMapping)
    requires st.Dead?
    ensures FeedAll(st, chunks, tm) == st
    decreases |chunks|
  {
    if chunks != [] {
      DeadStays(st, chunks[1..], tm);
    }
  }
}
