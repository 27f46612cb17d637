/** The channel ends of src/layer.rs are the channels of the composed ways: what a
    poll of `ChanIo` or a call of `LayerEnd` does is what the event of that name
    does, and it goes through just where the event may happen. */
module LayerLink {
  import opened Octets
  import opened LayerChannel
  import O = Outbound
  import I = Inbound

  // ---- the way out ----------------------------------------------------------

  /** The session's sender and the channel to the pump, as the way out has them. */
  ghost predicate CarriesOut(io: ChanIo, end: LayerEnd, s: O.State)
    reads io, io.rx, io.out, end, end.rx, end.back
  {
    && io.Valid() && end.Valid() && io.out == end.rx
    && io.out.items == s.chan && io.tx == s.open
    && io.out.receiver && io.out.senders == io.Senders()
  }

  method SessionWrites(io: ChanIo, end: LayerEnd, data: Bytes, ghost f: seq<Bytes> -> Bytes, ghost s: O.State)
    returns (done: bool)
    requires CarriesOut(io, end, s)
    modifies io`reserve, io.out`items, io.out`senders
    ensures done <==> O.Can(s, O.SessionWrites(data))
    ensures CarriesOut(io, end, if done then O.Step(f, s, O.SessionWrites(data)) else s)
  {
    var p := io.PollWrite(data);
    done := p.Written?;
  }

  method SessionShutsDown(io: ChanIo, end: LayerEnd, ghost f: seq<Bytes> -> Bytes, ghost s: O.State)
    requires CarriesOut(io, end, s)
    modifies io`tx, io`reserve, io.out`senders
    ensures CarriesOut(io, end, O.Step(f, s, O.SessionShutsDown))
  {
    io.PollShutdown();
  }

  /** `end.read()` in `down`: it returns just where the pump may read, with the
      write the pump gets, or empty at the session's end. */
  method PumpReads(io: ChanIo, end: LayerEnd, ghost f: seq<Bytes> -> Bytes, ghost s: O.State) returns (p: Poll)
    requires CarriesOut(io, end, s) && s.pump.Waiting?
    modifies end.rx`items
    ensures p.Ready? <==> O.Can(s, O.PumpReads)
    ensures CarriesOut(io, end, if p.Ready? then O.Step(f, s, O.PumpReads) else s)
    ensures p.Ready? ==>
              var t := O.Step(f, s, O.PumpReads);
              if s.chan != [] then t.pump == O.Got(p.data) else t.pump.GotEnd? && p.data == []
  {
    p := end.Read();
  }

  // ---- the way in -----------------------------------------------------------

  /** The channel from the pump and the session's buffer, as the way in has them. */
  ghost predicate CarriesIn(io: ChanIo, end: LayerEnd, s: I.State)
    reads io, io.rx, io.out, end, end.rx, end.back
  {
    && io.Valid() && end.Valid() && io.rx == end.back
    && io.Incoming() == s.source && end.tx == !s.up.Ended?
    && io.rx.receiver && io.rx.senders == (if end.tx then 1 else 0)
  }

  method SessionReads(io: ChanIo, end: LayerEnd, room: nat, ghost g: Bytes -> Bytes, ghost s: I.State)
    returns (p: Poll)
    requires CarriesIn(io, end, s)
    modifies io`buf, io.rx`items
    ensures var t := I.Step(g, s, I.SessionReads(room));
            && CarriesIn(io, end, t)
            && t.out == s.out + (if p.Ready? then p.data else [])
  {
    p := io.PollRead(room);
  }

  /** `end.write(data)` in `up`. */
  method UpWrites(io: ChanIo, end: LayerEnd, data: Bytes, ghost g: Bytes -> Bytes, ghost s: I.State)
    returns (done: bool)
    requires CarriesIn(io, end, s) && s.up == I.Got(data) && data != []
    modifies end.back`items
    ensures done <==> I.Can(g, s, I.UpWrites)
    ensures CarriesIn(io, end, if done then I.Step(g, s, I.UpWrites) else s)
  {
    var p := end.Write(data);
    done := p.Written?;
  }

  /** `end.close()` in the `finally` of `up`, after its end or a failure. */
  method UpEnds(io: ChanIo, end: LayerEnd, ghost failed: bool, ghost g: Bytes -> Bytes, ghost s: I.State)
    requires CarriesIn(io, end, s) && I.Can(g, s, if failed then I.UpFails else I.UpCloses)
    modifies end`tx, end.back`senders
    ensures CarriesIn(io, end, I.Step(g, s, if failed then I.UpFails else I.UpCloses))
  {
    end.Close();
  }

  /** `chan_pair` begins both ways. */
  method Begin(ghost o: O.State, ghost i: I.State) returns (io: ChanIo, end: LayerEnd)
    requires O.Initial(o) && I.Initial(i)
    ensures fresh(io) && fresh(end) && CarriesOut(io, end, o) && CarriesIn(io, end, i)
  {
    io, end := ChanPair();
  }
}
