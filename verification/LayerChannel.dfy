/** The two ends of a layer's stream (src/layer.rs): `ChanIo`, which the session
    polls, and `LayerEnd`, which Python pumps, with a bounded channel each way. */
module LayerChannel {
  import opened Octets

  /** How many writes each way a layer's channel holds. */
  const DEPTH: nat := 8

  // ---- reading through a buffer --------------------------------------------

  datatype Poll = Pending | Ready(data: Bytes)

  /** What a reader has: the rest of a message, the messages queued, and whether
      a sender is left. */
  datatype Source = Source(buf: Bytes, items: seq<Bytes>, open: bool)

  /** The bytes yet to be read. */
  function Content(s: Source): Bytes { s.buf + Flat(s.items) }

  /** The source once its buffer is filled from the messages, empty ones skipped. */
  function Refilled(s: Source): Source
    decreases |s.items|
  {
    if s.buf != [] || s.items == [] then s
    else Refilled(s.(buf := s.items[0], items := s.items[1..]))
  }

  function Least(a: nat, b: nat): nat { if a < b then a else b }

  /** `poll_read` into `room` bytes. */
  function Read(s: Source, room: nat): (Poll, Source) {
    var t := Refilled(s);
    if t.buf == [] then (if t.open then Pending else Ready([]), t)
    else
      var n := Least(|t.buf|, room);
      (Ready(t.buf[..n]), t.(buf := t.buf[n..]))
  }

  lemma {:induction false} RefilledIs(s: Source)
    ensures Content(Refilled(s)) == Content(s) && Refilled(s).open == s.open
    ensures Refilled(s).buf == [] ==> Refilled(s).items == []
    ensures |Refilled(s).items| <= |s.items|
    decreases |s.items|
  {
    if s.buf == [] && s.items != [] {
      RefilledIs(s.(buf := s.items[0], items := s.items[1..]));
    }
  }

  /** No byte is lost or repeated by a read; a read into some room comes back
      empty just when the sender is gone and everything was read. */
  lemma {:induction false} ReadIsFaithful(s: Source, room: nat)
    ensures var (p, t) := Read(s, room);
            && t.open == s.open
            && (p.Ready? ==> p.data + Content(t) == Content(s) && |p.data| <= room)
            && (p.Pending? ==> Content(t) == Content(s))
            && (p.Pending? <==> Content(s) == [] && s.open)
            && (p.Ready? && p.data == [] && room > 0 <==> Content(s) == [] && !s.open && room > 0)
  {
    RefilledIs(s);
    var t := Refilled(s);
    hide Refilled;
    if t.buf == [] {
      assert Flat(t.items) == [];
    } else {
      var n := Least(|t.buf|, room);
      assert t.buf[..n] + (t.buf[n..] + Flat(t.items)) == t.buf + Flat(t.items);
    }
  }

  // ---- the ends ------------------------------------------------------------

  class Channel {
    var items: seq<Bytes>
    var senders: nat
    var receiver: bool

    constructor ()
      ensures items == [] && senders == 1 && receiver
    {
      items, senders, receiver := [], 1, true;
    }
  }

  datatype WritePoll = WritePending | Written(n: nat) | BrokenPipe

  class ChanIo {
    const rx: Channel
    var buf: Bytes
    const out: Channel
    var tx: bool                 // the sender, dropped by a shutdown
    var reserve: bool            // a reservation under way, with a sender of its own

    constructor (rx: Channel, out: Channel)
      ensures this.rx == rx && this.out == out && buf == [] && tx && !reserve
    {
      this.rx, this.out, buf, tx, reserve := rx, out, [], true, false;
    }

    /** The senders of the way out that are this object's. */
    function Senders(): nat
      reads this
    {
      (if tx then 1 else 0) + (if reserve then 1 else 0)
    }

    ghost predicate Valid()
      reads this, rx, out
    {
      rx != out && Senders() <= out.senders && (reserve ==> tx)
    }

    function Incoming(): Source
      reads this, rx
    {
      Source(buf, rx.items, rx.senders > 0)
    }

    /** `poll_read`: the loop that fills the buffer, and one copy out of it. */
    method PollRead(room: nat) returns (p: Poll)
      requires Valid()
      modifies this`buf, rx`items
      ensures Valid() && (p, Incoming()) == Read(old(Incoming()), room)
    {
      while buf == []
        invariant Refilled(Incoming()) == Refilled(old(Incoming()))
        invariant Valid()
        decreases |rx.items|
      {
        if rx.items == [] {
          if rx.senders == 0 {
            return Ready([]);
          }
          return Pending;
        }
        buf := rx.items[0];
        rx.items := rx.items[1..];
      }
      var n := Least(|buf|, room);
      p := Ready(buf[..n]);
      buf := buf[n..];
    }

    /** `poll_write`: one message into the channel, all of it, once there is
        room. */
    method PollWrite(data: Bytes) returns (p: WritePoll)
      requires Valid()
      modifies this`reserve, out`items, out`senders
      ensures Valid() && out.senders - Senders() == old(out.senders - Senders())
      ensures p.BrokenPipe? <==> !tx || !out.receiver
      ensures p.WritePending? <==> tx && out.receiver && old(|out.items|) >= DEPTH
      ensures p.Written? ==> p.n == |data|
      ensures out.items == if p.Written? then old(out.items) + [data] else old(out.items)
    {
      if !tx {
        return BrokenPipe;
      }
      if !reserve {
        reserve := true;
        out.senders := out.senders + 1;
      }
      if out.receiver && |out.items| >= DEPTH {
        return WritePending;
      }
      reserve := false;
      out.senders := out.senders - 1;
      if !out.receiver {
        return BrokenPipe;
      }
      out.items := out.items + [data];
      p := Written(|data|);
    }

    /** `poll_shutdown`: no sender of this object is left. */
    method PollShutdown()
      requires Valid()
      modifies this`tx, this`reserve, out`senders
      ensures Valid() && !tx && Senders() == 0
      ensures out.senders == old(out.senders - Senders())
    {
      out.senders := out.senders - Senders();
      tx := false;
      reserve := false;
    }
  }

  class LayerEnd {
    const rx: Channel
    const back: Channel
    var tx: bool

    constructor (rx: Channel, back: Channel)
      ensures this.rx == rx && this.back == back && tx
    {
      this.rx, this.back, tx := rx, back, true;
    }

    ghost predicate Valid()
      reads this, rx, back
    {
      rx != back && (tx ==> back.senders > 0)
    }

    /** `read`: the session's next write; empty once its senders are gone and
        everything was taken. */
    method Read() returns (p: Poll)
      requires Valid()
      modifies rx`items
      ensures Valid()
      ensures p.Pending? <==> old(rx.items) == [] && rx.senders > 0
      ensures old(rx.items) == [] ==> rx.items == [] && (p.Ready? ==> p.data == [])
      ensures old(rx.items) != [] ==> p == Ready(old(rx.items)[0]) && rx.items == old(rx.items)[1..]
    {
      if rx.items == [] {
        return if rx.senders > 0 then Pending else Ready([]);
      }
      p := Ready(rx.items[0]);
      rx.items := rx.items[1..];
    }

    /** `write`, with the sender it cloned: empty data makes no message. */
    method Write(data: Bytes) returns (p: WritePoll)
      requires Valid()
      modifies back`items
      ensures Valid()
      ensures p.BrokenPipe? <==> !tx
      ensures p.WritePending? <==> tx && data != [] && back.receiver && old(|back.items|) >= DEPTH
      ensures back.items == if p.Written? && data != [] && back.receiver then old(back.items) + [data]
                            else old(back.items)
    {
      if !tx {
        return BrokenPipe;
      }
      if data != [] && back.receiver {
        if |back.items| >= DEPTH {
          return WritePending;
        }
        back.items := back.items + [data];
      }
      p := Written(|data|);
    }

    method Close()
      requires Valid()
      modifies this`tx, back`senders
      ensures Valid() && !tx
      ensures back.senders == if old(tx) then old(back.senders) - 1 else old(back.senders)
    {
      if tx {
        tx := false;
        back.senders := back.senders - 1;
      }
    }
  }

  /** `chan_pair`: the two ends, over two channels. */
  method ChanPair() returns (io: ChanIo, end: LayerEnd)
    ensures io.Valid() && end.Valid() && fresh(io) && fresh(end)
    ensures io.out == end.rx && io.rx == end.back
    ensures io.Incoming() == Source([], [], true) && io.out.items == []
    ensures io.tx && !io.reserve && io.out.senders == 1 && io.out.receiver
    ensures end.tx && end.back.senders == 1 && end.back.receiver
  {
    var outward := new Channel();
    var inward := new Channel();
    io := new ChanIo(inward, outward);
    end := new LayerEnd(outward, inward);
  }
}
