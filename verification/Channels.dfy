/** The three bounded queues between the PHP thread and the drivers. Methods of a class are written
    from the point of view of one thread; `Interfere` lets all the other threads act before a call. */
module Channels {
  import opened Types
  import W = WritePass
  import System

  /** The shared event channel, with reservations. */
  class EventChannel {
    var queue: seq<(ConnId, DriverEvent)>
    var reserved: nat
    var mine: nat                              // permits held by the thread under consideration
    ghost var log: seq<(ConnId, DriverEvent)>  // everything ever sent
    ghost var refusals: nat                    // how often it was refused a permit

    ghost predicate Valid()
      reads this
    {
      && |queue| + reserved <= SERVER_EVENT_CHANNEL_CAPACITY
      && mine <= reserved
      && |queue| <= |log| && queue == log[|log| - |queue|..]
    }

    /** How many events the server has received so far. */
    ghost function Received(): int
      reads this
    {
      |log| - |queue|
    }

    constructor ()
      ensures Valid() && queue == [] && reserved == 0 && log == [] && mine == 0 && refusals == 0
    {
      queue, reserved, mine := [], 0, 0;
      log, refusals := [], 0;
    }

    /** Any finite number of steps of other threads: the server receives, other drivers reserve, send
        events of their own connection, or give permits back. */
    method Interfere(me: ConnId)
      requires Valid()
      modifies this
      ensures Valid() && mine == old(mine) && refusals == old(refusals)
      ensures old(log) <= log && System.Of(log, me) == System.Of(old(log), me)
    {
      var steps: nat := *;
      while steps > 0
        invariant Valid() && mine == old(mine) && refusals == old(refusals)
        invariant old(log) <= log && System.Of(log, me) == System.Of(old(log), me)
      {
        OtherThreadStep(me);
        steps := steps - 1;
      }
    }

    method OtherThreadStep(me: ConnId)
      requires Valid()
      modifies this
      ensures Valid() && mine == old(mine) && refusals == old(refusals)
      ensures old(log) <= log && System.Of(log, me) == System.Of(old(log), me)
    {
      var receives: bool := *;
      if receives && queue != [] {
        queue := queue[1..];
      } else {
        OtherDriverStep(Some(me));
      }
    }

    /** A driver other than `me` reserves a slot, gives one back, or sends an event. */
    method OtherDriverStep(me: Option<ConnId>)
      requires Valid()
      modifies this
      ensures Valid() && mine == old(mine) && refusals == old(refusals)
      ensures old(log) <= log && Received() == old(Received())
      ensures me.Some? ==> System.Of(log, me.value) == System.Of(old(log), me.value)
    {
      var kind: nat := *;
      if kind == 0 && |queue| + reserved < SERVER_EVENT_CHANNEL_CAPACITY {
        reserved := reserved + 1;
      } else if kind == 1 && mine < reserved {
        reserved := reserved - 1;
      } else if kind == 2 && mine < reserved {
        var c: ConnId, ev: DriverEvent := *, *;
        if me != Some(c) {
          Append(c, ev);
        }
      }
    }

    /** From the point of view of the server: any finite number of steps of the drivers. */
    method Arrivals()
      requires Valid()
      modifies this
      ensures Valid() && old(log) <= log && Received() == old(Received())
    {
      var steps: nat := *;
      while steps > 0
        invariant Valid() && old(log) <= log && Received() == old(Received())
      {
        OtherDriverStep(None);
        steps := steps - 1;
      }
    }

    /** A message takes the place of a reserved slot. */
    method Append(c: ConnId, ev: DriverEvent)
      requires Valid() && reserved > 0
      modifies this`queue, this`reserved, this`log
      ensures |queue| + reserved <= SERVER_EVENT_CHANNEL_CAPACITY && reserved == old(reserved) - 1
      ensures |queue| <= |log| && queue == log[|log| - |queue|..]
      ensures queue == old(queue) + [(c, ev)] && log == old(log) + [(c, ev)]
      ensures forall d :: System.Of(log, d)
                       == if d == c then System.Of(old(log), d) + [ev] else System.Of(old(log), d)
    {
      queue, reserved := queue + [(c, ev)], reserved - 1;
      log := log + [(c, ev)];
      assert log[..|log| - 1] == old(log);
    }

    /** try_reserve: refused exactly when queued and reserved slots fill the channel. */
    method TryReserve(me: ConnId) returns (ok: bool)
      requires Valid()
      modifies this
      ensures Valid() && mine == old(mine) + (if ok then 1 else 0)
      ensures ok <==> refusals == old(refusals)
      ensures !ok ==> refusals == old(refusals) + 1 && |queue| + reserved == 8192
      ensures System.Of(log, me) == System.Of(old(log), me)
    {
      Interfere(me);
      ok := |queue| + reserved < SERVER_EVENT_CHANNEL_CAPACITY;
      if ok {
        reserved, mine := reserved + 1, mine + 1;
      } else {
        refusals := refusals + 1;
      }
    }

    /** permit.send */
    method Send(me: ConnId, ev: DriverEvent)
      requires Valid() && mine > 0
      modifies this
      ensures Valid() && mine == old(mine) - 1 && refusals == old(refusals)
      ensures System.Of(log, me) == System.Of(old(log), me) + [ev]
    {
      mine := mine - 1;
      Append(me, ev);
    }

    /** A permit dropped without being used. */
    method Release()
      requires Valid() && mine > 0
      modifies this
      ensures Valid() && mine == old(mine) - 1 && refusals == old(refusals) && log == old(log)
    {
      reserved, mine := reserved - 1, mine - 1;
    }

    /** The server's poll of the event arm. */
    method TryRecv() returns (r: Option<(ConnId, DriverEvent)>)
      requires Valid()
      modifies this`queue
      ensures Valid()
      ensures old(queue) == [] ==> r == None && queue == []
      ensures old(queue) != [] ==>
                && queue == old(queue)[1..] && Received() == old(Received()) + 1
                && 0 <= old(Received()) < |log| && r == Some(log[old(Received())])
    {
      r := None;
      if queue != [] {
        r, queue := Some(queue[0]), queue[1..];
      }
    }
  }

  /** The dedicated channel for terminal close signals. */
  class CloseChannel {
    var queue: seq<(ConnId, bool)>
    ghost var log: seq<(ConnId, bool)>         // every signal that found room

    ghost predicate Valid()
      reads this
    {
      |queue| <= |log| && queue == log[|log| - |queue|..]
    }

    /** How many signals the server has received so far. */
    ghost function Received(): int
      reads this
    {
      |log| - |queue|
    }

    constructor ()
      ensures Valid() && queue == [] && log == []
    {
      queue, log := [], [];
    }

    method TrySend(c: ConnId, peer: bool) returns (ok: bool)
      requires Valid()
      modifies this
      ensures Valid() && old(log) <= log && Received() == old(Received())
      ensures ok <==> |old(queue)| < 1024
      ensures queue == if ok then old(queue) + [(c, peer)] else old(queue)
    {
      ok := |queue| < CONN_CLOSE_CHANNEL_CAPACITY;
      if ok {
        queue, log := queue + [(c, peer)], log + [(c, peer)];
      }
    }

    /** From the point of view of the server: any finite number of drivers signal. */
    method Arrivals()
      requires Valid()
      modifies this
      ensures Valid() && old(log) <= log && Received() == old(Received())
    {
      var steps: nat := *;
      while steps > 0
        invariant Valid() && old(log) <= log && Received() == old(Received())
      {
        var c: ConnId, peer: bool := *, *;
        var ok := TrySend(c, peer);
        steps := steps - 1;
      }
    }

    method TryRecv() returns (r: Option<(ConnId, bool)>)
      requires Valid()
      modifies this`queue
      ensures Valid()
      ensures old(queue) == [] ==> r == None && queue == []
      ensures old(queue) != [] ==>
                && queue == old(queue)[1..] && Received() == old(Received()) + 1
                && 0 <= old(Received()) < |log| && r == Some(log[old(Received())])
    {
      r := None;
      if queue != [] {
        r, queue := Some(queue[0]), queue[1..];
      }
    }
  }

  /** The write channel of one connection together with its Notify. */
  class WriteChannel {
    var queue: seq<W.StreamWriter>
    var permit: bool
    var closed: bool                         // the driver that receives is gone
    var notifying: bool                      // PHP is between try_send and notify_one
    ghost var submitted: map<StreamId, seq<Item>>

    ghost predicate Valid()
      reads this
    {
      |queue| <= WRITE_CHANNEL_CAPACITY
    }

    constructor ()
      ensures Valid() && queue == [] && !permit && !closed && !notifying && submitted == map[]
    {
      queue, permit, closed, notifying := [], false, false, false;
      submitted := map[];
    }

    /** The part of a WritePass state that lives in this channel. */
    ghost predicate IsPartOf(w: W.WriteSide)
      reads this
    {
      w.chan == queue && w.permit == permit && w.notifying == notifying && w.submitted == submitted
    }

    /** The same state as `w` except for what lives in this channel. */
    ghost function Put(w: W.WriteSide): W.WriteSide
      reads this
    {
      w.(chan := queue, permit := permit, notifying := notifying, submitted := submitted)
    }

    /** The PHP thread acts: any finite number of steps of its writes, submitting at most `supply`
        messages. From the point of view of the driver these are steps of the write side. */
    method Interfere(supply: nat, ghost start: W.WriteSide, ghost w: W.WriteSide) returns (left: nat)
      requires Valid() && IsPartOf(w) && W.Writes(start, w)
      modifies this
      ensures Valid() && closed == old(closed) && W.Writes(start, Put(w))
      ensures left + |queue| == supply + |old(queue)|
    {
      left := supply;
      var steps: nat := *;
      while steps > 0
        invariant Valid() && closed == old(closed) && W.Writes(start, Put(w))
        invariant left + |queue| == supply + |old(queue)|
      {
        left := PhpStep(left, start, Put(w));
        steps := steps - 1;
      }
    }

    /** One step of a write by PHP. */
    method PhpStep(supply: nat, ghost start: W.WriteSide, ghost w: W.WriteSide) returns (left: nat)
      requires Valid() && IsPartOf(w) && W.Writes(start, w)
      modifies this
      ensures Valid() && closed == old(closed) && W.Writes(start, Put(w))
      ensures left + |queue| == supply + |old(queue)|
    {
      left := supply;
      if notifying {
        NotifyOne();
        W.WritesMore(start, w, W.Notify, Put(w));
      } else if supply > 0 {
        var s: StreamId, bytes: Bytes, fin: bool := *, *, *;
        var m := W.StreamWriter(s, Some(bytes), fin);
        var ok := TrySend(m);
        if ok {
          left := supply - 1;
          W.WritesMore(start, w, W.Submit(m), Put(w));
        }
      }
    }

    method TrySend(m: W.StreamWriter) returns (ok: bool)
      requires Valid() && !notifying
      modifies this
      ensures Valid() && permit == old(permit) && closed == old(closed)
      ensures ok <==> !closed && |old(queue)| < 256
      ensures ok ==> queue == old(queue) + [m] && notifying
      ensures ok ==> submitted == Extend(old(submitted), m.stream, Items(W.ChunkOf(m)))
      ensures !ok ==> queue == old(queue) && !notifying && submitted == old(submitted)
    {
      ok := !closed && |queue| < WRITE_CHANNEL_CAPACITY;
      if ok {
        queue := queue + [m];
        notifying, submitted := true, Extend(submitted, m.stream, Items(W.ChunkOf(m)));
      }
    }

    method NotifyOne()
      requires Valid()
      modifies this
      ensures Valid() && permit && !notifying
      ensures queue == old(queue) && submitted == old(submitted) && closed == old(closed)
    {
      permit := true;
      notifying := false;
    }

    /** One poll of `notified()`: takes the permit if there is one. */
    method Notified() returns (ready: bool)
      requires Valid()
      modifies this`permit
      ensures ready == old(permit) && !permit
    {
      ready, permit := permit, false;
    }

    method TryRecv() returns (r: Option<W.StreamWriter>)
      requires Valid()
      modifies this`queue
      ensures Valid()
      ensures old(queue) == [] ==> r == None && queue == []
      ensures old(queue) != [] ==> r == Some(old(queue)[0]) && queue == old(queue)[1..]
    {
      r := None;
      if queue != [] {
        r, queue := Some(queue[0]), queue[1..];
      }
    }
  }
}
