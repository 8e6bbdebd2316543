/** Any number of workers on the task streams: what becomes of every published entry. */
module StreamRuns {
  import opened Basics
  import opened RedisStreams

  // ---- Workers and their steps ----

  /** busy[w] is the entry worker w has passed to processTask and not acknowledged yet; `processed` lists the
      entries passed to processTask, by any worker, in order. */
  datatype System = System(streams: Streams, clock: nat, busy: map<string, Slot>, processed: seq<Slot>)

  /** A worker reads when it is not busy, acknowledges when processTask has returned, or dies in between.
      Malformed is an entry written by something other than the producer. */
  datatype Event =
    | Publish(msg: TaskMessage)
    | Malformed(stream: string)
    | Read(worker: string)
    | Finish(worker: string)
    | Crash(worker: string)
    | Wait(time: nat)

  function Take(sys: System, w: string): System {
    var read := sys.(streams := AfterRead(sys.streams, w, sys.clock));
    match PollOf(sys.streams)
    case Got(_, slot) => read.(busy := sys.busy[w := slot], processed := sys.processed + [slot])
    case _ => read
  }

  function Next(sys: System, e: Event): System {
    match e
    case Publish(msg) => sys.(streams := XAdd(sys.streams, StreamForType(msg.kind), Some(msg)))
    case Malformed(name) => sys.(streams := XAdd(sys.streams, name, None))
    case Read(w) => if w in sys.busy then sys else Take(sys, w)
    case Finish(w) =>
      if w !in sys.busy then sys
      else sys.(streams := XAck(sys.streams, sys.busy[w]), busy := sys.busy - {w})
    case Crash(w) => sys.(busy := sys.busy - {w})
    case Wait(time) => sys.(clock := sys.clock + time)
  }

  function Happen(sys: System, events: seq<Event>): System
    decreases events
  {
    if events == [] then sys else Happen(Next(sys, events[0]), events[1..])
  }

  // ---- The worker loop ----

  /** One turn of the loop: the tasks that arrive while it waits, a read, and an acknowledgement. */
  function Turn(worker: string, arrived: seq<TaskMessage>): seq<Event> {
    seq(|arrived|, i requires 0 <= i < |arrived| => Publish(arrived[i])) + [Read(worker), Finish(worker)]
  }

  function Turns(worker: string, arrivals: seq<seq<TaskMessage>>): seq<Event> {
    if arrivals == [] then []
    else Turns(worker, arrivals[..|arrivals| - 1]) + Turn(worker, arrivals[|arrivals| - 1])
  }

  lemma {:induction false} HappenAppend(sys: System, a: seq<Event>, b: seq<Event>)
    ensures Happen(sys, a + b) == Happen(Happen(sys, a), b)
    decreases a
  {
    if a == [] {
      assert a + b == b;
    } else {
      assert (a + b)[1..] == a[1..] + b;
      HappenAppend(Next(sys, a[0]), a[1..], b);
    }
  }

  lemma HappenOne(sys: System, a: seq<Event>, e: Event)
    ensures Happen(sys, a + [e]) == Next(Happen(sys, a), e)
  {
    HappenAppend(sys, a, [e]);
    assert [e][1..] == [];
  }

  class Worker {
    const id: string
    const consumer: Consumer
    const producer: Producer

    constructor (id: string, rdb: Redis)
      ensures this.id == id && fresh(consumer) && fresh(producer)
      ensures consumer.rdb == rdb && producer.rdb == rdb && consumer.consumerId == id && consumer.streams == STREAMS
    {
      this.id := id;
      consumer := new Consumer(rdb, id);
      producer := new Producer(rdb);
    }

    ghost predicate Valid() {
      consumer.rdb == producer.rdb && consumer.consumerId == id && consumer.streams == STREAMS
    }

    /** The worker loop over |arrivals| polls, while other workers stay busy with `others`. */
    method Run(arrivals: seq<seq<TaskMessage>>, ghost others: map<string, Slot>) returns (processed: seq<Slot>)
      requires Valid() && id !in others
      modifies consumer.rdb`streams
      ensures System(consumer.rdb.streams, consumer.rdb.clock, others, processed)
              == Happen(System(old(consumer.rdb.streams), consumer.rdb.clock, others, []), Turns(id, arrivals))
    {
      processed := [];
      ghost var start := System(consumer.rdb.streams, consumer.rdb.clock, others, []);
      for i := 0 to |arrivals|
        invariant System(consumer.rdb.streams, consumer.rdb.clock, others, processed)
                  == Happen(start, Turns(id, arrivals[..i]))
      {
        ghost var sys := System(consumer.rdb.streams, consumer.rdb.clock, others, processed);
        PublishAll(arrivals[i], sys);
        ghost var read := System(consumer.rdb.streams, consumer.rdb.clock, others, processed);
        var poll := consumer.ReadTask();
        if poll.Got? {
          processed := processed + [poll.slot];
          consumer.Ack(poll.slot);
          assert (others[id := poll.slot]) - {id} == others;
        }
        OneTurn(start, sys, read, arrivals, i);
      }
      assert arrivals[..|arrivals|] == arrivals;
    }

    method PublishAll(arrived: seq<TaskMessage>, ghost sys: System)
      requires Valid() && sys.streams == consumer.rdb.streams
      modifies consumer.rdb`streams
      ensures sys.(streams := consumer.rdb.streams)
              == Happen(sys, seq(|arrived|, i requires 0 <= i < |arrived| => Publish(arrived[i])))
    {
      ghost var events: seq<Event> := [];
      for i := 0 to |arrived|
        invariant |events| == i && forall k :: 0 <= k < i ==> events[k] == Publish(arrived[k])
        invariant sys.(streams := consumer.rdb.streams) == Happen(sys, events)
      {
        HappenOne(sys, events, Publish(arrived[i]));
        producer.Publish(arrived[i]);
        events := events + [Publish(arrived[i])];
      }
      assert events == seq(|arrived|, i requires 0 <= i < |arrived| => Publish(arrived[i]));
    }

    lemma OneTurn(start: System, sys: System, read: System, arrivals: seq<seq<TaskMessage>>, i: nat)
      requires i < |arrivals| && sys == Happen(start, Turns(id, arrivals[..i]))
      requires read == Happen(sys, seq(|arrivals[i]|, k requires 0 <= k < |arrivals[i]| => Publish(arrivals[i][k])))
      ensures Happen(start, Turns(id, arrivals[..i + 1])) == Next(Next(read, Read(id)), Finish(id))
    {
      assert arrivals[..i + 1][..i] == arrivals[..i];
      var events := seq(|arrivals[i]|, k requires 0 <= k < |arrivals[i]| => Publish(arrivals[i][k]));
      HappenAppend(start, Turns(id, arrivals[..i]), Turn(id, arrivals[i]));
      assert events + [Read(id), Finish(id)] == events + [Read(id)] + [Finish(id)];
      HappenOne(sys, events, Read(id));
      HappenOne(sys, events + [Read(id)], Finish(id));
    }
  }

  // ---- The invariant ----

  predicate StreamOk(s: Stream) {
    s.next <= |s.log| && forall id :: id in s.pending ==> id < s.next
  }

  predicate NoRepeats(slots: seq<Slot>) {
    forall i, j :: 0 <= i < j < |slots| ==> slots[i] != slots[j]
  }

  predicate HandedOut(streams: Streams, slot: Slot) {
    slot.stream in streams && slot.id < streams[slot.stream].next && Payload(streams, slot).Some?
  }

  predicate InProgress(sys: System, w: string) {
    w in sys.busy
    && var slot := sys.busy[w];
       && slot in sys.processed && slot.stream in sys.streams
       && slot.id in sys.streams[slot.stream].pending
       && sys.streams[slot.stream].pending[slot.id].consumer == w
  }

  ghost predicate Conserved(sys: System) {
    && Grouped(sys.streams)
    && (forall n :: n in sys.streams ==> StreamOk(sys.streams[n]))
    && NoRepeats(sys.processed)
    && (forall slot :: slot in sys.processed ==> HandedOut(sys.streams, slot))
    && (forall n, id: nat :: n in sys.streams && sys.streams[n].Acked(id) ==> Slot(n, id) in sys.processed)
    && (forall w :: w in sys.busy ==> InProgress(sys, w))
  }

  const INITIAL := System(map n | n in STREAMS :: NO_STREAM.(hasGroup := true), 0, map[], [])

  lemma InitiallyConserved()
    ensures Conserved(INITIAL)
  {}

  // ---- Reading ----

  lemma {:induction false} NewEntriesAre(streams: Streams, names: seq<string>)
    ensures forall slot :: slot in NewEntries(streams, names) <==>
              slot.stream in names && At(streams, slot.stream).HasNew() && slot.id == streams[slot.stream].next
    ensures (forall i, j :: 0 <= i < j < |names| ==> names[i] != names[j]) ==> NoRepeats(NewEntries(streams, names))
  {
    if names != [] {
      NewEntriesAre(streams, names[1..]);
      assert names == [names[0]] + names[1..];
    }
  }

  lemma {:induction false} FirstTaskIs(streams: Streams, slots: seq<Slot>)
    ensures var poll := FirstTask(streams, slots);
            && !poll.Failed?
            && (poll.Got? ==> poll.slot in slots && Payload(streams, poll.slot) == Some(poll.task))
            && (poll.Nothing? ==> forall slot :: slot in slots ==> Payload(streams, slot).None?)
  {
    if slots != [] {
      FirstTaskIs(streams, slots[1..]);
    }
  }

  lemma StreamsAreFour()
    ensures forall i, j :: 0 <= i < j < |STREAMS| ==> STREAMS[i] != STREAMS[j]
  {}

  /** What the read of an idle worker does, entry by entry. */
  lemma ReadEffect(sys: System, w: string)
    requires Grouped(sys.streams)
    ensures var after, poll := AfterRead(sys.streams, w, sys.clock), PollOf(sys.streams);
            && after.Keys == sys.streams.Keys && !poll.Failed?
            && (forall n :: n in sys.streams ==>
                  after[n] == if n in STREAMS && sys.streams[n].HasNew() then Deliver(sys.streams[n], w, sys.clock)
                              else sys.streams[n])
            && (poll.Got? ==>
                  && poll.slot.stream in STREAMS && At(sys.streams, poll.slot.stream).HasNew()
                  && poll.slot.id == sys.streams[poll.slot.stream].next
                  && Payload(sys.streams, poll.slot) == Some(poll.task))
            && (poll.Nothing? ==>
                  forall n :: n in STREAMS && At(sys.streams, n).HasNew() ==>
                    Payload(sys.streams, Slot(n, sys.streams[n].next)).None?)
  {
    NewEntriesAre(sys.streams, STREAMS);
    FirstTaskIs(sys.streams, NewEntries(sys.streams, STREAMS));
    forall n | n in STREAMS && At(sys.streams, n).HasNew() && PollOf(sys.streams).Nothing?
      ensures Payload(sys.streams, Slot(n, sys.streams[n].next)).None?
    {
      assert Slot(n, sys.streams[n].next) in NewEntries(sys.streams, STREAMS);
    }
  }

  lemma DeliveryKeeps(s: Stream, w: string, now: nat)
    requires StreamOk(s) && s.HasNew()
    ensures var s' := Deliver(s, w, now);
            && StreamOk(s') && s'.log == s.log && s'.hasGroup == s.hasGroup
            && (forall id: nat :: s'.Acked(id) <==> s.Acked(id))
            && (forall id :: id in s.pending ==> id in s'.pending && s'.pending[id] == s.pending[id])
            && (forall id :: id in s'.pending ==> id in s.pending || id == s.next)
  {}

  /** A read only adds entries to the pending lists. */
  lemma ReadKeeps(sys: System, w: string)
    requires Grouped(sys.streams) && forall n :: n in sys.streams ==> StreamOk(sys.streams[n])
    ensures var after := AfterRead(sys.streams, w, sys.clock);
            && Grouped(after) && after.Keys == sys.streams.Keys
            && (forall n :: n in after ==>
                  && StreamOk(after[n]) && after[n].log == sys.streams[n].log && after[n].next >= sys.streams[n].next
                  && (forall id: nat :: after[n].Acked(id) <==> sys.streams[n].Acked(id))
                  && (forall id :: id in sys.streams[n].pending ==>
                        id in after[n].pending && after[n].pending[id] == sys.streams[n].pending[id])
                  && (forall id :: id in after[n].pending && id !in sys.streams[n].pending ==>
                        n in STREAMS && sys.streams[n].HasNew() && id == sys.streams[n].next))
  {
    var after := AfterRead(sys.streams, w, sys.clock);
    forall n | n in sys.streams && n in STREAMS && sys.streams[n].HasNew()
      ensures StreamOk(Deliver(sys.streams[n], w, sys.clock))
      ensures forall id: nat :: after[n].Acked(id) <==> sys.streams[n].Acked(id)
    {
      DeliveryKeeps(sys.streams[n], w, sys.clock);
    }
    forall name | name in STREAMS ensures At(after, name).hasGroup {
      assert At(sys.streams, name).hasGroup;
    }
  }

  lemma HandOver(sys: System, w: string, slot: Slot)
    requires Conserved(sys) && slot !in sys.processed && HandedOut(sys.streams, slot)
    requires slot.id in sys.streams[slot.stream].pending && sys.streams[slot.stream].pending[slot.id].consumer == w
    ensures Conserved(sys.(busy := sys.busy[w := slot], processed := sys.processed + [slot]))
  {}

  lemma ReadConserves(sys: System, w: string)
    requires Conserved(sys) && w !in sys.busy
    ensures Conserved(Take(sys, w))
  {
    ReadEffect(sys, w);
    ReadKeeps(sys, w);
    var after := sys.(streams := AfterRead(sys.streams, w, sys.clock));
    forall v | v in after.busy ensures InProgress(after, v) {
      assert InProgress(sys, v);
    }
    forall slot | slot in after.processed ensures HandedOut(after.streams, slot) {
      assert HandedOut(sys.streams, slot);
    }
    assert Conserved(after);
    if PollOf(sys.streams).Got? {
      HandOver(after, w, PollOf(sys.streams).slot);
    }
  }

  lemma AddConserves(sys: System, name: string, data: Option<TaskMessage>)
    requires Conserved(sys)
    ensures Conserved(sys.(streams := XAdd(sys.streams, name, data)))
  {
    var sys' := sys.(streams := XAdd(sys.streams, name, data));
    forall n, id: nat | n in sys'.streams && sys'.streams[n].Acked(id) ensures Slot(n, id) in sys'.processed {
      assert n in sys.streams && sys.streams[n].Acked(id);
    }
    forall v | v in sys'.busy ensures InProgress(sys', v) {
      assert InProgress(sys, v);
    }
    forall slot | slot in sys'.processed ensures HandedOut(sys'.streams, slot) {
      assert HandedOut(sys.streams, slot);
    }
  }

  /** An acknowledgement takes one entry off a pending list and changes nothing else. */
  lemma AckKeeps(streams: Streams, slot: Slot)
    requires slot.stream in streams && StreamOk(streams[slot.stream]) && slot.id in streams[slot.stream].pending
    ensures var after := XAck(streams, slot);
            && after.Keys == streams.Keys
            && (forall n :: n in streams && n != slot.stream ==> after[n] == streams[n])
            && var s, s' := streams[slot.stream], after[slot.stream];
               && s'.log == s.log && s'.hasGroup == s.hasGroup && s'.next == s.next && StreamOk(s')
               && s'.pending == s.pending - {slot.id}
               && (forall id: nat :: s'.Acked(id) <==> s.Acked(id) || id == slot.id)
  {}

  lemma FinishConserves(sys: System, w: string)
    requires Conserved(sys) && w in sys.busy
    ensures Conserved(Next(sys, Finish(w)))
  {
    var sys' := Next(sys, Finish(w));
    assert InProgress(sys, w);
    AckKeeps(sys.streams, sys.busy[w]);
    forall v | v in sys'.busy ensures InProgress(sys', v) {
      assert InProgress(sys, v);
      assert sys.busy[v] != sys.busy[w];
    }
    forall slot | slot in sys'.processed ensures HandedOut(sys'.streams, slot) {
      assert HandedOut(sys.streams, slot);
    }
    forall name | name in STREAMS ensures At(sys'.streams, name).hasGroup {
      assert At(sys.streams, name).hasGroup;
    }
  }

  lemma NextConserves(sys: System, e: Event)
    requires Conserved(sys)
    ensures Conserved(Next(sys, e))
  {
    match e
    case Publish(msg) => AddConserves(sys, StreamForType(msg.kind), Some(msg));
    case Malformed(name) => AddConserves(sys, name, None);
    case Read(w) => if w !in sys.busy { ReadConserves(sys, w); }
    case Finish(w) => if w in sys.busy { FinishConserves(sys, w); }
    case Crash(w) =>
      forall v | v in sys.busy - {w} ensures InProgress(Next(sys, e), v) {
        assert InProgress(sys, v);
      }
    case Wait(_) =>
      forall v | v in sys.busy ensures InProgress(Next(sys, e), v) {
        assert InProgress(sys, v);
      }
  }

  lemma {:induction false} HappenConserves(sys: System, events: seq<Event>)
    requires Conserved(sys)
    ensures Conserved(Happen(sys, events))
    decreases events
  {
    if events != [] {
      NextConserves(sys, events[0]);
      HappenConserves(Next(sys, events[0]), events[1..]);
    }
  }

  // ---- Conservation ----

  predicate IsPending(streams: Streams, slot: Slot) {
    slot.stream in streams && slot.id in streams[slot.stream].pending
  }

  predicate Stranded(sys: System, slot: Slot) {
    IsPending(sys.streams, slot) && forall w :: w in sys.busy ==> sys.busy[w] != slot
  }

  predicate HeldBy(sys: System, w: string, slot: Slot) {
    w in sys.busy && sys.busy[w] == slot
  }

  function Occurrences(slots: seq<Slot>, slot: Slot): nat {
    multiset(slots)[slot]
  }

  lemma {:induction false} NoRepeatsCount(slots: seq<Slot>, slot: Slot)
    requires NoRepeats(slots)
    ensures Occurrences(slots, slot) == if slot in slots then 1 else 0
  {
    if slots != [] {
      var n := |slots| - 1;
      assert slots == slots[..n] + [slots[n]];
      NoRepeatsCount(slots[..n], slot);
    }
  }

  /** After any history, every published entry is in exactly one place: undelivered and never processed;
      pending with the one worker processing it; pending with nobody processing it; or acknowledged, after
      being processed exactly once. No entry is ever processed twice. */
  lemma EntriesAreConserved(events: seq<Event>, slot: Slot)
    ensures var sys := Happen(INITIAL, events);
            && Occurrences(sys.processed, slot) <= 1
            && (slot.stream in sys.streams && slot.id < |sys.streams[slot.stream].log| ==>
                  var s := sys.streams[slot.stream];
                  if slot.id >= s.next then slot.id !in s.pending && slot !in sys.processed
                  else if slot.id !in s.pending then
                    Occurrences(sys.processed, slot) == 1 && forall w :: !HeldBy(sys, w, slot)
                  else if Stranded(sys, slot) then forall w :: !HeldBy(sys, w, slot)
                  else
                    var w := s.pending[slot.id].consumer;
                    HeldBy(sys, w, slot) && forall v :: HeldBy(sys, v, slot) ==> v == w)
  {
    InitiallyConserved();
    HappenConserves(INITIAL, events);
    var sys := Happen(INITIAL, events);
    NoRepeatsCount(sys.processed, slot);
    forall w | HeldBy(sys, w, slot)
      ensures slot.id in sys.streams[slot.stream].pending && sys.streams[slot.stream].pending[slot.id].consumer == w
    {
      assert InProgress(sys, w);
    }
  }

  ghost predicate StreamExtends(s: Stream, later: Stream) {
    s.log <= later.log && s.next <= later.next && forall id: nat :: s.Acked(id) ==> later.Acked(id)
  }

  /** What has happened stays: nothing published disappears, nothing is delivered or acknowledged backwards. */
  ghost predicate Extends(sys: System, later: System) {
    sys.processed <= later.processed
    && forall n :: n in sys.streams ==> n in later.streams && StreamExtends(sys.streams[n], later.streams[n])
  }

  lemma ReadExtends(sys: System, w: string)
    requires Conserved(sys)
    ensures Extends(sys, Take(sys, w))
  {
    ReadKeeps(sys, w);
    forall n | n in sys.streams ensures StreamExtends(sys.streams[n], AfterRead(sys.streams, w, sys.clock)[n]) {}
  }

  lemma FinishExtends(sys: System, w: string)
    requires Conserved(sys) && w in sys.busy
    ensures Extends(sys, Next(sys, Finish(w)))
  {
    assert InProgress(sys, w);
    AckKeeps(sys.streams, sys.busy[w]);
  }

  lemma NextExtends(sys: System, e: Event)
    requires Conserved(sys)
    ensures Extends(sys, Next(sys, e))
  {
    if e.Read? && e.worker !in sys.busy {
      ReadExtends(sys, e.worker);
    } else if e.Finish? && e.worker in sys.busy {
      FinishExtends(sys, e.worker);
    }
  }

  lemma {:induction false} HappenExtends(sys: System, events: seq<Event>)
    requires Conserved(sys)
    ensures Extends(sys, Happen(sys, events))
    decreases events
  {
    if events != [] {
      NextExtends(sys, events[0]);
      NextConserves(sys, events[0]);
      HappenExtends(Next(sys, events[0]), events[1..]);
    }
  }

  // ---- Stranded entries ----

  lemma NextKeepsStranded(sys: System, e: Event, slot: Slot)
    requires Conserved(sys) && Stranded(sys, slot)
    ensures Stranded(Next(sys, e), slot)
    ensures slot !in sys.processed ==> slot !in Next(sys, e).processed
  {
    assert StreamOk(sys.streams[slot.stream]);
    if e.Read? && e.worker !in sys.busy {
      ReadEffect(sys, e.worker);
    }
  }

  /** A pending entry no worker is processing is never delivered again: it stays pending for ever, and if it
      was not processed before, it never is. */
  lemma {:induction false} StrandedForEver(sys: System, events: seq<Event>, slot: Slot)
    requires Conserved(sys) && Stranded(sys, slot)
    ensures Stranded(Happen(sys, events), slot)
    ensures slot !in sys.processed ==> slot !in Happen(sys, events).processed
    decreases events
  {
    if events != [] {
      NextKeepsStranded(sys, events[0], slot);
      NextConserves(sys, events[0]);
      StrandedForEver(Next(sys, events[0]), events[1..], slot);
    }
  }

  lemma NewlyPending(sys: System, w: string, slot: Slot)
    requires Conserved(sys)
    ensures IsPending(sys.streams, slot) ==> IsPending(AfterRead(sys.streams, w, sys.clock), slot)
    ensures IsPending(AfterRead(sys.streams, w, sys.clock), slot) && !IsPending(sys.streams, slot)
            <==> slot in NewEntries(sys.streams, STREAMS)
  {
    NewEntriesAre(sys.streams, STREAMS);
    if slot.stream in sys.streams {
      assert StreamOk(sys.streams[slot.stream]);
    }
  }

  lemma BusyIsPending(sys: System, w: string)
    requires Conserved(sys) && w in sys.busy
    ensures IsPending(sys.streams, sys.busy[w])
  {}

  lemma ReturnedIsNew(sys: System)
    requires Conserved(sys)
    ensures PollOf(sys.streams).Got? ==> PollOf(sys.streams).slot in NewEntries(sys.streams, STREAMS)
  {
    FirstTaskIs(sys.streams, NewEntries(sys.streams, STREAMS));
  }

  /** One read strands exactly the new entries it moved to the pending list other than the one it returned. */
  lemma ReadStrands(sys: System, w: string, slot: Slot)
    requires Conserved(sys) && w !in sys.busy
    ensures Stranded(Take(sys, w), slot) && !Stranded(sys, slot)
            <==> slot in NewEntries(sys.streams, STREAMS)
                 && !(PollOf(sys.streams).Got? && PollOf(sys.streams).slot == slot)
  {
    NewlyPending(sys, w, slot);
    ReturnedIsNew(sys);
    forall v | v in sys.busy ensures IsPending(sys.streams, sys.busy[v]) {
      BusyIsPending(sys, v);
    }
    var poll, sys' := PollOf(sys.streams), Take(sys, w);
    assert sys'.busy == if poll.Got? then sys.busy[w := poll.slot] else sys.busy;
    if IsPending(sys.streams, slot) && !Stranded(sys, slot) {
      var v :| v in sys.busy && sys.busy[v] == slot;
      assert v in sys'.busy && sys'.busy[v] == slot;
    }
    if poll.Got? {
      assert w in sys'.busy && sys'.busy[w] == poll.slot;
    }
  }

  /** A read strands nothing exactly when no stream has a new entry, or a single one has and its first decodes. */
  lemma ReadStrandsNothingIff(sys: System, w: string)
    requires Conserved(sys) && w !in sys.busy
    ensures (forall slot :: Stranded(Take(sys, w), slot) ==> Stranded(sys, slot))
            <==> var slots := NewEntries(sys.streams, STREAMS);
                 slots == [] || (|slots| == 1 && Payload(sys.streams, slots[0]).Some?)
  {
    var slots := NewEntries(sys.streams, STREAMS);
    var poll := PollOf(sys.streams);
    forall slot ensures Stranded(Take(sys, w), slot) && !Stranded(sys, slot)
                        <==> slot in slots && !(poll.Got? && poll.slot == slot)
    {
      ReadStrands(sys, w, slot);
    }
    FirstTaskIs(sys.streams, slots);
    if |slots| > 1 {
      NewEntriesAre(sys.streams, STREAMS);
      StreamsAreFour();
      var lost := if poll.Got? && poll.slot == slots[0] then slots[1] else slots[0];
      assert Stranded(Take(sys, w), lost) && !Stranded(sys, lost);
    } else if |slots| == 1 && Payload(sys.streams, slots[0]).None? {
      assert Stranded(Take(sys, w), slots[0]) && !Stranded(sys, slots[0]);
    }
  }

  lemma NewEntryDecodes(streams: Streams, n: string)
    requires At(streams, n).HasNew() && forall data :: data in At(streams, n).log ==> data.Some?
    ensures Payload(streams, Slot(n, streams[n].next)).Some?
  {}

  /** When everything in a stream decodes, a read that returns no task leaves none undelivered there. */
  lemma EmptyPollMeansDrained(sys: System, n: string)
    requires Conserved(sys) && PollOf(sys.streams).Nothing? && n in STREAMS
    requires forall data :: data in At(sys.streams, n).log ==> data.Some?
    ensures !At(sys.streams, n).HasNew()
  {
    if At(sys.streams, n).HasNew() {
      NewEntryDecodes(sys.streams, n);
    }
    ReadEffect(sys, "");
  }

  /** After one task of each kind was published. */
  function TwoPublished(job: TaskMessage, probe: TaskMessage): System {
    Next(Next(INITIAL, Publish(job)), Publish(probe))
  }

  lemma TwoAreNew(job: TaskMessage, probe: TaskMessage)
    requires job.kind == "transcode" && probe.kind == "probe"
    ensures var sys := TwoPublished(job, probe);
            && Conserved(sys) && sys.busy == map[]
            && PollOf(sys.streams) == Got(job, Slot(STREAM_TRANSCODE, 0))
            && Slot(STREAM_PROBE, 0) in NewEntries(sys.streams, STREAMS) && STREAM_PROBE != STREAM_TRANSCODE
  {
    var sys := TwoPublished(job, probe);
    InitiallyConserved();
    NextConserves(INITIAL, Publish(job));
    NextConserves(Next(INITIAL, Publish(job)), Publish(probe));
    StreamsAreFour();
    PublishedIsRead("probe");
    NewEntriesAre(sys.streams, STREAMS);
    assert STREAMS[0] == STREAM_TRANSCODE && STREAMS[3] == STREAM_PROBE;
    assert sys.streams[STREAM_TRANSCODE].log == [Some(job)] && sys.streams[STREAM_PROBE].log == [Some(probe)];
    assert NewEntries(sys.streams, STREAMS)[0] == Slot(STREAM_TRANSCODE, 0);
  }

  lemma ReadLosesOther(sys: System, w: string, task: TaskMessage, got: Slot, lost: Slot, later: seq<Event>)
    requires Conserved(sys) && w !in sys.busy && PollOf(sys.streams) == Got(task, got)
    requires lost in NewEntries(sys.streams, STREAMS) && lost != got
    ensures Stranded(Happen(Next(sys, Read(w)), later), lost) && lost !in Happen(Next(sys, Read(w)), later).processed
  {
    NewEntriesAre(sys.streams, STREAMS);
    assert lost in sys.processed ==> HandedOut(sys.streams, lost);
    ReadStrands(sys, w, lost);
    ReadConserves(sys, w);
    NewlyPending(sys, w, lost);
    assert StreamOk(sys.streams[lost.stream]);
    StrandedForEver(Take(sys, w), later, lost);
  }

  lemma ThreeHappen(a: Event, b: Event, c: Event)
    ensures Happen(INITIAL, [a, b, c]) == Next(Next(Next(INITIAL, a), b), c)
  {
    HappenOne(INITIAL, [], a);
    HappenOne(INITIAL, [a], b);
    HappenOne(INITIAL, [a, b], c);
    assert [] + [a] == [a] && [a] + [b] == [a, b] && [a, b] + [c] == [a, b, c];
  }

  /** A read loses a task: a transcode and a probe are published, one worker reads once, and in every continuation
      the probe is pending and has never been processed. */
  lemma OneReadLosesAProbe(job: TaskMessage, probe: TaskMessage, w: string, later: seq<Event>)
    requires job.kind == "transcode" && probe.kind == "probe"
    ensures var sys := Happen(INITIAL, [Publish(job), Publish(probe), Read(w)] + later);
            Stranded(sys, Slot(STREAM_PROBE, 0)) && Slot(STREAM_PROBE, 0) !in sys.processed
  {
    TwoAreNew(job, probe);
    ThreeHappen(Publish(job), Publish(probe), Read(w));
    HappenAppend(INITIAL, [Publish(job), Publish(probe), Read(w)], later);
    ReadLosesOther(TwoPublished(job, probe), w, job, Slot(STREAM_TRANSCODE, 0), Slot(STREAM_PROBE, 0), later);
  }
}
