/** The Redis streams the API publishes tasks to, the consumer group the workers read them from, and the
    producer and consumer written against them. */
module RedisStreams {
  import opened Basics

  datatype TaskMessage = TaskMessage(taskUuid: string, videoId: nat, kind: string, params: string)

  const STREAM_TRANSCODE := "tasks:transcode"
  const STREAM_THUMBNAIL := "tasks:thumbnail"
  const STREAM_DRM := "tasks:drm"
  const STREAM_PROBE := "tasks:probe"

  const STREAMS: seq<string> := [STREAM_TRANSCODE, STREAM_THUMBNAIL, STREAM_DRM, STREAM_PROBE]

  const NEW_ENTRIES := ">"

  const CLAIM_COUNT := 10

  function StreamForType(kind: string): string {
    match kind
    case "transcode" => STREAM_TRANSCODE
    case "thumbnail" => STREAM_THUMBNAIL
    case "drm_package" => STREAM_DRM
    case "probe" => STREAM_PROBE
    case _ => STREAM_TRANSCODE
  }

  /** Every type has a stream of its own, named after it but for DRM packaging; a task of an unknown type goes with
      the transcodes. Every consumer reads all of them. */
  lemma PublishedIsRead(kind: string)
    ensures StreamForType(kind) in STREAMS
    ensures kind in ["transcode", "thumbnail", "probe"] ==> StreamForType(kind) == "tasks:" + kind
    ensures kind == "drm_package" ==> StreamForType(kind) == "tasks:drm"
    ensures kind !in ["transcode", "thumbnail", "probe", "drm_package"] ==> StreamForType(kind) == "tasks:transcode"
  {}

  // ---- A stream and its consumer group ----

  datatype Pending = Pending(consumer: string, since: nat) {
    function Idle(now: nat): nat {
      if now >= since then now - since else 0
    }
  }

  /** Entry i is log[i], None when its data does not decode; entries from `next` on are undelivered, those in
      `pending` wait for an acknowledgement, the others are acknowledged. */
  datatype Stream = Stream(log: seq<Option<TaskMessage>>, hasGroup: bool, next: nat, pending: map<nat, Pending>) {
    predicate HasNew() {
      next < |log|
    }

    predicate Acked(id: nat) {
      id < next && id !in pending
    }
  }

  const NO_STREAM := Stream([], false, 0, map[])

  type Streams = map<string, Stream>

  datatype Slot = Slot(stream: string, id: nat)

  function At(streams: Streams, name: string): Stream {
    if name in streams then streams[name] else NO_STREAM
  }

  function Payload(streams: Streams, slot: Slot): Option<TaskMessage> {
    var log := At(streams, slot.stream).log;
    if slot.id < |log| then log[slot.id] else None
  }

  // ---- Redis commands ----

  function XAdd(streams: Streams, name: string, data: Option<TaskMessage>): Streams {
    var s := At(streams, name);
    streams[name := s.(log := s.log + [data])]
  }

  /** XGROUP CREATE ... 0 MKSTREAM; an existing group is left as it is. */
  function XGroupCreate(streams: Streams, name: string): Streams {
    streams[name := At(streams, name).(hasGroup := true)]
  }

  function Deliver(s: Stream, consumer: string, now: nat): Stream {
    s.(next := s.next + 1, pending := s.pending[s.next := Pending(consumer, now)])
  }

  /** The first undelivered entry of every listed stream that has one, in the order of the list. */
  function NewEntries(streams: Streams, names: seq<string>): (slots: seq<Slot>) {
    if names == [] then []
    else (if At(streams, names[0]).HasNew() then [Slot(names[0], streams[names[0]].next)] else [])
         + NewEntries(streams, names[1..])
  }

  /** XREADGROUP ... COUNT 1 STREAMS names > ...: COUNT bounds each stream, not the reply. */
  function XReadGroup(streams: Streams, args: seq<string>, consumer: string, now: nat): Option<(Streams, seq<Slot>)>
    requires |args| % 2 == 0
  {
    var names := args[..|args| / 2];
    if exists name :: name in names && !At(streams, name).hasGroup then None
    else Some((map n | n in streams ::
                 if n in names && streams[n].HasNew() then Deliver(streams[n], consumer, now) else streams[n],
               NewEntries(streams, names)))
  }

  function XAck(streams: Streams, slot: Slot): Streams {
    if slot.stream !in streams then streams
    else var s := streams[slot.stream]; streams[slot.stream := s.(pending := s.pending - {slot.id})]
  }

  /** XPENDING name group - + count: the lowest pending ids. */
  function XPending(pending: map<nat, Pending>, from: nat, next: nat, count: nat): (ids: seq<nat>)
    ensures |ids| <= count
    ensures forall i :: 0 <= i < |ids| ==> from <= ids[i] < next && ids[i] in pending
    ensures forall i, j :: 0 <= i < j < |ids| ==> ids[i] < ids[j]
    decreases next - from
  {
    if from >= next || count == 0 then []
    else if from in pending then [from] + XPending(pending, from + 1, next, count - 1)
    else XPending(pending, from + 1, next, count)
  }

  predicate Claimable(s: Stream, id: nat, minIdle: nat, now: nat) {
    id in s.pending && s.pending[id].Idle(now) >= minIdle
  }

  /** XCLAIM of one id. */
  function XClaim(s: Stream, id: nat, consumer: string, minIdle: nat, now: nat): Stream {
    if Claimable(s, id, minIdle, now) then s.(pending := s.pending[id := Pending(consumer, now)]) else s
  }

  // ---- Reading one task ----

  datatype Poll = Failed | Nothing | Got(task: TaskMessage, slot: Slot)

  /** The first entry of a reply that decodes; the ones before and after it stay pending. */
  function FirstTask(streams: Streams, slots: seq<Slot>): Poll {
    if slots == [] then Nothing
    else if Payload(streams, slots[0]).Some? then Got(Payload(streams, slots[0]).value, slots[0])
    else FirstTask(streams, slots[1..])
  }

  predicate Grouped(streams: Streams) {
    forall name :: name in STREAMS ==> At(streams, name).hasGroup
  }

  function AfterRead(streams: Streams, consumer: string, now: nat): Streams {
    if !Grouped(streams) then streams
    else map n | n in streams ::
           if n in STREAMS && streams[n].HasNew() then Deliver(streams[n], consumer, now) else streams[n]
  }

  function PollOf(streams: Streams): Poll {
    if !Grouped(streams) then Failed else FirstTask(streams, NewEntries(streams, STREAMS))
  }

  // ---- The server and the producer ----

  class Redis {
    var streams: Streams
    var clock: nat

    constructor ()
      ensures streams == map[] && clock == 0
    {
      streams, clock := map[], 0;
    }
  }

  class Producer {
    const rdb: Redis

    constructor (rdb: Redis)
      ensures this.rdb == rdb
    {
      this.rdb := rdb;
    }

    /** Creates the streams and groups that are missing and leaves the others alone. */
    method InitStreams()
      modifies rdb`streams
      ensures Grouped(rdb.streams)
      ensures forall n :: n in old(rdb.streams) || n in STREAMS <==> n in rdb.streams
      ensures forall n :: n in rdb.streams ==>
                rdb.streams[n] == At(old(rdb.streams), n).(hasGroup := n in STREAMS || At(old(rdb.streams), n).hasGroup)
    {
      for i := 0 to |STREAMS|
        invariant forall n :: n in old(rdb.streams) || n in STREAMS[..i] <==> n in rdb.streams
        invariant forall n :: n in rdb.streams ==>
                    rdb.streams[n] == At(old(rdb.streams), n).(hasGroup :=
                      n in STREAMS[..i] || At(old(rdb.streams), n).hasGroup)
      {
        rdb.streams := XGroupCreate(rdb.streams, STREAMS[i]);
        assert STREAMS[..i + 1] == STREAMS[..i] + [STREAMS[i]];
      }
      assert STREAMS[..|STREAMS|] == STREAMS;
    }

    method Publish(msg: TaskMessage)
      modifies rdb`streams
      ensures rdb.streams == XAdd(old(rdb.streams), StreamForType(msg.kind), Some(msg))
    {
      rdb.streams := XAdd(rdb.streams, StreamForType(msg.kind), Some(msg));
    }
  }

  lemma SamePayloads(streams: Streams, consumer: string, now: nat)
    ensures forall slot :: Payload(AfterRead(streams, consumer, now), slot) == Payload(streams, slot)
  {}

  // ---- What a claim does ----

  function TasksAt(s: Stream, ids: seq<nat>): seq<TaskMessage> {
    if ids == [] then []
    else
      var n := |ids| - 1;
      TasksAt(s, ids[..n]) + if ids[n] < |s.log| && s.log[ids[n]].Some? then [s.log[ids[n]].value] else []
  }

  function Claims(s: Stream, ids: seq<nat>, minIdle: nat, now: nat): seq<nat> {
    if ids == [] then []
    else
      var n := |ids| - 1;
      Claims(s, ids[..n], minIdle, now)
      + if Claimable(s, ids[n], minIdle, now) && ids[n] < |s.log| && s.log[ids[n]].Some? then [ids[n]] else []
  }

  lemma ClaimsOneMore(s: Stream, ids: seq<nat>, i: nat, minIdle: nat, now: nat)
    requires i < |ids|
    ensures var got := Claims(s, ids[..i], minIdle, now);
            Claims(s, ids[..i + 1], minIdle, now)
            == if Claimable(s, ids[i], minIdle, now) && ids[i] < |s.log| && s.log[ids[i]].Some? then got + [ids[i]]
               else got
    ensures ids[i] < |s.log| && s.log[ids[i]].Some? ==>
              var got := Claims(s, ids[..i], minIdle, now);
              TasksAt(s, got + [ids[i]]) == TasksAt(s, got) + [s.log[ids[i]].value]
  {
    assert ids[..i + 1][..i] == ids[..i];
    var got := Claims(s, ids[..i], minIdle, now);
    assert (got + [ids[i]])[..|got|] == got;
  }

  predicate Ascending(ids: seq<nat>) {
    forall j, k :: 0 <= j < k < |ids| ==> ids[j] < ids[k]
  }

  function Taken(s: Stream, ids: seq<nat>, consumer: string, minIdle: nat, now: nat): Stream {
    s.(pending := map id | id in s.pending ::
         if id in ids && Claimable(s, id, minIdle, now) then Pending(consumer, now) else s.pending[id])
  }

  lemma TakenOneMore(s: Stream, ids: seq<nat>, i: nat, consumer: string, minIdle: nat, now: nat)
    requires i < |ids| && Ascending(ids)
    ensures var before := Taken(s, ids[..i], consumer, minIdle, now);
            && Claimable(before, ids[i], minIdle, now) == Claimable(s, ids[i], minIdle, now)
            && XClaim(before, ids[i], consumer, minIdle, now) == Taken(s, ids[..i + 1], consumer, minIdle, now)
  {}

  /** The entries XPENDING reports to ClaimPending. */
  function Listed(s: Stream): (ids: seq<nat>)
    ensures |ids| <= CLAIM_COUNT && Ascending(ids)
  {
    XPending(s.pending, 0, s.next, CLAIM_COUNT)
  }

  // ---- The consumer ----

  class Consumer {
    const rdb: Redis
    const consumerId: string
    const streams: seq<string>

    constructor (rdb: Redis, consumerId: string)
      ensures this.rdb == rdb && this.consumerId == consumerId && streams == STREAMS
    {
      this.rdb, this.consumerId, this.streams := rdb, consumerId, STREAMS;
    }

    method ReadTask() returns (poll: Poll)
      requires streams == STREAMS
      modifies rdb`streams
      ensures rdb.streams == AfterRead(old(rdb.streams), consumerId, rdb.clock)
      ensures poll == PollOf(old(rdb.streams))
    {
      var args: seq<string> := [];
      for i := 0 to |streams|
        invariant args == streams[..i]
      {
        args := args + [streams[i]];
      }
      assert args == STREAMS;
      for i := 0 to |streams|
        invariant |args| == |streams| + i && args[..|streams|] == STREAMS
      {
        args := args + [NEW_ENTRIES];
      }
      var results := XReadGroup(rdb.streams, args, consumerId, rdb.clock);
      if results.None? {
        return Failed;
      }
      ghost var before := rdb.streams;
      var slots := results.value.1;
      rdb.streams := results.value.0;
      SamePayloads(before, consumerId, rdb.clock);
      poll := Nothing;
      for i := 0 to |slots|
        invariant poll == Nothing
        invariant FirstTask(before, slots[i..]) == FirstTask(before, slots)
      {
        var data := Payload(rdb.streams, slots[i]);
        if data.Some? {
          return Got(data.value, slots[i]);
        }
      }
    }

    method Ack(slot: Slot)
      modifies rdb`streams
      ensures rdb.streams == XAck(old(rdb.streams), slot)
    {
      rdb.streams := XAck(rdb.streams, slot);
    }

    /** Takes over the entries among the first ten pending that have been idle long enough. The two lists go
        together: ids[k] is one of them and holds tasks[k]. */
    method ClaimPending(stream: string, minIdle: nat)
        returns (ok: bool, tasks: seq<TaskMessage>, ids: seq<nat>)
      modifies rdb`streams
      ensures ok == At(old(rdb.streams), stream).hasGroup
      ensures !ok ==> rdb.streams == old(rdb.streams) && tasks == [] && ids == []
      ensures ok ==> ids == Claims(old(rdb.streams[stream]), Listed(old(rdb.streams[stream])), minIdle, rdb.clock)
      ensures ok ==> tasks == TasksAt(old(rdb.streams[stream]), ids)
      ensures ok ==> rdb.streams == old(rdb.streams)[stream :=
                Taken(old(rdb.streams[stream]), Listed(old(rdb.streams[stream])), consumerId, minIdle, rdb.clock)]
    {
      tasks, ids := [], [];
      ok := At(rdb.streams, stream).hasGroup;
      if !ok {
        return;
      }
      ghost var streams, before := rdb.streams, rdb.streams[stream];
      var s, now := rdb.streams[stream], rdb.clock;
      var pending := Listed(s);
      for i := 0 to |pending|
        invariant rdb.streams == streams[stream := s]
        invariant s == Taken(before, pending[..i], consumerId, minIdle, now)
        invariant ids == Claims(before, pending[..i], minIdle, now) && tasks == TasksAt(before, ids)
      {
        var id := pending[i];
        TakenOneMore(before, pending, i, consumerId, minIdle, now);
        ClaimsOneMore(before, pending, i, minIdle, now);
        if !Claimable(s, id, minIdle, now) {
          continue;
        }
        LastUpdateWins(streams, stream, s, XClaim(s, id, consumerId, minIdle, now));
        s := XClaim(s, id, consumerId, minIdle, now);
        rdb.streams := rdb.streams[stream := s];
        if id < |s.log| && s.log[id].Some? {
          tasks, ids := tasks + [s.log[id].value], ids + [id];
        }
      }
      assert pending[..|pending|] == pending;
    }
  }

  // ---- What a claim returns ----

  predicate IsClaimed(s: Stream, id: nat, minIdle: nat, now: nat) {
    Claimable(s, id, minIdle, now) && id < |s.log| && s.log[id].Some?
  }

  lemma {:induction false} ClaimsAre(s: Stream, listed: seq<nat>, minIdle: nat, now: nat)
    requires Ascending(listed)
    ensures var ids := Claims(s, listed, minIdle, now);
            Ascending(ids) && forall id :: id in ids <==> id in listed && IsClaimed(s, id, minIdle, now)
  {
    if listed != [] {
      var n := |listed| - 1;
      var before := Claims(s, listed[..n], minIdle, now);
      ClaimsAre(s, listed[..n], minIdle, now);
      assert listed == listed[..n] + [listed[n]];
      forall j | 0 <= j < |before| ensures before[j] < listed[n] {
        assert before[j] in before && before[j] in listed[..n];
      }
    }
  }

  lemma {:induction false} TasksAligned(s: Stream, ids: seq<nat>)
    requires forall k :: 0 <= k < |ids| ==> ids[k] < |s.log| && s.log[ids[k]].Some?
    ensures |TasksAt(s, ids)| == |ids|
    ensures forall k :: 0 <= k < |ids| ==> s.log[ids[k]] == Some(TasksAt(s, ids)[k])
  {
    if ids != [] {
      TasksAligned(s, ids[..|ids| - 1]);
    }
  }

  /** The two lists ClaimPending returns go together: ids lists, in ascending order, the claimed entries that
      decode, and tasks[k] is what ids[k] holds. */
  lemma ClaimsAligned(s: Stream, listed: seq<nat>, minIdle: nat, now: nat)
    requires Ascending(listed)
    ensures var ids := Claims(s, listed, minIdle, now);
            var tasks := TasksAt(s, ids);
            && |tasks| == |ids| && Ascending(ids)
            && (forall id :: id in ids <==> id in listed && IsClaimed(s, id, minIdle, now))
            && (forall k :: 0 <= k < |ids| ==> ids[k] < |s.log| && s.log[ids[k]] == Some(tasks[k]))
  {
    ClaimsAre(s, listed, minIdle, now);
    var ids := Claims(s, listed, minIdle, now);
    forall k | 0 <= k < |ids| ensures IsClaimed(s, ids[k], minIdle, now) {
      assert ids[k] in ids;
    }
    TasksAligned(s, ids);
  }

  // ---- Which entries a claim takes ----

  function Ahead(pending: map<nat, Pending>, from: nat, id: nat): set<nat> {
    set j | j in pending && from <= j < id
  }

  /** XPENDING lists an id exactly if fewer than `count` pending ids come before it. */
  lemma {:induction false} ListedIff(pending: map<nat, Pending>, from: nat, next: nat, count: nat, id: nat)
    requires id in pending && from <= id < next
    ensures id in XPending(pending, from, next, count) <==> |Ahead(pending, from, id)| < count
    decreases next - from
  {
    if count > 0 && from < id {
      if from in pending {
        ListedIff(pending, from + 1, next, count - 1, id);
        assert Ahead(pending, from, id) == {from} + Ahead(pending, from + 1, id);
      } else {
        ListedIff(pending, from + 1, next, count, id);
        assert Ahead(pending, from, id) == Ahead(pending, from + 1, id);
      }
    } else if count > 0 {
      assert Ahead(pending, from, id) == {};
    }
  }

  /** A claim gives a pending entry to the claiming consumer, as of now, exactly if fewer than ten entries pend before
      it and it has been pending for the minimum time; every other entry stays with its consumer. */
  lemma ClaimTakes(s: Stream, consumer: string, minIdle: nat, now: nat)
    requires forall id :: id in s.pending ==> id < s.next
    ensures var s' := Taken(s, Listed(s), consumer, minIdle, now);
            && s' == s.(pending := s'.pending) && s'.pending.Keys == s.pending.Keys
            && forall id :: id in s.pending ==>
                 s'.pending[id] == if |Ahead(s.pending, 0, id)| < 10
                                      && (s.pending[id].since + minIdle <= now || minIdle == 0)
                                   then Pending(consumer, now) else s.pending[id]
  {
    forall id | id in s.pending ensures id in Listed(s) <==> |Ahead(s.pending, 0, id)| < 10 {
      ListedIff(s.pending, 0, s.next, CLAIM_COUNT, id);
    }
  }
}
