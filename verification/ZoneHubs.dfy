/** The market-data hub: a sequenced stream per zone, joined by subscribers at any moment while
    one publisher per zone stamps and sends. */
module ZoneHubs {
  import opened Options

  const ZONE_CHANNEL_CAPACITY: nat := 512

  /** Domain events, with the zone each carries and an uninterpreted payload. */
  datatype Event =
    | OrderCreated(zone: Option<int>, data: int)
    | OrderMatched(zone: Option<int>, data: int)
    | OrderUpdate(zone: Option<int>, data: int)
    | PeakPriceUpdate(zone: Option<int>, data: int)
    | SettlementRequested(buyerZone: Option<int>, data: int)
    | OtherEvent(data: int)

  datatype Frame = Frame(kind: string, seqNo: nat, zone: int, data: int)

  /** Zone and browser-facing name, or `None` when the event must not be broadcast. */
  function Routable(event: Event): Option<(int, string)> {
    var (zone, kind) :=
      match event
      case OrderCreated(z, _) => (z, "order_created")
      case OrderMatched(z, _) => (z, "order_matched")
      case OrderUpdate(z, _) => (z, "order_update")
      case PeakPriceUpdate(z, _) => (z, "peak_price_update")
      case SettlementRequested(z, _) => (z, "settlement_requested")
      case OtherEvent(_) => (None, "");
    if zone.Some? then Some((zone.value, kind)) else None
  }

  /** How far the zone's publisher is with its current frame. */
  datatype Flight = Landed | Stamped(frame: Frame) | SentToZone(frame: Frame)

  /** A zone's last stamped number and the frames broadcast on its channel so far. */
  datatype ZoneChannel = ZoneChannel(seqNo: nat, sent: seq<Frame>, flight: Flight)

  const NEW_CHANNEL := ZoneChannel(0, [], Landed)

  /** A place in a broadcast ring: the next frame to read, where the frames read since joining
      (or since the last lag) begin, those frames, and how much was delivered or lost in all. */
  datatype Receiver = Receiver(start: nat, base: nat, next: nat, frames: seq<Frame>, delivered: nat, missed: nat)

  function Joined(log: seq<Frame>): Receiver { Receiver(|log|, |log|, |log|, [], 0, 0) }

  /** Read one frame. A receiver more than a ring behind is told how many frames it lost and
      continues at the oldest one kept. */
  function Receive(r: Receiver, log: seq<Frame>): Receiver
    requires r.next < |log|
  {
    var oldest := |log| - ZONE_CHANNEL_CAPACITY;
    if r.next < oldest then Receiver(r.start, oldest, oldest, [], r.delivered, r.missed + (oldest - r.next))
    else r.(next := r.next + 1, frames := r.frames + [log[r.next]], delivered := r.delivered + 1)
  }

  predicate Lags(r: Receiver, log: seq<Frame>) { r.next + ZONE_CHANNEL_CAPACITY < |log| }

  /** A subscriber of one zone and the number it was last told to splice at. */
  datatype Subscriber = Subscriber(zone: int, rx: Receiver, told: Option<nat>)

  datatype Hub = Hub(zones: map<int, ZoneChannel>, firehose: seq<Frame>, subscribers: map<nat, Subscriber>, watchers: map<nat, Receiver>) {
    /** Zones are created on first use. */
    function Zone(z: int): ZoneChannel { if z in zones then zones[z] else NEW_CHANNEL }

    function WithZone(z: int, c: ZoneChannel): Hub { this.(zones := zones[z := c]) }

    function CurrentSeq(z: int): nat { if z in zones then zones[z].seqNo else 0 }
  }

  const NewHub := Hub(map[], [], map[], map[])

  datatype Step =
    | Stamp(event: Event)
    | SendZone(zone: int)
    | SendAll(zone: int)
    | Open(sub: nat, zone: int)
    | Tell(sub: nat)
    | Next(sub: nat)
    | OpenAll(watcher: nat)
    | NextAll(watcher: nat)

  /** One publisher per zone: it stamps a frame only when its last one has been sent. */
  ghost predicate Enabled(h: Hub, step: Step) {
    match step
    case Stamp(event) => Routable(event).Some? ==> h.Zone(Routable(event).value.0).flight.Landed?
    case SendZone(z) => h.Zone(z).flight.Stamped?
    case SendAll(z) => h.Zone(z).flight.SentToZone?
    case Open(sub, z) => sub !in h.subscribers
    case Tell(sub) => sub in h.subscribers
    case Next(sub) => sub in h.subscribers && h.subscribers[sub].rx.next < |h.Zone(h.subscribers[sub].zone).sent|
    case OpenAll(w) => w !in h.watchers
    case NextAll(w) => w in h.watchers && h.watchers[w].next < |h.firehose|
  }

  function Apply(h: Hub, step: Step): Hub
    requires Enabled(h, step)
  {
    match step
    case Stamp(event) =>
      (match Routable(event)
       case None => h
       case Some((z, kind)) =>
         var c := h.Zone(z);
         h.WithZone(z, c.(seqNo := c.seqNo + 1, flight := Stamped(Frame(kind, c.seqNo + 1, z, event.data)))))
    case SendZone(z) =>
      var c := h.Zone(z);
      h.WithZone(z, c.(sent := c.sent + [c.flight.frame], flight := SentToZone(c.flight.frame)))
    case SendAll(z) =>
      var c := h.Zone(z);
      h.WithZone(z, c.(flight := Landed)).(firehose := h.firehose + [c.flight.frame])
    case Open(sub, z) =>
      h.WithZone(z, h.Zone(z)).(subscribers := h.subscribers[sub := Subscriber(z, Joined(h.Zone(z).sent), None)])
    case Tell(sub) =>
      var s := h.subscribers[sub];
      h.(subscribers := h.subscribers[sub := s.(told := Some(h.CurrentSeq(s.zone)))])
    case Next(sub) =>
      var s := h.subscribers[sub];
      var log := h.Zone(s.zone).sent;
      h.(subscribers := h.subscribers[sub := Subscriber(s.zone, Receive(s.rx, log), if Lags(s.rx, log) then None else s.told)])
    case OpenAll(w) => h.(watchers := h.watchers[w := Joined(h.firehose)])
    case NextAll(w) => h.(watchers := h.watchers[w := Receive(h.watchers[w], h.firehose)])
  }

  ghost predicate IsRun(trace: seq<Hub>, steps: seq<Step>) {
    && |trace| == |steps| + 1
    && forall k :: 0 <= k < |steps| ==> Enabled(trace[k], steps[k]) && trace[k + 1] == Apply(trace[k], steps[k])
  }

  // ---------- The invariant ----------

  /** Frames of a zone are numbered from 1 without gaps. */
  ghost predicate Numbered(log: seq<Frame>, z: int) {
    forall i :: 0 <= i < |log| ==> log[i].seqNo == i + 1 && log[i].zone == z
  }

  /** Frames of one zone in a mixed log. */
  function InZone(log: seq<Frame>, z: int): seq<Frame> {
    if log == [] then []
    else InZone(log[..|log| - 1], z) + (if log[|log| - 1].zone == z then [log[|log| - 1]] else [])
  }

  ghost predicate ChannelOk(c: ZoneChannel, z: int, firehose: seq<Frame>) {
    && Numbered(c.sent, z)
    && match c.flight {
         case Landed => c.seqNo == |c.sent| && InZone(firehose, z) == c.sent
         case Stamped(f) => c.seqNo == |c.sent| + 1 && f.seqNo == c.seqNo && f.zone == z && InZone(firehose, z) == c.sent
         case SentToZone(f) => c.seqNo == |c.sent| && InZone(firehose, z) + [f] == c.sent
       }
  }

  /** A receiver holds exactly the frames from its base on, and every position since it joined
      was delivered or announced as lost. */
  ghost predicate ReceiverOk(r: Receiver, log: seq<Frame>) {
    && r.start <= r.base <= r.next <= |log|
    && r.frames == log[r.base..r.next]
    && r.start + r.delivered + r.missed == r.next
    && (r.missed == 0 ==> r.base == r.start)
  }

  ghost predicate SubscriberOk(s: Subscriber, c: ZoneChannel) {
    ReceiverOk(s.rx, c.sent) && (s.told.Some? ==> s.rx.base <= s.told.value <= c.seqNo)
  }

  ghost predicate HubOk(h: Hub) {
    && (forall z :: ChannelOk(h.Zone(z), z, h.firehose))
    && (forall sub :: sub in h.subscribers ==> SubscriberOk(h.subscribers[sub], h.Zone(h.subscribers[sub].zone)))
    && (forall w :: w in h.watchers ==> ReceiverOk(h.watchers[w], h.firehose))
  }

  lemma ReceiveOk(r: Receiver, log: seq<Frame>)
    requires ReceiverOk(r, log) && r.next < |log|
    ensures ReceiverOk(Receive(r, log), log)
  {
  }

  lemma ReceiverGrows(r: Receiver, log: seq<Frame>, f: Frame)
    requires ReceiverOk(r, log)
    ensures ReceiverOk(r, log + [f])
  {
  }

  lemma InZoneNext(log: seq<Frame>, f: Frame, z: int)
    ensures InZone(log + [f], z) == InZone(log, z) + (if f.zone == z then [f] else [])
  {
    assert (log + [f])[..|log + [f]| - 1] == log;
  }

  /** A publisher step on one zone keeps the hub if its channel only grows. */
  lemma PublishKeepsHub(h: Hub, z: int, c: ZoneChannel, firehose: seq<Frame>)
    requires HubOk(h) && ChannelOk(c, z, firehose)
    requires c.seqNo >= h.Zone(z).seqNo
    requires c.sent == h.Zone(z).sent || exists f :: c.sent == h.Zone(z).sent + [f]
    requires firehose == h.firehose || exists f: Frame :: f.zone == z && firehose == h.firehose + [f]
    ensures HubOk(h.WithZone(z, c).(firehose := firehose))
  {
    hide Numbered, ReceiverOk;
    var r := h.WithZone(z, c).(firehose := firehose);
    forall y ensures ChannelOk(r.Zone(y), y, firehose) {
      assert ChannelOk(h.Zone(y), y, h.firehose);
      if y == z {
        assert r.Zone(y) == c;
      } else {
        assert r.Zone(y) == h.Zone(y);
        if firehose != h.firehose {
          var f: Frame :| f.zone == z && firehose == h.firehose + [f];
          InZoneNext(h.firehose, f, y);
        }
        assert InZone(firehose, y) == InZone(h.firehose, y);
      }
    }
    forall sub | sub in h.subscribers ensures SubscriberOk(h.subscribers[sub], r.Zone(h.subscribers[sub].zone)) {
      var s := h.subscribers[sub];
      if s.zone == z && c.sent != h.Zone(z).sent {
        var f :| c.sent == h.Zone(z).sent + [f];
        ReceiverGrows(s.rx, h.Zone(z).sent, f);
      }
    }
    forall w | w in h.watchers ensures ReceiverOk(h.watchers[w], firehose) {
      if firehose != h.firehose {
        var f: Frame :| f.zone == z && firehose == h.firehose + [f];
        ReceiverGrows(h.watchers[w], h.firehose, f);
      }
    }
  }

  lemma ChannelIsOk(h: Hub, z: int)
    requires HubOk(h)
    ensures ChannelOk(h.Zone(z), z, h.firehose)
  {
    hide ChannelOk, SubscriberOk, ReceiverOk;
  }

  lemma StampKeepsHub(h: Hub, event: Event)
    requires HubOk(h) && Enabled(h, Stamp(event))
    ensures HubOk(Apply(h, Stamp(event)))
  {
    hide HubOk, Numbered, InZone;
    if Routable(event).Some? {
      var z := Routable(event).value.0;
      ChannelIsOk(h, z);
      PublishKeepsHub(h, z, Apply(h, Stamp(event)).Zone(z), h.firehose);
    }
  }

  lemma SendZoneKeepsHub(h: Hub, z: int)
    requires HubOk(h) && Enabled(h, SendZone(z))
    ensures HubOk(Apply(h, SendZone(z)))
  {
    hide HubOk, InZone;
    ChannelIsOk(h, z);
    PublishKeepsHub(h, z, Apply(h, SendZone(z)).Zone(z), h.firehose);
  }

  lemma SendAllKeepsHub(h: Hub, z: int)
    requires HubOk(h) && Enabled(h, SendAll(z))
    ensures HubOk(Apply(h, SendAll(z)))
  {
    hide HubOk, InZone, Numbered;
    var c := h.Zone(z);
    ChannelIsOk(h, z);
    InZoneNext(h.firehose, c.flight.frame, z);
    assert c.sent[|c.sent| - 1] == c.flight.frame;
    SentIsOfZone(c, z);
    PublishKeepsHub(h, z, c.(flight := Landed), h.firehose + [c.flight.frame]);
  }

  lemma SentIsOfZone(c: ZoneChannel, z: int)
    requires Numbered(c.sent, z) && c.sent != []
    ensures c.sent[|c.sent| - 1].zone == z
  {
  }

  lemma SubscriberKeepsHub(h: Hub, sub: nat, s: Subscriber)
    requires HubOk(h) && SubscriberOk(s, h.Zone(s.zone))
    ensures HubOk(h.(subscribers := h.subscribers[sub := s]))
  {
    hide ChannelOk, SubscriberOk, ReceiverOk;
    var r := h.(subscribers := h.subscribers[sub := s]);
    forall y ensures r.Zone(y) == h.Zone(y) && ChannelOk(r.Zone(y), y, r.firehose) {
    }
  }

  /** What a subscriber becomes by reading one frame. */
  function Read(s: Subscriber, log: seq<Frame>): Subscriber
    requires s.rx.next < |log|
  {
    Subscriber(s.zone, Receive(s.rx, log), if Lags(s.rx, log) then None else s.told)
  }

  lemma ReadIsOk(s: Subscriber, c: ZoneChannel)
    requires SubscriberOk(s, c) && s.rx.next < |c.sent|
    ensures SubscriberOk(Read(s, c.sent), c)
  {
    ReceiveOk(s.rx, c.sent);
  }

  lemma NextIs(h: Hub, sub: nat)
    requires Enabled(h, Next(sub))
    ensures var s := h.subscribers[sub];
      Apply(h, Next(sub)) == h.(subscribers := h.subscribers[sub := Read(s, h.Zone(s.zone).sent)])
  {
  }

  lemma SubscriberIsOk(h: Hub, sub: nat)
    requires HubOk(h) && sub in h.subscribers
    ensures SubscriberOk(h.subscribers[sub], h.Zone(h.subscribers[sub].zone))
  {
    hide SubscriberOk, ChannelOk, ReceiverOk;
  }

  lemma NextKeepsHub(h: Hub, sub: nat)
    requires HubOk(h) && Enabled(h, Next(sub))
    ensures HubOk(Apply(h, Next(sub)))
  {
    hide HubOk, SubscriberOk, Receive, Lags, Apply;
    var s := h.subscribers[sub];
    NextIs(h, sub);
    SubscriberIsOk(h, sub);
    NextReads(h, sub);
    SubscriberKeepsHub(h, sub, Read(s, h.Zone(s.zone).sent));
  }

  lemma NextReads(h: Hub, sub: nat)
    requires Enabled(h, Next(sub))
    requires SubscriberOk(h.subscribers[sub], h.Zone(h.subscribers[sub].zone))
    ensures var s := h.subscribers[sub];
      s.rx.next < |h.Zone(s.zone).sent|
      && Read(s, h.Zone(s.zone).sent).zone == s.zone
      && SubscriberOk(Read(s, h.Zone(s.zone).sent), h.Zone(s.zone))
  {
    ReadIsOk(h.subscribers[sub], h.Zone(h.subscribers[sub].zone));
  }

  /** The hub with a zone's channel created, if it was not yet there. */
  function Created(h: Hub, z: int): Hub { h.WithZone(z, h.Zone(z)) }

  lemma CreatedKeepsHub(h: Hub, z: int)
    requires HubOk(h)
    ensures HubOk(Created(h, z)) && Created(h, z).Zone(z) == h.Zone(z) && Created(h, z).subscribers == h.subscribers
  {
    hide ChannelOk, SubscriberOk, ReceiverOk;
    var r := Created(h, z);
    forall y ensures r.Zone(y) == h.Zone(y) && ChannelOk(r.Zone(y), y, r.firehose) {
    }
  }

  lemma OpenIs(h: Hub, sub: nat, z: int)
    requires Enabled(h, Open(sub, z))
    ensures Apply(h, Open(sub, z))
      == Created(h, z).(subscribers := Created(h, z).subscribers[sub := Subscriber(z, Joined(Created(h, z).Zone(z).sent), None)])
  {
  }

  lemma JoinedIsOk(c: ZoneChannel, z: int)
    ensures SubscriberOk(Subscriber(z, Joined(c.sent), None), c)
  {
  }

  lemma OpenKeepsHub(h: Hub, sub: nat, z: int)
    requires HubOk(h) && Enabled(h, Open(sub, z))
    ensures HubOk(Apply(h, Open(sub, z)))
  {
    hide HubOk, SubscriberOk, Joined, Created, Apply;
    OpenIs(h, sub, z);
    var joined := Subscriber(z, Joined(Created(h, z).Zone(z).sent), None);
    CreatedKeepsHub(h, z);
    JoinedIsOk(Created(h, z).Zone(z), z);
    SubscriberKeepsHub(Created(h, z), sub, joined);
  }

  /** Every step keeps the hub. */
  lemma StepKeepsHub(h: Hub, step: Step)
    requires HubOk(h) && Enabled(h, step)
    ensures HubOk(Apply(h, step))
  {
    match step {
      case Stamp(event) => StampKeepsHub(h, event);
      case SendZone(z) => SendZoneKeepsHub(h, z);
      case SendAll(z) => SendAllKeepsHub(h, z);
      case Open(sub, z) => OpenKeepsHub(h, sub, z);
      case Tell(sub) => TellKeepsHub(h, sub);
      case Next(sub) => NextKeepsHub(h, sub);
      case OpenAll(w) => OpenAllKeepsHub(h, w);
      case NextAll(w) => NextAllKeepsHub(h, w);
    }
  }

  lemma TellKeepsHub(h: Hub, sub: nat)
    requires HubOk(h) && Enabled(h, Tell(sub))
    ensures HubOk(Apply(h, Tell(sub)))
  {
    hide HubOk, SubscriberOk, Apply;
    var s := h.subscribers[sub];
    TellIs(h, sub);
    CurrentIsTold(h, sub);
    SubscriberKeepsHub(h, sub, s.(told := Some(h.CurrentSeq(s.zone))));
  }

  lemma TellIs(h: Hub, sub: nat)
    requires Enabled(h, Tell(sub))
    ensures var s := h.subscribers[sub];
      Apply(h, Tell(sub)) == h.(subscribers := h.subscribers[sub := s.(told := Some(h.CurrentSeq(s.zone)))])
  {
  }

  lemma CurrentIsTold(h: Hub, sub: nat)
    requires HubOk(h) && sub in h.subscribers
    ensures var s := h.subscribers[sub]; SubscriberOk(s.(told := Some(h.CurrentSeq(s.zone))), h.Zone(s.zone))
  {
    hide HubOk, SubscriberOk, ChannelOk;
    var s := h.subscribers[sub];
    SubscriberIsOk(h, sub);
    ChannelIsOk(h, s.zone);
    ToldIsOk(s, h.Zone(s.zone), s.zone, h.firehose);
  }

  lemma ToldIsOk(s: Subscriber, c: ZoneChannel, z: int, firehose: seq<Frame>)
    requires SubscriberOk(s, c) && ChannelOk(c, z, firehose)
    ensures SubscriberOk(s.(told := Some(c.seqNo)), c)
  {
    hide InZone, Numbered;
  }

  lemma OpenAllKeepsHub(h: Hub, w: nat)
    requires HubOk(h) && Enabled(h, OpenAll(w))
    ensures HubOk(Apply(h, OpenAll(w)))
  {
    hide HubOk;
    var rx := Joined(h.firehose);
    assert ReceiverOk(rx, h.firehose);
    WatcherKeepsHub(h, w, rx);
  }

  lemma NextAllKeepsHub(h: Hub, w: nat)
    requires HubOk(h) && Enabled(h, NextAll(w))
    ensures HubOk(Apply(h, NextAll(w)))
  {
    hide HubOk, ReceiverOk;
    WatcherIsOk(h, w);
    ReceiveOk(h.watchers[w], h.firehose);
    WatcherKeepsHub(h, w, Receive(h.watchers[w], h.firehose));
  }

  lemma WatcherIsOk(h: Hub, w: nat)
    requires HubOk(h) && w in h.watchers
    ensures ReceiverOk(h.watchers[w], h.firehose)
  {
    hide ChannelOk, SubscriberOk, ReceiverOk;
  }

  lemma WatcherKeepsHub(h: Hub, w: nat, rx: Receiver)
    requires HubOk(h) && ReceiverOk(rx, h.firehose)
    ensures HubOk(h.(watchers := h.watchers[w := rx]))
  {
    hide ChannelOk, ReceiverOk;
    var r := h.(watchers := h.watchers[w := rx]);
    forall y ensures ChannelOk(r.Zone(y), y, r.firehose) {
      assert r.Zone(y) == h.Zone(y);
    }
  }

  lemma {:induction false} RunKeepsHub(trace: seq<Hub>, steps: seq<Step>, k: nat)
    requires IsRun(trace, steps) && trace[0] == NewHub && k <= |steps|
    ensures HubOk(trace[k])
  {
    if k > 0 {
      RunKeepsHub(trace, steps, k - 1);
      hide HubOk, Apply;
      StepKeepsHub(trace[k - 1], steps[k - 1]);
    }
  }

  // ---------- What a subscriber may rely on ----------

  /** Gap-free joining: at every moment of every run, a subscriber told `s` (on joining, or again
      after a lag) holds consecutively numbered frames of its zone, starting no later than
      `s + 1`, and among them every frame above `s` that it has got to; once it has caught up it
      holds every frame above `s` ever sent. Whatever it did not get was announced. */
  lemma GapFreeJoining(trace: seq<Hub>, steps: seq<Step>, k: nat, sub: nat, s: nat)
    requires IsRun(trace, steps) && trace[0] == NewHub && k <= |steps|
    requires sub in trace[k].subscribers && trace[k].subscribers[sub].told == Some(s)
    ensures var z, rx := trace[k].subscribers[sub].zone, trace[k].subscribers[sub].rx;
      var sent := trace[k].Zone(z).sent;
      && (forall i :: 0 <= i < |rx.frames| ==> rx.frames[i].seqNo == rx.base + i + 1 && rx.frames[i].zone == z)
      && rx.base <= s
      && (forall i :: 0 <= i < |sent| && s < sent[i].seqNo <= rx.next ==> sent[i] in rx.frames)
      && (rx.next == |sent| ==> forall i :: 0 <= i < |sent| && s < sent[i].seqNo ==> sent[i] in rx.frames)
      && rx.start + rx.delivered + rx.missed == rx.next
  {
    hide HubOk, InZone;
    RunKeepsHub(trace, steps, k);
    var h := trace[k];
    SubscriberIsOk(h, sub);
    ChannelIsOk(h, h.subscribers[sub].zone);
    HoldsAllAbove(h.subscribers[sub], h.Zone(h.subscribers[sub].zone), s);
  }

  lemma HoldsAllAbove(sb: Subscriber, c: ZoneChannel, s: nat)
    requires SubscriberOk(sb, c) && Numbered(c.sent, sb.zone) && sb.told == Some(s)
    ensures forall i :: 0 <= i < |sb.rx.frames| ==> sb.rx.frames[i].seqNo == sb.rx.base + i + 1 && sb.rx.frames[i].zone == sb.zone
    ensures forall i :: 0 <= i < |c.sent| && s < c.sent[i].seqNo <= sb.rx.next ==> c.sent[i] in sb.rx.frames
  {
    var sent, rx := c.sent, sb.rx;
    forall i | 0 <= i < |sent| && s < sent[i].seqNo <= rx.next ensures sent[i] in rx.frames {
      assert rx.frames[i - rx.base] == sent[i];
    }
  }

  /** Market-wide subscribers see each zone's own numbering: the zone's frames on the firehose
      are 1, 2, 3, ... with none missing, up to one still on its way. */
  lemma FirehoseKeepsZoneOrder(trace: seq<Hub>, steps: seq<Step>, k: nat, z: int)
    requires IsRun(trace, steps) && trace[0] == NewHub && k <= |steps|
    ensures var frames := InZone(trace[k].firehose, z);
      Numbered(frames, z) && trace[k].CurrentSeq(z) - 1 <= |frames| <= trace[k].CurrentSeq(z)
  {
    hide HubOk, InZone;
    RunKeepsHub(trace, steps, k);
    var h := trace[k];
    ChannelIsOk(h, z);
    var c := h.Zone(z);
    forall i | 0 <= i < |InZone(h.firehose, z)|
      ensures InZone(h.firehose, z)[i].seqNo == i + 1 && InZone(h.firehose, z)[i].zone == z
    {
      assert InZone(h.firehose, z)[i] == c.sent[i];
    }
  }

  lemma {:induction false} InZoneAppend(a: seq<Frame>, b: seq<Frame>, z: int)
    ensures InZone(a + b, z) == InZone(a, z) + InZone(b, z)
    decreases |b|
  {
    if b == [] {
      assert a + b == a;
    } else {
      InZoneAppend(a, b[..|b| - 1], z);
      assert (a + b)[..|a + b| - 1] == a + b[..|b| - 1];
    }
  }

  /** A market-wide subscriber holds, of every zone, consecutively numbered frames from the
      first it did not have when it joined (or last lagged), and what it lost was announced. */
  lemma MarketWideStream(trace: seq<Hub>, steps: seq<Step>, k: nat, w: nat, z: int)
    requires IsRun(trace, steps) && trace[0] == NewHub && k <= |steps| && w in trace[k].watchers
    ensures var rx, firehose := trace[k].watchers[w], trace[k].firehose;
      && rx.base <= |firehose| && rx.start + rx.delivered + rx.missed == rx.next
      && forall i :: 0 <= i < |InZone(rx.frames, z)| ==>
           InZone(rx.frames, z)[i].seqNo == |InZone(firehose[..rx.base], z)| + i + 1
  {
    hide HubOk, InZone;
    RunKeepsHub(trace, steps, k);
    FirehoseKeepsZoneOrder(trace, steps, k, z);
    var h := trace[k];
    WatcherIsOk(h, w);
    var rx := h.watchers[w];
    var before, behind := h.firehose[..rx.base], h.firehose[rx.next..];
    assert h.firehose == before + rx.frames + behind;
    InZoneAppend(before, rx.frames, z);
    InZoneAppend(before + rx.frames, behind, z);
    var all := InZone(h.firehose, z);
    forall i | 0 <= i < |InZone(rx.frames, z)|
      ensures InZone(rx.frames, z)[i].seqNo == |InZone(before, z)| + i + 1
    {
      assert InZone(rx.frames, z)[i] == all[|InZone(before, z)| + i];
    }
  }

  // ---------- A zone's stream is its events ----------

  /** The frame carries this event: its zone, its public name and its payload. */
  ghost predicate Carries(f: Frame, event: Event) {
    f.data == event.data
    && match event
       case OrderCreated(z, _) => z == Some(f.zone) && f.kind == "order_created"
       case OrderMatched(z, _) => z == Some(f.zone) && f.kind == "order_matched"
       case OrderUpdate(z, _) => z == Some(f.zone) && f.kind == "order_update"
       case PeakPriceUpdate(z, _) => z == Some(f.zone) && f.kind == "peak_price_update"
       case SettlementRequested(z, _) => z == Some(f.zone) && f.kind == "settlement_requested"
       case OtherEvent(_) => false
  }

  /** The event belongs to this zone's stream. */
  predicate BelongsTo(event: Event, z: int) {
    !event.OtherEvent? && (if event.SettlementRequested? then event.buyerZone == Some(z) else event.zone == Some(z))
  }

  /** Events published for a zone in the first `k` steps. */
  ghost function PublishedTo(steps: seq<Step>, k: nat, z: int): seq<Event>
    requires k <= |steps|
  {
    if k == 0 then []
    else
      PublishedTo(steps, k - 1, z)
      + (if steps[k - 1].Stamp? && BelongsTo(steps[k - 1].event, z) then [steps[k - 1].event] else [])
  }

  /** What a zone has sent, and the frame on its way. */
  ghost function Stream(c: ZoneChannel): seq<Frame> {
    c.sent + (if c.flight.Stamped? then [c.flight.frame] else [])
  }

  ghost predicate StreamCarries(stream: seq<Frame>, events: seq<Event>) {
    |stream| == |events| && forall i :: 0 <= i < |stream| ==> Carries(stream[i], events[i])
  }

  lemma StampCarries(h: Hub, event: Event, z: int)
    requires Enabled(h, Stamp(event))
    ensures BelongsTo(event, z) ==>
      exists f :: Stream(Apply(h, Stamp(event)).Zone(z)) == Stream(h.Zone(z)) + [f] && Carries(f, event)
    ensures !BelongsTo(event, z) ==> Stream(Apply(h, Stamp(event)).Zone(z)) == Stream(h.Zone(z))
  {
    var r := Apply(h, Stamp(event));
    if BelongsTo(event, z) {
      var f := r.Zone(z).flight.frame;
      assert Stream(h.Zone(z)) == h.Zone(z).sent;
      assert Stream(r.Zone(z)) == h.Zone(z).sent + [f] && Carries(f, event);
    }
  }

  lemma OthersKeepStream(h: Hub, step: Step, z: int)
    requires Enabled(h, step) && !step.Stamp?
    ensures Stream(Apply(h, step).Zone(z)) == Stream(h.Zone(z))
  {
  }

  /** Each zone's stream is exactly the events published for it, in order, each under its own name
      and with its own payload. */
  lemma {:induction false} StreamIsItsEvents(trace: seq<Hub>, steps: seq<Step>, k: nat, z: int)
    requires IsRun(trace, steps) && trace[0] == NewHub && k <= |steps|
    ensures StreamCarries(Stream(trace[k].Zone(z)), PublishedTo(steps, k, z))
  {
    hide Apply, Enabled, Carries, BelongsTo, Stream;
    if k == 0 {
      assert Stream(NewHub.Zone(z)) == [] by { NothingStreamed(z); }
    } else {
      StreamIsItsEvents(trace, steps, k - 1, z);
      if steps[k - 1].Stamp? {
        StampCarries(trace[k - 1], steps[k - 1].event, z);
      } else {
        OthersKeepStream(trace[k - 1], steps[k - 1], z);
      }
    }
  }

  lemma NothingStreamed(z: int)
    ensures Stream(NewHub.Zone(z)) == []
  {
  }

  /** Reading takes the next frame while the receiver is within the ring; past it, what was pushed
      out is counted as lost, no frame more, and reading goes on at the oldest frame kept. */
  lemma ReadsOrLoses(r: Receiver, log: seq<Frame>)
    requires r.next < |log|
    ensures var after, behind := Receive(r, log), |log| - r.next;
      if behind <= 512 then
        && after.next == r.next + 1 && after.frames == r.frames + [log[r.next]]
        && after.delivered == r.delivered + 1 && after.missed == r.missed && after.base == r.base
      else
        && after.next == |log| - 512 && after.frames == [] && after.base == after.next
        && after.missed == r.missed + behind - 512 && after.delivered == r.delivered
  {
  }

  /** An event without a zone, or outside the market-data contract, stamps nothing. */
  lemma ZonelessConsumesNothing(h: Hub, event: Event)
    requires Enabled(h, Stamp(event))
    ensures (event.OtherEvent? || (!event.SettlementRequested? && event.zone.None?) || (event.SettlementRequested? && event.buyerZone.None?))
      <==> Apply(h, Stamp(event)) == h
  {
    if Routable(event).Some? {
      var z := Routable(event).value.0;
      assert Apply(h, Stamp(event)).Zone(z).seqNo == h.Zone(z).seqNo + 1;
    }
  }

  /** The order of the two halves of subscribing matters: had the number been read first, a frame
      sent in between would be above it and yet never delivered, with nothing announced. */
  lemma ReadingFirstLosesFrame(h: Hub, event: Event, sub: nat)
    requires HubOk(h) && Routable(event).Some? && Enabled(h, Stamp(event)) && sub !in h.subscribers
    ensures var z := Routable(event).value.0;
      var s := h.CurrentSeq(z);
      var published := Apply(Apply(h, Stamp(event)), SendZone(z));
      var joined := Apply(published, Open(sub, z));
      var rx := joined.subscribers[sub].rx;
      var sent := joined.Zone(z).sent;
      && |sent| > 0 && sent[|sent| - 1].seqNo == s + 1 && sent[|sent| - 1] !in rx.frames
      && rx.next == |sent| && rx.missed == 0
  {
    hide HubOk;
    ChannelIsOk(h, Routable(event).value.0);
  }

  // ---------- The hub itself ----------

  /** No publisher is between stamping and sending. */
  ghost predicate Quiet(h: Hub) {
    forall z :: h.Zone(z).flight.Landed?
  }

  /** Publishing with nothing interleaved: stamp, send to the zone, send to everyone. */
  ghost function Published(h: Hub, event: Event): Hub
    requires Quiet(h)
  {
    match Routable(event)
    case None => h
    case Some((z, _)) => Apply(Apply(Apply(h, Stamp(event)), SendZone(z)), SendAll(z))
  }

  lemma PublishedKeepsHub(h: Hub, event: Event)
    requires Quiet(h) && HubOk(h)
    ensures HubOk(Published(h, event)) && Quiet(Published(h, event))
  {
    hide HubOk;
    if Routable(event).Some? {
      var z := Routable(event).value.0;
      StampKeepsHub(h, event);
      SendZoneKeepsHub(Apply(h, Stamp(event)), z);
      SendAllKeepsHub(Apply(Apply(h, Stamp(event)), SendZone(z)), z);
      forall y ensures Published(h, event).Zone(y).flight.Landed? {
        assert h.Zone(y).flight.Landed?;
      }
    }
  }

  class ZoneHub {
    var zones: map<int, ZoneChannel>
    var firehose: seq<Frame>

    ghost function State(): Hub
      reads this
    {
      Hub(zones, firehose, map[], map[])
    }

    ghost predicate Valid()
      reads this
    {
      HubOk(State()) && Quiet(State())
    }

    constructor ()
      ensures Valid() && State() == NewHub
    {
      zones, firehose := map[], [];
    }

    /** The zone's channel, created on first use. */
    method ZoneOf(z: int) returns (channel: ZoneChannel)
      modifies this`zones
      ensures channel == old(State()).Zone(z) && z in zones
      ensures State() == old(State()).WithZone(z, channel)
    {
      if z !in zones {
        zones := zones[z := NEW_CHANNEL];
      }
      channel := zones[z];
    }

    function CurrentSeq(z: int): nat
      reads this
    {
      if z in zones then zones[z].seqNo else 0
    }

    /** Join a zone: first the receiver, then the number to splice at. */
    method Subscribe(z: int) returns (rx: Receiver, seqNo: nat)
      requires Valid()
      modifies this`zones
      ensures Valid() && forall y :: State().Zone(y) == old(State()).Zone(y)
      ensures rx == Joined(State().Zone(z).sent) && seqNo == CurrentSeq(z) == |State().Zone(z).sent|
      ensures SubscriberOk(Subscriber(z, rx, Some(seqNo)), State().Zone(z))
    {
      ghost var h := State();
      assert ChannelOk(h.Zone(z), z, h.firehose) && h.Zone(z).flight.Landed?;
      var channel := ZoneOf(z);
      rx := Joined(channel.sent);
      seqNo := zones[z].seqNo;
      forall y ensures State().Zone(y) == h.Zone(y) && ChannelOk(State().Zone(y), y, firehose) && State().Zone(y).flight.Landed? {
        assert ChannelOk(h.Zone(y), y, h.firehose) && h.Zone(y).flight.Landed?;
      }
    }

    /** Join the market-wide stream at its end. */
    method SubscribeAll() returns (rx: Receiver)
      ensures rx == Joined(firehose) && ReceiverOk(rx, firehose)
    {
      rx := Joined(firehose);
    }

    /** Stamp and broadcast; nothing for an event that must not be broadcast. */
    method Publish(event: Event)
      requires Valid()
      modifies this
      ensures Valid() && State() == Published(old(State()), event)
    {
      ghost var h := State();
      PublishedKeepsHub(h, event);
      hide HubOk;
      var route := Routable(event);
      if route.None? {
        return;
      }
      var (z, kind) := route.value;
      var channel := ZoneOf(z);
      var frame := Frame(kind, channel.seqNo + 1, z, event.data);
      zones := zones[z := ZoneChannel(channel.seqNo + 1, channel.sent, Stamped(frame))];
      assert State() == Apply(h, Stamp(event));
      zones := zones[z := zones[z].(sent := zones[z].sent + [frame], flight := SentToZone(frame))];
      assert State() == Apply(Apply(h, Stamp(event)), SendZone(z));
      zones := zones[z := zones[z].(flight := Landed)];
      firehose := firehose + [frame];
    }
  }
}
