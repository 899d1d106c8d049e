/** A host and its peer slots: connecting, disconnecting, and the two counts the host keeps of its peers. */
module Hosts {
  import opened Integers
  import opened PeerStates

  const MINIMUM_MTU := 576
  const MAXIMUM_MTU := 4096
  const MINIMUM_WINDOW_SIZE := 4096
  const MAXIMUM_WINDOW_SIZE := 65536
  const WINDOW_SIZE_SCALE := 65536
  const MINIMUM_CHANNEL_COUNT := 1
  const MAXIMUM_CHANNEL_COUNT := 255
  const MAXIMUM_PEER_ID := 0xFFF
  const PACKET_THROTTLE_SCALE := 32
  const DEFAULT_PACKET_THROTTLE := 32
  const SESSIONS := 4
  const THROTTLE_INTERVAL := 1000

  datatype Address = Address(host: uint32, port: uint16)

  /** The three parameters of the packet throttle. */
  datatype Throttle = Throttle(interval: uint32, acceleration: uint32, deceleration: uint32)

  const DEFAULT_THROTTLE := Throttle(5000, 2, 2)

  /** One slot. accepted tells a slot taken by a CONNECT datagram from one that connects by itself. */
  datatype Peer = Peer(
    state: PeerState, accepted: bool, address: Address, connectID: uint32, outgoingPeerID: uint16,
    incomingSessionID: uint8, outgoingSessionID: uint8, mtu: uint32, windowSize: uint32, channelCount: nat, throttle: Throttle,
    incomingBandwidth: uint32, outgoingBandwidth: uint32,
    incomingBandwidthThrottleEpoch: uint32, outgoingBandwidthThrottleEpoch: uint32,
    incomingDataTotal: uint32, outgoingDataTotal: uint32, packetThrottle: uint32, packetThrottleLimit: uint32)

  // ----- counting peers

  function ConnectedOne(p: Peer): nat {
    if IsConnected(p.state) then 1 else 0
  }

  function LimitedOne(p: Peer): nat {
    if IsConnected(p.state) && p.incomingBandwidth != 0 then 1 else 0
  }

  ghost function ConnectedCount(peers: seq<Peer>): nat {
    if peers == [] then 0 else ConnectedCount(peers[..|peers| - 1]) + ConnectedOne(peers[|peers| - 1])
  }

  ghost function LimitedCount(peers: seq<Peer>): nat {
    if peers == [] then 0 else LimitedCount(peers[..|peers| - 1]) + LimitedOne(peers[|peers| - 1])
  }

  lemma {:induction false} CountUpdate(peers: seq<Peer>, i: nat, p: Peer)
    requires i < |peers|
    ensures ConnectedCount(peers[i := p]) == ConnectedCount(peers) - ConnectedOne(peers[i]) + ConnectedOne(p)
    ensures LimitedCount(peers[i := p]) == LimitedCount(peers) - LimitedOne(peers[i]) + LimitedOne(p)
    ensures ConnectedOne(peers[i]) <= ConnectedCount(peers) && LimitedOne(peers[i]) <= LimitedCount(peers)
    decreases |peers|
  {
    var n := |peers| - 1;
    if i < n {
      CountUpdate(peers[..n], i, p);
      assert peers[i := p][..n] == peers[..n][i := p];
    } else {
      assert peers[i := p][..n] == peers[..n];
    }
  }

  lemma {:induction false} CountNone(peers: seq<Peer>)
    requires forall i :: 0 <= i < |peers| ==> peers[i].state == Disconnected
    ensures ConnectedCount(peers) == 0 && LimitedCount(peers) == 0
    decreases |peers|
  {
    if peers != [] {
      CountNone(peers[..|peers| - 1]);
    }
  }

  /** enet_peer_reset, on the fields modelled here. */
  function Reset(p: Peer, mtu: uint32): Peer {
    Peer(Disconnected, false, p.address, 0, MAXIMUM_PEER_ID, p.incomingSessionID, p.outgoingSessionID, mtu,
         MAXIMUM_WINDOW_SIZE, 0, DEFAULT_THROTTLE, 0, 0, 0, 0, 0, 0, DEFAULT_PACKET_THROTTLE, PACKET_THROTTLE_SCALE)
  }

  // ----- the two commands of the handshake

  datatype ConnectCommand = ConnectCommand(
    outgoingPeerID: uint16, incomingSessionID: uint8, outgoingSessionID: uint8, mtu: uint32, windowSize: uint32,
    channelCount: uint32, incomingBandwidth: uint32, outgoingBandwidth: uint32, throttle: Throttle, connectID: uint32)

  datatype VerifyCommand = VerifyCommand(
    outgoingPeerID: uint16, incomingSessionID: uint8, outgoingSessionID: uint8, mtu: uint32, windowSize: uint32,
    channelCount: uint32, incomingBandwidth: uint32, outgoingBandwidth: uint32, throttle: Throttle, connectID: uint32)

  function Clamped(x: uint32, low: uint32, high: uint32): uint32 {
    if x < low then low else if x > high then high else x
  }

  function Smaller(x: uint32, y: uint32): uint32 {
    if x < y then x else y
  }

  function Larger(x: uint32, y: uint32): uint32 {
    if x < y then y else x
  }

  function ChannelsWithin(count: nat): nat {
    if count < MINIMUM_CHANNEL_COUNT then MINIMUM_CHANNEL_COUNT
    else if count > MAXIMUM_CHANNEL_COUNT then MAXIMUM_CHANNEL_COUNT
    else count
  }

  /** A window size for a bandwidth, 0 meaning without limit. */
  function WindowFor(bandwidth: uint32): uint32 {
    if bandwidth == 0 then MAXIMUM_WINDOW_SIZE
    else Clamped(bandwidth / WINDOW_SIZE_SCALE * MINIMUM_WINDOW_SIZE, MINIMUM_WINDOW_SIZE, MAXIMUM_WINDOW_SIZE)
  }

  /** Of two bandwidths, the one that limits. */
  function Narrower(x: uint32, y: uint32): uint32 {
    if x == 0 || y == 0 then Larger(x, y) else Smaller(x, y)
  }

  /** A window is a sixteenth of the bandwidth in steps of its minimum, as far as the limits let it. */
  lemma WindowRange(bandwidth: uint32)
    ensures var w := WindowFor(bandwidth);
            && MINIMUM_WINDOW_SIZE <= w <= MAXIMUM_WINDOW_SIZE && w % MINIMUM_WINDOW_SIZE == 0
            && (bandwidth == 0 ==> w == MAXIMUM_WINDOW_SIZE)
            && (bandwidth != 0 && w > MINIMUM_WINDOW_SIZE ==> 16 * w <= bandwidth)
            && (w < MAXIMUM_WINDOW_SIZE ==> bandwidth < 16 * (w + MINIMUM_WINDOW_SIZE))
  {
  }

  /** The window of the bandwidth that limits is the smaller window. */
  lemma NarrowerWindow(x: uint32, y: uint32)
    ensures WindowFor(Narrower(x, y)) == Smaller(WindowFor(x), WindowFor(y))
  {
  }

  /** The next session number, different from the current one. */
  function NextSession(offered: uint8, current: uint8): (r: uint8)
    ensures r < SESSIONS && (r != current || current >= SESSIONS)
  {
    var from := if offered == 0xFF then current else offered;
    var next := (from + 1) % SESSIONS;
    if next == current then (next + 1) % SESSIONS else next
  }

  /** What enet_host_connect makes of a free slot. */
  function Opened(p: Peer, address: Address, channelCount: nat, connectID: uint32, mtu: uint32, outgoingBandwidth: uint32): Peer {
    p.(state := Connecting, accepted := false, address := address, channelCount := ChannelsWithin(channelCount),
       connectID := connectID, mtu := mtu, windowSize := WindowFor(outgoingBandwidth))
  }

  function Offer(p: Peer, slot: uint16, incomingBandwidth: uint32, outgoingBandwidth: uint32): ConnectCommand
    requires p.channelCount <= MAXIMUM_CHANNEL_COUNT
  {
    ConnectCommand(slot, p.incomingSessionID, p.outgoingSessionID, p.mtu, p.windowSize, p.channelCount,
                   incomingBandwidth, outgoingBandwidth, p.throttle, p.connectID)
  }

  /** What enet_protocol_handle_connect makes of a free slot. */
  function Accepted(p: Peer, c: ConnectCommand, address: Address, mtu: uint32, channelLimit: nat, outgoingBandwidth: uint32): Peer {
    p.(state := AcknowledgingConnect, accepted := true, address := address, connectID := c.connectID,
       outgoingPeerID := c.outgoingPeerID,
       channelCount := if c.channelCount > channelLimit then channelLimit else c.channelCount,
       incomingBandwidth := c.incomingBandwidth, outgoingBandwidth := c.outgoingBandwidth, throttle := c.throttle,
       outgoingSessionID := NextSession(c.incomingSessionID, p.outgoingSessionID),
       incomingSessionID := NextSession(c.outgoingSessionID, p.incomingSessionID),
       mtu := Smaller(Clamped(c.mtu, MINIMUM_MTU, MAXIMUM_MTU), mtu),
       windowSize := WindowFor(Narrower(outgoingBandwidth, c.incomingBandwidth)))
  }

  function Answer(p: Peer, c: ConnectCommand, slot: uint16, incomingBandwidth: uint32, outgoingBandwidth: uint32): VerifyCommand
    requires p.channelCount <= MAXIMUM_CHANNEL_COUNT
  {
    VerifyCommand(slot, p.outgoingSessionID, p.incomingSessionID, p.mtu,
                  Clamped(Smaller(WindowFor(incomingBandwidth), c.windowSize), MINIMUM_WINDOW_SIZE, MAXIMUM_WINDOW_SIZE),
                  p.channelCount, incomingBandwidth, outgoingBandwidth, p.throttle, p.connectID)
  }

  /** Whether the connecting side takes the answer. */
  predicate Confirms(p: Peer, v: VerifyCommand) {
    MINIMUM_CHANNEL_COUNT <= v.channelCount <= MAXIMUM_CHANNEL_COUNT && v.throttle == p.throttle && v.connectID == p.connectID
  }

  function Confirmed(p: Peer, v: VerifyCommand): Peer {
    p.(channelCount := if v.channelCount < p.channelCount then v.channelCount else p.channelCount,
       outgoingPeerID := v.outgoingPeerID, incomingSessionID := v.incomingSessionID, outgoingSessionID := v.outgoingSessionID,
       mtu := Smaller(Clamped(v.mtu, MINIMUM_MTU, MAXIMUM_MTU), p.mtu),
       windowSize := Smaller(Clamped(v.windowSize, MINIMUM_WINDOW_SIZE, MAXIMUM_WINDOW_SIZE), p.windowSize),
       incomingBandwidth := v.incomingBandwidth, outgoingBandwidth := v.outgoingBandwidth)
  }

  // ----- slots taken by CONNECT datagrams

  predicate SameAttempt(p: Peer, address: Address, connectID: uint32) {
    p.address == address && p.connectID == connectID
  }

  /** The rivals a CONNECT datagram is checked against. */
  predicate Rival(p: Peer, address: Address) {
    p.state != Disconnected && p.state != Connecting && p.address.host == address.host
  }

  ghost function RivalCount(peers: seq<Peer>, address: Address): nat {
    if peers == [] then 0
    else RivalCount(peers[..|peers| - 1], address) + (if Rival(peers[|peers| - 1], address) then 1 else 0)
  }

  /** However often a CONNECT datagram arrives, it holds one slot. */
  ghost predicate OneSlotEach(peers: seq<Peer>) {
    && (forall i :: 0 <= i < |peers| && peers[i].accepted ==> peers[i].state != Connecting && peers[i].state != Disconnected)
    && forall i, j :: 0 <= i < j < |peers| && peers[i].accepted && peers[j].accepted ==>
         !SameAttempt(peers[i], peers[j].address, peers[j].connectID)
  }

  const NO_PEER := Peer(Disconnected, false, Address(0, 0), 0, MAXIMUM_PEER_ID, 0xFF, 0xFF, 0, 0, 0, DEFAULT_THROTTLE,
                        0, 0, 0, 0, 0, 0, 0, 0)

  function Rank(state: PeerState): nat {
    match state
    case Disconnected => 0
    case Connecting => 1
    case AcknowledgingConnect => 2
    case ConnectionPending => 3
    case ConnectionSucceeded => 4
    case Connected => 5
    case DisconnectLater => 6
    case Disconnecting => 7
    case AcknowledgingDisconnect => 8
    case Zombie => 9
  }

  // ----- what the steps of the state machine make of a peer

  function AfterNotifyDisconnect(p: Peer, event: bool, mtu: uint32): Peer {
    if event || (p.state != Connecting && Rank(p.state) < Rank(ConnectionSucceeded)) then Reset(p, mtu) else p.(state := Zombie)
  }

  function AfterDisconnectCommand(p: Peer, acknowledge: bool, mtu: uint32): Peer {
    match p.state
    case Disconnected => p
    case Zombie => p
    case AcknowledgingDisconnect => p
    case ConnectionSucceeded => p.(state := Zombie)
    case Disconnecting => p.(state := Zombie)
    case Connecting => p.(state := Zombie)
    case Connected => p.(state := if acknowledge then AcknowledgingDisconnect else Zombie)
    case DisconnectLater => p.(state := if acknowledge then AcknowledgingDisconnect else Zombie)
    case _ => Reset(p, mtu)
  }

  function AfterDisconnect(p: Peer, mtu: uint32): Peer {
    match p.state
    case Disconnecting => p
    case Disconnected => p
    case AcknowledgingDisconnect => p
    case Zombie => p
    case Connected => p.(state := Disconnecting)
    case DisconnectLater => p.(state := Disconnecting)
    case _ => Reset(p, mtu)
  }

  function AfterAcknowledged(p: Peer, hasOutgoingCommands: bool, event: bool, mtu: uint32): Peer {
    match p.state
    case AcknowledgingConnect => p.(state := if event then Connected else ConnectionPending)
    case Disconnecting => AfterNotifyDisconnect(p, event, mtu)
    case DisconnectLater => if hasOutgoingCommands then p else p.(state := Disconnecting)
    case _ => p
  }

  /** Whether a command that asks for it is acknowledged, by the state its handler leaves. */
  predicate WillAcknowledge(state: PeerState, isDisconnect: bool) {
    match state
    case Disconnecting => false
    case AcknowledgingConnect => false
    case Disconnected => false
    case Zombie => false
    case AcknowledgingDisconnect => isDisconnect
    case _ => true
  }

  /** What sending the acknowledgement of a DISCONNECT does. */
  function AfterAcknowledging(p: Peer): Peer {
    p.(state := Zombie)
  }

  /** q is asked to disconnect by p. It acknowledges that exactly if it was connected or has been asked before, acknowledges
      nothing else any more, and is a zombie once it has; p is freed with the acknowledgement, or is a zombie if the
      event has to wait. A DISCONNECT that asks for no acknowledgement ends q at once. */
  lemma DisconnectCompletes(p: Peer, q: Peer, hasOutgoingCommands: bool, event: bool, mtu: uint32)
    ensures var q' := AfterDisconnectCommand(q, true, mtu);
            && (WillAcknowledge(q'.state, true) <==> IsConnected(q.state) || q.state == AcknowledgingDisconnect)
            && !WillAcknowledge(q'.state, false) && !IsConnected(q'.state)
            && (WillAcknowledge(q'.state, true) ==> AfterAcknowledging(q').state == Zombie)
    ensures var q' := AfterDisconnectCommand(q, false, mtu);
            q.state != AcknowledgingDisconnect ==> q'.state == Zombie || q'.state == Disconnected
    ensures IsConnected(p.state) ==>
              var p' := AfterAcknowledged(AfterDisconnect(p, mtu), hasOutgoingCommands, event, mtu);
              p'.state == if event then Disconnected else Zombie
  {
  }

  datatype ConnectResult = Rejected | Granted(slot: nat, answer: VerifyCommand)

  // ----- sharing the bandwidth out

  /** What a peer contributes to a sum over all connected peers. */
  datatype Share =
    | OutgoingLeft(time: uint32)   // 1 if its outgoing share is not settled yet
    | DataLeft(time: uint32)       // its outgoing data, if so
    | Allotted(elapsedTime: nat, time: uint32)   // what it can take, if it is
    | IncomingLeft(time: uint32)   // 1 if its incoming share is not settled yet
    | OwnRate(time: uint32)        // its own rate, if it is
    | BelowLevel(level: nat)       // its own rate, if that is 0 or below the level
    | AtLevel(level: nat)          // 1 if not

  function ShareOf(m: Share, p: Peer): nat {
    if !IsConnected(p.state) then 0
    else
      match m
      case OutgoingLeft(time) => if p.outgoingBandwidthThrottleEpoch != time then 1 else 0
      case DataLeft(time) => if p.outgoingBandwidthThrottleEpoch != time then p.outgoingDataTotal else 0
      case Allotted(elapsedTime, time) =>
        if p.outgoingBandwidthThrottleEpoch == time then p.incomingBandwidth * elapsedTime / 1000 else 0
      case IncomingLeft(time) => if p.incomingBandwidthThrottleEpoch != time then 1 else 0
      case OwnRate(time) => if p.incomingBandwidthThrottleEpoch != time then 0 else p.outgoingBandwidth
      case BelowLevel(level) => if p.outgoingBandwidth == 0 || p.outgoingBandwidth < level then p.outgoingBandwidth else 0
      case AtLevel(level) => if p.outgoingBandwidth == 0 || p.outgoingBandwidth < level then 0 else 1
  }

  ghost function Sum(peers: seq<Peer>, m: Share): nat {
    if peers == [] then 0 else Sum(peers[..|peers| - 1], m) + ShareOf(m, peers[|peers| - 1])
  }

  lemma {:induction false} SumUpdate(peers: seq<Peer>, i: nat, p: Peer, m: Share)
    requires i < |peers|
    ensures Sum(peers[i := p], m) == Sum(peers, m) - ShareOf(m, peers[i]) + ShareOf(m, p)
    ensures ShareOf(m, peers[i]) <= Sum(peers, m)
    decreases |peers|
  {
    var n := |peers| - 1;
    if i < n {
      SumUpdate(peers[..n], i, p, m);
      assert peers[i := p][..n] == peers[..n][i := p];
    } else {
      assert peers[i := p][..n] == peers[..n];
    }
  }

  lemma {:induction false} SumSame(a: seq<Peer>, b: seq<Peer>, m: Share, m': Share)
    requires |a| == |b| && forall i :: 0 <= i < |a| ==> ShareOf(m, a[i]) == ShareOf(m', b[i])
    ensures Sum(a, m) == Sum(b, m')
    decreases |a|
  {
    if a != [] {
      SumSame(a[..|a| - 1], b[..|b| - 1], m, m');
    }
  }

  lemma {:induction false} CountIsSum(peers: seq<Peer>, time: uint32, m: Share)
    requires m == IncomingLeft(time) || m == OutgoingLeft(time)
    requires forall i :: 0 <= i < |peers| ==>
               if m.IncomingLeft? then peers[i].incomingBandwidthThrottleEpoch != time else peers[i].outgoingBandwidthThrottleEpoch != time
    ensures Sum(peers, m) == ConnectedCount(peers)
    decreases |peers|
  {
    if peers != [] {
      CountIsSum(peers[..|peers| - 1], time, m);
    }
  }

  /** Nothing settled yet. */
  lemma {:induction false} NothingOwn(peers: seq<Peer>, time: uint32)
    requires forall i :: 0 <= i < |peers| ==> peers[i].incomingBandwidthThrottleEpoch != time
    ensures Sum(peers, OwnRate(time)) == 0
    decreases |peers|
  {
    if peers != [] {
      NothingOwn(peers[..|peers| - 1], time);
    }
  }

  /** A peer with a share settled at this time. */
  function Settled(p: Peer, time: uint32): Peer {
    p.(incomingBandwidthThrottleEpoch := time)
  }

  /** peers differ from before at most in what has been settled at this time. */
  ghost predicate Settling(before: seq<Peer>, peers: seq<Peer>, time: uint32) {
    && |peers| == |before|
    && forall i :: 0 <= i < |peers| ==>
         peers[i] == before[i] || (IsConnected(before[i].state) && peers[i] == Settled(before[i], time))
  }

  /** The level the water reaches: peers below it keep their own rate, the others share the rest equally. */
  ghost predicate Fills(peers: seq<Peer>, bandwidth: nat, level: nat) {
    && Sum(peers, BelowLevel(level)) + Sum(peers, AtLevel(level)) * level <= bandwidth
    && (Sum(peers, AtLevel(level)) > 0 ==> level == (bandwidth - Sum(peers, BelowLevel(level))) / Sum(peers, AtLevel(level)))
  }

  /** The limit that is advertised to a peer. */
  function Limit(p: Peer, level: nat): nat {
    if p.outgoingBandwidth == 0 || p.outgoingBandwidth < level then p.outgoingBandwidth else level
  }

  /** Settling one peer below the level leaves enough for the level. */
  lemma SettleOne(bandwidth: nat, remaining: nat, level: nat, own: nat)
    requires remaining > 0 && level * remaining <= bandwidth && (own == 0 || own < level)
    ensures own <= bandwidth && level * (remaining - 1) <= bandwidth - own
  {
  }

  /** Settling peer k for its own rate. */
  lemma SettlePeer(before: seq<Peer>, peers: seq<Peer>, k: nat, time: uint32, level: nat)
    requires Settling(before, peers, time) && BelowWhenSettled(peers, time, level) && OneSlotEach(peers) && k < |peers|
    requires IsConnected(peers[k].state) && peers[k].incomingBandwidthThrottleEpoch != time
    requires peers[k].outgoingBandwidth == 0 || peers[k].outgoingBandwidth < level
    ensures var after := peers[k := Settled(peers[k], time)];
            && Settling(before, after, time) && BelowWhenSettled(after, time, level) && OneSlotEach(after)
            && ConnectedCount(after) == ConnectedCount(peers) && LimitedCount(after) == LimitedCount(peers)
            && Sum(after, IncomingLeft(time)) + 1 == Sum(peers, IncomingLeft(time))
            && Sum(after, OwnRate(time)) == Sum(peers, OwnRate(time)) + peers[k].outgoingBandwidth
  {
    hide ConnectedCount, LimitedCount, Sum;
    SumUpdate(peers, k, Settled(peers[k], time), IncomingLeft(time));
    SumUpdate(peers, k, Settled(peers[k], time), OwnRate(time));
    CountUpdate(peers, k, Settled(peers[k], time));
  }

  lemma LevelRises(bandwidth: nat, remaining: nat, level: nat)
    requires remaining > 0 && level * remaining <= bandwidth
    ensures level <= bandwidth / remaining && bandwidth / remaining * remaining <= bandwidth
  {
    var q := bandwidth / remaining;
    assert bandwidth < (q + 1) * remaining;
    if q < level {
      MulMonotone(q + 1, level, remaining);
    }
  }

  // ----- the outgoing half

  /** A peer throttled to a limit out of 32, its accounts closed. */
  function Throttled(p: Peer, limit: uint32): Peer {
    p.(packetThrottleLimit := limit, packetThrottle := Smaller(p.packetThrottle, limit), incomingDataTotal := 0, outgoingDataTotal := 0)
  }

  /** What a peer can take in the elapsed time. */
  function Capacity(p: Peer, elapsedTime: nat): nat {
    p.incomingBandwidth * elapsedTime / 1000
  }

  /** The throttle for everyone: out of 32, what the budget allows. */
  function Scale(bandwidth: nat, dataTotal: nat): nat {
    if dataTotal <= bandwidth then PACKET_THROTTLE_SCALE else bandwidth * PACKET_THROTTLE_SCALE / dataTotal
  }

  ghost predicate Closed(p: Peer) {
    p.incomingDataTotal == 0 && p.outgoingDataTotal == 0 && p.packetThrottle <= p.packetThrottleLimit <= PACKET_THROTTLE_SCALE
  }

  /** A peer's own limit: what it can take of what it is sent, and at least 1. */
  function OwnLimit(p: Peer, elapsedTime: nat): nat
    requires p.outgoingDataTotal > 0
  {
    var share := Capacity(p, elapsedTime) * PACKET_THROTTLE_SCALE / p.outgoingDataTotal;
    if share == 0 then 1 else share
  }

  /** q is p after it has been throttled on its own, because the first throttle gives it more than it can take. */
  ghost predicate OnItsOwn(p: Peer, q: Peer, first: nat, elapsedTime: nat, time: uint32) {
    && first <= PACKET_THROTTLE_SCALE && !Content(p, first, elapsedTime) && p.outgoingDataTotal > 0
    && OwnLimit(p, elapsedTime) <= PACKET_THROTTLE_SCALE && q == Fixed(p, OwnLimit(p, elapsedTime), time)
  }

  /** It can take its share at this throttle. */
  predicate Content(p: Peer, throttle: nat, elapsedTime: nat) {
    p.incomingBandwidth == 0 || Demand(throttle, p.outgoingDataTotal) <= Capacity(p, elapsedTime)
  }

  /** Between passes: whoever is settled has been throttled on its own, and nobody else has changed. */
  ghost predicate Throttling(before: seq<Peer>, peers: seq<Peer>, first: nat, elapsedTime: nat, time: uint32) {
    && |peers| == |before|
    && forall i :: 0 <= i < |peers| ==>
         if IsConnected(before[i].state) && peers[i].outgoingBandwidthThrottleEpoch == time
         then OnItsOwn(before[i], peers[i], first, elapsedTime, time) else peers[i] == before[i]
  }

  ghost predicate AllContent(peers: seq<Peer>, throttle: nat, elapsedTime: nat, time: uint32) {
    forall i :: 0 <= i < |peers| && IsConnected(peers[i].state) && peers[i].outgoingBandwidthThrottleEpoch != time ==>
      Content(peers[i], throttle, elapsedTime)
  }

  lemma DemandBelow(throttle: nat, first: nat, data: nat)
    requires throttle <= first
    ensures Demand(throttle, data) <= Demand(first, data)
  {
    MulMonotone(throttle, first, data);
  }

  /** Who has been throttled on its own no longer matters. */
  lemma FixedContent(peers: seq<Peer>, k: nat, p: Peer, throttle: nat, elapsedTime: nat, time: uint32)
    requires k < |peers| && p.outgoingBandwidthThrottleEpoch == time
    ensures AllContent(peers, throttle, elapsedTime, time) ==> AllContent(peers[k := p], throttle, elapsedTime, time)
    ensures AllContent(peers[..k], throttle, elapsedTime, time) ==> AllContent(peers[k := p][..k + 1], throttle, elapsedTime, time)
  {
  }

  lemma NoneContent(peers: seq<Peer>, throttle: nat, elapsedTime: nat, time: uint32)
    ensures AllContent(peers[..0], throttle, elapsedTime, time)
  {
  }

  lemma ContentMore(peers: seq<Peer>, i: nat, throttle: nat, elapsedTime: nat, time: uint32)
    requires i < |peers|
    requires IsConnected(peers[i].state) && peers[i].outgoingBandwidthThrottleEpoch != time ==> Content(peers[i], throttle, elapsedTime)
    ensures AllContent(peers[..i], throttle, elapsedTime, time) ==> AllContent(peers[..i + 1], throttle, elapsedTime, time)
  {
  }

  /** The outcome for one connected peer: the common throttle if it can take that, or else its own. */
  ghost predicate Apportioned(p: Peer, q: Peer, first: nat, throttle: nat, elapsedTime: nat, time: uint32) {
    || (throttle <= PACKET_THROTTLE_SCALE && q == Throttled(p, throttle) && Content(p, first, elapsedTime))
    || OnItsOwn(p, q, first, elapsedTime, time)
  }

  /** The outcome for one connected peer, by its data and by what it can take in the elapsed time. The throttle of the
      first pass decides whether it is throttled on its own; its limit is then the largest at which it gets no more than
      it can take, or 1, and otherwise the common throttle. */
  ghost predicate Shares(p: Peer, q: Peer, first: nat, throttle: nat, elapsedTime: nat, time: uint32) {
    var data, capacity, limit := p.outgoingDataTotal, p.incomingBandwidth * elapsedTime / 1000, q.packetThrottleLimit as nat;
    && q.incomingDataTotal == q.outgoingDataTotal == 0
    && q.packetThrottle == (if p.packetThrottle <= q.packetThrottleLimit then p.packetThrottle else q.packetThrottleLimit)
    && (q.outgoingBandwidthThrottleEpoch == time <==> p.incomingBandwidth != 0 && 32 * (capacity + 1) <= first * data)
    && if q.outgoingBandwidthThrottleEpoch != time then limit == throttle
       else 1 <= limit <= 32 && (limit + 1) * data > 32 * capacity && (limit == 1 || limit * data <= 32 * capacity)
  }

  lemma ApportionedShares(p: Peer, q: Peer, first: nat, throttle: nat, elapsedTime: nat, time: uint32)
    requires Apportioned(p, q, first, throttle, elapsedTime, time) && p.outgoingBandwidthThrottleEpoch != time
    ensures Shares(p, q, first, throttle, elapsedTime, time)
  {
    var data, capacity := p.outgoingDataTotal, Capacity(p, elapsedTime);
    DemandMeans(first, data, capacity);
    if q.outgoingBandwidthThrottleEpoch == time {
      LargestLimit(data, capacity);
    }
  }

  lemma DemandMeans(throttle: nat, data: nat, capacity: nat)
    ensures capacity < Demand(throttle, data) <==> PACKET_THROTTLE_SCALE * (capacity + 1) <= throttle * data
  {
  }

  lemma LargestLimit(data: nat, capacity: nat)
    requires data > 0
    ensures var limit := capacity * PACKET_THROTTLE_SCALE / data;
            limit * data <= PACKET_THROTTLE_SCALE * capacity < (limit + 1) * data
  {
  }

  /** The throttle out of 32 that a budget allows for some data. */
  ghost predicate Rates(throttle: nat, budget: int, data: int) {
    if data <= budget then throttle == 32 else throttle * data <= 32 * budget < (throttle + 1) * data
  }

  lemma ScaleRates(budget: nat, data: nat)
    ensures Rates(Scale(budget, data), budget, data)
  {
    if budget < data {
      LargestLimit(data, budget);
    }
  }

  /** Granting a part of the budget, and no more than that of the data, lets nobody have more. */
  lemma ScaleFalls(budget: nat, total: nat, bandwidth: nat, dataTotal: nat)
    requires (bandwidth <= budget || budget == total) && budget - bandwidth == total - dataTotal
    ensures Scale(bandwidth, dataTotal) <= Scale(budget, total)
    ensures budget == total ==> Scale(bandwidth, dataTotal) == Scale(budget, total) == PACKET_THROTTLE_SCALE
  {
    if budget < total {
      var rate, granted := Scale(bandwidth, dataTotal), budget - bandwidth;
      ScaleRange(bandwidth, dataTotal);
      LargestLimit(dataTotal, bandwidth);
      LargestLimit(total, budget);
      assert rate * total == rate * dataTotal + rate * granted;
      MulMonotone(rate, PACKET_THROTTLE_SCALE, granted);
      if Scale(budget, total) < rate {
        MulMonotone(Scale(budget, total) + 1, rate, total);
      }
    }
  }

  /** What the outgoing half does: the common throttle is what is left, of the bandwidth of the elapsed time and of the
      data to be sent, after both have been reduced by what the peers throttled on their own can take. */
  ghost predicate Apportioning(before: seq<Peer>, peers: seq<Peer>, outgoingBandwidth: uint32, elapsedTime: nat, time: uint32,
                               first: nat, throttle: nat) {
    && |peers| == |before|
    && (forall i :: 0 <= i < |peers| && IsConnected(before[i].state) ==>
          Shares(before[i], peers[i], first, throttle, elapsedTime, time))
    && Thrifty(before, peers, outgoingBandwidth, elapsedTime, time, first, throttle)
  }

  ghost predicate Thrifty(before: seq<Peer>, peers: seq<Peer>, outgoingBandwidth: uint32, elapsedTime: nat, time: uint32,
                          first: nat, throttle: nat) {
    if outgoingBandwidth == 0 then first == throttle == 32
    else
      var budget, data := outgoingBandwidth * elapsedTime / 1000, Sum(before, DataLeft(time));
      var own := Sum(peers, Allotted(elapsedTime, time));
      own <= budget && own <= data && Rates(first, budget, data) && Rates(throttle, budget - own, data - own)
  }

  lemma {:induction false} NoneLimited(peers: seq<Peer>)
    requires LimitedCount(peers) == 0
    ensures forall i :: 0 <= i < |peers| && IsConnected(peers[i].state) ==> peers[i].incomingBandwidth == 0
    decreases |peers|
  {
    if peers != [] {
      NoneLimited(peers[..|peers| - 1]);
    }
  }

  lemma NoneLimitedContent(peers: seq<Peer>, throttle: nat, elapsedTime: nat, time: uint32)
    requires LimitedCount(peers) == 0
    ensures AllContent(peers, throttle, elapsedTime, time)
  {
    NoneLimited(peers);
  }

  /** A peer that would get more than it can take sends more than it can take. */
  lemma TooMuch(throttle: nat, data: nat, capacity: nat)
    requires throttle <= PACKET_THROTTLE_SCALE && capacity < throttle * data / PACKET_THROTTLE_SCALE
    ensures capacity < data && capacity * PACKET_THROTTLE_SCALE / data <= PACKET_THROTTLE_SCALE
    ensures PACKET_THROTTLE_SCALE * capacity <= throttle * data
  {
  }

  /** Within one pass the shares granted so far keep within the budget: granted * total <= budget * spent. */
  lemma BudgetLasts(budget: nat, total: nat, throttle: nat, granted: nat, spent: nat, data: nat, capacity: nat)
    requires throttle == Scale(budget, total) && budget < total && granted * total <= budget * spent && spent + data <= total
    requires PACKET_THROTTLE_SCALE * capacity <= throttle * data
    ensures (granted + capacity) * total <= budget * (spent + data) && granted + capacity <= budget
  {
    LargestLimit(total, budget);
    MulMonotone(PACKET_THROTTLE_SCALE * capacity, throttle * data, total);
    MulMonotone(throttle * total, PACKET_THROTTLE_SCALE * budget, data);
    Regroup(throttle, data, total, capacity, budget);
    assert (granted + capacity) * total == granted * total + capacity * total;
    assert budget * (spent + data) == budget * spent + budget * data;
    if granted + capacity > budget {
      MulMonotone(budget + 1, granted + capacity, total);
      MulMonotone(spent + data, total, budget);
    }
  }

  lemma Regroup(throttle: nat, data: nat, total: nat, capacity: nat, budget: nat)
    ensures throttle * data * total == throttle * total * data
    ensures PACKET_THROTTLE_SCALE * capacity * total == PACKET_THROTTLE_SCALE * (capacity * total)
    ensures PACKET_THROTTLE_SCALE * budget * data == PACKET_THROTTLE_SCALE * (budget * data)
  {
  }

  /** What subtraction of 32-bit words gives. */
  function Less32(x: nat, y: nat): nat {
    if y <= x then x - y else (x - y) % 0x1_0000_0000
  }

  function Fixed(p: Peer, limit: uint32, time: uint32): Peer {
    Throttled(p, limit).(outgoingBandwidthThrottleEpoch := time)
  }

  /** Throttling peer k on its own. */
  lemma FixPeer(before: seq<Peer>, peers: seq<Peer>, k: nat, first: nat, elapsedTime: nat, time: uint32)
    requires Throttling(before, peers, first, elapsedTime, time) && OneSlotEach(peers) && k < |peers|
    requires IsConnected(peers[k].state) && peers[k].outgoingBandwidthThrottleEpoch != time
    requires first <= PACKET_THROTTLE_SCALE && !Content(peers[k], first, elapsedTime) && peers[k].outgoingDataTotal > 0
    requires OwnLimit(peers[k], elapsedTime) <= PACKET_THROTTLE_SCALE
    ensures var after := peers[k := Fixed(peers[k], OwnLimit(peers[k], elapsedTime), time)];
            && Throttling(before, after, first, elapsedTime, time) && OneSlotEach(after)
            && ConnectedCount(after) == ConnectedCount(peers) && LimitedCount(after) == LimitedCount(peers)
            && Sum(after, OutgoingLeft(time)) + 1 == Sum(peers, OutgoingLeft(time))
            && Sum(after, DataLeft(time)) + peers[k].outgoingDataTotal == Sum(peers, DataLeft(time))
            && Sum(after, Allotted(elapsedTime, time)) == Sum(peers, Allotted(elapsedTime, time)) + Capacity(peers[k], elapsedTime)
  {
    hide ConnectedCount, LimitedCount, Sum, OwnLimit, Content;
    var p := Fixed(peers[k], OwnLimit(peers[k], elapsedTime), time);
    SumUpdate(peers, k, p, OutgoingLeft(time));
    SumUpdate(peers, k, p, DataLeft(time));
    SumUpdate(peers, k, p, Allotted(elapsedTime, time));
    CountUpdate(peers, k, p);
  }

  /** ... or with the rest. */
  lemma ThrottlePeer(peers: seq<Peer>, k: nat, limit: uint32)
    requires OneSlotEach(peers) && k < |peers|
    ensures var after := peers[k := Throttled(peers[k], limit)];
            && OneSlotEach(after)
            && ConnectedCount(after) == ConnectedCount(peers) && LimitedCount(after) == LimitedCount(peers)
  {
    hide ConnectedCount, LimitedCount;
    CountUpdate(peers, k, Throttled(peers[k], limit));
  }

  lemma ScaleRange(bandwidth: nat, dataTotal: nat)
    ensures Scale(bandwidth, dataTotal) <= PACKET_THROTTLE_SCALE
  {
  }

  /** Nobody throttled on its own yet. */
  lemma {:induction false} NothingAllotted(peers: seq<Peer>, elapsedTime: nat, time: uint32)
    requires forall i :: 0 <= i < |peers| ==> peers[i].outgoingBandwidthThrottleEpoch != time
    ensures Sum(peers, Allotted(elapsedTime, time)) == 0
    decreases |peers|
  {
    if peers != [] {
      NothingAllotted(peers[..|peers| - 1], elapsedTime, time);
    }
  }

  lemma NobodyLeft(peers: seq<Peer>, throttle: nat, elapsedTime: nat, time: uint32)
    requires forall i :: 0 <= i < |peers| && IsConnected(peers[i].state) ==> peers[i].outgoingBandwidthThrottleEpoch == time
    ensures AllContent(peers, throttle, elapsedTime, time)
  {
  }

  /** Throttling the rest completes what the passes have begun. */
  lemma RestApportioned(before: seq<Peer>, middle: seq<Peer>, peers: seq<Peer>, first: nat, throttle: nat, elapsedTime: nat, time: uint32)
    requires forall i :: 0 <= i < |before| ==> before[i].outgoingBandwidthThrottleEpoch != time
    requires Throttling(before, middle, first, elapsedTime, time) && AllContent(middle, first, elapsedTime, time)
    requires throttle <= PACKET_THROTTLE_SCALE && |peers| == |middle|
    requires forall i :: 0 <= i < |peers| ==>
               peers[i] == if IsConnected(middle[i].state) && middle[i].outgoingBandwidthThrottleEpoch != time
                           then Throttled(middle[i], throttle) else middle[i]
    ensures |peers| == |before|
    ensures forall i :: 0 <= i < |peers| ==>
              if IsConnected(before[i].state) then Apportioned(before[i], peers[i], first, throttle, elapsedTime, time)
              else peers[i] == before[i]
    ensures forall i :: 0 <= i < |peers| && IsConnected(before[i].state) ==>
              Shares(before[i], peers[i], first, throttle, elapsedTime, time)
    ensures Sum(peers, Allotted(elapsedTime, time)) == Sum(middle, Allotted(elapsedTime, time))
  {
    hide Sum, Shares, Content, OwnLimit;
    SumSame(peers, middle, Allotted(elapsedTime, time), Allotted(elapsedTime, time));
    forall i | 0 <= i < |peers| && IsConnected(before[i].state)
      ensures Apportioned(before[i], peers[i], first, throttle, elapsedTime, time)
              && Shares(before[i], peers[i], first, throttle, elapsedTime, time)
    {
      ApportionedShares(before[i], peers[i], first, throttle, elapsedTime, time);
    }
  }

  lemma {:induction false} NoneLeftOutgoing(peers: seq<Peer>, time: uint32)
    requires Sum(peers, OutgoingLeft(time)) == 0
    ensures forall i :: 0 <= i < |peers| && IsConnected(peers[i].state) ==> peers[i].outgoingBandwidthThrottleEpoch == time
    decreases |peers|
  {
    if peers != [] {
      NoneLeftOutgoing(peers[..|peers| - 1], time);
    }
  }

  function Demand(throttle: nat, data: nat): nat {
    throttle * data / PACKET_THROTTLE_SCALE
  }

  lemma TakesIt(p: Peer, throttle: nat, elapsedTime: nat)
    requires p.incomingBandwidth != 0
    ensures Content(p, throttle, elapsedTime) <==> Demand(throttle, p.outgoingDataTotal) <= Capacity(p, elapsedTime)
  {
  }

  /** Nobody who could take the first throttle is throttled on its own by a later, lower one. */
  lemma NotAtFirst(peers: seq<Peer>, k: nat, first: nat, throttle: nat, elapsedTime: nat, time: uint32)
    requires k < |peers| && IsConnected(peers[k].state) && peers[k].outgoingBandwidthThrottleEpoch != time
    requires throttle <= first && (throttle == first || AllContent(peers, first, elapsedTime, time))
    requires !Content(peers[k], throttle, elapsedTime)
    ensures throttle == first && !Content(peers[k], first, elapsedTime)
  {
    hide Demand;
    DemandBelow(throttle, first, peers[k].outgoingDataTotal);
  }

  /** A peer that is not content is sent more than it can take. */
  lemma NotContent(p: Peer, throttle: nat, elapsedTime: nat)
    requires throttle <= PACKET_THROTTLE_SCALE && p.incomingBandwidth != 0
    requires Capacity(p, elapsedTime) < Demand(throttle, p.outgoingDataTotal)
    ensures !Content(p, throttle, elapsedTime)
    ensures p.incomingBandwidth != 0 && Capacity(p, elapsedTime) < Demand(throttle, p.outgoingDataTotal)
    ensures Capacity(p, elapsedTime) < p.outgoingDataTotal && 1 <= OwnLimit(p, elapsedTime) <= PACKET_THROTTLE_SCALE
  {
    hide Capacity;
    TooMuch(throttle, p.outgoingDataTotal, Capacity(p, elapsedTime));
  }

  /** What has been granted so far, for `spent` of the data, keeps within both budgets. */
  ghost predicate Granted32(budget: nat, total: nat, bandwidth: nat, dataTotal: nat, spent: nat) {
    && dataTotal <= total && bandwidth <= budget && budget - bandwidth == total - dataTotal
    && (budget < total ==> (budget - bandwidth) * total <= budget * spent)
  }

  lemma NothingGranted(budget: nat, total: nat)
    ensures Granted32(budget, total, budget, total, 0)
  {
  }

  lemma GrantedWithin(budget: nat, total: nat, bandwidth: nat, dataTotal: nat, spent: nat)
    ensures Granted32(budget, total, bandwidth, dataTotal, spent) ==>
              dataTotal <= total && bandwidth <= budget && budget - bandwidth == total - dataTotal
  {
  }

  /** One more grant. */
  lemma GrantOne(budget: nat, total: nat, bandwidth: nat, dataTotal: nat, spent: nat, throttle: nat, data: nat, capacity: nat,
                 limited: bool, left: nat)
    requires throttle == Scale(budget, total) && capacity < Demand(throttle, data)
    requires if limited then data <= left <= dataTotal && spent + left <= total && Granted32(budget, total, bandwidth, dataTotal, spent)
             else bandwidth == dataTotal
    ensures if limited then
              && Granted32(budget, total, Less32(bandwidth, capacity), Less32(dataTotal, capacity), spent + data)
              && left - data <= Less32(dataTotal, capacity)
              && capacity <= bandwidth && Less32(bandwidth, capacity) == bandwidth - capacity
            else Less32(bandwidth, capacity) == Less32(dataTotal, capacity)
  {
    if limited {
      ScaleRange(budget, total);
      TooMuch(throttle, data, capacity);
      if budget < total {
        BudgetLasts(budget, total, throttle, budget - bandwidth, spent, data, capacity);
      }
    }
  }

  lemma ThrottlingSelf(peers: seq<Peer>, first: nat, elapsedTime: nat, time: uint32)
    requires forall i :: 0 <= i < |peers| ==> peers[i].outgoingBandwidthThrottleEpoch != time
    ensures Throttling(peers, peers, first, elapsedTime, time)
  {
  }

  lemma SettlingSelf(peers: seq<Peer>, time: uint32)
    ensures Settling(peers, peers, time)
  {
  }

  ghost predicate BelowWhenSettled(peers: seq<Peer>, time: uint32, level: nat) {
    forall i :: 0 <= i < |peers| && IsConnected(peers[i].state) && peers[i].incomingBandwidthThrottleEpoch == time ==>
      peers[i].outgoingBandwidth == 0 || peers[i].outgoingBandwidth < level
  }

  ghost predicate AtLevelWhenLeft(peers: seq<Peer>, time: uint32, level: nat) {
    forall i :: 0 <= i < |peers| && IsConnected(peers[i].state) && peers[i].incomingBandwidthThrottleEpoch != time ==>
      peers[i].outgoingBandwidth > 0 && peers[i].outgoingBandwidth >= level
  }

  lemma {:induction false} NoneLeft(peers: seq<Peer>, time: uint32)
    requires Sum(peers, IncomingLeft(time)) == 0
    ensures forall i :: 0 <= i < |peers| && IsConnected(peers[i].state) ==> peers[i].incomingBandwidthThrottleEpoch == time
    decreases |peers|
  {
    if peers != [] {
      NoneLeft(peers[..|peers| - 1], time);
    }
  }

  lemma FillsNow(peers: seq<Peer>, time: uint32, level: nat, total: nat, bandwidth: nat, remaining: nat)
    requires BelowWhenSettled(peers, time, level) && AtLevelWhenLeft(peers, time, level)
    requires remaining == Sum(peers, IncomingLeft(time)) && bandwidth + Sum(peers, OwnRate(time)) == total
    requires level * remaining <= bandwidth && (remaining > 0 ==> level == bandwidth / remaining)
    ensures Fills(peers, total, level)
  {
    hide Sum;
    SumSame(peers, peers, BelowLevel(level), OwnRate(time));
    SumSame(peers, peers, AtLevel(level), IncomingLeft(time));
  }

  /** Settling the incoming limits leaves the outgoing shares as they are. */
  lemma StillApportioned(before: seq<Peer>, middle: seq<Peer>, peers: seq<Peer>, outgoingBandwidth: uint32, elapsedTime: nat, time: uint32,
                         first: nat, throttle: nat)
    requires Apportioning(before, middle, outgoingBandwidth, elapsedTime, time, first, throttle) && Settling(middle, peers, time)
    ensures Apportioning(before, peers, outgoingBandwidth, elapsedTime, time, first, throttle)
  {
    hide Sum, Rates;
    SumSame(middle, peers, Allotted(elapsedTime, time), Allotted(elapsedTime, time));
    forall i | 0 <= i < |peers| && IsConnected(before[i].state)
      ensures Shares(before[i], peers[i], first, throttle, elapsedTime, time)
    {
      assert Shares(before[i], middle[i], first, throttle, elapsedTime, time);
    }
  }

  class Host {
    var peers: seq<Peer>
    var connectedPeers: nat
    var bandwidthLimitedPeers: nat
    var recalculateBandwidthLimits: bool
    var incomingBandwidth: uint32
    var outgoingBandwidth: uint32
    var mtu: uint32
    var channelLimit: nat
    var duplicatePeers: nat
    var bandwidthThrottleEpoch: uint32

    /** The counts agree with the states of the peers. */
    ghost predicate Valid()
      reads this
    {
      && connectedPeers == ConnectedCount(peers) && bandwidthLimitedPeers == LimitedCount(peers)
      && OneSlotEach(peers)
      && MINIMUM_CHANNEL_COUNT <= channelLimit <= MAXIMUM_CHANNEL_COUNT && |peers| <= MAXIMUM_PEER_ID
    }

    constructor (peerCount: nat, channels: nat, packetSize: uint32, incoming: uint32, outgoing: uint32)
      requires peerCount <= MAXIMUM_PEER_ID
      ensures Valid() && |peers| == peerCount && connectedPeers == 0
    {
      var free := Reset(NO_PEER, packetSize);
      peers := seq(peerCount, _ => free);
      connectedPeers, bandwidthLimitedPeers, recalculateBandwidthLimits := 0, 0, false;
      incomingBandwidth, outgoingBandwidth, mtu := incoming, outgoing, packetSize;
      channelLimit := ChannelsWithin(channels);
      duplicatePeers, bandwidthThrottleEpoch := MAXIMUM_PEER_ID, 0;
      new;
      CountNone(peers);
    }

    // ----- states

    /** enet_protocol_change_state, by way of enet_peer_on_connect and enet_peer_on_disconnect. */
    method ChangeState(i: nat, state: PeerState)
      requires Valid() && i < |peers| && (peers[i].accepted ==> state != Connecting && state != Disconnected)
      modifies this`peers, this`connectedPeers, this`bandwidthLimitedPeers
      ensures Valid() && peers == old(peers)[i := old(peers)[i].(state := state)]
    {
      hide ConnectedCount, LimitedCount;
      var p := peers[i];
      CountUpdate(peers, i, p.(state := state));
      if state == Connected || state == DisconnectLater {
        OnConnect(p);
      } else {
        OnDisconnect(p);
      }
      peers := peers[i := p.(state := state)];
    }

    method OnConnect(p: Peer)
      modifies this`connectedPeers, this`bandwidthLimitedPeers
      ensures connectedPeers == old(connectedPeers) + 1 - ConnectedOne(p)
      ensures bandwidthLimitedPeers == old(bandwidthLimitedPeers) + (if p.incomingBandwidth != 0 && !IsConnected(p.state) then 1 else 0)
    {
      if p.state != Connected && p.state != DisconnectLater {
        if p.incomingBandwidth != 0 {
          bandwidthLimitedPeers := bandwidthLimitedPeers + 1;
        }
        connectedPeers := connectedPeers + 1;
      }
    }

    /** The counts never pass below zero. */
    method OnDisconnect(p: Peer)
      requires ConnectedOne(p) <= connectedPeers && LimitedOne(p) <= bandwidthLimitedPeers
      modifies this`connectedPeers, this`bandwidthLimitedPeers
      ensures connectedPeers == old(connectedPeers) - ConnectedOne(p)
      ensures bandwidthLimitedPeers == old(bandwidthLimitedPeers) - LimitedOne(p)
    {
      if p.state == Connected || p.state == DisconnectLater {
        if p.incomingBandwidth != 0 {
          bandwidthLimitedPeers := bandwidthLimitedPeers - 1;
        }
        connectedPeers := connectedPeers - 1;
      }
    }

    /** enet_peer_reset. */
    method ResetPeer(i: nat)
      requires Valid() && i < |peers|
      modifies this`peers, this`connectedPeers, this`bandwidthLimitedPeers
      ensures Valid() && peers == old(peers)[i := Reset(old(peers)[i], mtu)]
    {
      hide ConnectedCount, LimitedCount;
      CountUpdate(peers, i, Reset(peers[i], mtu));
      OnDisconnect(peers[i]);
      peers := peers[i := Reset(peers[i], mtu)];
    }

    /** enet_protocol_notify_connect. */
    method NotifyConnect(i: nat, event: bool)
      requires Valid() && i < |peers|
      modifies this`peers, this`connectedPeers, this`bandwidthLimitedPeers, this`recalculateBandwidthLimits
      ensures Valid() && recalculateBandwidthLimits
      ensures peers == old(peers)[i := old(peers)[i].(state := if event then Connected
                                                               else if old(peers)[i].state == Connecting then ConnectionSucceeded
                                                               else ConnectionPending)]
    {
      recalculateBandwidthLimits := true;
      if event {
        ChangeState(i, Connected);
      } else {
        ChangeState(i, if peers[i].state == Connecting then ConnectionSucceeded else ConnectionPending);
      }
    }

    /** enet_protocol_notify_disconnect. */
    method NotifyDisconnect(i: nat, event: bool)
      requires Valid() && i < |peers|
      modifies this`peers, this`connectedPeers, this`bandwidthLimitedPeers, this`recalculateBandwidthLimits
      ensures Valid()
      ensures peers == old(peers)[i := AfterNotifyDisconnect(old(peers)[i], event, mtu)]
    {
      var state := peers[i].state;
      if Rank(state) >= Rank(ConnectionPending) {
        recalculateBandwidthLimits := true;
      }
      if state != Connecting && Rank(state) < Rank(ConnectionSucceeded) {
        ResetPeer(i);
      } else if event {
        ResetPeer(i);
      } else {
        ChangeState(i, Zombie);
      }
    }

    /** enet_protocol_handle_bandwidth_limit. */
    method HandleBandwidthLimit(i: nat, incoming: uint32, outgoing: uint32) returns (ok: bool)
      requires Valid() && i < |peers|
      modifies this`peers, this`bandwidthLimitedPeers
      ensures Valid() && ok == IsConnected(old(peers)[i].state)
      ensures peers == if !ok then old(peers)
                       else old(peers)[i := old(peers)[i].(incomingBandwidth := incoming, outgoingBandwidth := outgoing,
                                                           windowSize := WindowFor(Narrower(incoming, outgoingBandwidth)))]
    {
      hide ConnectedCount, LimitedCount;
      var p := peers[i];
      if p.state != Connected && p.state != DisconnectLater { return false; }
      var q := p.(incomingBandwidth := incoming, outgoingBandwidth := outgoing,
                  windowSize := WindowFor(Narrower(incoming, outgoingBandwidth)));
      CountUpdate(peers, i, q);
      if p.incomingBandwidth != 0 {
        bandwidthLimitedPeers := bandwidthLimitedPeers - 1;
      }
      if incoming != 0 {
        bandwidthLimitedPeers := bandwidthLimitedPeers + 1;
      }
      peers := peers[i := q];
      ok := true;
    }

    /** enet_protocol_handle_disconnect. */
    method HandleDisconnect(i: nat, acknowledge: bool)
      requires Valid() && i < |peers|
      modifies this`peers, this`connectedPeers, this`bandwidthLimitedPeers, this`recalculateBandwidthLimits
      ensures Valid()
      ensures peers == old(peers)[i := AfterDisconnectCommand(old(peers)[i], acknowledge, mtu)]
    {
      var state := peers[i].state;
      if state == Disconnected || state == Zombie || state == AcknowledgingDisconnect { return; }
      if state == ConnectionSucceeded || state == Disconnecting || state == Connecting {
        ChangeState(i, Zombie);
      } else if state != Connected && state != DisconnectLater {
        if state == ConnectionPending {
          recalculateBandwidthLimits := true;
        }
        ResetPeer(i);
      } else if acknowledge {
        ChangeState(i, AcknowledgingDisconnect);
      } else {
        ChangeState(i, Zombie);
      }
    }

    /** enet_peer_disconnect. */
    method Disconnect(i: nat)
      requires Valid() && i < |peers|
      modifies this`peers, this`connectedPeers, this`bandwidthLimitedPeers
      ensures Valid() && peers == old(peers)[i := AfterDisconnect(old(peers)[i], mtu)]
    {
      hide ConnectedCount, LimitedCount;
      var p := peers[i];
      if p.state == Disconnecting || p.state == Disconnected || p.state == AcknowledgingDisconnect || p.state == Zombie { return; }
      if p.state == Connected || p.state == DisconnectLater {
        CountUpdate(peers, i, p.(state := Disconnecting));
        OnDisconnect(p);
        peers := peers[i := p.(state := Disconnecting)];
      } else {
        ResetPeer(i);
      }
    }

    /** enet_peer_disconnect_later. */
    method DisconnectPeerLater(i: nat, hasOutgoingCommands: bool)
      requires Valid() && i < |peers|
      modifies this`peers, this`connectedPeers, this`bandwidthLimitedPeers
      ensures Valid()
      ensures peers == old(peers)[i := if IsConnected(old(peers)[i].state) && hasOutgoingCommands
                                       then old(peers)[i].(state := DisconnectLater) else AfterDisconnect(old(peers)[i], mtu)]
    {
      hide ConnectedCount, LimitedCount;
      var p := peers[i];
      if (p.state == Connected || p.state == DisconnectLater) && hasOutgoingCommands {
        CountUpdate(peers, i, p.(state := DisconnectLater));
        peers := peers[i := p.(state := DisconnectLater)];
      } else {
        Disconnect(i);
      }
    }

    /** enet_peer_disconnect_now. */
    method DisconnectNow(i: nat)
      requires Valid() && i < |peers|
      modifies this`peers, this`connectedPeers, this`bandwidthLimitedPeers
      ensures Valid()
      ensures peers == if old(peers)[i].state == Disconnected then old(peers) else old(peers)[i := Reset(old(peers)[i], mtu)]
    {
      if peers[i].state == Disconnected { return; }
      ResetPeer(i);
    }

    /** What an acknowledgement does to the state, once its command has been looked up. */
    method HandleAcknowledged(i: nat, verifyConnect: bool, disconnect: bool, hasOutgoingCommands: bool, event: bool) returns (ok: bool)
      requires Valid() && i < |peers|
      modifies this`peers, this`connectedPeers, this`bandwidthLimitedPeers, this`recalculateBandwidthLimits
      ensures Valid()
      ensures ok == !((old(peers)[i].state == AcknowledgingConnect && !verifyConnect) || (old(peers)[i].state == Disconnecting && !disconnect))
      ensures peers == if !ok then old(peers)
                       else old(peers)[i := AfterAcknowledged(old(peers)[i], hasOutgoingCommands, event, mtu)]
    {
      ok := true;
      match peers[i].state
      case AcknowledgingConnect =>
        if !verifyConnect { return false; }
        NotifyConnect(i, event);
      case Disconnecting =>
        if !disconnect { return false; }
        NotifyDisconnect(i, event);
      case DisconnectLater =>
        if !hasOutgoingCommands {
          Disconnect(i);
        }
      case _ =>
    }

    /** The state changes of enet_protocol_dispatch_incoming_commands. */
    method DispatchState(i: nat)
      requires Valid() && i < |peers|
      modifies this`peers, this`connectedPeers, this`bandwidthLimitedPeers, this`recalculateBandwidthLimits
      ensures Valid()
      ensures var p := old(peers)[i];
              peers == old(peers)[i := if p.state == ConnectionPending || p.state == ConnectionSucceeded then p.(state := Connected)
                                       else if p.state == Zombie then Reset(p, mtu) else p]
    {
      match peers[i].state
      case ConnectionPending => ChangeState(i, Connected);
      case ConnectionSucceeded => ChangeState(i, Connected);
      case Zombie =>
        recalculateBandwidthLimits := true;
        ResetPeer(i);
      case _ =>
    }

    // ----- the handshake

    /** enet_host_connect: the first free slot, if there is one. connectID is the random number. */
    method Connect(address: Address, channelCount: nat, connectID: uint32) returns (slot: int, offer: ConnectCommand)
      requires Valid()
      modifies this`peers
      ensures Valid()
      ensures slot < 0 ==> peers == old(peers) && forall k :: 0 <= k < |peers| ==> peers[k].state != Disconnected
      ensures slot >= 0 ==>
                && slot < |old(peers)| == |peers| && old(peers)[slot].state == Disconnected
                && (forall k :: 0 <= k < slot ==> old(peers)[k].state != Disconnected)
                && peers == old(peers)[slot := Opened(old(peers)[slot], address, channelCount, connectID, mtu, outgoingBandwidth)]
                && offer == Offer(peers[slot], slot, incomingBandwidth, outgoingBandwidth)
    {
      hide ConnectedCount, LimitedCount, WindowFor;
      slot := 0;
      while slot < |peers| && peers[slot].state != Disconnected
        invariant 0 <= slot <= |peers|
        invariant forall k :: 0 <= k < slot ==> peers[k].state != Disconnected
      {
        slot := slot + 1;
      }
      offer := Offer(NO_PEER, 0, 0, 0);
      if slot >= |peers| { return -1, offer; }
      var p := Opened(peers[slot], address, channelCount, connectID, mtu, outgoingBandwidth);
      CountUpdate(peers, slot, p);
      peers := peers[slot := p];
      offer := Offer(p, slot, incomingBandwidth, outgoingBandwidth);
    }

    /** enet_protocol_handle_connect. */
    method HandleConnect(c: ConnectCommand, address: Address) returns (result: ConnectResult)
      requires Valid()
      modifies this`peers
      ensures Valid()
      ensures result.Rejected? <==>
                || !(MINIMUM_CHANNEL_COUNT <= c.channelCount <= MAXIMUM_CHANNEL_COUNT)
                || (exists k :: 0 <= k < |old(peers)| && Rival(old(peers)[k], address) && SameAttempt(old(peers)[k], address, c.connectID))
                || (forall k :: 0 <= k < |old(peers)| ==> old(peers)[k].state != Disconnected)
                || RivalCount(old(peers), address) >= duplicatePeers
      ensures result.Rejected? ==> peers == old(peers)
      ensures result.Granted? ==>
                var slot := result.slot;
                && slot < |old(peers)| == |peers| && old(peers)[slot].state == Disconnected
                && (forall k :: 0 <= k < slot ==> old(peers)[k].state != Disconnected)
                && peers == old(peers)[slot := Accepted(old(peers)[slot], c, address, mtu, channelLimit, outgoingBandwidth)]
                && peers[slot].channelCount <= MAXIMUM_CHANNEL_COUNT
                && result.answer == Answer(peers[slot], c, slot, incomingBandwidth, outgoingBandwidth)
    {
      hide Narrower, Smaller, Larger, ConnectedCount, LimitedCount, WindowFor, NextSession, Clamped;
      if c.channelCount < MINIMUM_CHANNEL_COUNT || c.channelCount > MAXIMUM_CHANNEL_COUNT { return Rejected; }
      var slot, rivals, k := -1, 0, 0;
      while k < |peers|
        invariant 0 <= k <= |peers| && -1 <= slot < k && rivals == RivalCount(peers[..k], address)
        invariant if slot < 0 then forall x :: 0 <= x < k ==> peers[x].state != Disconnected
                  else peers[slot].state == Disconnected && forall x :: 0 <= x < slot ==> peers[x].state != Disconnected
        invariant forall x :: 0 <= x < k && Rival(peers[x], address) ==> !SameAttempt(peers[x], address, c.connectID)
      {
        assert peers[..k + 1][..k] == peers[..k];
        var currentPeer := peers[k];
        if currentPeer.state == Disconnected {
          if slot < 0 {
            slot := k;
          }
        } else if currentPeer.state != Connecting && currentPeer.address.host == address.host {
          if currentPeer.address.port == address.port && currentPeer.connectID == c.connectID { return Rejected; }
          rivals := rivals + 1;
        }
        k := k + 1;
      }
      assert peers[..k] == peers;
      if slot < 0 || rivals >= duplicatePeers { return Rejected; }
      var p := Accepted(peers[slot], c, address, mtu, channelLimit, outgoingBandwidth);
      CountUpdate(peers, slot, p);
      peers := peers[slot := p];
      result := Granted(slot, Answer(p, c, slot, incomingBandwidth, outgoingBandwidth));
    }

    /** enet_protocol_handle_verify_connect. */
    method HandleVerifyConnect(i: nat, v: VerifyCommand, event: bool) returns (ok: bool)
      requires Valid() && i < |peers|
      modifies this`peers, this`connectedPeers, this`bandwidthLimitedPeers, this`recalculateBandwidthLimits
      ensures Valid()
      ensures var p := old(peers)[i];
              if p.state != Connecting then ok && peers == old(peers)
              else && ok == Confirms(p, v)
                   && peers == old(peers)[i := if ok then Confirmed(p, v).(state := if event then Connected else ConnectionSucceeded)
                                               else p.(state := Zombie)]
    {
      hide ConnectedCount, LimitedCount, WindowFor;
      var p := peers[i];
      if p.state != Connecting { return true; }
      if v.channelCount < MINIMUM_CHANNEL_COUNT || v.channelCount > MAXIMUM_CHANNEL_COUNT
         || v.throttle != p.throttle || v.connectID != p.connectID {
        ChangeState(i, Zombie);
        return false;
      }
      CountUpdate(peers, i, Confirmed(p, v));
      peers := peers[i := Confirmed(p, v)];
      NotifyConnect(i, event);
      ok := true;
    }

    // ----- bandwidth

    /** The incoming half of enet_host_bandwidth_throttle: limits[i] is what connected peer i is told. */
    method ShareIncoming(timeCurrent: uint32) returns (limits: seq<nat>, level: nat)
      requires Valid() && forall i :: 0 <= i < |peers| ==> peers[i].incomingBandwidthThrottleEpoch != timeCurrent
      modifies this`peers
      ensures Valid() && Settling(old(peers), peers, timeCurrent) && |limits| == |peers|
      ensures forall i :: 0 <= i < |peers| && IsConnected(peers[i].state) ==> limits[i] == Limit(peers[i], level)
      ensures incomingBandwidth == 0 ==> level == 0
      ensures incomingBandwidth != 0 && connectedPeers > 0 ==> Fills(peers, incomingBandwidth, level)
    {
      hide ConnectedCount, LimitedCount, Sum;
      var peersRemaining, bandwidth: nat, needsAdjustment := connectedPeers, incomingBandwidth, true;
      CountIsSum(peers, timeCurrent, IncomingLeft(timeCurrent));
      NothingOwn(peers, timeCurrent);
      level := 0;
      if bandwidth != 0 {
        while peersRemaining > 0 && needsAdjustment
          invariant Valid() && Settling(old(peers), peers, timeCurrent)
          invariant peersRemaining == Sum(peers, IncomingLeft(timeCurrent))
          invariant bandwidth + Sum(peers, OwnRate(timeCurrent)) == incomingBandwidth
          invariant level * peersRemaining <= bandwidth
          invariant BelowWhenSettled(peers, timeCurrent, level)
          invariant !needsAdjustment ==> AtLevelWhenLeft(peers, timeCurrent, level) && (peersRemaining > 0 ==> level == bandwidth / peersRemaining)
          decreases peersRemaining, needsAdjustment
        {
          LevelRises(bandwidth, peersRemaining, level);
          level := bandwidth / peersRemaining;
          peersRemaining, bandwidth, needsAdjustment := SettlePass(timeCurrent, peersRemaining, bandwidth, level);
        }
      }
      if peersRemaining == 0 {
        NoneLeft(peers, timeCurrent);
      }
      limits := Advertise(timeCurrent, level);
      if incomingBandwidth != 0 && connectedPeers > 0 {
        FillsNow(peers, timeCurrent, level, incomingBandwidth, bandwidth, peersRemaining);
      }
    }

    /** One pass: whoever needs less than the level settles for its own rate. Neither budget passes below zero. */
    method SettlePass(timeCurrent: uint32, remaining: nat, budget: nat, level: nat)
      returns (peersRemaining: nat, bandwidth: nat, needsAdjustment: bool)
      requires Valid() && remaining == Sum(peers, IncomingLeft(timeCurrent)) && level * remaining <= budget
      requires BelowWhenSettled(peers, timeCurrent, level)
      modifies this`peers
      ensures Valid() && Settling(old(peers), peers, timeCurrent) && BelowWhenSettled(peers, timeCurrent, level)
      ensures peersRemaining == Sum(peers, IncomingLeft(timeCurrent)) && level * peersRemaining <= bandwidth
      ensures bandwidth + Sum(peers, OwnRate(timeCurrent)) == budget + Sum(old(peers), OwnRate(timeCurrent))
      ensures if needsAdjustment then peersRemaining < remaining
              else peersRemaining == remaining && bandwidth == budget && AtLevelWhenLeft(peers, timeCurrent, level)
    {
      hide ConnectedCount, LimitedCount, Sum, Settling, BelowWhenSettled, OneSlotEach;
      SettlingSelf(peers, timeCurrent);
      peersRemaining, bandwidth, needsAdjustment := remaining, budget, false;
      var i := 0;
      while i < |peers|
        invariant i <= |peers| && Valid() && Settling(old(peers), peers, timeCurrent) && BelowWhenSettled(peers, timeCurrent, level)
        invariant |peers| == |old(peers)|
        invariant peersRemaining == Sum(peers, IncomingLeft(timeCurrent)) && level * peersRemaining <= bandwidth
        invariant bandwidth + Sum(peers, OwnRate(timeCurrent)) == budget + Sum(old(peers), OwnRate(timeCurrent))
        invariant if needsAdjustment then peersRemaining < remaining else peersRemaining == remaining && bandwidth == budget
        invariant !needsAdjustment ==> AtLevelWhenLeft(peers[..i], timeCurrent, level)
      {
        var peer := peers[i];
        i := i + 1;
        if (peer.state != Connected && peer.state != DisconnectLater) || peer.incomingBandwidthThrottleEpoch == timeCurrent { continue; }
        if peer.outgoingBandwidth > 0 && peer.outgoingBandwidth >= level { continue; }
        SettlePeer(old(peers), peers, i - 1, timeCurrent, level);
        SettleOne(bandwidth, peersRemaining, level, peer.outgoingBandwidth);
        peers := peers[i - 1 := Settled(peer, timeCurrent)];
        needsAdjustment := true;
        peersRemaining := peersRemaining - 1;
        bandwidth := bandwidth - peer.outgoingBandwidth;
      }
      assert peers[..i] == peers;
    }

    /** The limits told to the peers. */
    method Advertise(timeCurrent: uint32, level: nat) returns (limits: seq<nat>)
      requires BelowWhenSettled(peers, timeCurrent, level)
      requires AtLevelWhenLeft(peers, timeCurrent, level) || level == 0
      ensures |limits| == |peers|
      ensures forall i :: 0 <= i < |peers| && IsConnected(peers[i].state) ==> limits[i] == Limit(peers[i], level)
    {
      limits := [];
      while |limits| < |peers|
        invariant |limits| <= |peers|
        invariant forall i :: 0 <= i < |limits| && IsConnected(peers[i].state) ==> limits[i] == Limit(peers[i], level)
      {
        var peer := peers[|limits|];
        limits := limits + [if peer.incomingBandwidthThrottleEpoch == timeCurrent then peer.outgoingBandwidth as nat else level];
      }
    }

    /** The outgoing half of enet_host_bandwidth_throttle. */
    method ShareOutgoing(timeCurrent: uint32, elapsedTime: nat) returns (throttle: nat, ghost first: nat)
      requires Valid() && forall i :: 0 <= i < |peers| ==> peers[i].outgoingBandwidthThrottleEpoch != timeCurrent
      modifies this`peers
      ensures Valid() && |peers| == |old(peers)|
      ensures forall i :: 0 <= i < |peers| ==>
                if IsConnected(old(peers)[i].state) then Apportioned(old(peers)[i], peers[i], first, throttle, elapsedTime, timeCurrent)
                else peers[i] == old(peers)[i]
      ensures Apportioning(old(peers), peers, outgoingBandwidth, elapsedTime, timeCurrent, first, throttle)
    {
      hide ConnectedCount, LimitedCount, Sum, Scale, Apportioned, Shares, Throttling, AllContent, OneSlotEach, Rates;
      var peersRemaining, needsAdjustment := connectedPeers, bandwidthLimitedPeers > 0;
      var dataTotal: nat, bandwidth: nat := 0xFFFF_FFFF, 0xFFFF_FFFF;
      CountIsSum(peers, timeCurrent, OutgoingLeft(timeCurrent));
      NothingAllotted(peers, elapsedTime, timeCurrent);
      if outgoingBandwidth != 0 {
        bandwidth := outgoingBandwidth * elapsedTime / 1000;
        dataTotal := TotalData(timeCurrent);
      }
      ghost var budget: nat, total: nat := bandwidth, dataTotal;
      first := Scale(bandwidth, dataTotal);
      ScaleRange(budget, total);
      ScaleRates(budget, total);
      ThrottlingSelf(peers, first, elapsedTime, timeCurrent);
      if !needsAdjustment {
        NoneLimitedContent(peers, first, elapsedTime, timeCurrent);
      }
      while peersRemaining > 0 && needsAdjustment
        invariant Valid() && Throttling(old(peers), peers, first, elapsedTime, timeCurrent)
        invariant peersRemaining == Sum(peers, OutgoingLeft(timeCurrent))
        invariant budget - bandwidth == total - dataTotal && (outgoingBandwidth == 0 ==> budget == total)
        invariant outgoingBandwidth != 0 ==>
                    && Sum(peers, DataLeft(timeCurrent)) <= dataTotal
                    && budget - bandwidth == Sum(peers, Allotted(elapsedTime, timeCurrent))
        invariant (needsAdjustment && bandwidth == budget) || AllContent(peers, first, elapsedTime, timeCurrent)
        decreases peersRemaining, needsAdjustment
      {
        ScaleFalls(budget, total, bandwidth, dataTotal);
        peersRemaining, dataTotal, bandwidth, needsAdjustment :=
          ThrottlePass(timeCurrent, elapsedTime, peersRemaining, dataTotal, bandwidth, Scale(bandwidth, dataTotal), first, old(peers));
      }
      ScaleFalls(budget, total, bandwidth, dataTotal);
      ScaleRates(bandwidth, dataTotal);
      throttle := Scale(bandwidth, dataTotal);
      if peersRemaining == 0 {
        NoneLeftOutgoing(peers, timeCurrent);
        NobodyLeft(peers, first, elapsedTime, timeCurrent);
      }
      ghost var middle := peers;
      if peersRemaining > 0 {
        ThrottleRest(timeCurrent, throttle);
      }
      RestApportioned(old(peers), middle, peers, first, throttle, elapsedTime, timeCurrent);
    }

    method TotalData(timeCurrent: uint32) returns (dataTotal: nat)
      requires forall i :: 0 <= i < |peers| ==> peers[i].outgoingBandwidthThrottleEpoch != timeCurrent
      ensures dataTotal == Sum(peers, DataLeft(timeCurrent))
    {
      dataTotal := 0;
      var i := 0;
      while i < |peers|
        invariant i <= |peers| && dataTotal == Sum(peers[..i], DataLeft(timeCurrent))
      {
        assert peers[..i + 1][..i] == peers[..i];
        if peers[i].state == Connected || peers[i].state == DisconnectLater {
          dataTotal := dataTotal + peers[i].outgoingDataTotal;
        }
        i := i + 1;
      }
      assert peers[..i] == peers;
    }

    /** One pass: whoever would get more than it can take is throttled to what it can take. With a limited budget
        neither that nor the data it is for passes below zero. */
    method ThrottlePass(timeCurrent: uint32, elapsedTime: nat, remaining: nat, total: nat, budget: nat, throttle: nat,
                        ghost first: nat, ghost before: seq<Peer>)
      returns (peersRemaining: nat, dataTotal: nat, bandwidth: nat, needsAdjustment: bool)
      requires Valid() && Throttling(before, peers, first, elapsedTime, timeCurrent) && throttle == Scale(budget, total)
      requires throttle == first || (throttle <= first <= PACKET_THROTTLE_SCALE && AllContent(peers, first, elapsedTime, timeCurrent))
      requires remaining == Sum(peers, OutgoingLeft(timeCurrent))
      requires if outgoingBandwidth == 0 then budget == total else Sum(peers, DataLeft(timeCurrent)) <= total
      modifies this`peers
      ensures Valid() && Throttling(before, peers, first, elapsedTime, timeCurrent)
      ensures peersRemaining == Sum(peers, OutgoingLeft(timeCurrent))
      ensures if outgoingBandwidth == 0 then bandwidth == dataTotal
              else && Sum(peers, DataLeft(timeCurrent)) <= dataTotal <= total && bandwidth <= budget
                   && budget - bandwidth == total - dataTotal
                   && budget - bandwidth + Sum(old(peers), Allotted(elapsedTime, timeCurrent)) == Sum(peers, Allotted(elapsedTime, timeCurrent))
      ensures if needsAdjustment then peersRemaining < remaining
              else peersRemaining == remaining && dataTotal == total && bandwidth == budget
      ensures AllContent(peers, first, elapsedTime, timeCurrent)
    {
      hide ConnectedCount, LimitedCount, Sum, Throttling, OneSlotEach, Capacity, Scale, Granted32, Demand, Less32, OwnLimit, AllContent, Content;
      ScaleRange(budget, total);
      NoneContent(peers, throttle, elapsedTime, timeCurrent);
      NothingGranted(budget, total);
      peersRemaining, dataTotal, bandwidth, needsAdjustment := remaining, total, budget, false;
      ghost var spent: nat := 0;
      var i := 0;
      while i < |peers|
        invariant i <= |peers| && Valid() && Throttling(before, peers, first, elapsedTime, timeCurrent)
        invariant peersRemaining == Sum(peers, OutgoingLeft(timeCurrent))
        invariant if needsAdjustment then peersRemaining < remaining
                  else peersRemaining == remaining && dataTotal == total && bandwidth == budget
        invariant AllContent(peers[..i], throttle, elapsedTime, timeCurrent)
        invariant throttle == first || AllContent(peers, first, elapsedTime, timeCurrent)
        invariant outgoingBandwidth != 0 ==>
                    budget - bandwidth + Sum(old(peers), Allotted(elapsedTime, timeCurrent)) == Sum(peers, Allotted(elapsedTime, timeCurrent))
        invariant outgoingBandwidth == 0 ==> bandwidth == dataTotal
        invariant outgoingBandwidth != 0 ==>
                    Sum(peers, DataLeft(timeCurrent)) <= dataTotal && spent + Sum(peers, DataLeft(timeCurrent)) <= total
                    && Granted32(budget, total, bandwidth, dataTotal, spent)
        decreases |peers| - i
      {
        var peer := peers[i];
        i := i + 1;
        if (peer.state != Connected && peer.state != DisconnectLater) || peer.incomingBandwidth == 0
           || peer.outgoingBandwidthThrottleEpoch == timeCurrent {
          ContentMore(peers, i - 1, throttle, elapsedTime, timeCurrent);
          continue;
        }
        var peerBandwidth := Capacity(peer, elapsedTime);
        if Demand(throttle, peer.outgoingDataTotal) <= peerBandwidth {
          TakesIt(peer, throttle, elapsedTime);
          ContentMore(peers, i - 1, throttle, elapsedTime, timeCurrent);
          continue;
        }
        NotContent(peer, throttle, elapsedTime);
        NotAtFirst(peers, i - 1, first, throttle, elapsedTime, timeCurrent);
        var limit := OwnLimit(peer, elapsedTime);
        FixPeer(before, peers, i - 1, first, elapsedTime, timeCurrent);
        FixedContent(peers, i - 1, Fixed(peer, limit, timeCurrent), first, elapsedTime, timeCurrent);
        FixedContent(peers, i - 1, Fixed(peer, limit, timeCurrent), throttle, elapsedTime, timeCurrent);
        GrantOne(budget, total, bandwidth, dataTotal, spent, throttle, peer.outgoingDataTotal, peerBandwidth,
                 outgoingBandwidth != 0, Sum(peers, DataLeft(timeCurrent)));
        peers := peers[i - 1 := Fixed(peer, limit, timeCurrent)];
        spent := spent + peer.outgoingDataTotal;
        needsAdjustment := true;
        peersRemaining := peersRemaining - 1;
        bandwidth := Less32(bandwidth, peerBandwidth);
        dataTotal := Less32(dataTotal, peerBandwidth);
      }
      assert peers[..i] == peers;
      assert AllContent(peers, throttle, elapsedTime, timeCurrent);
      GrantedWithin(budget, total, bandwidth, dataTotal, spent);
    }

    /** Everyone who is left gets the same throttle. */
    method ThrottleRest(timeCurrent: uint32, throttle: nat)
      requires Valid() && throttle <= PACKET_THROTTLE_SCALE
      modifies this`peers
      ensures Valid() && |peers| == |old(peers)|
      ensures forall i :: 0 <= i < |peers| ==>
                peers[i] == if IsConnected(old(peers)[i].state) && old(peers)[i].outgoingBandwidthThrottleEpoch != timeCurrent
                            then Throttled(old(peers)[i], throttle) else old(peers)[i]
    {
      hide ConnectedCount, LimitedCount, OneSlotEach;
      var i := 0;
      while i < |peers|
        invariant i <= |peers| == |old(peers)| && Valid()
        invariant forall k :: i <= k < |peers| ==> peers[k] == old(peers)[k]
        invariant forall k :: 0 <= k < i ==>
                    peers[k] == if IsConnected(old(peers)[k].state) && old(peers)[k].outgoingBandwidthThrottleEpoch != timeCurrent
                                then Throttled(old(peers)[k], throttle) else old(peers)[k]
      {
        var peer := peers[i];
        if (peer.state == Connected || peer.state == DisconnectLater) && peer.outgoingBandwidthThrottleEpoch != timeCurrent {
          ThrottlePeer(peers, i, throttle);
          peers := peers[i := Throttled(peer, throttle)];
        }
        i := i + 1;
      }
    }

    /** enet_host_bandwidth_throttle. done tells whether it was due; limits is empty unless the limits were due as well. */
    method BandwidthThrottle(timeCurrent: uint32) returns (done: bool, throttle: nat, limits: seq<nat>, level: nat, ghost first: nat)
      requires Valid()
      requires forall i :: 0 <= i < |peers| ==>
                 peers[i].incomingBandwidthThrottleEpoch != timeCurrent && peers[i].outgoingBandwidthThrottleEpoch != timeCurrent
      modifies this`peers, this`bandwidthThrottleEpoch, this`recalculateBandwidthLimits
      ensures Valid() && |peers| == |old(peers)|
      ensures done == (Wrap32((timeCurrent as int) - old(bandwidthThrottleEpoch)) >= THROTTLE_INTERVAL && connectedPeers > 0)
      ensures !done ==> peers == old(peers) && limits == []
      ensures done ==> forall i :: 0 <= i < |peers| && IsConnected(peers[i].state) ==> Closed(peers[i])
      ensures done ==> Apportioning(old(peers), peers, outgoingBandwidth, Wrap32((timeCurrent as int) - old(bandwidthThrottleEpoch)), timeCurrent,
                                    first, throttle)
      ensures done && old(recalculateBandwidthLimits) ==>
                && |limits| == |peers|
                && (forall i :: 0 <= i < |peers| && IsConnected(peers[i].state) ==> limits[i] == Limit(peers[i], level))
                && (if incomingBandwidth == 0 then level == 0 else Fills(peers, incomingBandwidth, level))
    {
      hide ConnectedCount, LimitedCount, Sum, Fills, Limit, Rates, Apportioning, Content, OwnLimit;
      done, throttle, limits, level, first := false, 0, [], 0, 0;
      var elapsedTime := Wrap32((timeCurrent as int) - bandwidthThrottleEpoch);
      if elapsedTime < THROTTLE_INTERVAL { return; }
      bandwidthThrottleEpoch := timeCurrent;
      if connectedPeers == 0 { return; }
      done := true;
      throttle, first := ShareOutgoing(timeCurrent, elapsedTime);
      ghost var middle := peers;
      if recalculateBandwidthLimits {
        recalculateBandwidthLimits := false;
        limits, level := ShareIncoming(timeCurrent);
        StillApportioned(old(peers), middle, peers, outgoingBandwidth, elapsedTime, timeCurrent, first, throttle);
      }
    }
  }
}
