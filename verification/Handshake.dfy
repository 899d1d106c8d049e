/** One peer of a client and a server's slots, over a network that repeats, reorders and loses their datagrams. */
module Handshake {
  import opened Integers
  import opened PeerStates
  import opened Hosts
  import Checksum

  /** offers, answers and acknowledgements hold every CONNECT, every VERIFY_CONNECT and every acknowledgement of one that
      was ever sent. With each answer goes the slot as it was then. */
  datatype Exchange = Exchange(
    client: Peer, slots: seq<Peer>, attempts: set<uint32>,
    offers: set<ConnectCommand>, answers: set<Answered>, acknowledgements: set<Acknowledgement>)

  datatype Answered = Answered(offer: ConnectCommand, slot: Peer, answer: VerifyCommand)

  /** The header of its datagram names a slot and a session. The connectID of its attempt is not sent; it is only the
      key of the checksum, which stands between the bytes before and after it. */
  datatype Acknowledgement = Acknowledgement(
    connectID: uint32, slot: uint16, sessionID: uint8, before: seq<bv8>, after: seq<bv8>, checksum: bv32)

  /** The acknowledgement that a client sends now. */
  ghost function Acknowledged(p: Peer, before: seq<bv8>, after: seq<bv8>): Acknowledgement {
    var key := if p.outgoingPeerID < MAXIMUM_PEER_ID then p.connectID else 0;
    Acknowledgement(p.connectID, p.outgoingPeerID, p.outgoingSessionID, before, after, Checksum.Keyed(key, before, after))
  }

  ghost predicate ChecksumTaken(p: Peer, a: Acknowledgement) {
    a.checksum == Checksum.Keyed(p.connectID, a.before, a.after)
  }

  /** What does not change on either host. */
  datatype Setting = Setting(
    clientAddress: Address, serverAddress: Address, clientMtu: uint32, serverMtu: uint32, channelLimit: nat,
    clientIncoming: uint32, clientOutgoing: uint32, serverIncoming: uint32, serverOutgoing: uint32, checksums: bool)

  ghost predicate Proper(e: Setting) {
    MINIMUM_CHANNEL_COUNT <= e.channelLimit <= MAXIMUM_CHANNEL_COUNT
  }

  datatype Step =
    | ClientConnects(channelCount: nat, connectID: uint32)
    | ClientVerifies(answered: Answered, event: bool)
    | ClientAcknowledges(before: seq<bv8>, after: seq<bv8>)
    | ClientMoves(state: PeerState)
    | ClientResets
    | ServerAccepts(offer: ConnectCommand, slot: uint16)
    | ServerConfirms(slot: uint16, acknowledgement: Acknowledgement, event: bool)
    | ServerMoves(slot: uint16, state: PeerState)
    | ServerResets(slot: uint16)

  /** The client has taken an answer, and is not reset yet. */
  predicate Verified(state: PeerState) {
    IsConnected(state) || state == ConnectionSucceeded || state == Disconnecting || state == AcknowledgingDisconnect
  }

  /** The server has taken an acknowledgement of its answer. */
  predicate Confirming(state: PeerState) {
    IsConnected(state) || state == ConnectionPending
  }

  /** The checks on the header of a datagram for a peer. */
  predicate HeaderTaken(p: Peer, address: Address, sessionID: uint8) {
    && p.state != Disconnected && p.state != Zombie && p.address == address
    && (p.outgoingPeerID < MAXIMUM_PEER_ID ==> sessionID == p.incomingSessionID)
  }

  ghost predicate Possible(e: Setting, x: Exchange, step: Step) {
    match step
    case ClientConnects(channelCount, connectID) => x.client.state == Disconnected && connectID !in x.attempts
    case ClientVerifies(a, _) => a in x.answers && x.client.state == Connecting
    case ClientAcknowledges(_, _) => Verified(x.client.state)
    case ClientMoves(state) => Verified(x.client.state) && (Verified(state) || state == Zombie)
    case ClientResets => true
    case ServerAccepts(c, i) =>
      && c in x.offers && i < |x.slots| && x.slots[i].state == Disconnected
      && MINIMUM_CHANNEL_COUNT <= c.channelCount <= MAXIMUM_CHANNEL_COUNT
      && forall k :: 0 <= k < |x.slots| && Rival(x.slots[k], e.clientAddress) ==> !SameAttempt(x.slots[k], e.clientAddress, c.connectID)
    case ServerConfirms(i, a, _) =>
      && a in x.acknowledgements && a.slot == i < |x.slots| && x.slots[i].accepted && x.slots[i].state == AcknowledgingConnect
      && HeaderTaken(x.slots[i], e.clientAddress, a.sessionID) && (e.checksums ==> ChecksumTaken(x.slots[i], a))
    case ServerMoves(i, state) =>
      && i < |x.slots| && x.slots[i].accepted && state != Disconnected && state != Connecting
      && (Confirming(state) ==> Confirming(x.slots[i].state))
    case ServerResets(i) => i < |x.slots|
  }

  ghost function After(e: Setting, x: Exchange, step: Step): Exchange
    requires Proper(e) && Possible(e, x, step)
  {
    match step
    case ClientConnects(channelCount, connectID) =>
      var p := Opened(x.client, e.serverAddress, channelCount, connectID, e.clientMtu, e.clientOutgoing);
      x.(client := p, attempts := x.attempts + {connectID}, offers := x.offers + {Offer(p, 0, e.clientIncoming, e.clientOutgoing)})
    case ClientVerifies(a, event) =>
      x.(client := if Confirms(x.client, a.answer)
                   then Confirmed(x.client, a.answer).(state := if event then Connected else ConnectionSucceeded)
                   else x.client.(state := Zombie))
    case ClientAcknowledges(before, after) =>
      x.(acknowledgements := x.acknowledgements + {Acknowledged(x.client, before, after)})
    case ClientMoves(state) => x.(client := x.client.(state := state))
    case ClientResets => x.(client := Reset(x.client, e.clientMtu))
    case ServerAccepts(c, i) =>
      var s := Accepted(x.slots[i], c, e.clientAddress, e.serverMtu, e.channelLimit, e.serverOutgoing);
      x.(slots := x.slots[i := s], answers := x.answers + {Answered(c, s, Answer(s, c, i, e.serverIncoming, e.serverOutgoing))})
    case ServerConfirms(i, _, event) => x.(slots := x.slots[i := AfterAcknowledged(x.slots[i], false, event, e.serverMtu)])
    case ServerMoves(i, state) => x.(slots := x.slots[i := x.slots[i].(state := state)])
    case ServerResets(i) => x.(slots := x.slots[i := Reset(x.slots[i], e.serverMtu)])
  }

  /** A slot is what its offer made it. */
  ghost predicate MadeFrom(e: Setting, s: Peer, c: ConnectCommand) {
    && s.connectID == c.connectID && s.throttle == c.throttle && s.address == e.clientAddress && s.outgoingPeerID == 0
    && s.channelCount == (if c.channelCount > e.channelLimit then e.channelLimit else c.channelCount)
    && s.mtu == Smaller(Clamped(c.mtu, MINIMUM_MTU, MAXIMUM_MTU), e.serverMtu)
  }

  ghost predicate SessionsCross(client: Peer, s: Peer) {
    client.outgoingSessionID == s.incomingSessionID && client.incomingSessionID == s.outgoingSessionID
  }

  ghost predicate Agrees(client: Peer, s: Peer) {
    && client.connectID == s.connectID && client.throttle == s.throttle && client.channelCount == s.channelCount
    && SessionsCross(client, s)
  }

  /** Each end counts its two sessions alike. */
  ghost predicate Even(p: Peer) {
    p.incomingSessionID == p.outgoingSessionID
  }

  /** The mtu both ends arrive at, from those of their hosts. */
  function ServerSide(e: Setting): uint32 {
    Smaller(Clamped(e.clientMtu, MINIMUM_MTU, MAXIMUM_MTU), e.serverMtu)
  }

  function ClientSide(e: Setting): uint32 {
    Smaller(Clamped(ServerSide(e), MINIMUM_MTU, MAXIMUM_MTU), e.clientMtu)
  }

  ghost predicate FromClient(e: Setting, c: ConnectCommand) {
    && c.mtu == e.clientMtu && MINIMUM_CHANNEL_COUNT <= c.channelCount <= MAXIMUM_CHANNEL_COUNT
    && c.outgoingPeerID == 0 && c.incomingSessionID == c.outgoingSessionID
  }

  ghost predicate Inv(e: Setting, x: Exchange) {
    && (forall c :: c in x.offers ==> c.connectID in x.attempts && FromClient(e, c))
    && (forall c, d :: c in x.offers && d in x.offers && c.connectID == d.connectID ==> c == d)
    && (forall a :: a in x.answers ==>
          && a.offer in x.offers && MadeFrom(e, a.slot, a.offer) && Even(a.slot)
          && a.answer.connectID == a.slot.connectID && a.answer.throttle == a.slot.throttle && a.answer.mtu == a.slot.mtu
          && a.answer.channelCount == a.slot.channelCount
          && a.answer.incomingSessionID == a.slot.outgoingSessionID && a.answer.outgoingSessionID == a.slot.incomingSessionID)
    && (forall i :: 0 <= i < |x.slots| ==> Even(x.slots[i]))
    && (forall i :: 0 <= i < |x.slots| && x.slots[i].accepted ==> exists c :: c in x.offers && MadeFrom(e, x.slots[i], c))
    && OneSlotEach(x.slots) && Even(x.client)
    && (x.client.state == Connecting ==>
          exists c :: c in x.offers && c.connectID == x.client.connectID && c.throttle == x.client.throttle
                      && c.channelCount == x.client.channelCount && x.client.mtu == e.clientMtu)
    && (Verified(x.client.state) ==>
          && x.client.mtu == ClientSide(e)
          && exists a :: a in x.answers && Agrees(x.client, a.slot))
  }

  lemma ConnectsKeeps(e: Setting, x: Exchange, channelCount: nat, connectID: uint32)
    requires Proper(e) && Inv(e, x) && Possible(e, x, ClientConnects(channelCount, connectID))
    ensures Inv(e, After(e, x, ClientConnects(channelCount, connectID)))
  {
    hide WindowFor, OneSlotEach, MadeFrom, Smaller, Clamped;
    var y := After(e, x, ClientConnects(channelCount, connectID));
    var c := Offer(y.client, 0, e.clientIncoming, e.clientOutgoing);
    assert c in y.offers;
  }

  lemma VerifiesKeeps(e: Setting, x: Exchange, a: Answered, event: bool)
    requires Proper(e) && Inv(e, x) && Possible(e, x, ClientVerifies(a, event))
    ensures Inv(e, After(e, x, ClientVerifies(a, event)))
  {
    hide WindowFor, OneSlotEach;
    if Confirms(x.client, a.answer) {
      assert Agrees(After(e, x, ClientVerifies(a, event)).client, a.slot);
    }
  }

  lemma MovesKeeps(e: Setting, x: Exchange, state: PeerState)
    requires Proper(e) && Inv(e, x) && Possible(e, x, ClientMoves(state))
    ensures Inv(e, After(e, x, ClientMoves(state)))
  {
    hide OneSlotEach, MadeFrom, FromClient, Smaller, Clamped;
    if Verified(state) {
      var a :| a in x.answers && Agrees(x.client, a.slot);
      assert Agrees(After(e, x, ClientMoves(state)).client, a.slot);
    }
  }

  lemma AcceptsKeeps(e: Setting, x: Exchange, c: ConnectCommand, i: uint16)
    requires Proper(e) && Inv(e, x) && Possible(e, x, ServerAccepts(c, i))
    ensures Inv(e, After(e, x, ServerAccepts(c, i)))
  {
    hide WindowFor, NextSession, Clamped, Smaller, ClientSide, Agrees;
    assert MadeFrom(e, After(e, x, ServerAccepts(c, i)).slots[i], c);
  }

  /** A slot that only changes its state. */
  lemma SlotMovesKeeps(e: Setting, x: Exchange, i: uint16, state: PeerState)
    requires Inv(e, x) && i < |x.slots| && x.slots[i].accepted && state != Disconnected && state != Connecting
    ensures Inv(e, x.(slots := x.slots[i := x.slots[i].(state := state)]))
  {
    hide Clamped, Smaller, FromClient, ClientSide, Agrees;
    var c :| c in x.offers && MadeFrom(e, x.slots[i], c);
    assert MadeFrom(e, x.slots[i].(state := state), c);
  }

  lemma SlotResetsKeeps(e: Setting, x: Exchange, i: uint16)
    requires Inv(e, x) && i < |x.slots|
    ensures Inv(e, x.(slots := x.slots[i := Reset(x.slots[i], e.serverMtu)]))
  {
    hide MadeFrom, Clamped, Smaller, FromClient, ClientSide, Agrees;
  }

  lemma StepKeeps(e: Setting, x: Exchange, step: Step)
    requires Proper(e) && Inv(e, x) && Possible(e, x, step)
    ensures Inv(e, After(e, x, step))
  {
    hide OneSlotEach, MadeFrom, FromClient, Smaller, Clamped, ClientSide, Agrees;
    match step
    case ClientConnects(channelCount, connectID) => ConnectsKeeps(e, x, channelCount, connectID);
    case ClientVerifies(a, event) => VerifiesKeeps(e, x, a, event);
    case ClientMoves(state) => MovesKeeps(e, x, state);
    case ServerAccepts(c, i) => AcceptsKeeps(e, x, c, i);
    case ServerConfirms(i, _, event) => SlotMovesKeeps(e, x, i, if event then Connected else ConnectionPending);
    case ServerMoves(i, state) => SlotMovesKeeps(e, x, i, state);
    case ServerResets(i) => SlotResetsKeeps(e, x, i);
    case _ =>
  }

  /** Both hosts start with every slot as enet_host_create leaves it. */
  ghost predicate IsStart(x: Exchange) {
    && |x.slots| <= MAXIMUM_PEER_ID
    && x.client.state == Disconnected && x.client.incomingSessionID == x.client.outgoingSessionID == 0xFF
    && x.attempts == {} && x.offers == {} && x.answers == {} && x.acknowledgements == {}
    && forall i :: 0 <= i < |x.slots| ==>
         var s := x.slots[i]; !s.accepted && s.state == Disconnected && s.incomingSessionID == s.outgoingSessionID == 0xFF
  }

  ghost predicate IsRun(e: Setting, run: seq<Exchange>, steps: seq<Step>) {
    && Proper(e) && |run| == |steps| + 1 && IsStart(run[0])
    && forall k :: 0 <= k < |steps| ==> Possible(e, run[k], steps[k]) && run[k + 1] == After(e, run[k], steps[k])
  }

  lemma {:induction false} RunKeeps(e: Setting, run: seq<Exchange>, steps: seq<Step>, k: nat)
    requires Proper(e) && IsRun(e, run, steps) && k < |run|
    ensures Inv(e, run[k])
  {
    hide After, Possible, Inv;
    if k > 0 {
      RunKeeps(e, run, steps, k - 1);
      StepKeeps(e, run[k - 1], steps[k - 1]);
    } else {
      StartKeeps(e, run[0]);
    }
  }

  lemma StartKeeps(e: Setting, x: Exchange)
    requires IsStart(x)
    ensures Inv(e, x) && AcknowledgementsInv(x) && KeysInv(x) && TakenInv(x)
  {
  }

  // ----- acknowledgements

  /** The assumption on the network: no acknowledgement reaches a later attempt than its own. Where the hosts use checksums,
      which are keyed with the connectID, such a one is not taken. */
  ghost predicate OwnAcknowledgement(x: Exchange, step: Step) {
    step.ServerConfirms? && step.slot < |x.slots| ==> step.acknowledgement.connectID == x.slots[step.slot].connectID
  }

  ghost predicate OwnAcknowledgements(run: seq<Exchange>, steps: seq<Step>) {
    forall k :: 0 <= k < |steps| < |run| ==> OwnAcknowledgement(run[k], steps[k])
  }

  /** What an acknowledgement of the client's attempt says of the client now. */
  ghost predicate AcknowledgementsInv(x: Exchange) {
    && (forall a :: a in x.acknowledgements ==> a.connectID in x.attempts)
    && (forall a :: a in x.acknowledgements && a.connectID == x.client.connectID && x.client.state != Disconnected ==>
          x.client.state != Connecting
          && (Verified(x.client.state) ==> a.slot == x.client.outgoingPeerID && a.sessionID == x.client.outgoingSessionID))
    && (x.client.state != Disconnected ==> x.client.connectID in x.attempts)
    && forall i :: 0 <= i < |x.slots| && x.slots[i].accepted && Confirming(x.slots[i].state) ==>
         exists a :: a in x.acknowledgements && a.connectID == x.slots[i].connectID && a.slot == i
                     && a.sessionID == x.slots[i].incomingSessionID
  }

  lemma AcknowledgementsKept(e: Setting, x: Exchange, step: Step)
    requires Proper(e) && Inv(e, x) && AcknowledgementsInv(x) && Possible(e, x, step) && OwnAcknowledgement(x, step)
    ensures AcknowledgementsInv(After(e, x, step))
  {
    hide WindowFor, NextSession, Clamped, Smaller, OneSlotEach, Checksum.Keyed, Agrees, ClientSide, Even;
    var y := After(e, x, step);
    match step
    case ServerConfirms(i, a, _) =>
      var c :| c in x.offers && MadeFrom(e, x.slots[i], c);
      assert a in y.acknowledgements && a.sessionID == y.slots[i].incomingSessionID;
    case _ =>
  }

  lemma {:induction false} RunAcknowledgements(e: Setting, run: seq<Exchange>, steps: seq<Step>, k: nat)
    requires Proper(e) && IsRun(e, run, steps) && OwnAcknowledgements(run, steps) && k < |run|
    ensures AcknowledgementsInv(run[k])
  {
    hide After, Possible, Inv, AcknowledgementsInv, OwnAcknowledgement;
    if k > 0 {
      RunAcknowledgements(e, run, steps, k - 1);
      RunKeeps(e, run, steps, k - 1);
      AcknowledgementsKept(e, run[k - 1], steps[k - 1]);
    } else {
      StartKeeps(e, run[0]);
    }
  }

  // ----- checksums

  ghost predicate KeysInv(x: Exchange) {
    && |x.slots| <= MAXIMUM_PEER_ID
    && (forall a :: a in x.answers ==> a.answer.outgoingPeerID < |x.slots|)
    && (Verified(x.client.state) ==> x.client.outgoingPeerID < |x.slots|)
    && forall a :: a in x.acknowledgements ==> a.checksum == Checksum.Keyed(a.connectID, a.before, a.after)
  }

  lemma KeysKept(e: Setting, x: Exchange, step: Step)
    requires Proper(e) && KeysInv(x) && Possible(e, x, step)
    ensures KeysInv(After(e, x, step))
  {
    hide WindowFor, NextSession, Clamped, Smaller, OneSlotEach, Checksum.Keyed;
  }

  lemma {:induction false} RunKeys(e: Setting, run: seq<Exchange>, steps: seq<Step>, k: nat)
    requires Proper(e) && IsRun(e, run, steps) && k < |run|
    ensures KeysInv(run[k])
  {
    hide After, Possible, Inv, AcknowledgementsInv, KeysInv, TakenInv;
    if k > 0 {
      RunKeys(e, run, steps, k - 1);
      KeysKept(e, run[k - 1], steps[k - 1]);
    } else {
      StartKeeps(e, run[0]);
    }
  }

  /** With checksums the assumption holds: an acknowledgement of another attempt was keyed with another connectID, and CRC-32
      shows any change of four consecutive bytes. */
  lemma ChecksumsSuffice(e: Setting, run: seq<Exchange>, steps: seq<Step>)
    requires Proper(e) && IsRun(e, run, steps) && e.checksums
    ensures OwnAcknowledgements(run, steps)
  {
    forall k | 0 <= k < |steps|
      ensures OwnAcknowledgement(run[k], steps[k])
    {
      RunKeys(e, run, steps, k);
      if steps[k].ServerConfirms? {
        TakenIsOwn(e, run[k], steps[k].slot, steps[k].acknowledgement, steps[k].event);
      }
    }
  }

  lemma TakenIsOwn(e: Setting, x: Exchange, i: uint16, a: Acknowledgement, event: bool)
    requires KeysInv(x) && e.checksums && Possible(e, x, ServerConfirms(i, a, event))
    ensures i < |x.slots| && a.connectID == x.slots[i].connectID
  {
    hide Checksum.Keyed;
    if a.connectID != x.slots[i].connectID {
      Checksum.KeyShows(a.connectID, x.slots[i].connectID, a.before, a.after);
    }
  }

  // ----- which acknowledgement a slot took

  /** Every confirmed slot took one with its session number. */
  ghost predicate TakenInv(x: Exchange) {
    && (forall i :: 0 <= i < |x.slots| && x.slots[i].accepted ==> x.slots[i].outgoingPeerID == 0)
    && (forall c :: c in x.offers ==> c.outgoingPeerID == 0)
    && forall i :: 0 <= i < |x.slots| && x.slots[i].accepted && Confirming(x.slots[i].state) ==>
         exists a :: a in x.acknowledgements && a.slot == i && a.sessionID == x.slots[i].incomingSessionID
  }

  lemma TakenKept(e: Setting, x: Exchange, step: Step)
    requires Proper(e) && TakenInv(x) && Possible(e, x, step)
    ensures TakenInv(After(e, x, step))
  {
    hide WindowFor, NextSession, Clamped, Smaller, OneSlotEach;
    var y := After(e, x, step);
    match step
    case ServerConfirms(i, a, _) =>
      assert a in y.acknowledgements && a.sessionID == y.slots[i].incomingSessionID;
    case _ =>
  }

  lemma {:induction false} RunTaken(e: Setting, run: seq<Exchange>, steps: seq<Step>, k: nat)
    requires Proper(e) && IsRun(e, run, steps) && k < |run|
    ensures TakenInv(run[k])
  {
    hide After, Possible, Inv, AcknowledgementsInv, KeysInv, TakenInv;
    if k > 0 {
      RunTaken(e, run, steps, k - 1);
      TakenKept(e, run[k - 1], steps[k - 1]);
    } else {
      StartKeeps(e, run[0]);
    }
  }

  // ----- the promises

  /** In every run, a client that has taken an answer agrees on everything but the mtu with the slot as it was then, and on
      connectID, throttle and channels with every slot that holds its attempt now. */
  lemma AnswerAgrees(e: Setting, run: seq<Exchange>, steps: seq<Step>, k: nat)
    requires Proper(e) && IsRun(e, run, steps) && k < |run| && Verified(run[k].client.state)
    ensures exists a :: a in run[k].answers && Agrees(run[k].client, a.slot)
    ensures forall i :: 0 <= i < |run[k].slots| && run[k].slots[i].accepted && run[k].slots[i].connectID == run[k].client.connectID ==>
              var s := run[k].slots[i];
              && s.throttle == run[k].client.throttle && s.channelCount == run[k].client.channelCount
              && s.mtu == ServerSide(e) && run[k].client.mtu == ClientSide(e)
  {
    hide Clamped, Smaller, OneSlotEach;
    RunKeeps(e, run, steps, k);
    var x := run[k];
    var a :| a in x.answers && Agrees(x.client, a.slot);
    forall i | 0 <= i < |x.slots| && x.slots[i].accepted && x.slots[i].connectID == x.client.connectID
      ensures MadeFrom(e, x.slots[i], a.offer) && FromClient(e, a.offer)
    {
      var c :| c in x.offers && MadeFrom(e, x.slots[i], c);
      assert c == a.offer;
    }
  }

  /** In every run, when both ends of an attempt are connected, their session numbers match crosswise, the client sends to
      that slot, and they agree on throttle and channels: however often the CONNECT was repeated, the slot given up and
      taken again, and whichever of the answers the client took. */
  lemma ConnectedAgrees(e: Setting, run: seq<Exchange>, steps: seq<Step>, k: nat, i: nat)
    requires Proper(e) && IsRun(e, run, steps) && OwnAcknowledgements(run, steps) && k < |run| && i < |run[k].slots|
    requires Verified(run[k].client.state) && run[k].slots[i].accepted && Confirming(run[k].slots[i].state)
    requires run[k].client.connectID == run[k].slots[i].connectID
    ensures Agrees(run[k].client, run[k].slots[i]) && run[k].client.outgoingPeerID == i && run[k].slots[i].outgoingPeerID == 0
  {
    RunKeeps(e, run, steps, k);
    RunAcknowledgements(e, run, steps, k);
    AnswerAgrees(e, run, steps, k);
    var c :| c in run[k].offers && MadeFrom(e, run[k].slots[i], c);
  }

  /** With checksums nothing is assumed. */
  lemma ConnectedAgreesWithChecksums(e: Setting, run: seq<Exchange>, steps: seq<Step>, k: nat, i: nat)
    requires Proper(e) && IsRun(e, run, steps) && e.checksums && k < |run| && i < |run[k].slots|
    requires Verified(run[k].client.state) && run[k].slots[i].accepted && Confirming(run[k].slots[i].state)
    requires run[k].client.connectID == run[k].slots[i].connectID
    ensures Agrees(run[k].client, run[k].slots[i]) && run[k].client.outgoingPeerID == i && run[k].slots[i].outgoingPeerID == 0
  {
    hide IsRun, OwnAcknowledgements;
    ChecksumsSuffice(e, run, steps);
    ConnectedAgrees(e, run, steps, k, i);
  }

  /** Without, it is the session number of the acknowledgement that decides: whichever attempt the one was from that the slot
      took, the two ends agree exactly if its session number is the client's. */
  lemma SessionDecides(e: Setting, run: seq<Exchange>, steps: seq<Step>, k: nat, i: nat) returns (a: Acknowledgement)
    requires Proper(e) && IsRun(e, run, steps) && k < |run| && i < |run[k].slots|
    requires Verified(run[k].client.state) && run[k].slots[i].accepted && Confirming(run[k].slots[i].state)
    requires run[k].client.connectID == run[k].slots[i].connectID
    ensures a in run[k].acknowledgements && a.slot == i && a.sessionID == run[k].slots[i].incomingSessionID
    ensures Agrees(run[k].client, run[k].slots[i]) <==> a.sessionID == run[k].client.outgoingSessionID
  {
    hide Clamped, Smaller, OneSlotEach, MadeFrom, FromClient;
    RunKeeps(e, run, steps, k);
    RunTaken(e, run, steps, k);
    AnswerAgrees(e, run, steps, k);
    a :| a in run[k].acknowledgements && a.slot == i && a.sessionID == run[k].slots[i].incomingSessionID;
  }

  /** The two mtus are the same exactly if neither host's is below the minimum, or both are the same anyway. */
  lemma MtuAgrees(e: Setting)
    ensures ServerSide(e) == ClientSide(e) <==>
              (e.clientMtu >= MINIMUM_MTU && e.serverMtu >= MINIMUM_MTU) || (e.serverMtu < MINIMUM_MTU && e.clientMtu == e.serverMtu)
  {
  }

  /** The windows and bandwidths that an attempt carries, at each stage. */
  ghost predicate WindowsInv(e: Setting, x: Exchange) {
    && (forall c :: c in x.offers ==>
          c.incomingBandwidth == e.clientIncoming && c.outgoingBandwidth == e.clientOutgoing && c.windowSize == WindowFor(e.clientOutgoing))
    && (forall a :: a in x.answers ==>
          && a.answer.incomingBandwidth == e.serverIncoming && a.answer.outgoingBandwidth == e.serverOutgoing
          && a.answer.windowSize == Smaller(WindowFor(e.serverIncoming), WindowFor(e.clientOutgoing)))
    && (forall i :: 0 <= i < |x.slots| && x.slots[i].accepted ==> ServerWindow(e, x.slots[i]))
    && (x.client.state == Connecting ==> x.client.windowSize == WindowFor(e.clientOutgoing))
    && (Verified(x.client.state) ==> ClientWindow(e, x.client))
  }

  /** Each end knows the other's bandwidths, and has no more in transit than its own host may send and the other's receive. */
  ghost predicate ClientWindow(e: Setting, client: Peer) {
    && client.incomingBandwidth == e.serverIncoming && client.outgoingBandwidth == e.serverOutgoing
    && client.windowSize == Smaller(WindowFor(e.clientOutgoing), WindowFor(e.serverIncoming))
  }

  ghost predicate ServerWindow(e: Setting, s: Peer) {
    && s.incomingBandwidth == e.clientIncoming && s.outgoingBandwidth == e.clientOutgoing
    && s.windowSize == Smaller(WindowFor(e.serverOutgoing), WindowFor(e.clientIncoming))
  }

  lemma WindowsKept(e: Setting, x: Exchange, step: Step)
    requires Proper(e) && Possible(e, x, step) && WindowsInv(e, x)
    ensures WindowsInv(e, After(e, x, step))
  {
    hide WindowFor, OneSlotEach, Clamped, Smaller, Narrower, NextSession;
    WindowRange(e.clientOutgoing);
    WindowRange(e.serverIncoming);
    NarrowerWindow(e.serverOutgoing, e.clientIncoming);
    ClampedWindow(WindowFor(e.serverIncoming), WindowFor(e.clientOutgoing));
  }

  lemma ClampedWindow(v: uint32, w: uint32)
    requires MINIMUM_WINDOW_SIZE <= v <= MAXIMUM_WINDOW_SIZE && MINIMUM_WINDOW_SIZE <= w <= MAXIMUM_WINDOW_SIZE
    ensures Clamped(Smaller(v, w), MINIMUM_WINDOW_SIZE, MAXIMUM_WINDOW_SIZE) == Smaller(v, w) == Smaller(w, v)
    ensures Smaller(Smaller(v, w), w) == Smaller(w, v)
  {
  }

  lemma {:induction false} RunWindows(e: Setting, run: seq<Exchange>, steps: seq<Step>, k: nat)
    requires Proper(e) && IsRun(e, run, steps) && k < |run|
    ensures WindowsInv(e, run[k])
  {
    hide After, Possible, WindowFor;
    if k > 0 {
      RunWindows(e, run, steps, k - 1);
      WindowsKept(e, run[k - 1], steps[k - 1]);
    }
  }

  /** In every run a client that has taken an answer knows the server's bandwidths, and a slot knows the client's; and each
      end's window is the smaller of what its own host may send and what the other's may receive. */
  lemma WindowsMeet(e: Setting, run: seq<Exchange>, steps: seq<Step>, k: nat)
    requires Proper(e) && IsRun(e, run, steps) && k < |run|
    ensures Verified(run[k].client.state) ==> ClientWindow(e, run[k].client)
    ensures forall i :: 0 <= i < |run[k].slots| && run[k].slots[i].accepted ==> ServerWindow(e, run[k].slots[i])
  {
    RunWindows(e, run, steps, k);
  }

  /** In every run, however often a CONNECT is repeated, at most one slot holds it. */
  lemma OneSlotPerAttempt(e: Setting, run: seq<Exchange>, steps: seq<Step>, k: nat, i: nat, j: nat)
    requires Proper(e) && IsRun(e, run, steps) && k < |run| && i < |run[k].slots| && j < |run[k].slots|
    requires run[k].slots[i].accepted && run[k].slots[j].accepted && run[k].slots[i].connectID == run[k].slots[j].connectID
    ensures i == j
  {
    RunKeeps(e, run, steps, k);
    var x := run[k];
    var c :| c in x.offers && MadeFrom(e, x.slots[i], c);
    var d :| d in x.offers && MadeFrom(e, x.slots[j], d);
  }

  // ----- the limits

  lemma Extended(e: Setting, run: seq<Exchange>, steps: seq<Step>, step: Step) returns (longer: seq<Exchange>, more: seq<Step>)
    requires IsRun(e, run, steps) && Possible(e, run[|steps|], step)
    ensures IsRun(e, longer, more) && |longer| == |more| + 1 == |steps| + 2 && longer[|more|] == After(e, run[|steps|], step)
  {
    hide After, Possible, IsStart;
    longer, more := run + [After(e, run[|steps|], step)], steps + [step];
  }

  /** Between attempts, with one slot: the session numbers that are kept on the client and on the slot. */
  ghost predicate Idle(x: Exchange, c: uint8, s: uint8) {
    && x.client.state == Disconnected && x.client.throttle == DEFAULT_THROTTLE
    && x.client.incomingSessionID == x.client.outgoingSessionID == c
    && |x.slots| == 1 && x.slots[0].state == Disconnected && x.slots[0].incomingSessionID == x.slots[0].outgoingSessionID == s
  }

  /** During one: o is its offer, and the slot has accepted it with session s. */
  ghost predicate Offered(e: Setting, x: Exchange, o: ConnectCommand, s: uint8) {
    && o in x.offers && o.channelCount == 1 && o.throttle == DEFAULT_THROTTLE
    && o.outgoingPeerID == 0 && |x.slots| == 1 && x.slots[0].accepted && x.slots[0].state == AcknowledgingConnect
    && x.slots[0].connectID == o.connectID && x.slots[0].outgoingPeerID == 0 && x.slots[0].address == e.clientAddress
    && x.slots[0].incomingSessionID == x.slots[0].outgoingSessionID == s
  }

  ghost predicate Asking(x: Exchange, o: ConnectCommand) {
    && x.client.state == Connecting && x.client.connectID == o.connectID && x.client.throttle == DEFAULT_THROTTLE
  }

  lemma Opening(e: Setting, run: seq<Exchange>, steps: seq<Step>, connectID: uint32, c: uint8, s: uint8)
    returns (longer: seq<Exchange>, more: seq<Step>, o: ConnectCommand)
    requires IsRun(e, run, steps) && Idle(run[|steps|], c, s) && connectID !in run[|steps|].attempts
    ensures IsRun(e, longer, more)
    ensures var x, y := run[|steps|], longer[|more|];
            && y.attempts == x.attempts + {connectID} && y.acknowledgements == x.acknowledgements && y.slots == x.slots
            && Asking(y, o) && o.connectID == connectID && o.incomingSessionID == o.outgoingSessionID == c
            && o in y.offers && o.channelCount == 1 && o.throttle == DEFAULT_THROTTLE && o.outgoingPeerID == 0
  {
    hide IsRun;
    longer, more := Extended(e, run, steps, ClientConnects(1, connectID));
    o := Offer(longer[|more|].client, 0, e.clientIncoming, e.clientOutgoing);
  }

  lemma Accepting(e: Setting, run: seq<Exchange>, steps: seq<Step>, o: ConnectCommand, s: uint8)
    returns (longer: seq<Exchange>, more: seq<Step>, a: Answered)
    requires IsRun(e, run, steps)
    requires var x := run[|steps|];
             && o in x.offers && o.channelCount == 1 && o.throttle == DEFAULT_THROTTLE && o.outgoingPeerID == 0
             && o.incomingSessionID == o.outgoingSessionID
             && |x.slots| == 1 && x.slots[0].incomingSessionID == x.slots[0].outgoingSessionID == s
    ensures IsRun(e, longer, more)
    ensures var x, y, t := run[|steps|], longer[|more|], NextSession(o.incomingSessionID, s);
            && y.(slots := x.slots, answers := x.answers) == x && Offered(e, y, o, t)
            && a in y.answers && a.answer.connectID == o.connectID && a.answer.throttle == DEFAULT_THROTTLE
            && a.answer.channelCount == 1 && a.answer.outgoingPeerID == 0
            && a.answer.incomingSessionID == a.answer.outgoingSessionID == t
  {
    hide IsRun, NextSession, WindowFor;
    assert Proper(e) by { RunProper(e, run, steps); }
    longer, more := Extended(e, run, steps, ServerResets(0));
    longer, more := Extended(e, longer, more, ServerAccepts(o, 0));
    var y := longer[|more|];
    a := Answered(o, y.slots[0], Answer(y.slots[0], o, 0, e.serverIncoming, e.serverOutgoing));
  }

  lemma RunProper(e: Setting, run: seq<Exchange>, steps: seq<Step>)
    requires IsRun(e, run, steps)
    ensures Proper(e) && |run| == |steps| + 1
  {
  }

  lemma Taking(e: Setting, run: seq<Exchange>, steps: seq<Step>, o: ConnectCommand, a: Answered)
    returns (longer: seq<Exchange>, more: seq<Step>)
    requires IsRun(e, run, steps) && Asking(run[|steps|], o) && a in run[|steps|].answers
    requires a.answer.connectID == o.connectID && a.answer.throttle == DEFAULT_THROTTLE && a.answer.channelCount == 1
    requires a.answer.incomingSessionID == a.answer.outgoingSessionID
    ensures IsRun(e, longer, more)
    ensures var x, y := run[|steps|], longer[|more|];
            && y.(client := x.client) == x && y.client.state == Connected && y.client.connectID == o.connectID
            && y.client.outgoingPeerID == a.answer.outgoingPeerID
            && y.client.incomingSessionID == y.client.outgoingSessionID == a.answer.incomingSessionID
  {
    hide IsRun;
    longer, more := Extended(e, run, steps, ClientVerifies(a, true));
  }

  lemma Acknowledging(e: Setting, run: seq<Exchange>, steps: seq<Step>, a: Acknowledgement)
    returns (longer: seq<Exchange>, more: seq<Step>)
    requires IsRun(e, run, steps) && run[|steps|].client.state == Connected
    requires a == Acknowledged(run[|steps|].client, [], [])
    ensures IsRun(e, longer, more)
    ensures longer[|more|] == run[|steps|].(acknowledgements := run[|steps|].acknowledgements + {a})
  {
    hide IsRun;
    longer, more := Extended(e, run, steps, ClientAcknowledges([], []));
  }

  lemma GivingUp(e: Setting, run: seq<Exchange>, steps: seq<Step>, s: uint8) returns (longer: seq<Exchange>, more: seq<Step>)
    requires IsRun(e, run, steps) && |run[|steps|].slots| == 1
    requires run[|steps|].client.incomingSessionID == run[|steps|].client.outgoingSessionID
    requires run[|steps|].slots[0].incomingSessionID == run[|steps|].slots[0].outgoingSessionID == s
    ensures IsRun(e, longer, more)
    ensures var x, y := run[|steps|], longer[|more|];
            && y.(client := x.client, slots := x.slots) == x && Idle(y, x.client.incomingSessionID, s)
  {
    hide IsRun;
    longer, more := Extended(e, run, steps, ClientResets);
    longer, more := Extended(e, longer, more, ServerResets(0));
  }

  function Example(clientMtu: uint32, serverMtu: uint32): Setting {
    Setting(Address(1, 1), Address(2, 2), clientMtu, serverMtu, 255, 0, 0, 0, 0, false)
  }

  lemma Starting(e: Setting) returns (run: seq<Exchange>, steps: seq<Step>)
    requires Proper(e)
    ensures IsRun(e, run, steps) && Idle(run[|steps|], 0xFF, 0xFF)
    ensures run[|steps|].attempts == {} && run[|steps|].acknowledgements == {}
  {
    run, steps := [Exchange(NO_PEER, [NO_PEER], {}, {}, {}, {})], [];
  }

  /** Without the assumption it can fail: session numbers count modulo 4, so that an acknowledgement from two attempts ago can
      fit the slot as it is now, when the client has taken the answer the slot gave before. */
  lemma StaleAcknowledgement() returns (run: seq<Exchange>, steps: seq<Step>)
    ensures IsRun(Example(1392, 1392), run, steps) && |run[|steps|].slots| == 1
    ensures var x := run[|steps|];
            && x.client.state == Connected && x.slots[0].accepted && x.slots[0].state == Connected
            && x.client.connectID == x.slots[0].connectID
            && x.client.outgoingSessionID == 3 && x.slots[0].incomingSessionID == 0
  {
    hide IsRun, Checksum.Keyed;
    var e := Example(1392, 1392);
    var o, a;
    run, steps := Starting(e);
    run, steps, o := Opening(e, run, steps, 1, 0xFF, 0xFF);
    run, steps, a := Accepting(e, run, steps, o, 0xFF);
    run, steps := Taking(e, run, steps, o, a);
    RunProper(e, run, steps);
    var stale := Acknowledged(run[|steps|].client, [], []);
    run, steps := Acknowledging(e, run, steps, stale);
    run, steps := GivingUp(e, run, steps, 0);
    run, steps, o := Opening(e, run, steps, 2, 0, 0);
    run, steps, a := Accepting(e, run, steps, o, 0);
    run, steps, a := Accepting(e, run, steps, o, 1);
    run, steps := Taking(e, run, steps, o, a);
    run, steps := GivingUp(e, run, steps, 2);
    run, steps, o := Opening(e, run, steps, 3, 2, 2);
    run, steps, a := Accepting(e, run, steps, o, 2);
    run, steps := Taking(e, run, steps, o, a);
    run, steps, a := Accepting(e, run, steps, o, 3);
    run, steps := Extended(e, run, steps, ServerConfirms(0, stale, true));
  }

  /** Both ends connected, with an mtu of 500 on the server, which is configured so, and 576 on the client. */
  lemma MtusApart() returns (run: seq<Exchange>, steps: seq<Step>)
    ensures IsRun(Example(1392, 500), run, steps) && |run[|steps|].slots| == 1
    ensures var x := run[|steps|];
            && x.client.state == Connected && x.slots[0].accepted && x.slots[0].state == Connected
            && x.client.connectID == x.slots[0].connectID && x.client.mtu == 576 && x.slots[0].mtu == 500
  {
    hide IsRun, Checksum.Keyed;
    var e := Example(1392, 500);
    var o, a;
    run, steps := Starting(e);
    run, steps, o := Opening(e, run, steps, 1, 0xFF, 0xFF);
    run, steps, a := Accepting(e, run, steps, o, 0xFF);
    run, steps := Taking(e, run, steps, o, a);
    RunProper(e, run, steps);
    var own := Acknowledged(run[|steps|].client, [], []);
    run, steps := Acknowledging(e, run, steps, own);
    run, steps := Extended(e, run, steps, ServerConfirms(0, own, true));
    AnswerAgrees(e, run, steps, |steps|);
  }
}
