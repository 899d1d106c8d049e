/** The states of a peer, in the order of enet.h. */
module PeerStates {
  datatype PeerState = Disconnected | Connecting | AcknowledgingConnect | ConnectionPending | ConnectionSucceeded
                     | Connected | DisconnectLater | Disconnecting | AcknowledgingDisconnect | Zombie

  /** The states in which a peer counts as connected. */
  predicate IsConnected(state: PeerState) {
    state == Connected || state == DisconnectLater
  }
}
