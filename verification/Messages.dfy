/** What travels between a server and its clients. Application messages are strings: the library
    passes them through without looking at them. */
module Messages {
  type Uid = nat

  datatype Addr = Addr(ip: nat, port: nat)

  datatype Uuid = Uuid(bits: nat)

  type Text = string

  /** A decoded message, or data that could not be decoded. */
  datatype Frame<+T> = Ok(value: T) | Garbage

  datatype TcpToServer = App(msg: Text)

  datatype TcpFromServer = App(msg: Text) | Welcome(uuid: Uuid) | UdpHandshakeAcknowledged

  datatype UdpToServer = App(msg: Text) | Hello(uuid: Uuid)

  datatype UdpFromServer = App(msg: Text) | Welcome | Heartbeat

  // Server events

  datatype DisconnectReason = PeerClosedConnection | PeerSubmittedUnintelligibleData

  datatype Event =
    | NewPeer(uid: Uid)
    | TcpMessage(from: Uid, tcp: TcpToServer)
    | UdpMessage(from: Uid, udp: Text)
    | PeerDisconnect(uid: Uid, reason: DisconnectReason)
}
