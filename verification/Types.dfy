/** The values that go-clarinet's components exchange: byte text, peer and connection
    identifiers, connections and their statuses, and the request and response records. */
module Types {

  datatype Option<+T> = None | Some(value: T)

  /** A Go (value, error) pair in which exactly one part is meaningful; usable with ":-". */
  datatype Result<+T> = Ok(value: T) | Err(message: Text) {
    predicate IsFailure() {
      Err?
    }

    function PropagateFailure<U>(): Result<U>
      requires Err?
    {
      Err(message)
    }

    function Extract(): T
      requires Ok?
    {
      value
    }
  }

  /** A Go byte, written as the character with the same code. */
  type Byte = c: char | c as int < 256 witness 'a'

  /** A Go string or byte slice. */
  type Text = seq<Byte>

  function ByteOf(n: int): (b: Byte)
    requires 0 <= n < 256
    ensures b as int == n
  {
    n as char
  }

  /** A peer ID is identified with its text form, which is never empty. */
  datatype PeerID = PeerID(first: Byte, rest: Text)

  function PeerText(p: PeerID): Text {
    [p.first] + p.rest
  }

  /** A connection ID is a UUID: sixteen bytes. */
  type ConnID = b: Text | |b| == 16 witness "0000000000000000"

  datatype Status =
    | RequestingReceiver
    | RequestingSender
    | AwaitingWitness
    | RequestingWitness
    | NotifyingOfWitness
    | Open
    | Closing
    | Closed

  /** The two selector values, and the nil interface value a caller may leave in the options. */
  datatype WitnessSelector = SenderSelects | ReceiverSelects | NilSelector

  /** An immutable connection value; setters return an altered copy. */
  datatype Connection = Connection(id: ConnID, sender: PeerID, wit: Option<PeerID>, receiver: PeerID, status: Status) {
    function SetStatus(s: Status): Connection {
      this.(status := s)
    }

    function SetWitness(w: PeerID): Connection {
      this.(wit := Some(w))
    }
  }

  datatype ConnectRequest = ConnectRequest(
    connectionID: ConnID, sender: Option<PeerID>, receiver: Option<PeerID>, selector: WitnessSelector)

  datatype ConnectResponse = ConnectResponse(
    connectionID: ConnID, errors: seq<Text>, accepted: bool, rejectReasons: seq<Text>)

  datatype WitnessRequest = WitnessRequest(
    connectionID: ConnID, sender: Option<PeerID>, receiver: Option<PeerID>, selector: WitnessSelector)

  datatype WitnessResponse = WitnessResponse(
    connectionID: ConnID, errors: seq<Text>, accepted: bool, rejectReasons: seq<Text>)

  datatype WitnessNotification = WitnessNotification(connectionID: ConnID, wit: Option<PeerID>)

  datatype CloseRequest = CloseRequest(connectionID: ConnID)

  /** Num is a Go int on a 64-bit platform. */
  type Int64 = n: int | -0x8000_0000_0000_0000 <= n <= 0x7fff_ffff_ffff_ffff

  datatype PeersRequest = PeersRequest(num: Int64)

  datatype Peer = Peer(id: Option<PeerID>, addresses: seq<Text>)

  datatype PeersResponse = PeersResponse(peers: seq<Peer>)
}
