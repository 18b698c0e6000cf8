/** The text wire format: eight message types printed as '.'-separated fields ended by ';'.
    Free text is base64, lists are ','-joined base64, and a PeersResponse nests whole records
    inside a list. */
module Serde {
  import opened Types
  import opened Strings
  import Base64

  // Fields

  function EncodePeerID(p: Option<PeerID>): Text {
    match p
    case None => []
    case Some(id) => Base64.Encode(PeerText(id))
  }

  const EMPTY_PEER: Text := "failed to parse peer ID"

  function DecodePeerText(t: Text): Result<PeerID> {
    if t == [] then Err(EMPTY_PEER) else Ok(PeerID(t[0], t[1..]))
  }

  function DecodePeerID(s: Text): Result<Option<PeerID>> {
    if s == [] then Ok(None)
    else
      var t :- Base64.Decode(s);
      var p :- DecodePeerText(t);
      Ok(Some(p))
  }

  /** A nil selector prints as the formatter's complaint about nil. */
  function FormatSelector(w: WitnessSelector): Text {
    match w
    case SenderSelects => "Sender"
    case ReceiverSelects => "Receiver"
    case NilSelector => "%!s(<nil>)"
  }

  const UNKNOWN_SELECTOR: Text := "Unrecognized witness selector type"

  function ParseSelector(s: Text): Result<WitnessSelector> {
    if s == "Sender" then Ok(SenderSelects)
    else if s == "Receiver" then Ok(ReceiverSelects)
    else Err(UNKNOWN_SELECTOR)
  }

  function FormatBool(b: bool): Text {
    if b then "true" else "false"
  }

  const NOT_A_BOOL: Text := "invalid boolean"

  function ParseBool(s: Text): Result<bool> {
    if s == "1" || s == "t" || s == "T" || s == "TRUE" || s == "true" || s == "True" then Ok(true)
    else if s == "0" || s == "f" || s == "F" || s == "FALSE" || s == "false" || s == "False" then Ok(false)
    else Err(NOT_A_BOOL)
  }

  function EncodeAll(plain: seq<Text>): (enc: seq<Text>)
    ensures |enc| == |plain|
  {
    seq(|plain|, i requires 0 <= i < |plain| => Base64.Encode(plain[i]))
  }

  function DecodeAll(enc: seq<Text>): Result<seq<Text>> {
    if enc == [] then Ok([])
    else
      var s :- Base64.Decode(enc[0]);
      var rest :- DecodeAll(enc[1..]);
      Ok([s] + rest)
  }

  function SliceText(plain: seq<Text>): Text {
    Join(EncodeAll(plain), ',')
  }

  function ParseSlice(enc: Text): Result<seq<Text>> {
    if enc == [] then Ok([]) else DecodeAll(Split(enc, ','))
  }

  method SerializeSlice(plain: seq<Text>) returns (text: Text)
    ensures text == SliceText(plain)
  {
    var enc := [];
    for i := 0 to |plain|
      invariant enc == EncodeAll(plain[..i])
    {
      enc := enc + [Base64.Encode(plain[i])];
    }
    assert plain[..|plain|] == plain;
    text := Join(enc, ',');
  }

  lemma {:induction false} DecodeAllAppend(enc: seq<Text>, e: Text)
    ensures DecodeAll(enc).Err? ==> DecodeAll(enc + [e]) == DecodeAll(enc)
    ensures DecodeAll(enc).Ok? && Base64.Decode(e).Err? ==> DecodeAll(enc + [e]) == Err(Base64.Decode(e).message)
    ensures DecodeAll(enc).Ok? && Base64.Decode(e).Ok? ==>
      DecodeAll(enc + [e]) == Ok(DecodeAll(enc).value + [Base64.Decode(e).value])
  {
    if enc == [] {
      assert enc + [e] == [e];
      assert Base64.Decode(e).Ok? ==> [Base64.Decode(e).value] + [] == [] + [Base64.Decode(e).value];
    } else {
      DecodeAllAppend(enc[1..], e);
      assert (enc + [e])[1..] == enc[1..] + [e];
      if DecodeAll(enc).Ok? && Base64.Decode(e).Ok? {
        var s, rest, last := Base64.Decode(enc[0]).value, DecodeAll(enc[1..]).value, Base64.Decode(e).value;
        assert [s] + (rest + [last]) == ([s] + rest) + [last];
      }
    }
  }

  lemma {:induction false} DecodeAllPrefix(enc: seq<Text>, i: nat)
    requires i <= |enc| && DecodeAll(enc[..i]).Err?
    ensures DecodeAll(enc) == DecodeAll(enc[..i])
    decreases |enc| - i
  {
    if i == |enc| {
      assert enc[..i] == enc;
    } else {
      DecodeAllAppend(enc[..i], enc[i]);
      assert enc[..i] + [enc[i]] == enc[..i + 1];
      DecodeAllPrefix(enc, i + 1);
    }
  }

  method DeserializeSlice(enc: Text) returns (r: Result<seq<Text>>)
    ensures r == ParseSlice(enc)
  {
    if enc == [] {
      return Ok([]);
    }
    var parts := Split(enc, ',');
    var dec := [];
    for i := 0 to |parts|
      invariant DecodeAll(parts[..i]) == Ok(dec)
    {
      DecodeAllAppend(parts[..i], parts[i]);
      assert parts[..i] + [parts[i]] == parts[..i + 1];
      var s := Base64.Decode(parts[i]);
      if s.Err? {
        DecodeAllPrefix(parts, i + 1);
        return Err(s.message);
      }
      dec := dec + [s.value];
    }
    assert parts[..|parts|] == parts;
    r := Ok(dec);
  }

  // Records

  function Record(fields: seq<Text>): Text {
    Join(fields, '.') + [';']
  }

  const NO_TERMINATOR: Text := "No terminating ';'"
  const WRONG_PARTS: Text := "Incorrect number of parts"

  function GetParts(input: Text, numParts: nat): (r: Result<seq<Text>>)
    requires input != []
    ensures r.Ok? ==> |r.value| == numParts
  {
    if input[|input| - 1] != ';' then Err(NO_TERMINATOR)
    else
      var parts := Split(input[..|input| - 1], '.');
      if |parts| != numParts then Err(WRONG_PARTS) else Ok(parts)
  }

  function RequestFields(id: ConnID, sender: Option<PeerID>, receiver: Option<PeerID>, w: WitnessSelector): seq<Text> {
    [FormatID(id), EncodePeerID(sender), EncodePeerID(receiver), FormatSelector(w)]
  }

  function ResponseFields(id: ConnID, errors: seq<Text>, accepted: bool, reasons: seq<Text>): seq<Text> {
    [FormatID(id), SliceText(errors), FormatBool(accepted), SliceText(reasons)]
  }

  function PeerRecord(p: Peer): (t: Text)
    ensures t != []
  {
    Record([EncodePeerID(p.id), SliceText(p.addresses)])
  }

  function PeerRecords(peers: seq<Peer>): (ts: seq<Text>)
    ensures |ts| == |peers|
  {
    seq(|peers|, i requires 0 <= i < |peers| => PeerRecord(peers[i]))
  }

  datatype Message =
    | ConnectReq(connectRequest: ConnectRequest)
    | ConnectResp(connectResponse: ConnectResponse)
    | WitnessReq(witnessRequest: WitnessRequest)
    | WitnessResp(witnessResponse: WitnessResponse)
    | Notification(notification: WitnessNotification)
    | CloseReq(closeRequest: CloseRequest)
    | PeersReq(peersRequest: PeersRequest)
    | PeersResp(peersResponse: PeersResponse)

  datatype Kind = AConnectReq | AConnectResp | AWitnessReq | AWitnessResp | ANotification | ACloseReq | APeersReq | APeersResp

  function KindOf(m: Message): Kind {
    match m
    case ConnectReq(_) => AConnectReq
    case ConnectResp(_) => AConnectResp
    case WitnessReq(_) => AWitnessReq
    case WitnessResp(_) => AWitnessResp
    case Notification(_) => ANotification
    case CloseReq(_) => ACloseReq
    case PeersReq(_) => APeersReq
    case PeersResp(_) => APeersResp
  }

  function Fields(m: Message): seq<Text> {
    match m
    case ConnectReq(r) => RequestFields(r.connectionID, r.sender, r.receiver, r.selector)
    case ConnectResp(r) => ResponseFields(r.connectionID, r.errors, r.accepted, r.rejectReasons)
    case WitnessReq(r) => RequestFields(r.connectionID, r.sender, r.receiver, r.selector)
    case WitnessResp(r) => ResponseFields(r.connectionID, r.errors, r.accepted, r.rejectReasons)
    case Notification(n) => [FormatID(n.connectionID), EncodePeerID(n.wit)]
    case CloseReq(r) => [FormatID(r.connectionID)]
    case PeersReq(r) => [FormatInt(r.num)]
    case PeersResp(r) => [SliceText(PeerRecords(r.peers))]
  }

  function Serialize(m: Message): Text {
    Record(Fields(m))
  }

  datatype Request = Request(id: ConnID, sender: Option<PeerID>, receiver: Option<PeerID>, selector: WitnessSelector)

  function ParseRequest(input: Text): Result<Request>
    requires input != []
  {
    var parts :- GetParts(input, 4);
    var id :- ParseID(parts[0]);
    var sender :- DecodePeerID(parts[1]);
    var receiver :- DecodePeerID(parts[2]);
    var w :- ParseSelector(parts[3]);
    Ok(Request(id, sender, receiver, w))
  }

  datatype Response = Response(id: ConnID, errors: seq<Text>, accepted: bool, reasons: seq<Text>)

  function ParseResponse(input: Text): Result<Response>
    requires input != []
  {
    var parts :- GetParts(input, 4);
    var id :- ParseID(parts[0]);
    var errors :- ParseSlice(parts[1]);
    var accepted :- ParseBool(parts[2]);
    var reasons :- ParseSlice(parts[3]);
    Ok(Response(id, errors, accepted, reasons))
  }

  function ParseNotification(input: Text): Result<WitnessNotification>
    requires input != []
  {
    var parts :- GetParts(input, 2);
    var id :- ParseID(parts[0]);
    var w :- DecodePeerID(parts[1]);
    Ok(WitnessNotification(id, w))
  }

  function ParseCloseRequest(input: Text): Result<CloseRequest>
    requires input != []
  {
    var parts :- GetParts(input, 1);
    var id :- ParseID(parts[0]);
    Ok(CloseRequest(id))
  }

  function ParsePeersRequest(input: Text): Result<PeersRequest>
    requires input != []
  {
    var parts :- GetParts(input, 1);
    var n :- Atoi(parts[0]);
    Ok(PeersRequest(n))
  }

  const EMPTY_RECORD: Text := "empty peer record"

  /** An empty record cannot be read back; the Go code indexes its last byte. */
  function ParsePeer(t: Text): Result<Peer> {
    if t == [] then Err(EMPTY_RECORD)
    else
      var parts :- GetParts(t, 2);
      var id :- DecodePeerID(parts[0]);
      var addresses :- ParseSlice(parts[1]);
      Ok(Peer(id, addresses))
  }

  function ParsePeers(ts: seq<Text>): Result<seq<Peer>> {
    if ts == [] then Ok([])
    else
      var p :- ParsePeer(ts[0]);
      var rest :- ParsePeers(ts[1..]);
      Ok([p] + rest)
  }

  function ParsePeersResponse(input: Text): Result<PeersResponse>
    requires input != []
  {
    var parts :- GetParts(input, 1);
    var records :- ParseSlice(parts[0]);
    var peers :- ParsePeers(records);
    Ok(PeersResponse(peers))
  }

  function Deserialize(input: Text, kind: Kind): Result<Message>
    requires input != []
  {
    match kind
    case AConnectReq =>
      var r :- ParseRequest(input);
      Ok(ConnectReq(ConnectRequest(r.id, r.sender, r.receiver, r.selector)))
    case AConnectResp =>
      var r :- ParseResponse(input);
      Ok(ConnectResp(ConnectResponse(r.id, r.errors, r.accepted, r.reasons)))
    case AWitnessReq =>
      var r :- ParseRequest(input);
      Ok(WitnessReq(WitnessRequest(r.id, r.sender, r.receiver, r.selector)))
    case AWitnessResp =>
      var r :- ParseResponse(input);
      Ok(WitnessResp(WitnessResponse(r.id, r.errors, r.accepted, r.reasons)))
    case ANotification =>
      var n :- ParseNotification(input);
      Ok(Notification(n))
    case ACloseReq =>
      var r :- ParseCloseRequest(input);
      Ok(CloseReq(r))
    case APeersReq =>
      var r :- ParsePeersRequest(input);
      Ok(PeersReq(r))
    case APeersResp =>
      var r :- ParsePeersResponse(input);
      Ok(PeersResp(r))
  }

  // Loops over peers

  method SerializePeersResponse(r: PeersResponse) returns (text: Text)
    ensures text == Serialize(PeersResp(r))
  {
    var strs: seq<Text> := [];
    for i := 0 to |r.peers|
      invariant strs == PeerRecords(r.peers[..i])
    {
      var p := r.peers[i];
      var addrStrs := [];
      for j := 0 to |p.addresses|
        invariant addrStrs == p.addresses[..j]
      {
        addrStrs := addrStrs + [p.addresses[j]];
      }
      assert addrStrs == p.addresses;
      var addrs := SerializeSlice(addrStrs);
      strs := strs + [Record([EncodePeerID(p.id), addrs])];
    }
    assert r.peers[..|r.peers|] == r.peers;
    var list := SerializeSlice(strs);
    text := list + [';'];
  }

  lemma {:induction false} ParsePeersAppend(ts: seq<Text>, t: Text)
    ensures ParsePeers(ts).Err? ==> ParsePeers(ts + [t]) == ParsePeers(ts)
    ensures ParsePeers(ts).Ok? && ParsePeer(t).Err? ==> ParsePeers(ts + [t]) == Err(ParsePeer(t).message)
    ensures ParsePeers(ts).Ok? && ParsePeer(t).Ok? ==>
      ParsePeers(ts + [t]) == Ok(ParsePeers(ts).value + [ParsePeer(t).value])
  {
    if ts == [] {
      assert ts + [t] == [t];
      assert ParsePeer(t).Ok? ==> [ParsePeer(t).value] + [] == [] + [ParsePeer(t).value];
    } else {
      ParsePeersAppend(ts[1..], t);
      assert (ts + [t])[1..] == ts[1..] + [t];
      if ParsePeers(ts).Ok? && ParsePeer(t).Ok? {
        var p, rest, last := ParsePeer(ts[0]).value, ParsePeers(ts[1..]).value, ParsePeer(t).value;
        assert [p] + (rest + [last]) == ([p] + rest) + [last];
      }
    }
  }

  lemma {:induction false} ParsePeersPrefix(ts: seq<Text>, i: nat)
    requires i <= |ts| && ParsePeers(ts[..i]).Err?
    ensures ParsePeers(ts) == ParsePeers(ts[..i])
    decreases |ts| - i
  {
    if i == |ts| {
      assert ts[..i] == ts;
    } else {
      ParsePeersAppend(ts[..i], ts[i]);
      assert ts[..i] + [ts[i]] == ts[..i + 1];
      ParsePeersPrefix(ts, i + 1);
    }
  }

  method DeserializePeersResponse(input: Text) returns (r: Result<PeersResponse>)
    requires input != []
    ensures r == ParsePeersResponse(input)
  {
    var parts := GetParts(input, 1);
    if parts.Err? {
      return Err(parts.message);
    }
    var peerStrs := DeserializeSlice(parts.value[0]);
    if peerStrs.Err? {
      return Err(peerStrs.message);
    }
    var ts := peerStrs.value;
    var peers := [];
    for i := 0 to |ts|
      invariant ParsePeers(ts[..i]) == Ok(peers)
    {
      ParsePeersAppend(ts[..i], ts[i]);
      assert ts[..i] + [ts[i]] == ts[..i + 1];
      var p := ParsePeer(ts[i]);
      if p.Err? {
        ParsePeersPrefix(ts, i + 1);
        return Err(p.message);
      }
      peers := peers + [p.value];
    }
    assert ts[..|ts|] == ts;
    r := Ok(PeersResponse(peers));
  }
}
