/** What survives the wire. Serializing and reading back returns every message except for two
    families: a nil selector cannot be read back at all, and a list holding only the empty text
    comes back empty. */
module SerdeProofs {
  import opened Types
  import opened Strings
  import opened Serde
  import Base64

  /** A list whose encoding is the empty text although the list is not empty. */
  predicate Vanishes(xs: seq<Text>) {
    xs == [[]]
  }

  /** What a list reads back as. */
  function Kept(xs: seq<Text>): seq<Text> {
    if Vanishes(xs) then [] else xs
  }

  // Plain fields

  lemma Base64Plain(t: Text)
    ensures Plain(Base64.Encode(t))
  {
  }

  lemma PeerIDRoundTrip(p: Option<PeerID>)
    ensures DecodePeerID(EncodePeerID(p)) == Ok(p)
    ensures Plain(EncodePeerID(p))
  {
    if p.Some? {
      Base64.RoundTrip(PeerText(p.value));
      Base64Plain(PeerText(p.value));
    }
  }

  lemma SelectorRoundTrip(w: WitnessSelector)
    ensures ParseSelector(FormatSelector(w)) == if w == NilSelector then Err(UNKNOWN_SELECTOR) else Ok(w)
    ensures Plain(FormatSelector(w))
  {
  }

  // Lists

  lemma {:induction false} DecodeEncodeAll(xs: seq<Text>)
    ensures DecodeAll(EncodeAll(xs)) == Ok(xs)
  {
    if xs != [] {
      Base64.RoundTrip(xs[0]);
      DecodeEncodeAll(xs[1..]);
      assert EncodeAll(xs)[1..] == EncodeAll(xs[1..]);
      assert [xs[0]] + xs[1..] == xs;
    }
  }

  lemma SliceTextPlain(xs: seq<Text>)
    ensures '.' !in SliceText(xs) && ';' !in SliceText(xs)
  {
    var enc := EncodeAll(xs);
    forall p | p in enc ensures Plain(p) {
      var i :| 0 <= i < |xs| && enc[i] == p;
      Base64Plain(xs[i]);
    }
    JoinAvoids(enc, ',', '.');
    JoinAvoids(enc, ',', ';');
  }

  lemma EmptySliceText(xs: seq<Text>)
    ensures SliceText(xs) == [] <==> xs == [] || Vanishes(xs)
  {
  }

  lemma SliceRoundTrip(xs: seq<Text>)
    ensures ParseSlice(SliceText(xs)) == Ok(Kept(xs))
  {
    EmptySliceText(xs);
    if SliceText(xs) != [] {
      var enc := EncodeAll(xs);
      forall p | p in enc ensures ',' !in p {
        var i :| 0 <= i < |xs| && enc[i] == p;
        Base64Plain(xs[i]);
      }
      SplitJoin(enc, ',');
      DecodeEncodeAll(xs);
    }
  }

  // Records

  lemma RecordParts(fields: seq<Text>)
    requires fields != [] && NoneContains(fields, '.')
    ensures GetParts(Record(fields), |fields|) == Ok(fields)
  {
    var t := Record(fields);
    assert t[..|t| - 1] == Join(fields, '.');
    SplitJoin(fields, '.');
  }

  lemma FieldsPlain(m: Message)
    ensures NoneContains(Fields(m), '.') && NoneContains(Fields(m), ';')
  {
    match m
    case ConnectReq(r) =>
      RequestPlain(r.connectionID, r.sender, r.receiver, r.selector);
    case WitnessReq(r) =>
      RequestPlain(r.connectionID, r.sender, r.receiver, r.selector);
    case ConnectResp(r) =>
      ResponsePlain(r.connectionID, r.errors, r.accepted, r.rejectReasons);
    case WitnessResp(r) =>
      ResponsePlain(r.connectionID, r.errors, r.accepted, r.rejectReasons);
    case Notification(n) =>
      FormatIDPlain(n.connectionID);
      PeerIDRoundTrip(n.wit);
    case CloseReq(r) =>
      FormatIDPlain(r.connectionID);
    case PeersReq(r) =>
      FormatIntPlain(r.num);
    case PeersResp(r) =>
      SliceTextPlain(PeerRecords(r.peers));
  }

  lemma RequestPlain(id: ConnID, sender: Option<PeerID>, receiver: Option<PeerID>, w: WitnessSelector)
    ensures forall f :: f in RequestFields(id, sender, receiver, w) ==> '.' !in f && ';' !in f
  {
    FormatIDPlain(id);
    PeerIDRoundTrip(sender);
    PeerIDRoundTrip(receiver);
    SelectorRoundTrip(w);
  }

  lemma ResponsePlain(id: ConnID, errors: seq<Text>, accepted: bool, reasons: seq<Text>)
    ensures forall f :: f in ResponseFields(id, errors, accepted, reasons) ==> '.' !in f && ';' !in f
  {
    FormatIDPlain(id);
    SliceTextPlain(errors);
    SliceTextPlain(reasons);
  }

  /** Every message holds exactly one ';', its last byte, and splits into as many fields as its parser expects. */
  lemma SelfDelimiting(m: Message)
    ensures var t := Serialize(m); t != [] && t[|t| - 1] == ';' && ';' !in t[..|t| - 1]
    ensures GetParts(Serialize(m), |Fields(m)|) == Ok(Fields(m))
  {
    var t := Serialize(m);
    FieldsPlain(m);
    assert t[..|t| - 1] == Join(Fields(m), '.');
    JoinAvoids(Fields(m), '.', ';');
    RecordParts(Fields(m));
  }

  // The texts themselves

  /** A list's text grows by one base64 text at a time, after a ',' when it is not the first. */
  lemma SliceTextIs(xs: seq<Text>, x: Text)
    ensures SliceText([]) == []
    ensures SliceText(xs + [x]) == (if xs == [] then [] else SliceText(xs) + ",") + Base64.Encode(x)
  {
    assert EncodeAll(xs + [x]) == EncodeAll(xs) + [Base64.Encode(x)];
    JoinAppend(EncodeAll(xs), Base64.Encode(x), ',');
  }

  lemma FourFields(a: Text, b: Text, c: Text, d: Text)
    ensures Record([a, b, c, d]) == a + "." + b + "." + c + "." + d + ";"
  {
    assert Join([a, b, c, d], '.') == a + ['.'] + Join([b, c, d], '.');
    assert Join([b, c, d], '.') == b + ['.'] + Join([c, d], '.');
  }

  lemma TwoFields(a: Text, b: Text)
    ensures Record([a, b]) == a + "." + b + ";"
  {
    assert Join([a, b], '.') == a + ['.'] + Join([b], '.');
  }

  lemma RequestPrintedAs(id: ConnID, sender: Option<PeerID>, receiver: Option<PeerID>, w: WitnessSelector)
    ensures Record(RequestFields(id, sender, receiver, w)) ==
      FormatID(id) + "." + EncodePeerID(sender) + "." + EncodePeerID(receiver) + "."
      + (if w == SenderSelects then "Sender" else if w == ReceiverSelects then "Receiver" else "%!s(<nil>)") + ";"
  {
    FourFields(FormatID(id), EncodePeerID(sender), EncodePeerID(receiver), FormatSelector(w));
  }

  lemma ResponsePrintedAs(id: ConnID, errors: seq<Text>, accepted: bool, reasons: seq<Text>)
    ensures Record(ResponseFields(id, errors, accepted, reasons)) ==
      FormatID(id) + "." + SliceText(errors) + "." + (if accepted then "true" else "false") + "." + SliceText(reasons) + ";"
  {
    FourFields(FormatID(id), SliceText(errors), FormatBool(accepted), SliceText(reasons));
  }

  /** Each message as the code's format strings print it: the fields in this order, '.' between them and ';' at the end. */
  lemma PrintedAs(m: Message)
    ensures match m
      case ConnectReq(r) =>
        Serialize(m) ==
          FormatID(r.connectionID) + "." + EncodePeerID(r.sender) + "." + EncodePeerID(r.receiver) + "."
          + (if r.selector == SenderSelects then "Sender" else if r.selector == ReceiverSelects then "Receiver"
             else "%!s(<nil>)") + ";"
      case WitnessReq(r) =>
        Serialize(m) ==
          FormatID(r.connectionID) + "." + EncodePeerID(r.sender) + "." + EncodePeerID(r.receiver) + "."
          + (if r.selector == SenderSelects then "Sender" else if r.selector == ReceiverSelects then "Receiver"
             else "%!s(<nil>)") + ";"
      case ConnectResp(r) =>
        Serialize(m) ==
          FormatID(r.connectionID) + "." + SliceText(r.errors) + "." + (if r.accepted then "true" else "false") + "."
          + SliceText(r.rejectReasons) + ";"
      case WitnessResp(r) =>
        Serialize(m) ==
          FormatID(r.connectionID) + "." + SliceText(r.errors) + "." + (if r.accepted then "true" else "false") + "."
          + SliceText(r.rejectReasons) + ";"
      case Notification(n) =>
        Serialize(m) ==
          FormatID(n.connectionID) + "."
          + (if n.wit == None then "" else Base64.Encode([n.wit.value.first] + n.wit.value.rest)) + ";"
      case CloseReq(r) => Serialize(m) == FormatID(r.connectionID) + ";"
      case PeersReq(r) => Serialize(m) == FormatInt(r.num) + ";"
      case PeersResp(r) =>
        && Serialize(m) == SliceText(PeerRecords(r.peers)) + ";"
        && forall i :: 0 <= i < |r.peers| ==>
             PeerRecords(r.peers)[i] == EncodePeerID(r.peers[i].id) + "." + SliceText(r.peers[i].addresses) + ";"
  {
    match m
    case ConnectReq(r) => RequestPrintedAs(r.connectionID, r.sender, r.receiver, r.selector);
    case WitnessReq(r) => RequestPrintedAs(r.connectionID, r.sender, r.receiver, r.selector);
    case ConnectResp(r) => ResponsePrintedAs(r.connectionID, r.errors, r.accepted, r.rejectReasons);
    case WitnessResp(r) => ResponsePrintedAs(r.connectionID, r.errors, r.accepted, r.rejectReasons);
    case Notification(n) => TwoFields(FormatID(n.connectionID), EncodePeerID(n.wit));
    case CloseReq(_) =>
    case PeersReq(_) =>
    case PeersResp(r) =>
      forall i | 0 <= i < |r.peers|
        ensures PeerRecords(r.peers)[i] == EncodePeerID(r.peers[i].id) + "." + SliceText(r.peers[i].addresses) + ";"
      {
        TwoFields(EncodePeerID(r.peers[i].id), SliceText(r.peers[i].addresses));
      }
  }

  /** Text that does not end in ';', or has another number of '.' than its kind of message, is refused. */
  lemma MalformedRefused(input: Text, kind: Kind)
    requires input != []
    requires
      var dots := match kind
        case AConnectReq => 3
        case AConnectResp => 3
        case AWitnessReq => 3
        case AWitnessResp => 3
        case ANotification => 1
        case ACloseReq => 0
        case APeersReq => 0
        case APeersResp => 0;
      input[|input| - 1] != ';' || multiset(input)['.'] != dots
    ensures Deserialize(input, kind).Err?
  {
    var body := input[..|input| - 1];
    SplitCounts(body, '.');
    assert input == body + [input[|input| - 1]];
  }

  /** The bytes up to and including the first ';', as the stream reader takes them. */
  function ReadMessage(stream: Text): Option<Text> {
    if stream == [] then None
    else if stream[0] == ';' then Some([';'])
    else match ReadMessage(stream[1..])
      case None => None
      case Some(t) => Some([stream[0]] + t)
  }

  lemma {:induction false} ReadMessageStops(t: Text, trailing: Text)
    requires ';' !in t
    ensures ReadMessage(t + [';'] + trailing) == Some(t + [';'])
  {
    var s := t + [';'] + trailing;
    if t == [] {
      assert t + [';'] == [';'];
    } else {
      ReadMessageStops(t[1..], trailing);
      assert s[1..] == t[1..] + [';'] + trailing;
      assert [t[0]] + (t[1..] + [';']) == t + [';'];
    }
  }

  lemma ReadRecoversMessage(m: Message, trailing: Text)
    ensures ReadMessage(Serialize(m) + trailing) == Some(Serialize(m))
  {
    var t := Serialize(m);
    SelfDelimiting(m);
    ReadMessageStops(t[..|t| - 1], trailing);
    assert t[..|t| - 1] + [';'] == t;
  }

  // Round trips

  lemma {:induction false} PeersRoundTrip(peers: seq<Peer>)
    ensures ParsePeers(PeerRecords(peers)) == Ok(KeptPeers(peers))
  {
    if peers == [] {
      assert KeptPeers(peers) == [];
    } else {
      PeerRoundTrip(peers[0]);
      PeersRoundTrip(peers[1..]);
      HeadAndTail(peers);
      ParseOneMore(PeerRecords(peers), KeptPeer(peers[0]), KeptPeers(peers[1..]));
    }
  }

  lemma HeadAndTail(peers: seq<Peer>)
    requires peers != []
    ensures PeerRecords(peers)[0] == PeerRecord(peers[0]) && PeerRecords(peers)[1..] == PeerRecords(peers[1..])
    ensures KeptPeers(peers) == [KeptPeer(peers[0])] + KeptPeers(peers[1..])
  {
  }

  lemma ParseOneMore(ts: seq<Text>, p: Peer, rest: seq<Peer>)
    requires ts != [] && ParsePeer(ts[0]) == Ok(p) && ParsePeers(ts[1..]) == Ok(rest)
    ensures ParsePeers(ts) == Ok([p] + rest)
  {
  }

  lemma PeerRoundTrip(p: Peer)
    ensures ParsePeer(PeerRecord(p)) == Ok(KeptPeer(p))
  {
    PeerIDRoundTrip(p.id);
    SliceTextPlain(p.addresses);
    RecordParts([EncodePeerID(p.id), SliceText(p.addresses)]);
    SliceRoundTrip(p.addresses);
  }

  function KeptPeer(p: Peer): Peer {
    Peer(p.id, Kept(p.addresses))
  }

  function KeptPeers(peers: seq<Peer>): seq<Peer> {
    seq(|peers|, i requires 0 <= i < |peers| => KeptPeer(peers[i]))
  }

  /** What a message reads back as: its lists kept, everything else unchanged. */
  function KeptMessage(m: Message): Message {
    match m
    case ConnectResp(r) => ConnectResp(r.(errors := Kept(r.errors), rejectReasons := Kept(r.rejectReasons)))
    case WitnessResp(r) => WitnessResp(r.(errors := Kept(r.errors), rejectReasons := Kept(r.rejectReasons)))
    case PeersResp(r) => PeersResp(PeersResponse(KeptPeers(r.peers)))
    case _ => m
  }

  predicate HasNilSelector(m: Message) {
    match m
    case ConnectReq(r) => r.selector == NilSelector
    case WitnessReq(r) => r.selector == NilSelector
    case _ => false
  }

  lemma RequestRoundTrip(id: ConnID, sender: Option<PeerID>, receiver: Option<PeerID>, w: WitnessSelector)
    ensures ParseRequest(Record(RequestFields(id, sender, receiver, w))) ==
      if w == NilSelector then Err(UNKNOWN_SELECTOR) else Ok(Request(id, sender, receiver, w))
  {
    RequestPlain(id, sender, receiver, w);
    RecordParts(RequestFields(id, sender, receiver, w));
    ParseFormatID(id);
    PeerIDRoundTrip(sender);
    PeerIDRoundTrip(receiver);
    SelectorRoundTrip(w);
  }

  lemma BoolRoundTrip(b: bool)
    ensures ParseBool(FormatBool(b)) == Ok(b)
  {
  }

  lemma ResponseRoundTrip(id: ConnID, errors: seq<Text>, accepted: bool, reasons: seq<Text>)
    ensures ParseResponse(Record(ResponseFields(id, errors, accepted, reasons))) ==
      Ok(Response(id, Kept(errors), accepted, Kept(reasons)))
  {
    ResponsePlain(id, errors, accepted, reasons);
    RecordParts(ResponseFields(id, errors, accepted, reasons));
    ParseFormatID(id);
    SliceRoundTrip(errors);
    BoolRoundTrip(accepted);
    SliceRoundTrip(reasons);
  }

  lemma NotificationRoundTrip(n: WitnessNotification)
    ensures Deserialize(Serialize(Notification(n)), ANotification) == Ok(Notification(n))
  {
    SelfDelimiting(Notification(n));
    ParseFormatID(n.connectionID);
    PeerIDRoundTrip(n.wit);
  }

  lemma CloseRequestRoundTrip(r: CloseRequest)
    ensures Deserialize(Serialize(CloseReq(r)), ACloseReq) == Ok(CloseReq(r))
  {
    SelfDelimiting(CloseReq(r));
    ParseFormatID(r.connectionID);
  }

  lemma PeersRequestRoundTrip(r: PeersRequest)
    ensures Deserialize(Serialize(PeersReq(r)), APeersReq) == Ok(PeersReq(r))
  {
    SelfDelimiting(PeersReq(r));
    AtoiFormatInt(r.num);
  }

  /** Records holding the outer delimiters nest inside a list without being cut. */
  lemma PeersResponseRoundTrip(r: PeersResponse)
    ensures Serialize(PeersResp(r)) != []
    ensures ParsePeersResponse(Serialize(PeersResp(r))) == Ok(PeersResponse(KeptPeers(r.peers)))
  {
    var records := PeerRecords(r.peers);
    SelfDelimiting(PeersResp(r));
    SliceRoundTrip(records);
    assert !Vanishes(records) by {
      assert records != [] ==> records[0] == PeerRecord(r.peers[0]) != [];
    }
    PeersRoundTrip(r.peers);
  }

  /** What the parser makes of a message's own text. */
  function ReadBack(m: Message): Result<Message> {
    if HasNilSelector(m) then Err(UNKNOWN_SELECTOR) else Ok(KeptMessage(m))
  }

  lemma RequestMessageRoundTrip(m: Message)
    requires m.ConnectReq? || m.WitnessReq?
    ensures Deserialize(Serialize(m), KindOf(m)) == ReadBack(m)
  {
    if m.ConnectReq? {
      var r := m.connectRequest;
      RequestRoundTrip(r.connectionID, r.sender, r.receiver, r.selector);
    } else {
      var r := m.witnessRequest;
      RequestRoundTrip(r.connectionID, r.sender, r.receiver, r.selector);
    }
  }

  lemma ResponseMessageRoundTrip(m: Message)
    requires m.ConnectResp? || m.WitnessResp?
    ensures Deserialize(Serialize(m), KindOf(m)) == ReadBack(m)
  {
    if m.ConnectResp? {
      var r := m.connectResponse;
      ResponseRoundTrip(r.connectionID, r.errors, r.accepted, r.rejectReasons);
    } else {
      var r := m.witnessResponse;
      ResponseRoundTrip(r.connectionID, r.errors, r.accepted, r.rejectReasons);
    }
  }

  lemma PeersRespRoundTrip(r: PeersResponse)
    ensures Deserialize(Serialize(PeersResp(r)), APeersResp) == Ok(PeersResp(PeersResponse(KeptPeers(r.peers))))
  {
    PeersResponseRoundTrip(r);
  }

  /** Every message, read back, is the message with its vanishing lists emptied; only a nil selector is refused. */
  lemma MessageRoundTrip(m: Message)
    ensures Serialize(m) != []
    ensures Deserialize(Serialize(m), KindOf(m)) == ReadBack(m)
  {
    if m.ConnectReq? || m.WitnessReq? {
      RequestMessageRoundTrip(m);
    } else if m.ConnectResp? || m.WitnessResp? {
      ResponseMessageRoundTrip(m);
    } else if m.Notification? {
      NotificationRoundTrip(m.notification);
    } else if m.CloseReq? {
      CloseRequestRoundTrip(m.closeRequest);
    } else if m.PeersReq? {
      PeersRequestRoundTrip(m.peersRequest);
    } else {
      PeersRespRoundTrip(m.peersResponse);
    }
  }

  /** The messages the wire returns unchanged. */
  predicate WireSafe(m: Message) {
    && !HasNilSelector(m)
    && match m
       case ConnectResp(r) => !Vanishes(r.errors) && !Vanishes(r.rejectReasons)
       case WitnessResp(r) => !Vanishes(r.errors) && !Vanishes(r.rejectReasons)
       case PeersResp(r) => forall p :: p in r.peers ==> !Vanishes(p.addresses)
       case _ => true
  }

  lemma ReadsBackExactlyWhenSafe(m: Message)
    ensures Serialize(m) != []
    ensures Deserialize(Serialize(m), KindOf(m)) == Ok(m) <==> WireSafe(m)
  {
    MessageRoundTrip(m);
    if m.PeersResp? {
      var peers := m.peersResponse.peers;
      if p :| p in peers && Vanishes(p.addresses) {
        var i :| 0 <= i < |peers| && peers[i] == p;
        assert KeptPeers(peers)[i] != peers[i];
      } else {
        assert KeptPeers(peers) == peers;
      }
    }
  }
}
