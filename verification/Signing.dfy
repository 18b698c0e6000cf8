/** Data messages and their signatures. The sender signs the connection ID, sequence number and data; the
    witness signs those and the sender's signature. */
module Signing {
  import opened Types
  import opened Strings
  import Base64

  datatype Message = Message(connectionID: ConnID, sequenceNumber: int, data: Text, senderSig: Text, witnessSig: Text) {
    function SenderSegs(): Text {
      Join([FormatID(connectionID), FormatInt(sequenceNumber), Base64.Encode(data)], '.')
    }

    function WitnessSegs(): Text {
      Join([FormatID(connectionID), FormatInt(sequenceNumber), Base64.Encode(data), Base64.Encode(senderSig)], '.')
    }

    /** The signed copy is returned even when signing fails, with whatever signature came back. */
    function SenderSign(key: PrivateKey): (Message, bool) {
      var signed := key(SenderSegs());
      (this.(senderSig := signed.sig), signed.failed)
    }

    function WitnessSign(key: PrivateKey): (Message, bool) {
      var signed := key(WitnessSegs());
      (this.(witnessSig := signed.sig), signed.failed)
    }

    function VerifySender(key: PublicKey): Result<bool> {
      key(SenderSegs(), senderSig)
    }

    function VerifyWitness(key: PublicKey): Result<bool> {
      key(WitnessSegs(), witnessSig)
    }

    predicate SameContent(other: Message) {
      connectionID == other.connectionID && sequenceNumber == other.sequenceNumber && data == other.data
    }
  }

  datatype Signed = Signed(sig: Text, failed: bool)

  type PrivateKey = Text -> Signed

  type PublicKey = (Text, Text) -> Result<bool>

  /** Every signature the private key produces verifies. */
  ghost predicate Correct(priv: PrivateKey, pub: PublicKey) {
    forall text :: !priv(text).failed ==> pub(text, priv(text).sig) == Ok(true)
  }

  /** One signature verifies for two different texts. */
  predicate Clashes(pub: PublicKey, s: Text, t: Text, sig: Text) {
    s != t && pub(s, sig) == Ok(true) && pub(t, sig) == Ok(true)
  }

  lemma EncodedAvoidsDots(b: Text)
    ensures '.' !in Base64.Encode(b)
  {
  }

  lemma SenderParts(m: Message)
    ensures Split(m.SenderSegs(), '.') == [FormatID(m.connectionID), FormatInt(m.sequenceNumber), Base64.Encode(m.data)]
  {
    FormatIDPlain(m.connectionID);
    FormatIntPlain(m.sequenceNumber);
    EncodedAvoidsDots(m.data);
    SplitJoin([FormatID(m.connectionID), FormatInt(m.sequenceNumber), Base64.Encode(m.data)], '.');
  }

  lemma WitnessParts(m: Message)
    ensures Split(m.WitnessSegs(), '.') ==
      [FormatID(m.connectionID), FormatInt(m.sequenceNumber), Base64.Encode(m.data), Base64.Encode(m.senderSig)]
  {
    FormatIDPlain(m.connectionID);
    FormatIntPlain(m.sequenceNumber);
    EncodedAvoidsDots(m.data);
    EncodedAvoidsDots(m.senderSig);
    SplitJoin([FormatID(m.connectionID), FormatInt(m.sequenceNumber), Base64.Encode(m.data), Base64.Encode(m.senderSig)], '.');
  }

  lemma SameTexts(m: Message, n: Message)
    requires FormatID(m.connectionID) == FormatID(n.connectionID)
    requires FormatInt(m.sequenceNumber) == FormatInt(n.sequenceNumber)
    requires Base64.Encode(m.data) == Base64.Encode(n.data)
    ensures m.SameContent(n)
  {
    ParseFormatID(m.connectionID);
    ParseFormatID(n.connectionID);
    FormatIntInjective(m.sequenceNumber, n.sequenceNumber);
    Base64.Injective(m.data, n.data);
  }

  /** Two sender payloads are equal exactly when ID, sequence number and data are. */
  lemma SenderPayloadDetermines(m: Message, n: Message)
    ensures m.SenderSegs() == n.SenderSegs() <==> m.SameContent(n)
  {
    if m.SenderSegs() == n.SenderSegs() {
      SenderParts(m);
      SenderParts(n);
      SameTexts(m, n);
    }
  }

  /** Two witness payloads are equal exactly when those and the senders' signatures are. */
  lemma WitnessPayloadDetermines(m: Message, n: Message)
    ensures m.WitnessSegs() == n.WitnessSegs() <==> m.SameContent(n) && m.senderSig == n.senderSig
  {
    if m.WitnessSegs() == n.WitnessSegs() {
      WitnessParts(m);
      WitnessParts(n);
      SameTexts(m, n);
      Base64.Injective(m.senderSig, n.senderSig);
    }
  }

  /** A signature over one kind of payload can never be passed off as one over the other. */
  lemma PayloadKindsDiffer(m: Message, n: Message)
    ensures m.SenderSegs() != n.WitnessSegs()
  {
    SenderParts(m);
    WitnessParts(n);
  }

  /** Signed by the sender and then by the witness, a message passes both verifications. */
  lemma SignedInOrder(m: Message, s: PrivateKey, sPub: PublicKey, w: PrivateKey, wPub: PublicKey)
    requires Correct(s, sPub) && Correct(w, wPub)
    ensures
      var (m1, failed1) := m.SenderSign(s);
      var (m2, failed2) := m1.WitnessSign(w);
      && m2.SameContent(m)
      && (!failed1 ==> m2.VerifySender(sPub) == Ok(true))
      && (!failed2 ==> m2.VerifyWitness(wPub) == Ok(true))
  {
  }

  /** In the other order the witness's signature still verifies exactly when the sender's signature is the one already
      there, or the key accepts it for the two different payloads. */
  lemma SignedOutOfOrder(m: Message, s: PrivateKey, w: PrivateKey, wPub: PublicKey)
    requires Correct(w, wPub)
    ensures
      var (m1, failed1) := m.WitnessSign(w);
      var (m2, failed2) := m1.SenderSign(s);
      !failed1 ==>
        (m2.VerifyWitness(wPub) == Ok(true) <==>
           m2.senderSig == m.senderSig || Clashes(wPub, m.WitnessSegs(), m2.WitnessSegs(), m1.witnessSig))
  {
    var (m1, failed1) := m.WitnessSign(w);
    var m2 := m1.SenderSign(s).0;
    assert m1.WitnessSegs() == m.WitnessSegs();
    WitnessPayloadDetermines(m, m2);
  }

  /** A sender's signature that verifies on two messages covers the same content, or the key accepts it for two different
      payloads: one or the other. */
  lemma SenderSignatureCovers(m: Message, n: Message, pub: PublicKey)
    requires m.VerifySender(pub) == Ok(true) && n.VerifySender(pub) == Ok(true) && n.senderSig == m.senderSig
    ensures n.SameContent(m) <==> !Clashes(pub, m.SenderSegs(), n.SenderSegs(), m.senderSig)
  {
    SenderPayloadDetermines(n, m);
  }

  /** Likewise for a witness's, which covers the sender's signature too. */
  lemma WitnessSignatureCovers(m: Message, n: Message, pub: PublicKey)
    requires m.VerifyWitness(pub) == Ok(true) && n.VerifyWitness(pub) == Ok(true) && n.witnessSig == m.witnessSig
    ensures n.SameContent(m) && n.senderSig == m.senderSig <==>
      !Clashes(pub, m.WitnessSegs(), n.WitnessSegs(), m.witnessSig)
  {
    WitnessPayloadDetermines(n, m);
  }

  /** One signature passes as a sender's and as a witness's only where the key accepts it for two different payloads. */
  lemma SignatureKindsClash(m: Message, n: Message, pub: PublicKey)
    requires m.VerifySender(pub) == Ok(true) && n.VerifyWitness(pub) == Ok(true) && n.witnessSig == m.senderSig
    ensures Clashes(pub, m.SenderSegs(), n.WitnessSegs(), m.senderSig)
  {
    PayloadKindsDiffer(m, n);
  }
}
