/**
 * The durable envelope of an accepted handoff: made from a payload, and read
 * back by the recipient.
 */
module Handoff {
  import opened Wrappers
  import opened Canonical
  import opened JsonGraph
  import opened Envelope
  import opened Utf8

  const HANDOFF_MAX_BYTES := 64 * 1024
  const PACKET_MAX_BYTES := 32 * 1024
  const TARGET_ROLE: Text := Key("target_role")
  const CONTINUITY: Text := Key("continuity")
  const SCHEMA_VERSION: Text := Key("schema_version")

  /** What the host resolved a reference to: always an object. */
  type Resolution = j: Json | j.JObject? witness JObject([])

  /** The siblings of a payload that carries a continuity packet. */
  datatype Continuity = Continuity(packetBytes: nat, evidence: seq<Resolution>)

  datatype Accepted = Accepted(recipient: Text, payload: Json, utf8Bytes: nat, continuity: Option<Continuity>)

  datatype Created = Made(envelope: Accepted) | PayloadNotJson | TooLarge(actual: nat)

  /** A declared count as found: absent, null, a safe integer or anything else. */
  datatype Count = Missing | NullCount | Whole(n: int) | OtherCount

  /** A stored envelope as found in a log; any member may be anything. */
  datatype Stored = Stored(
    schemaVersion: Value, recipient: Value, payload: Value, utf8Bytes: Option<int>, packetBytes: Count,
    evidence: Option<Json>)

  datatype ReadError =
    | WrongVersion | WrongRecipient | NotExactJson | WrongLength | ExceedsLimit | WrongTarget
    | CountOutOfRange | NoPacket | WrongPacketVersion | WrongCount | NoEvidence | EvidenceNotArray | EvidenceNotRecord

  datatype Found = Found(envelope: Accepted) | Rejected(error: ReadError)

  predicate IsRecord(heap: Heap, v: Value) {
    v.Obj? && v.ref in heap && heap[v.ref].ObjectNode?
  }

  /** The tree of a payload that is a JSON object. */
  function CompactObject(heap: Heap, v: Value): Option<Json> {
    if IsJson(heap, v, {}) && IsRecord(heap, v) then Some(TreeOf(heap, v, {})) else None
  }

  /** The bytes of the compact text, as the encoder counts them. */
  function Size(j: Json): nat {
    EncodedLength(Print(j))
  }

  function Create(heap: Heap, payload: Value, recipient: Text, continuity: Option<Continuity>): Created {
    var compact := CompactObject(heap, payload);
    if compact.None? then PayloadNotJson
    else if Size(compact.value) > HANDOFF_MAX_BYTES then TooLarge(Size(compact.value))
    else Made(Accepted(recipient, compact.value, Size(compact.value), continuity))
  }

  /** The value under a key of an object; none when it has no such key. */
  function Lookup(fields: seq<Field>, key: Text): Option<Json> {
    if fields == [] then None
    else if fields[0].key == key then Some(fields[0].value)
    else Lookup(fields[1..], key)
  }

  /** A member of a value that should be an object. */
  function Get(j: Json, key: Text): Option<Json> {
    if j.JObject? then Lookup(j.fields, key) else None
  }

  predicate Targets(payload: Json, role: Text) {
    Get(payload, TARGET_ROLE) == Some(JString(role))
  }

  // ---------------------------------------------------------------- the continuity packet

  /** A packet is measured by its text with sorted keys. */
  function PacketSize(packet: Json): nat {
    EncodedLength(Canonicalize(packet))
  }

  predicate IsPacket(j: Option<Json>) {
    j.Some? && j.value.JObject? && Get(j.value, SCHEMA_VERSION) == Some(JNumber(Decimal(1)))
  }

  datatype Siblings = NoSiblings | Siblings(c: Continuity) | Broken(error: ReadError)

  function ReadSiblings(payload: Json, count: Count, evidence: Option<Json>): Siblings {
    var packet := Get(payload, CONTINUITY);
    if count.Missing? && evidence.None? then NoSiblings
    else if count.OtherCount? || (count.Whole? && !(0 < count.n <= PACKET_MAX_BYTES)) then Broken(CountOutOfRange)
    else if packet.None? || !packet.value.JObject? then Broken(NoPacket)
    else if !IsPacket(packet) then Broken(WrongPacketVersion)
    else if !count.Missing? && count != Whole(PacketSize(packet.value)) then Broken(WrongCount)
    else if evidence.None? then Broken(NoEvidence)
    else if !evidence.value.JArray? then Broken(EvidenceNotArray)
    else if exists e :: e in evidence.value.items && !e.JObject? then Broken(EvidenceNotRecord)
    else Siblings(Continuity(PacketSize(packet.value), evidence.value.items))
  }

  function Read(heap: Heap, stored: Stored, recipient: Text): Found {
    if stored.schemaVersion != Number(Decimal(1)) then Rejected(WrongVersion)
    else if stored.recipient != Str(recipient) then Rejected(WrongRecipient)
    else
      var compact := CompactObject(heap, stored.payload);
      if compact.None? then Rejected(NotExactJson)
      else if stored.utf8Bytes != Some(Size(compact.value)) then Rejected(WrongLength)
      else if Size(compact.value) > HANDOFF_MAX_BYTES then Rejected(ExceedsLimit)
      else if !Targets(compact.value, recipient) then Rejected(WrongTarget)
      else match ReadSiblings(compact.value, stored.packetBytes, stored.evidence)
           case Broken(error) => Rejected(error)
           case NoSiblings => Found(Accepted(recipient, compact.value, Size(compact.value), None))
           case Siblings(c) => Found(Accepted(recipient, compact.value, Size(compact.value), Some(c)))
  }

  // ---------------------------------------------------------------- what the host makes of an emission

  /** Nothing to attach, siblings to attach, or a refusal. */
  datatype Checked = NotRequired | Attach(c: Continuity) | Refused

  /** `sound` is the verdict on the packet's schema and meaning, `resolved` what its references resolve to. */
  function CheckContinuity(payload: Json, required: bool, sound: bool, resolved: seq<Resolution>): Checked {
    var packet := Get(payload, CONTINUITY);
    if packet.None? || packet.value.JNull? then if required then Refused else NotRequired
    else if !IsPacket(packet) || PacketSize(packet.value) > PACKET_MAX_BYTES || !sound then Refused
    else Attach(Continuity(PacketSize(packet.value), resolved))
  }

  /**
   * A role's handoff on its way to a durable envelope: captured only if an
   * envelope can be made, addressed to the role its own payload names, then
   * checked for continuity.
   */
  function Accept(heap: Heap, payload: Value, required: bool, sound: bool,
      resolved: seq<Resolution>): Option<Accepted> {
    var compact := CompactObject(heap, payload);
    var target := if compact.None? then None else Get(compact.value, TARGET_ROLE);
    if target.None? || !target.value.JString? || !Create(heap, payload, target.value.s, None).Made? then None
    else match CheckContinuity(compact.value, required, sound, resolved)
         case Refused => None
         case NotRequired => Some(Create(heap, payload, target.value.s, None).envelope)
         case Attach(c) => Some(Create(heap, payload, target.value.s, Some(c)).envelope)
  }

  // ---------------------------------------------------------------- round trips

  /** `stored` is the envelope written to the log and parsed back into any heap. */
  ghost predicate Reloads(heap: Heap, stored: Stored, e: Accepted) {
    && stored.schemaVersion == Number(Decimal(1))
    && stored.recipient == Str(e.recipient)
    && stored.utf8Bytes == Some(e.utf8Bytes)
    && stored.packetBytes == (if e.continuity.None? then Missing else Whole(e.continuity.value.packetBytes))
    && stored.evidence == (if e.continuity.None? then None else Some(JArray(e.continuity.value.evidence)))
    && Denotes(heap, stored.payload, e.payload)
  }

  /** The siblings belong to the payload's own packet. */
  predicate Belongs(payload: Json, c: Continuity) {
    var packet := Get(payload, CONTINUITY);
    IsPacket(packet) && c.packetBytes == PacketSize(packet.value) && c.packetBytes <= 32_768
  }

  /** A payload makes an envelope exactly when it stands for a JSON object within the limit. */
  lemma MadeIffObjectFits(heap: Heap, payload: Value, recipient: Text, continuity: Option<Continuity>)
    ensures Create(heap, payload, recipient, continuity).Made? <==>
            exists j: Json :: j.JObject? && Denotes(heap, payload, j) && Size(j) <= 65_536
    ensures var c := Create(heap, payload, recipient, continuity);
            c.Made? ==>
              && Denotes(heap, payload, c.envelope.payload) && c.envelope.payload.JObject?
              && c.envelope == Accepted(recipient, c.envelope.payload, Size(c.envelope.payload), continuity)
  {
    hide IsJson, Size, TreeOf;
    if j: Json :| j.JObject? && Denotes(heap, payload, j) && Size(j) <= HANDOFF_MAX_BYTES {
      TreePasses(heap, payload, j);
      DenotesOne(heap, payload, j, TreeOf(heap, payload, {}));
    }
    var compact := CompactObject(heap, payload);
    if compact.Some? {
      assert Denotes(heap, payload, compact.value) && compact.value.JObject?;
    }
  }

  lemma ReloadedTree(heap: Heap, payload: Value, j: Json)
    requires Denotes(heap, payload, j) && j.JObject?
    ensures CompactObject(heap, payload) == Some(j)
  {
    hide IsJson, TreeOf;
    TreePasses(heap, payload, j);
    DenotesOne(heap, payload, j, TreeOf(heap, payload, {}));
  }

  lemma PacketNotEmpty(packet: Json)
    requires packet.JObject?
    ensures PacketSize(packet) > 0
  {
    assert Canonicalize(packet)[0] == 123;
  }

  lemma SiblingsReadBack(payload: Json, c: Continuity)
    ensures ReadSiblings(payload, Whole(c.packetBytes), Some(JArray(c.evidence))) == Siblings(c) <==>
            Belongs(payload, c)
  {
    var packet := Get(payload, CONTINUITY);
    if packet.Some? && packet.value.JObject? {
      PacketNotEmpty(packet.value);
    }
    hide PacketSize, Get;
  }

  /**
   * What was made reads back as the same envelope, in any heap, exactly when
   * its payload targets the recipient and its siblings belong to its packet.
   */
  lemma MadeReadsBack(heap: Heap, payload: Value, recipient: Text, continuity: Option<Continuity>, again: Heap,
      stored: Stored)
    requires Create(heap, payload, recipient, continuity).Made?
    requires Reloads(again, stored, Create(heap, payload, recipient, continuity).envelope)
    ensures var e := Create(heap, payload, recipient, continuity).envelope;
            Read(again, stored, recipient) == Found(e) <==>
            Targets(e.payload, recipient) && (continuity.Some? ==> Belongs(e.payload, continuity.value))
  {
    var e := Create(heap, payload, recipient, continuity).envelope;
    MadeIffObjectFits(heap, payload, recipient, continuity);
    ReloadedTree(again, stored.payload, e.payload);
    if continuity.Some? {
      SiblingsReadBack(e.payload, continuity.value);
    }
    hide Create, CompactObject, Size, Targets, Belongs, Denotes;
  }

  /** Every envelope the host makes of an emission reads back, by the role its payload targets, as the same envelope. */
  lemma AcceptedReadsBack(
    heap: Heap, payload: Value, required: bool, sound: bool, resolved: seq<Resolution>, again: Heap, stored: Stored)
    requires Accept(heap, payload, required, sound, resolved).Some?
    requires Reloads(again, stored, Accept(heap, payload, required, sound, resolved).value)
    ensures var e := Accept(heap, payload, required, sound, resolved).value;
            Read(again, stored, e.recipient) == Found(e)
  {
    var e := Accept(heap, payload, required, sound, resolved).value;
    MadeReadsBack(heap, payload, e.recipient, e.continuity, again, stored);
  }

  /** The siblings measure the payload's own packet, as declared if anything was. */
  predicate Belonging(payload: Json, c: Continuity, count: Count) {
    var packet := Get(payload, CONTINUITY);
    IsPacket(packet) && c.packetBytes == PacketSize(packet.value) && (count.Missing? || count == Whole(c.packetBytes))
  }

  /** Neither sibling is there, or both are in order: records as evidence, and a true count if one is given. */
  predicate SiblingsInOrder(payload: Json, count: Count, evidence: Option<Json>) {
    var packet := Get(payload, CONTINUITY);
    || (count.Missing? && evidence.None?)
    || (&& evidence.Some? && evidence.value.JArray? && (forall e :: e in evidence.value.items ==> e.JObject?)
        && IsPacket(packet)
        && (count.Missing? || (count == Whole(PacketSize(packet.value)) && 0 < count.n <= 32_768)))
  }

  lemma SiblingsGenuine(payload: Json, count: Count, evidence: Option<Json>)
    ensures var s := ReadSiblings(payload, count, evidence);
            && (s.Broken? <==> !SiblingsInOrder(payload, count, evidence))
            && (s.NoSiblings? <==> count.Missing? && evidence.None?)
            && (s.Siblings? ==> Belonging(payload, s.c, count) && evidence == Some(JArray(s.c.evidence)))
  {
    hide PacketSize, Get;
  }

  /**
   * Nothing is read whose declared length is not that of its payload, that is
   * meant for another, or whose siblings do not belong to its packet.
   */
  lemma ReadIsGenuine(heap: Heap, stored: Stored, recipient: Text)
    ensures var f := Read(heap, stored, recipient);
            f.Found? <==>
              && stored.schemaVersion == Number(Decimal(1))
              && stored.recipient == Str(recipient)
              && exists j: Json ::
                   && Denotes(heap, stored.payload, j)
                   && Targets(j, recipient)
                   && stored.utf8Bytes == Some(Size(j)) && Size(j) <= 65_536
                   && SiblingsInOrder(j, stored.packetBytes, stored.evidence)
    ensures var f := Read(heap, stored, recipient);
            f.Found? ==>
              var e := f.envelope;
              && e.recipient == recipient && Denotes(heap, stored.payload, e.payload)
              && stored.utf8Bytes == Some(e.utf8Bytes)
              && (e.continuity.None? <==> stored.packetBytes.Missing? && stored.evidence.None?)
              && (e.continuity.Some? ==>
                    && Belonging(e.payload, e.continuity.value, stored.packetBytes)
                    && stored.evidence == Some(JArray(e.continuity.value.evidence)))
  {
    hide IsJson, Size, TreeOf, ReadSiblings, SiblingsInOrder, Belonging;
    if j: Json :| Denotes(heap, stored.payload, j) && Targets(j, recipient) &&
                  stored.utf8Bytes == Some(Size(j)) && Size(j) <= HANDOFF_MAX_BYTES &&
                  SiblingsInOrder(j, stored.packetBytes, stored.evidence) {
      ReloadedTree(heap, stored.payload, j);
      SiblingsGenuine(j, stored.packetBytes, stored.evidence);
    }
    var compact := CompactObject(heap, stored.payload);
    if compact.Some? {
      assert Denotes(heap, stored.payload, compact.value);
      SiblingsGenuine(compact.value, stored.packetBytes, stored.evidence);
    }
  }

  /** The place of a check among the checks. */
  function Rank(e: ReadError): nat {
    match e
    case WrongVersion => 0
    case WrongRecipient => 1
    case NotExactJson => 2
    case WrongLength => 3
    case ExceedsLimit => 4
    case WrongTarget => 5
    case CountOutOfRange => 6
    case NoPacket => 7
    case WrongPacketVersion => 8
    case WrongCount => 9
    case NoEvidence => 10
    case EvidenceNotArray => 11
    case EvidenceNotRecord => 12
  }

  /** What the check asks that reports `e`; the siblings are asked about only if one of them is there. */
  ghost predicate Passes(heap: Heap, stored: Stored, recipient: Text, e: ReadError) {
    var compact := CompactObject(heap, stored.payload);
    var count, evidence := stored.packetBytes, stored.evidence;
    var absent := count.Missing? && evidence.None?;
    match e
    case WrongVersion => stored.schemaVersion == Number(Decimal(1))
    case WrongRecipient => stored.recipient == Str(recipient)
    case NotExactJson => exists j: Json :: j.JObject? && Denotes(heap, stored.payload, j)
    case WrongLength => compact.Some? && stored.utf8Bytes == Some(Size(compact.value))
    case ExceedsLimit => compact.Some? && Size(compact.value) <= 65_536
    case WrongTarget => compact.Some? && Get(compact.value, TARGET_ROLE) == Some(JString(recipient))
    case _ => absent || (compact.Some? && PassesSiblings(compact.value, count, evidence, e))
  }

  ghost predicate PassesSiblings(payload: Json, count: Count, evidence: Option<Json>, e: ReadError) {
    var packet := Get(payload, CONTINUITY);
    match e
    case CountOutOfRange => !count.OtherCount? && (count.Whole? ==> 0 < count.n <= 32_768)
    case NoPacket => packet.Some? && packet.value.JObject?
    case WrongPacketVersion => packet.Some? && Get(packet.value, SCHEMA_VERSION) == Some(JNumber(Decimal(1)))
    case WrongCount => packet.Some? && (count.Missing? || count == Whole(PacketSize(packet.value)))
    case NoEvidence => evidence.Some?
    case EvidenceNotArray => evidence.Some? && evidence.value.JArray?
    case EvidenceNotRecord =>
      evidence.Some? && evidence.value.JArray? && forall r :: r in evidence.value.items ==> r.JObject?
    case _ => true
  }

  /** A rejection names the first check that does not pass. */
  lemma RejectionNamesFirstFault(heap: Heap, stored: Stored, recipient: Text)
    requires Read(heap, stored, recipient).Rejected?
    ensures var e := Read(heap, stored, recipient).error;
            && !Passes(heap, stored, recipient, e)
            && forall earlier: ReadError :: Rank(earlier) < Rank(e) ==> Passes(heap, stored, recipient, earlier)
  {
    hide IsJson, TreeOf, Size, Get, PacketSize;
    var compact := CompactObject(heap, stored.payload);
    if j: Json :| j.JObject? && Denotes(heap, stored.payload, j) {
      ReloadedTree(heap, stored.payload, j);
    }
    if compact.Some? {
      assert Denotes(heap, stored.payload, compact.value) && compact.value.JObject?;
    }
  }

  // ---------------------------------------------------------------- what an emission needs

  /** In an object without repeated keys a member is found exactly under its own key. */
  lemma {:induction false} LookupFinds(fields: seq<Field>, key: Text, value: Json)
    requires DistinctKeys(fields)
    ensures Lookup(fields, key) == Some(value) <==> Field(key, value) in fields
    decreases |fields|
  {
    if fields != [] {
      LookupFinds(fields[1..], key, value);
      assert fields == [fields[0]] + fields[1..];
    }
  }

  /** A packet where one is required, and a sound one within its limit wherever there is any. */
  predicate ContinuityMet(payload: Json, required: bool, sound: bool) {
    var packet := Get(payload, CONTINUITY);
    if packet == None || packet == Some(JNull) then !required
    else IsPacket(packet) && PacketSize(packet.value) <= 32_768 && sound
  }

  /** The payload an emission can be accepted with. */
  ghost predicate Acceptable(heap: Heap, payload: Value, required: bool, sound: bool, j: Json) {
    && Denotes(heap, payload, j) && j.JObject? && Size(j) <= 65_536
    && (exists role :: Targets(j, role)) && ContinuityMet(j, required, sound)
  }

  /**
   * An emission is accepted exactly when its payload is a JSON object within
   * the limit that names its target and meets the rules of continuity; the
   * envelope is addressed to that target and carries what the packet resolves to.
   */
  lemma AcceptIsExact(heap: Heap, payload: Value, required: bool, sound: bool, resolved: seq<Resolution>)
    ensures var a := Accept(heap, payload, required, sound, resolved);
            && (a.Some? <==> exists j :: Acceptable(heap, payload, required, sound, j))
            && (a.Some? ==>
                  var e := a.value;
                  var packet := Get(e.payload, CONTINUITY);
                  && Acceptable(heap, payload, required, sound, e.payload)
                  && Targets(e.payload, e.recipient) && e.utf8Bytes == Size(e.payload)
                  && e.continuity == if packet == None || packet == Some(JNull) then None
                                     else Some(Continuity(PacketSize(packet.value), resolved)))
  {
    hide IsJson, TreeOf, Size, Get, IsPacket, PacketSize, EncodedLength, Print;
    var compact := CompactObject(heap, payload);
    if j :| Acceptable(heap, payload, required, sound, j) {
      ReloadedTree(heap, payload, j);
    }
    if compact.Some? {
      var j := compact.value;
      assert Denotes(heap, payload, j) && j.JObject?;
      var target := Get(j, TARGET_ROLE);
      if target.Some? && target.value.JString? {
        assert Targets(j, target.value.s);
      }
      var a := Accept(heap, payload, required, sound, resolved);
      if a.Some? {
        assert Acceptable(heap, payload, required, sound, j);
      }
    }
  }
}
