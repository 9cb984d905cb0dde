/** Cross-project dependencies and the handoffs that satisfy them
    (src/global-runs.js, src/registry.js materializeCrossProjectHandoff).
    sha256 over canonical JSON is modelled by structural digests, so two digests are
    equal exactly when what was hashed is. */
module Handoffs {
  import opened DomainStates
  import opened TaskRows

  type DepId = nat
  type Output = nat

  datatype Condition = IfAllSuccess | IfAllTerminal | IfFailure

  datatype DepStatus = DepPending | DepSatisfied | DepFailed | DepSkipped

  datatype XDep = XDep(
    global: GlobalId,
    producer: RunId,
    consumer: RunId,
    condition: Condition,
    required: set<Output>,
    schema: nat,
    fingerprint: Fingerprint,
    status: DepStatus)

  datatype Evidence = Evidence(status: TaskStatus, attested: set<Output>)

  datatype Payload = Payload(
    schema: nat,
    dependency: DepId,
    producer: RunId,
    consumer: RunId,
    producerStatus: Option<RunStatus>,
    required: set<Output>,
    evidence: map<TaskId, Evidence>)

  datatype Digest =
    | OfPayload(payload: Payload)
    | OfHandoff(dependency: DepId, dependencyFingerprint: Fingerprint, producer: RunId, consumer: RunId, schema: nat,
                content: Digest)
    | OfReceipt(handoff: Digest, consumer: RunId, content: Digest)
    | Foreign(bits: nat)

  datatype HandoffStatus = Prepared | Validated | Received | Invalid

  /** `seen*` are the copies of the hashes kept in the row's metadata. */
  datatype Handoff = Handoff(
    status: HandoffStatus,
    consumer: RunId,
    dependencyFingerprint: Fingerprint,
    schema: nat,
    payload: Payload,
    contentHash: Digest,
    fingerprint: Digest,
    receipt: Option<Digest>,
    seenFingerprint: Option<Digest>,
    seenContent: Option<Digest>,
    seenReceipt: Option<Digest>)

  datatype Delivery = Delivery(dep: XDep, handoff: Option<Handoff>)

  function Seal(id: DepId, dep: XDep, content: Digest): Digest {
    OfHandoff(id, dep.fingerprint, dep.producer, dep.consumer, dep.schema, content)
  }

  function ReceiptOf(h: Handoff): Digest { OfReceipt(h.fingerprint, h.consumer, h.contentHash) }

  predicate Intact(id: DepId, dep: XDep, h: Handoff) {
    && h.dependencyFingerprint == dep.fingerprint
    && h.schema == dep.schema
    && h.contentHash == OfPayload(h.payload)
    && h.fingerprint == Seal(id, dep, OfPayload(h.payload))
    && h.seenFingerprint == Some(h.fingerprint)
    && h.seenContent == Some(h.contentHash)
    && (h.receipt.Some? ==> h.receipt.value == ReceiptOf(h) && h.seenReceipt == h.receipt)
  }

  /** The SQL guard shared by releaseStagedRun and claimTask. A NULL metadata copy makes its
      comparison NULL, which the guard does not count as a mismatch. */
  predicate Deliverable(dep: XDep, h: Option<Handoff>) {
    && dep.status.DepSatisfied?
    && h.Some?
    && h.value.status.Received?
    && h.value.dependencyFingerprint == dep.fingerprint
    && (h.value.seenFingerprint.Some? ==> h.value.seenFingerprint.value == h.value.fingerprint)
    && (h.value.seenContent.Some? ==> h.value.seenContent.value == h.value.contentHash)
    && h.value.receipt.Some?
    && (h.value.seenReceipt.Some? ==> h.value.seenReceipt == h.value.receipt)
  }

  predicate Attested(output: Output, p: Payload) {
    exists t :: t in p.evidence && output in p.evidence[t].attested && Achieved(p.evidence[t].status)
  }

  predicate Complete(p: Payload) { forall output :: output in p.required ==> Attested(output, p) }

  function Receive(h: Handoff): Handoff {
    if (h.status.Prepared? || h.status.Validated?) && h.receipt.None?
    then h.(status := Received, receipt := Some(ReceiptOf(h)), seenReceipt := Some(ReceiptOf(h)))
    else h
  }

  function Prepare(id: DepId, dep: XDep, p: Payload): Handoff {
    var content := OfPayload(p);
    var seal := Seal(id, dep, content);
    Handoff(Validated, dep.consumer, dep.fingerprint, dep.schema, p, content, seal, None, Some(seal), Some(content),
            None)
  }

  /** `p` is the payload a first preparation would write. */
  function Materialise(id: DepId, dep: XDep, h: Option<Handoff>, p: Payload): Delivery {
    if !dep.status.DepSatisfied? then Delivery(dep, h)
    else match h
      case Some(e) =>
        if !Intact(id, dep, e) then Delivery(dep.(status := DepFailed), Some(e.(status := Invalid)))
        else if e.status.Invalid? || e.status.Received? then Delivery(dep, h)
        else Delivery(dep, Some(Receive(e)))
      case None =>
        if Complete(p) then Delivery(dep, Some(Receive(Prepare(id, dep, p))))
        else Delivery(dep.(status := DepFailed), Some(Prepare(id, dep, p).(status := Invalid)))
  }

  /** Whatever the rows hold, a second call changes nothing: received handoffs stay as they
      are and a detected fault is final. */
  lemma MaterialiseIsIdempotent(id: DepId, dep: XDep, h: Option<Handoff>, p: Payload, q: Payload)
    ensures var once := Materialise(id, dep, h, p);
      Materialise(id, once.dep, once.handoff, q) == once
  {
    if dep.status.DepSatisfied? {
      match h
      case Some(e) => if Intact(id, dep, e) { assert Intact(id, dep, Receive(e)); }
      case None => assert Intact(id, dep, Receive(Prepare(id, dep, p)));
    }
  }

  /** Some completed task of the producer attests the output. */
  predicate AttestedIn(p: Payload, output: Output) {
    exists t :: t in p.evidence && p.evidence[t].status in {Completed, CompletedWithWarnings}
      && output in p.evidence[t].attested
  }

  /** The row written for a dependency: its own columns and payload, hashed one into the other, and
      kept twice. */
  predicate WrittenFor(id: DepId, dep: XDep, p: Payload, h: Handoff) {
    && h.consumer == dep.consumer && h.schema == dep.schema && h.dependencyFingerprint == dep.fingerprint
    && h.payload == p && h.contentHash == OfPayload(p) && h.seenContent == Some(h.contentHash)
    && h.fingerprint == OfHandoff(id, dep.fingerprint, dep.producer, dep.consumer, dep.schema, OfPayload(p))
    && h.seenFingerprint == Some(h.fingerprint)
  }

  predicate ReceivedFor(dep: XDep, p: Payload, h: Handoff) {
    h.status.Received? && h.receipt == Some(OfReceipt(h.fingerprint, dep.consumer, OfPayload(p)))
    && h.seenReceipt == h.receipt
  }

  /** A first preparation delivers, with a receipt made out for this handoff and consumer, iff every
      required output is attested by a completed task; otherwise it fails the dependency. */
  lemma FirstDelivery(id: DepId, dep: XDep, p: Payload)
    requires dep.status.DepSatisfied?
    ensures var d := Materialise(id, dep, None, p);
      && d.handoff.Some? && WrittenFor(id, dep, p, d.handoff.value)
      && if forall output :: output in p.required ==> AttestedIn(p, output)
         then d.dep == dep && ReceivedFor(dep, p, d.handoff.value) && Deliverable(dep, d.handoff)
         else d.dep == dep.(status := DepFailed) && d.handoff.value.status.Invalid? && d.handoff.value.receipt.None?
  {
    assert forall output :: AttestedIn(p, output) <==> Attested(output, p);
  }

  /** An intact handoff that was left prepared or validated is received now; every other one stays. */
  lemma LaterDelivery(id: DepId, dep: XDep, h: Handoff, p: Payload)
    requires dep.status.DepSatisfied? && h == Resealed(id, dep, h)
    ensures var d := Materialise(id, dep, Some(h), p);
      d.dep == dep && d.handoff == Some(
        if h.status in {Prepared, Validated} && h.receipt.None?
        then h.(status := Received, receipt := Some(OfReceipt(h.fingerprint, h.consumer, h.contentHash)),
                seenReceipt := Some(OfReceipt(h.fingerprint, h.consumer, h.contentHash)))
        else h)
  {
    DetectionIsExact(id, dep, h, p);
  }

  /** A receipt stands for one delivery: two received handoffs with the same receipt are for the same
      dependency, producer and consumer, and carry the same payload. */
  lemma ReceiptBinds(id: DepId, dep: XDep, h: Handoff, id': DepId, dep': XDep, h': Handoff)
    requires Intact(id, dep, h) && h.receipt.Some? && Intact(id', dep', h') && h'.receipt == h.receipt
    ensures id' == id && dep'.producer == dep.producer && dep'.consumer == dep.consumer
    ensures dep'.fingerprint == dep.fingerprint && dep'.schema == dep.schema
    ensures h'.payload == h.payload && h'.consumer == h.consumer
  {
  }

  /** The row whose every hash is recomputed from the payload and consumer it carries. */
  function Resealed(id: DepId, dep: XDep, h: Handoff): Handoff {
    var base := Prepare(id, dep, h.payload).(status := h.status, consumer := h.consumer);
    if h.receipt.None? then base.(seenReceipt := h.seenReceipt)
    else base.(receipt := Some(ReceiptOf(base)), seenReceipt := Some(ReceiptOf(base)))
  }

  /** Detection is exact: an existing handoff fails its dependency iff some hash in it is not
      the one its payload and consumer determine. */
  lemma DetectionIsExact(id: DepId, dep: XDep, h: Handoff, p: Payload)
    requires dep.status.DepSatisfied?
    ensures Materialise(id, dep, Some(h), p).dep.status.DepFailed? <==> h != Resealed(id, dep, h)
  {
    assert Intact(id, dep, h) <==> h == Resealed(id, dep, h);
  }

  /** After a rewrite of a received handoff, going undetected takes the same row or a new
      payload or consumer together with every hash that depends on it. */
  lemma TamperingIsSeen(id: DepId, dep: XDep, h: Handoff, h': Handoff, p: Payload)
    requires dep.status.DepSatisfied?
    requires Intact(id, dep, h) && Deliverable(dep, Some(h)) && h'.status == h.status && h'.receipt.Some?
    requires h' != h
    requires
      || (h'.payload == h.payload && h'.consumer == h.consumer)
      || (h'.payload != h.payload
          && (h'.contentHash == h.contentHash || h'.fingerprint == h.fingerprint || h'.seenContent == h.seenContent
              || h'.seenFingerprint == h.seenFingerprint || h'.receipt == h.receipt || h'.seenReceipt == h.seenReceipt))
      || (h'.consumer != h.consumer && (h'.receipt == h.receipt || h'.seenReceipt == h.seenReceipt))
    ensures Materialise(id, dep, Some(h'), p) == Delivery(dep.(status := DepFailed), Some(h'.(status := Invalid)))
  {
    DetectionIsExact(id, dep, h', p);
    DetectionIsExact(id, dep, h, p);
  }
}
