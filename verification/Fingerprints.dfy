/**
 The identity of a message: app/domain/fingerprint.py. SHA-256 is taken as a function that
 never gives two different inputs one digest; header values are the texts JSON makes of them.
 */
module Fingerprints {
  import opened Records
  import opened Broker
  import opened BulkService

  const VOLATILE_HEADERS: set<string> := {"x-delivery-count"}

  datatype Delivery = Delivery(
    queue: string,
    body: string,
    headers: map<string, string>,
    messageId: Option<string>,
    timestamp: Option<nat>,
    exchange: string,
    routingKey: string)

  datatype Identity = Identity(
    queue: string,
    body: Fingerprint,
    headers: map<string, string>,
    messageId: Option<string>,
    timestamp: Option<nat>,
    exchange: string,
    routingKey: string)

  ghost predicate NoCollisions<T(!new)>(digest: T -> Fingerprint) {
    forall a, b :: digest(a) == digest(b) ==> a == b
  }

  datatype Hashes = Hashes(ofBody: string -> Fingerprint, ofIdentity: Identity -> Fingerprint)
  {
    ghost predicate Good() { NoCollisions(ofBody) && NoCollisions(ofIdentity) }
  }

  function MessageFingerprint(h: Hashes, d: Delivery): Fingerprint {
    h.ofIdentity(Identity(d.queue, h.ofBody(d.body), d.headers - VOLATILE_HEADERS, d.messageId, d.timestamp,
                          d.exchange, d.routingKey))
  }

  /** The same message but for what the broker rewrites while it sits in its queue. */
  predicate SameMessage(a: Delivery, b: Delivery) {
    && a.(headers := map[]) == b.(headers := map[])
    && (forall k | k in a.headers && k !in VOLATILE_HEADERS :: k in b.headers && b.headers[k] == a.headers[k])
    && (forall k | k in b.headers && k !in VOLATILE_HEADERS :: k in a.headers)
  }

  /** Two deliveries have one fingerprint exactly if they are the same message. */
  lemma FingerprintIdentifies(h: Hashes, a: Delivery, b: Delivery)
    requires h.Good()
    ensures MessageFingerprint(h, a) == MessageFingerprint(h, b) <==> SameMessage(a, b)
  {
    var kept, others := a.headers - VOLATILE_HEADERS, b.headers - VOLATILE_HEADERS;
    if MessageFingerprint(h, a) == MessageFingerprint(h, b) {
      assert kept == others;
      forall k | k in a.headers && k !in VOLATILE_HEADERS
        ensures k in b.headers && b.headers[k] == a.headers[k]
      {
        assert k in kept && kept[k] == a.headers[k] && k in others;
      }
      forall k | k in b.headers && k !in VOLATILE_HEADERS
        ensures k in a.headers
      {
        assert k in others && k in kept;
      }
    }
    if SameMessage(a, b) {
      assert kept == others;
      assert a.queue == b.queue && a.body == b.body;
    }
  }

  /** A quorum queue counts every preview in x-delivery-count; looking never changes a fingerprint. */
  function LookedAt(d: Delivery, counts: seq<string>): Delivery {
    if counts == [] then d else
      var before := LookedAt(d, Front(counts));
      before.(headers := before.headers["x-delivery-count" := Last(counts)])
  }

  lemma {:induction false} LookingKeepsFingerprint(h: Hashes, d: Delivery, counts: seq<string>)
    ensures MessageFingerprint(h, LookedAt(d, counts)) == MessageFingerprint(h, d)
  {
    if counts != [] {
      var before := LookedAt(d, Front(counts));
      LookingKeepsFingerprint(h, d, Front(counts));
      assert before.headers["x-delivery-count" := Last(counts)] - VOLATILE_HEADERS == before.headers - VOLATILE_HEADERS;
    }
  }

  /** Another death, or a replay's stamp, makes it another message: an old approval no longer names it. */
  lemma DeathChangesFingerprint(h: Hashes, a: Delivery, b: Delivery, header: string)
    requires h.Good() && header in {"x-death", "x-queuelens-deaths"}
    requires (header in a.headers) != (header in b.headers)
          || (header in a.headers && a.headers[header] != b.headers[header])
    ensures MessageFingerprint(h, a) != MessageFingerprint(h, b)
  {
    FingerprintIdentifies(h, a, b);
  }

  /** What the dry run and execute rely on to agree: equal fingerprints in a queue mean equal bodies. */
  lemma QueuesIdentify(h: Hashes, ms: seq<Message>, delivered: Message -> Delivery)
    requires h.Good()
    requires forall m | m in ms ::
               m.record.body == delivered(m).body && m.record.fingerprint == MessageFingerprint(h, delivered(m))
    ensures Identifying(ms)
  {
    forall a, b | a in ms && b in ms && a.Fp() == b.Fp()
      ensures a.record.body == b.record.body
    {
      FingerprintIdentifies(h, delivered(a), delivered(b));
    }
  }
}
