/** Normalised producer options (producer/options.go). */
module ProducerOptions {
  import opened Wire
  import opened Delivery

  const PER_PARTITION := 0
  const NONE := 1

  /** The strategy is a plain integer; two values are defined. */
  datatype Options = Options(
    acks: Int16,
    retryMaxAttempts: int,
    maxInFlight: int,
    ordering: int,
    batchSize: int,
    batchBytes: int,
    queueSize: int,
    idempotent: bool,
    transactional: bool,
    producerId: Int64,
    producerEpoch: Int16)

  function Positive(n: int, fallback: int): int { if n <= 0 then fallback else n }

  function Normalized(o: Options): Options {
    var idempotent := o.idempotent || o.transactional;
    var anonymous := !idempotent || (o.producerId == 0 && o.producerEpoch == 0);
    Options(
      if o.acks == 0 then -1 else o.acks,
      Positive(o.retryMaxAttempts, 2),
      Positive(o.maxInFlight, 5),
      if idempotent && o.ordering == NONE then PER_PARTITION else o.ordering,
      Positive(o.batchSize, 100),
      Positive(o.batchBytes, 1024 * 1024),
      Positive(o.queueSize, 1024),
      idempotent,
      o.transactional,
      if anonymous then -1 else o.producerId,
      if anonymous then -1 else o.producerEpoch)
  }

  method Normalize(options: Options) returns (o: Options)
    ensures o == Normalized(options)
  {
    var acks, retries, inFlight := options.acks, options.retryMaxAttempts, options.maxInFlight;
    var ordering, idempotent := options.ordering, options.idempotent;
    var id, epoch := options.producerId, options.producerEpoch;
    if acks == 0 { acks := -1; }
    if retries <= 0 { retries := 2; }
    if inFlight <= 0 { inFlight := 5; }
    if options.transactional { idempotent := true; }
    if idempotent && ordering == NONE { ordering := PER_PARTITION; }
    if idempotent && id == 0 && epoch == 0 { id, epoch := -1, -1; }
    if !idempotent { id, epoch := -1, -1; }
    o := Options(acks, retries, inFlight, ordering, Positive(options.batchSize, 100),
                 Positive(options.batchBytes, 1024 * 1024), Positive(options.queueSize, 1024), idempotent,
                 options.transactional, id, epoch);
  }

  /** An idempotent producer serialises the batches of a partition exactly when the caller chose one
      of the two defined strategies; any other number slips through and orders nothing. */
  lemma IdempotentIsOrdered(o: Options)
    ensures Normalized(o).idempotent <==> o.idempotent || o.transactional
    ensures Normalized(o).idempotent ==>
              (Normalized(o).ordering == PER_PARTITION <==> o.ordering == PER_PARTITION || o.ordering == NONE)
  {}

  /** Normalising is a projection, and what it yields is a configuration the protocol can run with. */
  lemma NormalizedIsUsable(o: Options, maxAttempts: nat)
    ensures Normalized(Normalized(o)) == Normalized(o)
    ensures var n := Normalized(o);
            && n.retryMaxAttempts > 0 && n.maxInFlight > 0 && n.batchSize > 0 && n.batchBytes > 0
            && ValidConfig(Config(n.retryMaxAttempts, n.maxInFlight, maxAttempts))
  {}

  /** Options that say nothing get these defaults. */
  lemma Defaults()
    ensures Normalized(Options(0, 0, 0, 0, 0, 0, 0, false, false, 0, 0))
         == Options(-1, 2, 5, 0, 100, 1048576, 1024, false, false, -1, -1)
  {}

  /** Options are left alone if and only if the acknowledgements are chosen, every limit is positive, a
      transactional producer is idempotent, an idempotent one orders and does not have the id that
      stands for none, and another one has no id. */
  lemma UnchangedExactly(o: Options)
    ensures Normalized(o) == o <==>
              && o.acks != 0 && o.retryMaxAttempts > 0 && o.maxInFlight > 0
              && o.batchSize > 0 && o.batchBytes > 0 && o.queueSize > 0
              && (o.transactional ==> o.idempotent)
              && (o.idempotent ==> o.ordering != 1 && (o.producerId != 0 || o.producerEpoch != 0))
              && (!o.idempotent ==> o.producerId == -1 && o.producerEpoch == -1)
  {}
}
