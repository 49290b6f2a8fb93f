/** The protocol client (internal/protocolclient/client.go): retries with backoff, correlation ids,
    and the negotiation of api versions. */
module ProtocolClient {
  import opened Wrappers
  import opened Wire
  import opened Registry
  import opened SortedLists
  import opened CorrelationIds

  // ------------------------------------------------------------------------ backoff

  /** `initial` times 2 to the power `n`. */
  function Scaled(initial: int, n: nat): int {
    if n == 0 then initial else 2 * Scaled(initial, n - 1)
  }

  function Min(a: int, b: int): int { if a <= b then a else b }

  /** The delay after `n` doublings that all stayed below the maximum, as the 64-bit register holds
      it, or the maximum once one did not. */
  function Doubled(initial: Int64, max: Int64, n: nat): Int64 {
    if n == 0 then initial
    else
      var delay := Doubled(initial, max, n - 1);
      if Reached(initial, max, n - 1) then max
      else if Cast64(2 * delay) >= max then max else Cast64(2 * delay)
  }

  /** One of the first `n` doublings reached the maximum. */
  predicate Reached(initial: Int64, max: Int64, n: nat) {
    n > 0 && (Reached(initial, max, n - 1) || Cast64(2 * Doubled(initial, max, n - 1)) >= max)
  }

  method BackoffDelay(attempt: nat, initial: Int64, max: Int64) returns (delay: Int64)
    ensures delay == Min(Doubled(initial, max, if attempt == 0 then 0 else attempt - 1), max)
  {
    delay := initial;
    var rounds := if attempt == 0 then 0 else attempt - 1;
    for i := 0 to rounds
      invariant delay == Doubled(initial, max, i) && !Reached(initial, max, i)
    {
      delay := Cast64(2 * delay);
      if delay >= max {
        StaysReached(initial, max, i + 1, rounds);
        return max;
      }
    }
    if delay > max {
      return max;
    }
  }

  lemma {:induction false} StaysReached(initial: Int64, max: Int64, m: nat, n: nat)
    requires 0 < m <= n && Reached(initial, max, m)
    ensures Reached(initial, max, n) && Doubled(initial, max, n) == max
    decreases n
  {
    if m < n {
      StaysReached(initial, max, m, n - 1);
    }
  }

  /** Some doubling is made of a delay of 2^62 or more: of the initial one, which is doubled without
      a look at the maximum, or of a later one below the maximum. */
  ghost predicate Overflows(initial: Int64, max: Int64) {
    exists j: nat :: Scaled(initial, j) >= 0x4000_0000_0000_0000 && (j == 0 || Scaled(initial, j) < max)
  }

  lemma {:induction false} ScaledGrows(initial: int, m: nat, n: nat)
    requires initial > 0 && m <= n
    ensures initial <= Scaled(initial, m) <= Scaled(initial, n)
  {
    if m < n {
      ScaledGrows(initial, m, n - 1);
    } else if m > 0 {
      ScaledGrows(initial, m - 1, n - 1);
    }
  }

  lemma WrapDouble(n: int)
    ensures 0 <= n < 0x4000_0000_0000_0000 ==> Cast64(2 * n) == 2 * n
    ensures 0x4000_0000_0000_0000 <= n < 0x8000_0000_0000_0000 ==> Cast64(2 * n) < 0
  {}

  /** Without overflow the register holds the exact product until the maximum is reached. */
  lemma {:induction false} ExactDelay(initial: Int64, max: Int64, n: nat)
    requires 0 < initial <= max && !Overflows(initial, max)
    ensures Doubled(initial, max, n) == Min(Scaled(initial, n), max)
    ensures Reached(initial, max, n) <==> n > 0 && Scaled(initial, n) >= max
  {
    hide Cast64;
    if n > 0 {
      ExactDelay(initial, max, n - 1);
      var product := Scaled(initial, n - 1);
      ScaledGrows(initial, n - 1, n);
      WrapDouble(product);
      assert !(product >= 0x4000_0000_0000_0000 && (n - 1 == 0 || product < max));
    }
  }

  lemma {:induction false} ExactUntil(initial: Int64, max: Int64, j: nat, n: nat)
    requires 0 < initial <= max && n <= j && (j == 0 || Scaled(initial, j) < max)
    ensures Doubled(initial, max, n) == Scaled(initial, n) && !Reached(initial, max, n)
    decreases n
  {
    hide Cast64;
    if n > 0 {
      ExactUntil(initial, max, j, n - 1);
      ScaledGrows(initial, n - 1, n);
      ScaledGrows(initial, n, j);
      WrapDouble(Scaled(initial, n - 1));
    }
  }

  /** The delay before every retry is the smaller of `initial * 2^(attempt - 1)` and the maximum,
      for all attempts, if and only if no doubling below the maximum leaves the 64-bit range. */
  lemma DelayIsExponential(initial: Int64, max: Int64)
    requires 0 < initial <= max
    ensures (forall n: nat :: Min(Doubled(initial, max, n), max) == Min(Scaled(initial, n), max))
            <==> !Overflows(initial, max)
  {
    hide Cast64;
    if Overflows(initial, max) {
      var j: nat :| Scaled(initial, j) >= 0x4000_0000_0000_0000 && (j == 0 || Scaled(initial, j) < max);
      ExactUntil(initial, max, j, j);
      WrapDouble(Scaled(initial, j));
      assert Min(Doubled(initial, max, j + 1), max) != Min(Scaled(initial, j + 1), max);
    } else {
      forall n: nat
        ensures Min(Doubled(initial, max, n), max) == Min(Scaled(initial, n), max)
      {
        ExactDelay(initial, max, n);
      }
    }
  }

  /** In particular it is exponential for every maximum below 2^62 nanoseconds, about 146 years. */
  lemma ModestMaximum(initial: Int64, max: Int64)
    requires 0 < initial <= max < 0x4000_0000_0000_0000
    ensures forall n: nat :: Min(Doubled(initial, max, n), max) == Min(Scaled(initial, n), max)
  {
    DelayIsExponential(initial, max);
  }

  // -------------------------------------------------------------------------- versions

  datatype Range = Range(min: Int16, max: Int16)

  /** A range that a broker announces for an api. */
  datatype Announced = Announced(apiKey: ApiKey, range: Range)

  const DEFAULT_API_VERSION: Int16 := 0
  const API_VERSIONS: ApiKey := 0

  predicate KnownApiKey(code: ApiKey) {
    0 <= code <= 13 || 50 <= code <= 55
  }

  /** What an ApiVersions response says: the last range of each known api. */
  function RangesOf(list: seq<Announced>): map<ApiKey, Range> {
    if list == [] then map[]
    else
      var last := list[|list| - 1];
      var front := RangesOf(list[..|list| - 1]);
      if KnownApiKey(last.apiKey) then front[last.apiKey := last.range] else front
  }

  /** Entry `i` is the last one for this api. */
  predicate LastFor(list: seq<Announced>, apiKey: ApiKey, i: nat) {
    i < |list| && list[i].apiKey == apiKey && forall j :: i < j < |list| ==> list[j].apiKey != apiKey
  }

  /** The ranges are those of the apis that are known, 0 to 13 and 50 to 55, each as announced last. */
  lemma {:induction false} RangesAreLast(list: seq<Announced>, apiKey: ApiKey)
    ensures apiKey in RangesOf(list) <==>
              (0 <= apiKey <= 13 || 50 <= apiKey <= 55) && exists i: nat :: LastFor(list, apiKey, i)
    ensures forall i: nat :: apiKey in RangesOf(list) && LastFor(list, apiKey, i) ==> RangesOf(list)[apiKey] == list[i].range
  {
    if list != [] {
      var n := |list| - 1;
      RangesAreLast(list[..n], apiKey);
      if list[n].apiKey == apiKey {
        assert LastFor(list, apiKey, n);
      } else {
        assert forall i: nat :: LastFor(list, apiKey, i) <==> LastFor(list[..n], apiKey, i);
      }
    }
  }

  predicate InRange(v: Int16, range: Range) { range.min <= v <= range.max }

  /** The greatest supported version that the broker accepts, if there is one. */
  method SelectAPIVersion(versions: seq<Int16>, range: Range) returns (selected: Option<Int16>)
    requires Ascending(versions)
    ensures selected.Some? ==>
              && selected.value in versions && range.min <= selected.value <= range.max
              && forall v :: v in versions && range.min <= v <= range.max ==> v <= selected.value
    ensures selected.None? ==> forall v :: v in versions ==> !(range.min <= v <= range.max)
  {
    for index := |versions| downto 0
      invariant forall i :: index <= i < |versions| ==> !InRange(versions[i], range)
    {
      if InRange(versions[index], range) {
        return Some(versions[index]);
      }
    }
    selected := None;
  }

  // ----------------------------------------------------------------------------- retries

  /** Why an attempt failed: the context ended, the transport failed, or the broker answered with
      an error code. */
  datatype Failure = Cancelled | Transport | Code(code: Int16)

  /** The result of an attempt or of a call; a body that cannot be decoded is not retried. */
  datatype Outcome = Ok(payload: Bytes) | Err(failure: Failure) | BadBody

  predicate IsRetriable(f: Failure) {
    match f
    case Cancelled => false
    case Transport => true
    case Code(c) => c in {1, 6, 7, 8, 9, 10, 16, 17}
  }

  /** What an attempt meets: how many ids others take before it, whether there is a connection, what
      comes of the request, whether the context has expired then, and whether it ends the backoff. */
  datatype Encounter = Encounter(others: nat, connected: bool, answer: Outcome, expired: bool, interrupted: bool)

  /** What comes of the attempts, by their number, whether the body of a request that begins with an
      attempt can be encoded for a version, and what the ApiVersions response to an attempt announces. */
  datatype World = World(
    encounter: nat -> Encounter,
    encodes: (nat, Int16) -> bool,
    announces: nat -> seq<Announced>)

  function Heard(e: Encounter): Outcome {
    if !e.connected && !e.answer.Err? then Err(Transport) else e.answer
  }

  /** The attempt failed in a way that another one may cure: the transport failed, or the broker
      answered with one of these codes; and the context lives. */
  predicate MayRetry(e: Encounter) {
    var o := Heard(e);
    && o.Err? && !e.expired
    && (o.failure.Transport? || (o.failure.Code? && o.failure.code in {1, 6, 7, 8, 9, 10, 16, 17}))
  }

  /** One attempt, as far as it is seen from outside: `sent` tells whether a frame went out. */
  datatype Attempt = Attempt(apiKey: ApiKey, version: Int16, id: Int32, sent: bool, outcome: Outcome)

  type Endpoint = string

  const UNSUPPORTED_VERSION: Failure := Code(2)

  /** The attempts of one request under one version, from attempt `from` of the client on: none if the
      body cannot be encoded; otherwise one after the other, each with the outcome that was met, as long
      as a retry is permitted, not interrupted, and below the limit; and the last decides. */
  predicate Story(part: seq<Attempt>, apiKey: ApiKey, version: Int16, limit: nat, w: World, from: nat, outcome: Outcome) {
    var n := |part|;
    && n <= limit && Made(part, apiKey, version, w, from)
    && (forall i :: 0 <= i < n - 1 ==> Repeated(w, from, i))
    && (n == 0 <==> limit == 0 || !w.encodes(from, version))
    && (n == 0 ==> outcome == Err(Transport))
    && (0 < n < limit ==> !Repeated(w, from, n - 1))
    && (n > 0 ==>
          outcome == if n < limit && MayRetry(w.encounter(from + n - 1)) then Err(Cancelled) else part[n - 1].outcome)
  }

  /** A request whose first `n` attempts may be repeated, fewer than the limit, and whose next one may
      not makes exactly n + 1 attempts; and its outcome is that of the last, or that the context ended
      its backoff. */
  lemma StoryDecides(part: seq<Attempt>, apiKey: ApiKey, version: Int16, limit: nat, w: World, from: nat, outcome: Outcome,
                     n: nat)
    requires Story(part, apiKey, version, limit, w, from, outcome) && w.encodes(from, version) && n < limit
    requires forall i :: 0 <= i < n ==> Repeated(w, from, i)
    requires n == limit - 1 || !Repeated(w, from, n)
    ensures |part| == n + 1 && part[n].sent == w.encounter(from + n).connected
    ensures n == limit - 1 || !MayRetry(w.encounter(from + n)) ==> outcome == Heard(w.encounter(from + n)) == part[n].outcome
    ensures n < limit - 1 && MayRetry(w.encounter(from + n)) ==> outcome == Err(Cancelled)
  {
    hide MayRetry, Heard;
  }

  /** Without a connection an attempt has failed; with one it has its answer. */
  lemma HeardIs(e: Encounter)
    ensures e.connected ==> Heard(e) == e.answer
    ensures !e.connected ==> Heard(e).Err?
  {}

  /** Each attempt is for this api and version, and met what it was to meet. */
  predicate Made(part: seq<Attempt>, apiKey: ApiKey, version: Int16, w: World, from: nat) {
    forall i :: 0 <= i < |part| ==>
                  && part[i].apiKey == apiKey && part[i].version == version
                  && part[i].sent == w.encounter(from + i).connected && part[i].outcome == Heard(w.encounter(from + i))
  }

  predicate Repeated(w: World, from: nat, i: nat) {
    MayRetry(w.encounter(from + i)) && !w.encounter(from + i).interrupted
  }

  /** Attempt i carries the `taken[i]`-th id after `start`; ids in between went to other callers. */
  predicate Numbered(part: seq<Attempt>, start: Int32, taken: seq<nat>) {
    && |taken| == |part|
    && (forall i :: 0 <= i < |part| ==> taken[i] > 0 && part[i].id == IdAfter(start, taken[i]))
    && forall i, j :: 0 <= i < j < |taken| ==> taken[i] < taken[j]
  }

  /** The number of ids that were given out up to the last attempt. */
  function LastTaken(taken: seq<nat>): nat {
    if taken == [] then 0 else taken[|taken| - 1]
  }

  /** So the attempts of a request carry distinct positive ids, as long as fewer than 2^31 - 1 were
      given out to anyone in the meantime. */
  lemma AttemptsAreDistinct(part: seq<Attempt>, start: Int32, taken: seq<nat>, i: nat, j: nat)
    requires start >= 0 && Numbered(part, start, taken) && i < j < |part| && LastTaken(taken) < taken[0] + MAX_INT32
    ensures part[i].id > 0 && part[j].id > 0 && part[i].id != part[j].id
  {
    assert taken[0] <= taken[i] && taken[j] <= LastTaken(taken);
    IdsAreDistinct(start, taken[i], taken[j]);
  }

  /** These attempts were made, and each was to be repeated. */
  predicate SoFar(part: seq<Attempt>, apiKey: ApiKey, version: Int16, w: World, from: nat) {
    Made(part, apiKey, version, w, from) && forall i :: 0 <= i < |part| ==> Repeated(w, from, i)
  }

  lemma SoFarGrows(part: seq<Attempt>, apiKey: ApiKey, version: Int16, w: World, from: nat, one: Attempt)
    requires SoFar(part, apiKey, version, w, from) && Made(part + [one], apiKey, version, w, from)
    ensures Repeated(w, from, |part|) ==> SoFar(part + [one], apiKey, version, w, from)
  {
    hide Repeated;
  }

  /** A request that ends before its first attempt, or with its last one. */
  lemma EndsUnsent(apiKey: ApiKey, version: Int16, limit: nat, w: World, from: nat)
    requires limit == 0 || !w.encodes(from, version)
    ensures Story([], apiKey, version, limit, w, from, Err(Transport)) && SoFar([], apiKey, version, w, from)
  {}

  lemma StartsSending(apiKey: ApiKey, version: Int16, w: World, from: nat)
    ensures SoFar([], apiKey, version, w, from)
  {}

  lemma EndsWith(part: seq<Attempt>, apiKey: ApiKey, version: Int16, limit: nat, w: World, from: nat, one: Attempt)
    requires |part| < limit && w.encodes(from, version)
    requires SoFar(part, apiKey, version, w, from) && Made(part + [one], apiKey, version, w, from)
    ensures |part| + 1 == limit || !MayRetry(w.encounter(from + |part|)) ==>
              Story(part + [one], apiKey, version, limit, w, from, one.outcome)
    ensures |part| + 1 < limit && !Repeated(w, from, |part|) && MayRetry(w.encounter(from + |part|)) ==>
              Story(part + [one], apiKey, version, limit, w, from, Err(Cancelled))
  {
    RepeatedIs(w, from, |part|);
    hide Made, Repeated, MayRetry;
  }

  lemma RepeatedIs(w: World, from: nat, i: nat)
    ensures Repeated(w, from, i) <==> MayRetry(w.encounter(from + i)) && !w.encounter(from + i).interrupted
  {}

  lemma Appended(a: seq<Attempt>, b: seq<Attempt>, one: Attempt)
    ensures (a + b) + [one] == a + (b + [one])
  {}

  lemma RetryIs(e: Encounter)
    ensures MayRetry(e) <==> Heard(e).Err? && !e.expired && IsRetriable(Heard(e).failure)
  {}

  lemma OneMade(one: Attempt, apiKey: ApiKey, version: Int16, w: World, from: nat)
    requires Made([one], apiKey, version, w, from)
    ensures one.outcome == Heard(w.encounter(from))
  {
    assert [one][0] == one;
  }

  lemma MadeGrows(part: seq<Attempt>, apiKey: ApiKey, version: Int16, w: World, from: nat, one: Attempt)
    requires Made(part, apiKey, version, w, from) && Made([one], apiKey, version, w, from + |part|)
    ensures Made(part + [one], apiKey, version, w, from)
  {
    assert [one][0] == one;
    assert from + |part| + 0 == from + |part|;
  }

  lemma NothingTaken(start: Int32)
    ensures Numbered([], start, []) && start == IdAfter(start, LastTaken([]))
  {}

  lemma NumberedGrows(part: seq<Attempt>, start: Int32, taken: seq<nat>, one: Attempt, n: nat)
    requires Numbered(part, start, taken) && n > 0 && one.id == IdAfter(start, LastTaken(taken) + n)
    ensures Numbered(part + [one], start, taken + [LastTaken(taken) + n])
  {
    hide IdAfter;
    assert forall i :: 0 <= i < |taken| ==> taken[i] <= LastTaken(taken);
  }

  /** The frames of an api among these attempts. */
  function Frames(attempts: seq<Attempt>, apiKey: ApiKey): nat {
    if attempts == [] then 0
    else
      var last := attempts[|attempts| - 1];
      Frames(attempts[..|attempts| - 1], apiKey) + (if last.sent && last.apiKey == apiKey then 1 else 0)
  }

  lemma {:induction false} FramesOfParts(a: seq<Attempt>, b: seq<Attempt>, apiKey: ApiKey)
    ensures Frames(a + b, apiKey) == Frames(a, apiKey) + Frames(b, apiKey)
  {
    if b == [] {
      assert a + b == a;
    } else {
      assert (a + b)[..|a + b| - 1] == a + b[..|b| - 1];
      FramesOfParts(a, b[..|b| - 1], apiKey);
    }
  }

  lemma {:induction false} FramesBound(part: seq<Attempt>, apiKey: ApiKey)
    ensures Frames(part, apiKey) <= |part|
    ensures (forall i :: 0 <= i < |part| ==> part[i].apiKey != apiKey) ==> Frames(part, apiKey) == 0
  {
    if part != [] {
      FramesBound(part[..|part| - 1], apiKey);
    }
  }

  class Client {
    const registry: Registry
    const maxAttempts: nat
    const world: World
    var nextId: Int32
    var versions: map<Endpoint, map<ApiKey, Range>>
    var history: seq<Attempt>   // every attempt ever made

    constructor (registry: Registry, world: World, maxAttempts: nat)
      requires maxAttempts >= 1
      ensures this.registry == registry && this.maxAttempts == maxAttempts && this.world == world
      ensures nextId == 0 && versions == map[] && history == []
    {
      this.registry, this.maxAttempts, this.world := registry, maxAttempts, world;
      nextId, versions, history := 0, map[], [];
    }

    method NextCorrelationID() returns (id: Int32)
      modifies this`nextId
      ensures id == NextId(old(nextId)) && nextId == id
    {
      nextId := Cast32(nextId + 1);
      if nextId <= 0 {
        nextId := 1;
      }
      id := nextId;
    }

    method CanRetry(attempt: nat, expired: bool, failure: Failure) returns (retry: bool)
      ensures retry <==> attempt < maxAttempts && !expired && IsRetriable(failure)
      ensures IsRetriable(failure) <==>
                failure.Transport? || (failure.Code? && failure.code in {1, 6, 7, 8, 9, 10, 16, 17})
    {
      if attempt >= maxAttempts || expired {
        return false;
      }
      match failure
      case Code(c) => retry := c in {1, 6, 7, 8, 9, 10, 16, 17};
      case Transport => retry := true;
      case Cancelled => retry := false;
    }

    /** One request under one version, with its retries. */
    method SendWithVersion(apiKey: ApiKey, version: Int16)
      returns (outcome: Outcome, ghost part: seq<Attempt>, ghost taken: seq<nat>)
      modifies this`nextId, this`history
      ensures history == old(history) + part
      ensures Story(part, apiKey, version, maxAttempts, world, |old(history)|, outcome)
      ensures Numbered(part, old(nextId), taken) && nextId == IdAfter(old(nextId), LastTaken(taken))
    {
      ghost var from := |history|;
      part, taken := [], [];
      outcome := Err(Transport);
      assert history == old(history) + [];
      NothingTaken(nextId);
      hide Numbered, IdAfter, IsRetriable, MayRetry, Story, Made, Heard, Repeated, SoFar;
      if !world.encodes(|history|, version) {
        EndsUnsent(apiKey, version, maxAttempts, world, from);
        return;
      }
      StartsSending(apiKey, version, world, from);
      for attempt := 1 to maxAttempts + 1
        invariant |part| == attempt - 1 && history == old(history) + part
        invariant SoFar(part, apiKey, version, world, from) && Numbered(part, old(nextId), taken)
        invariant nextId == IdAfter(old(nextId), LastTaken(taken))
        invariant part == [] ==> outcome == Err(Transport)
        invariant part != [] ==> Story(part, apiKey, version, maxAttempts, world, from, outcome) || attempt <= maxAttempts
      {
        var e := world.encounter(|history|);
        var one;
        one, taken := NextAttempt(apiKey, version, old(nextId), from, part, taken);
        outcome := one.outcome;
        RetryIs(e);
        RepeatedIs(world, from, |part|);
        EndsWith(part, apiKey, version, maxAttempts, world, from, one);
        SoFarGrows(part, apiKey, version, world, from, one);
        Appended(old(history), part, one);
        part := part + [one];
        if !outcome.Err? {
          return;
        }
        var retry := CanRetry(attempt, e.expired, outcome.failure);
        if !retry {
          return;
        }
        if e.interrupted {
          outcome := Err(Cancelled);
          return;
        }
      }
      if maxAttempts == 0 {
        EndsUnsent(apiKey, version, maxAttempts, world, from);
      }
    }

    /** The attempt after those of `part`. */
    method NextAttempt(apiKey: ApiKey, version: Int16, ghost start: Int32, ghost from: nat, ghost part: seq<Attempt>,
                       ghost taken: seq<nat>)
      returns (one: Attempt, ghost now: seq<nat>)
      requires |history| == from + |part| && SoFar(part, apiKey, version, world, from)
      requires Numbered(part, start, taken) && nextId == IdAfter(start, LastTaken(taken))
      modifies this`nextId, this`history
      ensures history == old(history) + [one] && one.outcome == Heard(world.encounter(from + |part|))
      ensures Made(part + [one], apiKey, version, world, from)
      ensures Numbered(part + [one], start, now) && nextId == IdAfter(start, LastTaken(now))
    {
      hide Numbered, IdAfter, Made, Heard, Repeated;
      ghost var n;
      one, n := AttemptOnce(apiKey, version);
      IdAfterSum(start, LastTaken(taken), n);
      NumberedGrows(part, start, taken, one, n);
      MadeGrows(part, apiKey, version, world, from, one);
      OneMade(one, apiKey, version, world, from + |part|);
      now := taken + [LastTaken(taken) + n];
    }

    /** One attempt, before which other callers may take any number of ids. */
    method AttemptOnce(apiKey: ApiKey, version: Int16) returns (one: Attempt, ghost n: nat)
      modifies this`nextId, this`history
      ensures history == old(history) + [one] && Made([one], apiKey, version, world, |old(history)|)
      ensures n == world.encounter(|old(history)|).others + 1 && one.id == nextId == IdAfter(old(nextId), n)
    {
      var e := world.encounter(|history|);
      nextId := IdAfter(nextId, e.others);
      n := e.others + 1;
      var id := NextCorrelationID();
      one := Attempt(apiKey, version, id, e.connected, Heard(e));
      history := history + [one];
    }

    // ------------------------------------------------------------------ negotiation

    /** An ApiVersions response replaces what was known of the endpoint. */
    method CacheAPIVersions(endpoint: Endpoint, list: seq<Announced>)
      modifies this`versions
      ensures versions == old(versions)[endpoint := RangesOf(list)]
    {
      var ranges: map<ApiKey, Range> := map[];
      for i := 0 to |list|
        invariant ranges == RangesOf(list[..i])
      {
        assert list[..i + 1][..i] == list[..i];
        if KnownApiKey(list[i].apiKey) {
          ranges := ranges[list[i].apiKey := list[i].range];
        }
      }
      assert list[..|list|] == list;
      versions := versions[endpoint := ranges];
    }

    /** `v` is the greatest version with codecs in both directions that the endpoint is known to
        accept. */
    predicate Negotiated(endpoint: Endpoint, apiKey: ApiKey, v: Int16)
      reads this`versions, registry
    {
      && endpoint in versions && apiKey in versions[endpoint]
      && registry.Supports(apiKey, v) && versions[endpoint][apiKey].min <= v <= versions[endpoint][apiKey].max
      && forall w: Int16 ::
           registry.Supports(apiKey, w) && versions[endpoint][apiKey].min <= w <= versions[endpoint][apiKey].max ==> w <= v
    }

    method CachedAPIVersion(endpoint: Endpoint, apiKey: ApiKey) returns (v: Option<Int16>)
      ensures v.Some? ==> Negotiated(endpoint, apiKey, v.value)
      ensures v.None? ==> forall w: Int16 :: !Negotiated(endpoint, apiKey, w)
    {
      if endpoint !in versions || apiKey !in versions[endpoint] {
        return None;
      }
      var supported := registry.SupportedVersions(apiKey);
      v := SelectAPIVersion(supported, versions[endpoint][apiKey]);
    }

    /** No version is known to be negotiated. */
    predicate Unknown(endpoint: Endpoint, apiKey: ApiKey)
      reads this`versions, registry
    {
      forall w: Int16 :: !Negotiated(endpoint, apiKey, w)
    }

    /** The version a request goes out with: the negotiated one, or the preferred one if there is none.
        The endpoint is asked if and only if nothing was negotiated before, and its answer is kept. */
    method ResolveAPIVersion(endpoint: Endpoint, apiKey: ApiKey, preferred: Int16)
      returns (v: Int16, ghost part: seq<Attempt>, ghost told: Outcome)
      modifies this`nextId, this`history, this`versions
      ensures history == old(history) + part
      ensures apiKey == API_VERSIONS || !old(Unknown(endpoint, apiKey)) ==> part == [] && versions == old(versions)
      ensures apiKey != API_VERSIONS && old(Unknown(endpoint, apiKey)) ==>
                && Story(part, API_VERSIONS, DEFAULT_API_VERSION, maxAttempts, world, |old(history)|, told)
                && versions == if told.Ok? then old(versions)[endpoint := RangesOf(world.announces(|history|))]
                               else old(versions)
      ensures apiKey == API_VERSIONS ==> v == preferred
      ensures apiKey != API_VERSIONS ==>
                Negotiated(endpoint, apiKey, v) || (v == preferred && Unknown(endpoint, apiKey))
    {
      part, told := [], BadBody;
      assert history == old(history) + [];
      if apiKey == API_VERSIONS {
        return preferred, part, told;
      }
      hide Story;
      var cached := CachedAPIVersion(endpoint, apiKey);
      if cached.Some? {
        return cached.value, part, told;
      }
      assert Unknown(endpoint, apiKey);
      var outcome;
      ghost var taken;
      outcome, part, taken := SendWithVersion(API_VERSIONS, DEFAULT_API_VERSION);
      told := outcome;
      if outcome.Ok? {
        CacheAPIVersions(endpoint, world.announces(|history|));
        cached := CachedAPIVersion(endpoint, apiKey);
        if cached.Some? {
          return cached.value, part, told;
        }
      }
      v := preferred;
    }

    /** A request: negotiation, the attempts under the negotiated version, and, when the broker
        refuses that version, the attempts under the default one. */
    method Send(endpoint: Endpoint, apiKey: ApiKey, preferred: Int16)
      returns (outcome: Outcome, v: Int16, ghost o: Outcome,
               ghost asked: seq<Attempt>, ghost first: seq<Attempt>, ghost second: seq<Attempt>)
      modifies this`nextId, this`history, this`versions
      ensures history == old(history) + (asked + first + second)
      ensures apiKey == 0 || !old(Unknown(endpoint, apiKey)) ==> asked == []
      ensures apiKey == 0 ==> v == preferred
      ensures apiKey != 0 && old(Unknown(endpoint, apiKey)) ==>
                exists told :: Story(asked, 0, 0, maxAttempts, world, |old(history)|, told)
      ensures Story(first, apiKey, v, maxAttempts, world, |old(history)| + |asked|, o)
      ensures Frames(history, apiKey) <= Frames(old(history), apiKey) + 2 * maxAttempts
      ensures apiKey != 0 ==> Frames(history, 0) <= Frames(old(history), 0) + maxAttempts
      ensures if o == Err(Code(2)) && v != 0
              then Story(second, apiKey, 0, maxAttempts, world, |old(history)| + |asked| + |first|, outcome) && endpoint !in versions
              else second == [] && outcome == o && (apiKey != 0 ==> Negotiated(endpoint, apiKey, v) || v == preferred)
    {
      hide Story, Negotiated, Numbered, Unknown;
      ghost var taken, told;
      v, asked, told := ResolveAPIVersion(endpoint, apiKey, preferred);
      AskedFrames(asked, apiKey, maxAttempts, world, |old(history)|, told);
      outcome, first, taken := SendWithVersion(apiKey, v);
      second, o := [], outcome;
      hide Frames;
      if outcome != Err(UNSUPPORTED_VERSION) || v == DEFAULT_API_VERSION {
        Regrouped(old(history), asked, first, second);
        FramesOfSend(old(history), asked, first, second, apiKey, v, world, o, outcome, maxAttempts);
        return;
      }
      versions := versions - {endpoint};
      outcome, second, taken := SendWithVersion(apiKey, DEFAULT_API_VERSION);
      Regrouped(old(history), asked, first, second);
      FramesOfSend(old(history), asked, first, second, apiKey, v, world, o, outcome, maxAttempts);
    }
  }

  lemma AskedFrames(asked: seq<Attempt>, apiKey: ApiKey, limit: nat, w: World, from: nat, told: Outcome)
    requires asked == [] || (apiKey != API_VERSIONS && Story(asked, API_VERSIONS, DEFAULT_API_VERSION, limit, w, from, told))
    ensures |asked| <= limit && forall i :: 0 <= i < |asked| ==> asked[i].apiKey == API_VERSIONS
  {}

  lemma Regrouped(h: seq<Attempt>, a: seq<Attempt>, b: seq<Attempt>, c: seq<Attempt>)
    ensures ((h + a) + b) + c == h + (a + b + c)
    ensures c == [] ==> (h + a) + b == h + (a + b + c)
  {}

  /** The frames of the three parts of a request: at most twice `limit` of its own api, and at most
      `limit` to ask for versions. */
  lemma FramesOfSend(history: seq<Attempt>, asked: seq<Attempt>, first: seq<Attempt>, second: seq<Attempt>,
                     apiKey: ApiKey, v: Int16, w: World, o: Outcome, outcome: Outcome, limit: nat)
    requires |asked| <= limit && (apiKey == API_VERSIONS ==> asked == [])
    requires forall i :: 0 <= i < |asked| ==> asked[i].apiKey == API_VERSIONS
    requires Story(first, apiKey, v, limit, w, |history| + |asked|, o)
    requires second == [] || Story(second, apiKey, DEFAULT_API_VERSION, limit, w, |history| + |asked| + |first|, outcome)
    ensures var all := history + (asked + first + second);
            && Frames(all, apiKey) <= Frames(history, apiKey) + 2 * limit
            && (apiKey != API_VERSIONS ==> Frames(all, API_VERSIONS) <= Frames(history, API_VERSIONS) + limit)
  {
    forall k
      ensures Frames(history + (asked + first + second), k)
           == Frames(history, k) + Frames(asked, k) + Frames(first, k) + Frames(second, k)
    {
      FramesOfParts(history, asked + first + second, k);
      FramesOfParts(asked + first, second, k);
      FramesOfParts(asked, first, k);
    }
    FramesBound(asked, apiKey);
    FramesBound(asked, API_VERSIONS);
    FramesBound(first, apiKey);
    FramesBound(first, API_VERSIONS);
    FramesBound(second, apiKey);
    FramesBound(second, API_VERSIONS);
  }
}
