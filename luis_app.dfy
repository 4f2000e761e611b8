/**
 * LUISApp: a FIFO of utterances waiting to be sent to a LUIS endpoint,
 * released one per frame under a concurrency limit and a transaction delay,
 * with a counter of requests in flight and a throttle on HTTP 429.
 *
 * Seconds are integer ticks of a millisecond. Unity stops calling Update
 * on a disabled component, so Update does nothing while `enabled` is false.
 */
module Luis {
  import opened Results

  /** LUISEntity: the matched text, its type and its resolution values
      (null resolution is None). */
  datatype LuisEntity = LuisEntity(entity: string, entityType: string, resolution: Option<seq<string>>)

  /** LUISResult: the top scoring intent's name and the entities. */
  datatype LuisResult = LuisResult(query: string, topScoringIntent: string, entities: seq<LuisEntity>)

  /** What the web request produced: a network or HTTP error with its
      status code, or a body that JsonUtility did or did not parse. */
  datatype LuisResponse = Failed(responseCode: int) | Received(parsed: Option<LuisResult>)

  datatype StartOutcome =
    | Started
    | Disabled
    /** endpoint.Substring(Length - 2) threw on a one-character endpoint;
        the component stays enabled. */
    | Faulted

  const TicksPerSecond: nat := 1000
  /** TRANSACTION_DELAY_BASIC_TIER, 1.2 seconds. */
  const TransactionDelayBasicTier: nat := 1200
  const TooManyRequests: int := 429
  const EndpointSuffix: string := "q="

  /** sub occurs in s at position k. */
  predicate OccursAt(sub: string, s: string, k: int) {
    0 <= k && k + |sub| <= |s| && s[k..k + |sub|] == sub
  }

  ghost predicate IsSubstring(sub: string, s: string) {
    exists k :: OccursAt(sub, s, k)
  }

  /** string.Contains: a scan of s for sub from the left. */
  function Contains(s: string, sub: string): (r: bool)
    ensures r <==> IsSubstring(sub, s)
    decreases |s|
  {
    if |sub| > |s| then
      assert forall k :: !OccursAt(sub, s, k);
      false
    else if s[..|sub|] == sub then
      assert OccursAt(sub, s, 0);
      true
    else
      var rest := Contains(s[1..], sub);
      if rest then
        var k :| OccursAt(sub, s[1..], k);
        assert s[k + 1..k + 1 + |sub|] == s[1..][k..k + |sub|];
        assert OccursAt(sub, s, k + 1);
        true
      else
        forall k | 0 < k && OccursAt(sub, s, k)
          ensures OccursAt(sub, s[1..], k - 1)
        {
          assert s[1..][k - 1..k - 1 + |sub|] == s[k..k + |sub|];
        }
        false
  }

  /** queue.Any(query.Contains): some queued string occurs in query. */
  function AnyContained(queue: seq<string>, query: string): (r: bool)
    ensures r <==> exists i :: 0 <= i < |queue| && IsSubstring(queue[i], query)
  {
    if queue == [] then false
    else Contains(query, queue[0]) || AnyContained(queue[1..], query)
  }

  /** What AddQueryToQueue keeps true: no empty entry, and no entry occurs
      in one queued after it. */
  ghost predicate QueueInvariant(queue: seq<string>) {
    && (forall i :: 0 <= i < |queue| ==> queue[i] != "")
    && (forall i, j :: 0 <= i < j < |queue| ==> !IsSubstring(queue[i], queue[j]))
  }

  /** The dedupe leaves no query queued twice. */
  lemma QueueHasNoDuplicates(queue: seq<string>)
    requires QueueInvariant(queue)
    ensures forall i, j :: 0 <= i < j < |queue| ==> queue[i] != queue[j]
  {
    forall i, j | 0 <= i < j < |queue|
      ensures queue[i] != queue[j]
    {
      assert OccursAt(queue[j], queue[j], 0);
    }
  }

  /** The dedupe check accepts exactly the queries whose appending keeps
      the invariant. */
  lemma AppendKeepsInvariant(queue: seq<string>, query: string)
    requires QueueInvariant(queue)
    ensures QueueInvariant(queue + [query]) <==> query != "" && !AnyContained(queue, query)
  {
    var q := queue + [query];
    if query != "" && !AnyContained(queue, query) {
      forall i, j | 0 <= i < j < |q|
        ensures !IsSubstring(q[i], q[j])
      {
        if j < |queue| {
          assert q[i] == queue[i] && q[j] == queue[j];
        } else {
          assert q[i] == queue[i] && q[j] == query;
        }
      }
    }
    if QueueInvariant(q) {
      assert q[|queue|] == query;
      forall i | 0 <= i < |queue|
        ensures !IsSubstring(queue[i], query)
      {
        assert q[i] == queue[i];
      }
    }
  }

  class LuisApp {
    var endpoint: string
    var enabled: bool
    var queue: seq<string>
    var maxConcurrentRequests: nat
    var requestsCount: nat
    var transactionDelay: nat
    var timer: nat

    ghost predicate Valid()
      reads this
    {
      QueueInvariant(queue)
    }

    /** The component as the inspector configures it. */
    constructor (endpoint: string, maxConcurrentRequests: nat, transactionDelay: nat)
      ensures Valid()
      ensures this.endpoint == endpoint && enabled
      ensures queue == [] && requestsCount == 0 && timer == 0
      ensures this.maxConcurrentRequests == maxConcurrentRequests
      ensures this.transactionDelay == transactionDelay
    {
      this.endpoint := endpoint;
      enabled := true;
      queue := [];
      this.maxConcurrentRequests := maxConcurrentRequests;
      requestsCount := 0;
      this.transactionDelay := transactionDelay;
      timer := 0;
    }

    /** Disables the component unless the endpoint ends in "q="; primes the
        timer so that the first request is not delayed. */
    method Start() returns (outcome: StartOutcome)
      requires Valid()
      modifies this
      ensures Valid()
      ensures outcome == Started <==> |endpoint| >= 2 && endpoint[|endpoint| - 2..] == EndpointSuffix
      ensures outcome == Faulted <==> |endpoint| == 1
      ensures enabled == (old(enabled) && outcome != Disabled)
      ensures timer == if outcome == Started then transactionDelay else old(timer)
      ensures queue == old(queue) && requestsCount == old(requestsCount)
      ensures unchanged(`endpoint, `maxConcurrentRequests, `transactionDelay)
    {
      if endpoint == "" {
        enabled := false;
        return Disabled;
      }
      if |endpoint| < 2 {
        return Faulted;
      }
      if endpoint[|endpoint| - 2..] != EndpointSuffix {
        enabled := false;
        return Disabled;
      }
      timer := transactionDelay;
      return Started;
    }

    /** Appends a non-empty query unless a queued string occurs in it. */
    method AddQueryToQueue(query: string)
      requires Valid()
      modifies this
      ensures Valid()
      ensures queue == if query == "" || AnyContained(old(queue), query) then old(queue) else old(queue) + [query]
      ensures unchanged(`endpoint, `enabled, `maxConcurrentRequests, `requestsCount, `transactionDelay, `timer)
    {
      if query == "" {
        return;
      }
      if !AnyContained(queue, query) {
        queue := queue + [query];
      }
    }

    /** Counts a request in flight for a non-empty query and gives the URL
        requested. */
    method Query(query: string) returns (request: Option<string>)
      modifies this
      ensures request == if query == "" then None else Some(endpoint + query)
      ensures requestsCount == if query == "" then old(requestsCount) else old(requestsCount) + 1
      ensures unchanged(`endpoint, `enabled, `queue, `maxConcurrentRequests, `transactionDelay, `timer)
    {
      if query == "" {
        return None;
      }
      requestsCount := requestsCount + 1;
      request := Some(endpoint + query);
    }

    /** One frame: advances the timer and releases the head of the queue
        when fewer requests than allowed are in flight and the delay has
        passed. */
    method Update(delta: nat) returns (request: Option<string>)
      requires Valid()
      modifies this
      ensures Valid()
      ensures request.Some? <==>
        old(enabled) && old(requestsCount) < maxConcurrentRequests && |old(queue)| >= 1 && old(timer) + delta > transactionDelay
      ensures request.Some? ==>
        && request.value == endpoint + old(queue)[0]
        && queue == old(queue)[1..]
        && requestsCount == old(requestsCount) + 1
        && timer == 0
      ensures request.None? ==>
        && queue == old(queue)
        && requestsCount == old(requestsCount)
        && timer == if old(enabled) then old(timer) + delta else old(timer)
      ensures unchanged(`endpoint, `enabled, `maxConcurrentRequests, `transactionDelay)
    {
      if !enabled {
        return None;
      }
      timer := timer + delta;
      if requestsCount >= maxConcurrentRequests {
        return None;
      }
      request := None;
      if |queue| >= 1 && timer > transactionDelay {
        request := Query(queue[0]);
        queue := queue[1..];
        timer := 0;
      }
    }

    /** The end of GetQuery: a 429 throttles future requests, a parsed body
        is handed on, and the request is no longer counted. */
    method GetQueryCompleted(response: LuisResponse) returns (result: Option<LuisResult>)
      requires requestsCount > 0
      modifies this
      ensures requestsCount == old(requestsCount) - 1
      ensures result == if response.Received? then response.parsed else None
      ensures response == Failed(TooManyRequests) ==>
        maxConcurrentRequests == 1 && transactionDelay == TransactionDelayBasicTier
      ensures response != Failed(TooManyRequests) ==>
        maxConcurrentRequests == old(maxConcurrentRequests) && transactionDelay == old(transactionDelay)
      ensures unchanged(`endpoint, `enabled, `queue, `timer)
    {
      result := None;
      match response {
        case Failed(code) =>
          if code == TooManyRequests {
            maxConcurrentRequests := 1;
            transactionDelay := TransactionDelayBasicTier;
          }
        case Received(parsed) =>
          result := parsed;
      }
      requestsCount := requestsCount - 1;
    }
  }
}
