/** The sliding-window rate limiter: per client a list of admission times, of which stale ones are
    dropped lazily.  It is shown to answer as if it kept every admission for ever. */
module RateLimiter {
  import opened Clock
  import opened Sequences

  type ClientId = string
  type Requests = map<ClientId, seq<int>>

  datatype Policy = Policy(limit: int, window: int)

  function After(instant: int): int -> bool {
    (t: int) => t > instant
  }

  function Within(x: int, width: int): int -> bool {
    (t: int) => x < t <= x + width
  }

  // ---- What the code keeps ----

  function Kept(m: Requests, client: ClientId): seq<int> {
    if client in m then m[client] else []
  }

  function Decide(p: Policy, m: Requests, client: ClientId, now: int): (Requests, bool) {
    var valid := Filter(Kept(m, client), After(now - p.window));
    if |valid| >= p.limit then (m, false) else (m[client := valid + [now]], true)
  }

  /** Stale times dropped for the given clients; a client with none left is forgotten. */
  function SweptIn(m: Requests, clients: set<ClientId>, windowStart: int): Requests {
    map c | c in m && (c in clients ==> Filter(m[c], After(windowStart)) != [])
      :: if c in clients then Filter(m[c], After(windowStart)) else m[c]
  }

  function Swept(p: Policy, m: Requests, now: int): Requests {
    SweptIn(m, m.Keys, now - p.window)
  }

  lemma SweepOneMore(m: Requests, done: set<ClientId>, windowStart: int, c: ClientId)
    requires c in m && c !in done
    ensures var before, kept := SweptIn(m, done, windowStart), Filter(m[c], After(windowStart));
            && Kept(before, c) == m[c]
            && SweptIn(m, done + {c}, windowStart) == if kept == [] then before - {c} else before[c := kept]
  {
  }

  // ---- Runs ----

  datatype Op = AllowOp(client: ClientId, now: int) | CleanupOp(now: int)

  function Do(p: Policy, m: Requests, op: Op): Requests {
    match op
    case AllowOp(client, now) => Decide(p, m, client, now).0
    case CleanupOp(now) => Swept(p, m, now)
  }

  function Run(p: Policy, ops: seq<Op>): Requests {
    if ops == [] then map[]
    else Do(p, Run(p, ops[..|ops| - 1]), ops[|ops| - 1])
  }

  /** The times at which the code let a request of this client through. */
  function Granted(p: Policy, ops: seq<Op>, client: ClientId): seq<int> {
    if ops == [] then []
    else
      var before, op := ops[..|ops| - 1], ops[|ops| - 1];
      if op.AllowOp? && op.client == client && Decide(p, Run(p, before), client, op.now).1
      then Granted(p, before, client) + [op.now]
      else Granted(p, before, client)
  }

  /** The clock readings of the run never decrease and do not exceed `until`. */
  predicate Timely(ops: seq<Op>, until: int) {
    ops == [] || (ops[|ops| - 1].now <= until && Timely(ops[..|ops| - 1], ops[|ops| - 1].now))
  }

  // ---- The specification: the full history ----

  /** A request is admitted when fewer than `limit` of all earlier admissions of its client lie
      strictly after now - window.  Nothing is ever forgotten. */
  function Admitted(p: Policy, ops: seq<Op>, client: ClientId): seq<int> {
    if ops == [] then []
    else
      var before, op := Admitted(p, ops[..|ops| - 1], client), ops[|ops| - 1];
      if op.AllowOp? && op.client == client && SpecAllows(p, before, op.now) then before + [op.now] else before
  }

  predicate SpecAllows(p: Policy, admitted: seq<int>, now: int) {
    |Filter(admitted, After(now - p.window))| < p.limit
  }

  // ---- Refinement ----

  /** What one operation changes in a client's list, seen through any later window. */
  lemma DoThroughWindow(p: Policy, m: Requests, op: Op, client: ClientId, now: int)
    requires op.now <= now
    ensures var later := After(now - p.window);
            Filter(Kept(Do(p, m, op), client), later)
            == if op.AllowOp? && op.client == client && Decide(p, m, client, op.now).1
               then Filter(Kept(m, client), later) + Filter([op.now], later)
               else Filter(Kept(m, client), later)
  {
    var kept := Kept(m, client);
    var recent := Filter(kept, After(op.now - p.window));
    FilterNested(kept, After(op.now - p.window), After(now - p.window));
    FilterAppend(recent, [op.now], After(now - p.window));
  }

  /** The times of a client that are visible through a window that begins at `start`. */
  ghost predicate AgreeAfter(start: int, kept: seq<int>, admitted: seq<int>) {
    Filter(kept, After(start)) == Filter(admitted, After(start))
  }

  lemma AgreeNext(p: Policy, m: Requests, admitted: seq<int>, op: Op, client: ClientId, now: int)
    requires op.now <= now && AgreeAfter(now - p.window, Kept(m, client), admitted)
    requires AgreeAfter(op.now - p.window, Kept(m, client), admitted)
    ensures AgreeAfter(now - p.window, Kept(Do(p, m, op), client),
                       if op.AllowOp? && op.client == client && SpecAllows(p, admitted, op.now)
                       then admitted + [op.now] else admitted)
  {
    DoThroughWindow(p, m, op, client, now);
    FilterAppend(admitted, [op.now], After(now - p.window));
  }

  /** What the code kept and what it has forgotten cannot be told apart from now on. */
  lemma {:induction false} KeptIsRecent(p: Policy, ops: seq<Op>, until: int, client: ClientId, now: int)
    requires Timely(ops, until) && until <= now
    ensures AgreeAfter(now - p.window, Kept(Run(p, ops), client), Admitted(p, ops, client))
    decreases |ops|
  {
    if ops != [] {
      var before, op := ops[..|ops| - 1], ops[|ops| - 1];
      KeptIsRecent(p, before, op.now, client, now);
      KeptIsRecent(p, before, op.now, client, op.now);
      AgreeNext(p, Run(p, before), Admitted(p, before, client), op, client, now);
    }
  }

  /** The limiter refines the full-history specification: at any time it lets a request through
      exactly when fewer than `limit` of all admissions ever made for that client lie strictly
      after now - window. */
  lemma AllowIsSpec(p: Policy, ops: seq<Op>, client: ClientId, now: int)
    requires Timely(ops, now)
    ensures Decide(p, Run(p, ops), client, now).1 <==> SpecAllows(p, Admitted(p, ops, client), now)
  {
    KeptIsRecent(p, ops, now, client, now);
  }

  lemma {:induction false} GrantedIsAdmitted(p: Policy, ops: seq<Op>, client: ClientId, until: int)
    requires Timely(ops, until)
    ensures Granted(p, ops, client) == Admitted(p, ops, client)
    decreases |ops|
  {
    if ops != [] {
      var before, op := ops[..|ops| - 1], ops[|ops| - 1];
      GrantedIsAdmitted(p, before, client, op.now);
      AllowIsSpec(p, before, client, op.now);
    }
  }

  function WithoutCleanups(ops: seq<Op>): seq<Op> {
    if ops == [] then []
    else if ops[|ops| - 1].CleanupOp? then WithoutCleanups(ops[..|ops| - 1])
    else WithoutCleanups(ops[..|ops| - 1]) + [ops[|ops| - 1]]
  }

  lemma {:induction false} CleanupsAdmitNobody(p: Policy, ops: seq<Op>, client: ClientId, until: int)
    requires Timely(ops, until)
    ensures Admitted(p, WithoutCleanups(ops), client) == Admitted(p, ops, client)
    ensures Timely(WithoutCleanups(ops), until)
    decreases |ops|
  {
    if ops != [] {
      var before, op := ops[..|ops| - 1], ops[|ops| - 1];
      CleanupsAdmitNobody(p, before, client, op.now);
      if op.AllowOp? {
        var rest := WithoutCleanups(before);
        assert (rest + [op])[..|rest|] == rest;
      }
    }
  }

  /** Cleanup is invisible: wherever and however often it runs, every answer is the one the limiter
      would have given without it. */
  lemma {:induction false} CleanupChangesNoAnswer(p: Policy, ops: seq<Op>, client: ClientId, now: int)
    requires Timely(ops, now)
    ensures Decide(p, Run(p, ops), client, now).1 == Decide(p, Run(p, WithoutCleanups(ops)), client, now).1
  {
    CleanupsAdmitNobody(p, ops, client, now);
    AllowIsSpec(p, ops, client, now);
    AllowIsSpec(p, WithoutCleanups(ops), client, now);
  }

  // ---- The bound ----

  lemma {:induction false} AdmittedBound(p: Policy, ops: seq<Op>, client: ClientId, x: int)
    ensures |Filter(Admitted(p, ops, client), Within(x, p.window))| <= if p.limit < 0 then 0 else p.limit
    decreases |ops|
  {
    if ops != [] {
      var before, op := Admitted(p, ops[..|ops| - 1], client), ops[|ops| - 1];
      AdmittedBound(p, ops[..|ops| - 1], client, x);
      FilterAppend(before, [op.now], Within(x, p.window));
      if x < op.now <= x + p.window {
        FilterMonotone(before, Within(x, p.window), After(op.now - p.window));
      }
    }
  }

  /** Sliding-window bound over whole runs: whatever the calls, every half-open interval
      (x, x + window] contains at most `limit` requests that were let through. */
  lemma WindowBound(p: Policy, ops: seq<Op>, client: ClientId, until: int, x: int)
    requires Timely(ops, until)
    ensures |Filter(Granted(p, ops, client), Within(x, p.window))| <= if p.limit < 0 then 0 else p.limit
  {
    GrantedIsAdmitted(p, ops, client, until);
    AdmittedBound(p, ops, client, x);
  }

  // ---- The limiter object ----

  lemma Recorded(p: Policy, ops: seq<Op>, until: int, op: Op)
    requires Timely(ops, until) && until <= op.now
    ensures Timely(ops + [op], op.now)
    ensures Run(p, ops + [op]) == Do(p, Run(p, ops), op)
    ensures op.AllowOp? ==>
              (Decide(p, Run(p, ops), op.client, op.now).1 <==> SpecAllows(p, Admitted(p, ops, op.client), op.now))
  {
    assert (ops + [op])[..|ops|] == ops;
    TimelyLater(ops, until, op.now);
    if op.AllowOp? {
      AllowIsSpec(p, ops, op.client, op.now);
    }
  }

  lemma TimelyLater(ops: seq<Op>, t: int, until: int)
    requires Timely(ops, t) && t <= until
    ensures Timely(ops, until)
  {
  }

  class RateLimiter {
    const policy: Policy
    const clock: Clock
    var requests: Requests
    ghost var history: seq<Op>

    ghost predicate Valid()
      reads this, clock
    {
      requests == Run(policy, history) && Timely(history, clock.now)
    }

    constructor (limit: int, window: int, clock: Clock)
      ensures Valid() && history == [] && policy == Policy(limit, window) && this.clock == clock
    {
      policy, this.clock := Policy(limit, window), clock;
      requests, history := map[], [];
    }

    /** Lets the request through exactly when the full-history specification does. */
    method Allow(clientID: ClientId) returns (allowed: bool)
      requires Valid()
      modifies this, clock
      ensures Valid() && clock.now >= old(clock.now)
      ensures history == old(history) + [AllowOp(clientID, clock.now)]
      ensures allowed <==> SpecAllows(policy, Admitted(policy, old(history), clientID), clock.now)
    {
      ghost var start := clock.now;
      var now := clock.Now();
      allowed := AllowAt(clientID, now);
      Recorded(policy, history, start, AllowOp(clientID, now));
      history := history + [AllowOp(clientID, now)];
    }

    method AllowAt(clientID: ClientId, now: int) returns (allowed: bool)
      modifies this`requests
      ensures (requests, allowed) == Decide(policy, old(requests), clientID, now)
    {
      var windowStart := now - policy.window;
      var validRequests := RecentRequests(clientID, windowStart);
      if |validRequests| >= policy.limit {
        return false;
      }
      requests := requests[clientID := validRequests + [now]];
      return true;
    }

    method RecentRequests(clientID: ClientId, windowStart: int) returns (validRequests: seq<int>)
      ensures validRequests == Filter(Kept(requests, clientID), After(windowStart))
    {
      var times := if clientID in requests then requests[clientID] else [];
      validRequests := [];
      var i := 0;
      while i < |times|
        invariant 0 <= i <= |times|
        invariant validRequests == Filter(times[..i], After(windowStart))
      {
        if times[i] > windowStart {
          validRequests := validRequests + [times[i]];
        }
        FilterNext(times, i, After(windowStart));
        i := i + 1;
      }
      assert times[..i] == times;
    }

    /** Drops stale times, and clients that have none left. */
    method Cleanup()
      requires Valid()
      modifies this, clock
      ensures Valid() && clock.now >= old(clock.now)
      ensures history == old(history) + [CleanupOp(clock.now)]
    {
      ghost var start := clock.now;
      var now := clock.Now();
      DropStale(now - policy.window);
      Recorded(policy, history, start, CleanupOp(now));
      history := history + [CleanupOp(now)];
    }

    method DropStale(windowStart: int)
      modifies this`requests
      ensures requests == SweptIn(old(requests), old(requests).Keys, windowStart)
    {
      var todo := requests.Keys;
      while todo != {}
        invariant todo <= old(requests).Keys
        invariant requests == SweptIn(old(requests), old(requests).Keys - todo, windowStart)
        decreases todo
      {
        var clientID :| clientID in todo;
        SweepOneMore(old(requests), old(requests).Keys - todo, windowStart, clientID);
        var validRequests := RecentRequests(clientID, windowStart);
        if |validRequests| == 0 {
          requests := requests - {clientID};
        } else {
          requests := requests[clientID := validRequests];
        }
        assert old(requests).Keys - (todo - {clientID}) == old(requests).Keys - todo + {clientID};
        todo := todo - {clientID};
      }
      assert old(requests).Keys - todo == old(requests).Keys;
    }
  }
}
