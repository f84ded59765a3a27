/** The gateway's fixed-window quota: counters with pruning against the log of requests. */
module Quota {
  import opened Records

  datatype Principal = Principal(id: string, tenantId: string, clientId: string)

  datatype Limits = Limits(globalPerMinute: int, tenantPerMinute: int, principalPerMinute: int, clientPerMinute: int,
                           researchPerMinute: int)

  /** `research` says whether the requested tool counts against the research limit. */
  datatype Request = Request(principal: Principal, research: bool, limits: Limits, now: int)

  /** What a counter is about; the source joins these parts into one string. */
  datatype Scope =
    | Global
    | ByTenant(tenant: string)
    | ByPrincipal(tenant: string, principal: string)
    | ByClient(tenant: string, client: string)
    | ByResearch(tenant: string, principal: string)

  datatype CounterKey = CounterKey(scope: Scope, window: int)

  datatype Counter = Counter(count: nat, resetAt: int)

  datatype Decision = Decision(allowed: bool, deniedBy: Option<Scope>, retryAfterSeconds: int, remaining: int, resetAt: int)

  const WINDOW := 60_000
  const MAX_SAFE_INTEGER := 9_007_199_254_740_991
  const PRUNE_ABOVE := 10_000

  function WindowStart(now: int): int {
    now / WINDOW * WINDOW
  }

  function Scopes(r: Request): seq<Scope> {
    [Global, ByTenant(r.principal.tenantId), ByPrincipal(r.principal.tenantId, r.principal.id),
     ByClient(r.principal.tenantId, r.principal.clientId)]
    + if r.research then [ByResearch(r.principal.tenantId, r.principal.id)] else []
  }

  function LimitOf(r: Request, scope: Scope): int {
    match scope
    case Global => r.limits.globalPerMinute
    case ByTenant(_) => r.limits.tenantPerMinute
    case ByPrincipal(_, _) => r.limits.principalPerMinute
    case ByClient(_, _) => r.limits.clientPerMinute
    case ByResearch(_, _) => r.limits.researchPerMinute
  }

  lemma ScopesDistinct(r: Request, i: nat, j: nat)
    requires i < |Scopes(r)| && j < |Scopes(r)| && i != j
    ensures Scopes(r)[i] != Scopes(r)[j]
  {
  }

  function Min(a: int, b: int): int { if a < b then a else b }

  function Max(a: int, b: int): int { if a < b then b else a }

  // ----- the reference definition: count the log -----

  datatype Entry = Entry(request: Request, allowed: bool)

  predicate Counts(e: Entry, key: CounterKey) {
    e.allowed && key.scope in Scopes(e.request) && WindowStart(e.request.now) == key.window
  }

  function AllowedCount(log: seq<Entry>, key: CounterKey): nat {
    if log == [] then 0
    else AllowedCount(log[..|log| - 1], key) + if Counts(log[|log| - 1], key) then 1 else 0
  }

  /** How many more requests a scope admits. */
  function Room(log: seq<Entry>, r: Request, scope: Scope): int {
    LimitOf(r, scope) - AllowedCount(log, CounterKey(scope, WindowStart(r.now)))
  }

  /** The least room over the first n scopes. */
  function Slack(log: seq<Entry>, r: Request, n: nat): int
    requires n <= |Scopes(r)|
  {
    if n == 0 then MAX_SAFE_INTEGER else Min(Slack(log, r, n - 1), Room(log, r, Scopes(r)[n - 1]))
  }

  predicate Admits(log: seq<Entry>, r: Request) {
    forall i :: 0 <= i < |Scopes(r)| ==> Room(log, r, Scopes(r)[i]) > 0
  }

  function RetryAfter(resetAt: int, now: int): int {
    Max(1, (resetAt - now + 999) / 1000)
  }

  /** What a decision says about the log it was taken on. */
  ghost predicate Decides(log: seq<Entry>, r: Request, d: Decision) {
    && d.resetAt == WindowStart(r.now) + WINDOW
    && (d.allowed <==> Admits(log, r))
    && (d.allowed ==> d.deniedBy.None? && d.retryAfterSeconds == 0
                      && d.remaining == Slack(log + [Entry(r, true)], r, |Scopes(r)|))
    && (!d.allowed ==> d.remaining == 0 && d.retryAfterSeconds == RetryAfter(d.resetAt, r.now)
                       && exists i :: 0 <= i < |Scopes(r)| && d.deniedBy == Some(Scopes(r)[i])
                            && Room(log, r, Scopes(r)[i]) <= 0
                            && forall j :: 0 <= j < i ==> Room(log, r, Scopes(r)[j]) > 0)
  }

  // ----- the log that a store writes -----

  /** A log as the store writes it: every entry was decided on the entries before it. */
  predicate Written(log: seq<Entry>) {
    log == []
    || (Written(log[..|log| - 1]) && log[|log| - 1].allowed == Admits(log[..|log| - 1], log[|log| - 1].request))
  }

  /** The store only ever writes such logs. */
  lemma StoreWritesLog(log: seq<Entry>, r: Request, d: Decision)
    requires Written(log) && d.allowed == Admits(log, r)
    ensures Written(log + [Entry(r, d.allowed)])
  {
    assert (log + [Entry(r, d.allowed)])[..|log|] == log;
  }

  // ----- the store -----

  function CountOf(counters: map<CounterKey, Counter>, key: CounterKey): nat {
    if key in counters then counters[key].count else 0
  }

  /** Counters of windows that have not ended by `latest` hold the log's count; older ones may be pruned. */
  ghost predicate Agrees(counters: map<CounterKey, Counter>, log: seq<Entry>, latest: int) {
    && (forall key: CounterKey :: latest < key.window + WINDOW ==> CountOf(counters, key) == AllowedCount(log, key))
    && (forall key :: key in counters ==> counters[key].resetAt == key.window + WINDOW)
  }

  class InMemoryQuotaStore {
    var counters: map<CounterKey, Counter>
    ghost var log: seq<Entry>
    ghost var latest: int

    ghost predicate Valid()
      reads this
    {
      Agrees(counters, log, latest) && Written(log)
    }

    constructor (start: int)
      ensures Valid() && log == [] && latest == start
    {
      counters, log, latest := map[], [], start;
    }

    /** Refuses at the first full scope, and then changes no counter; otherwise counts the request in every
        scope. The clock must not have moved back. */
    method Consume(r: Request) returns (d: Decision)
      requires Valid() && latest <= r.now
      modifies this
      ensures Valid() && latest == r.now && log == old(log) + [Entry(r, d.allowed)]
      ensures Decides(old(log), r, d)
      ensures !d.allowed ==> counters == old(counters)
    {
      var resetAt := WindowStart(r.now) + WINDOW;
      var scopes := Scopes(r);
      var i := FirstFull(r);
      if i < |scopes| {
        d := Decision(false, Some(scopes[i]), RetryAfter(resetAt, r.now), 0, resetAt);
        DeniedKeepsCounts(counters, log, r, latest);
        StoreWritesLog(log, r, d);
        log, latest := log + [Entry(r, false)], r.now;
        return;
      }
      var remaining;
      counters, remaining := CountRequest(counters, r, log, latest);
      d := Decision(true, None, 0, remaining, resetAt);
      StoreWritesLog(log, r, d);
      log, latest := log + [Entry(r, true)], r.now;
      if |counters| > PRUNE_ABOVE {
        Prune(r.now);
      }
    }

    /** The first scope whose counter has reached its limit, or the number of scopes. */
    method FirstFull(r: Request) returns (i: nat)
      requires Valid() && latest <= r.now
      ensures i <= |Scopes(r)| && (i < |Scopes(r)| ==> Room(log, r, Scopes(r)[i]) <= 0)
      ensures forall j :: 0 <= j < i ==> Room(log, r, Scopes(r)[j]) > 0
      ensures i == |Scopes(r)| <==> Admits(log, r)
    {
      var window, scopes := WindowStart(r.now), Scopes(r);
      WindowOpen(r.now);
      i := 0;
      while i < |scopes|
        invariant i <= |scopes| && forall j :: 0 <= j < i ==> Room(log, r, scopes[j]) > 0
      {
        if CountOf(counters, CounterKey(scopes[i], window)) >= LimitOf(r, scopes[i]) {
          return;
        }
        i := i + 1;
      }
    }

    /** What the store itself has admitted: at most the limit in any window, at most twice in any sixty seconds. */
    lemma AdmitsAtMost(scope: Scope, bound: nat, from: int)
      requires Valid() && LimitedBy(log, scope, bound)
      ensures AllowedCount(log, CounterKey(scope, WindowStart(from))) <= bound && SpanCount(log, scope, from) <= 2 * bound
    {
      WindowBound(log, scope, WindowStart(from), bound);
      AnyMinuteAtMostTwice(log, scope, bound, from);
    }

    /** Drops the counters of ended windows. */
    method Prune(now: int)
      requires Agrees(counters, log, latest) && latest <= now
      modifies this`counters
      ensures Agrees(counters, log, now)
      ensures forall key :: key in counters <==> key in old(counters) && now < old(counters)[key].resetAt
    {
      var rest := counters.Keys;
      var all := counters;
      while rest != {}
        invariant rest <= all.Keys
        invariant forall key :: key in counters <==> key in all && (key in rest || now < all[key].resetAt)
        invariant forall key :: key in counters ==> counters[key] == all[key]
        decreases rest
      {
        var key :| key in rest;
        if counters[key].resetAt <= now {
          counters := counters - {key};
        }
        rest := rest - {key};
      }
    }
  }

  function Added(key: CounterKey, window: int, scopes: seq<Scope>): nat {
    if key.window == window && key.scope in scopes then 1 else 0
  }

  /** The increment loop: each scope's counter goes up by one and `remaining` is the least room left. */
  method CountRequest(counters: map<CounterKey, Counter>, r: Request, ghost log: seq<Entry>, ghost latest: int)
    returns (counted: map<CounterKey, Counter>, remaining: int)
    requires Agrees(counters, log, latest) && latest <= r.now && Admits(log, r)
    ensures Agrees(counted, log + [Entry(r, true)], r.now)
    ensures remaining == Slack(log + [Entry(r, true)], r, |Scopes(r)|)
  {
    var window, scopes := WindowStart(r.now), Scopes(r);
    counted, remaining := counters, MAX_SAFE_INTEGER;
    ghost var after := log + [Entry(r, true)];
    var i := 0;
    while i < |scopes|
      invariant i <= |scopes| && remaining == Slack(after, r, i)
      invariant Counted(counters, counted, window, scopes[..i])
      invariant forall key :: key in counted ==> counted[key].resetAt == key.window + WINDOW
    {
      counted, remaining := CountScope(counters, counted, remaining, r, i, log, latest);
      i := i + 1;
    }
    assert scopes[..i] == scopes;
    CountedAgrees(counters, counted, log, r, latest);
  }

  /** A scope's counter, before its turn, is the number of its requests the log allowed. */
  lemma CountIsAllowed(counters: map<CounterKey, Counter>, counted: map<CounterKey, Counter>, r: Request, i: nat,
                       log: seq<Entry>, latest: int)
    requires Agrees(counters, log, latest) && latest <= r.now && i < |Scopes(r)|
    requires Counted(counters, counted, WindowStart(r.now), Scopes(r)[..i])
    ensures var key := CounterKey(Scopes(r)[i], WindowStart(r.now));
      && AllowedCount(log + [Entry(r, true)], key) == CountOf(counted, key) + 1
      && Room(log + [Entry(r, true)], r, Scopes(r)[i]) == LimitOf(r, Scopes(r)[i]) - (CountOf(counted, key) + 1)
  {
    var key := CounterKey(Scopes(r)[i], WindowStart(r.now));
    CountedGrows(counters, counted, WindowStart(r.now), r, i, WindowStart(r.now) + WINDOW);
    WindowOpen(r.now);
    AllowedGrows(log, Entry(r, true), key);
  }

  /** One turn of the loop: the i-th scope's counter. */
  method CountScope(ghost counters: map<CounterKey, Counter>, counted: map<CounterKey, Counter>, remaining: int, r: Request,
                    i: nat, ghost log: seq<Entry>, ghost latest: int)
    returns (next: map<CounterKey, Counter>, left: int)
    requires Agrees(counters, log, latest) && latest <= r.now && Admits(log, r) && i < |Scopes(r)|
    requires Counted(counters, counted, WindowStart(r.now), Scopes(r)[..i])
    requires remaining == Slack(log + [Entry(r, true)], r, i)
    ensures Counted(counters, next, WindowStart(r.now), Scopes(r)[..i + 1])
    ensures left == Slack(log + [Entry(r, true)], r, i + 1)
    ensures (forall key :: key in counted ==> counted[key].resetAt == key.window + WINDOW) ==>
      forall key :: key in next ==> next[key].resetAt == key.window + WINDOW
  {
    var key := CounterKey(Scopes(r)[i], WindowStart(r.now));
    CountedGrows(counters, counted, WindowStart(r.now), r, i, WindowStart(r.now) + WINDOW);
    var count := CountOf(counted, key) + 1;
    next := counted[key := Counter(count, WindowStart(r.now) + WINDOW)];
    CountIsAllowed(counters, counted, r, i, log, latest);
    left := Min(remaining, Max(0, LimitOf(r, Scopes(r)[i]) - count));
  }

  /** Once every scope has been counted, the counters agree with the log that includes the request. */
  lemma CountedAgrees(counters: map<CounterKey, Counter>, counted: map<CounterKey, Counter>, log: seq<Entry>, r: Request,
                      latest: int)
    requires Agrees(counters, log, latest) && latest <= r.now
    requires Counted(counters, counted, WindowStart(r.now), Scopes(r))
    requires forall key :: key in counted ==> counted[key].resetAt == key.window + WINDOW
    ensures Agrees(counted, log + [Entry(r, true)], r.now)
  {
    forall key: CounterKey | r.now < key.window + WINDOW
      ensures CountOf(counted, key) == AllowedCount(log + [Entry(r, true)], key)
    {
      AllowedGrows(log, Entry(r, true), key);
    }
  }

  /** `counted` is `counters` with every scope of the prefix counted once more in the window. */
  ghost predicate Counted(counters: map<CounterKey, Counter>, counted: map<CounterKey, Counter>, window: int, scopes: seq<Scope>) {
    forall key :: CountOf(counted, key) == CountOf(counters, key) + Added(key, window, scopes)
  }

  lemma CountedGrows(counters: map<CounterKey, Counter>, counted: map<CounterKey, Counter>, window: int, r: Request, i: nat,
                     reset: int)
    requires i < |Scopes(r)| && Counted(counters, counted, window, Scopes(r)[..i])
    ensures var key := CounterKey(Scopes(r)[i], window);
      CountOf(counted, key) == CountOf(counters, key)
      && Counted(counters, counted[key := Counter(CountOf(counted, key) + 1, reset)], window, Scopes(r)[..i + 1])
    ensures Scopes(r)[i] in Scopes(r)
  {
    var scopes := Scopes(r);
    forall j | 0 <= j < i ensures scopes[j] != scopes[i] { ScopesDistinct(r, j, i); }
    assert scopes[..i + 1] == scopes[..i] + [scopes[i]];
    assert scopes[i] !in scopes[..i];
  }

  lemma WindowOpen(now: int)
    ensures WindowStart(now) <= now < WindowStart(now) + WINDOW
  {
  }

  lemma AllowedGrows(log: seq<Entry>, e: Entry, key: CounterKey)
    ensures AllowedCount(log + [e], key) == AllowedCount(log, key) + if Counts(e, key) then 1 else 0
  {
    assert (log + [e])[..|log|] == log;
  }

  lemma DeniedKeepsCounts(counters: map<CounterKey, Counter>, log: seq<Entry>, r: Request, latest: int)
    requires Agrees(counters, log, latest) && latest <= r.now
    ensures Agrees(counters, log + [Entry(r, false)], r.now)
  {
    forall key: CounterKey | r.now < key.window + WINDOW
      ensures CountOf(counters, key) == AllowedCount(log + [Entry(r, false)], key)
    {
      AllowedGrows(log, Entry(r, false), key);
    }
  }

  // ----- what `remaining` means -----

  /** The same caller asking again for the same kind of tool, under the same limits, in the same window. */
  predicate Repeats(r: Request, again: Request) {
    again.principal == r.principal && again.research == r.research && again.limits == r.limits
    && WindowStart(again.now) == WindowStart(r.now)
  }

  lemma {:induction false} SlackBelow(log: seq<Entry>, r: Request, n: nat)
    requires n <= |Scopes(r)|
    ensures Slack(log, r, n) > 0 <==> forall i :: 0 <= i < n ==> Room(log, r, Scopes(r)[i]) > 0
    ensures Slack(log, r, n) <= MAX_SAFE_INTEGER
  {
    if n > 0 {
      SlackBelow(log, r, n - 1);
    }
  }

  lemma {:induction false} SlackShrinks(log: seq<Entry>, r: Request, again: Request, n: nat)
    requires Repeats(r, again) && n <= |Scopes(r)| && 0 < n
    requires forall i :: 0 <= i < n ==> LimitOf(r, Scopes(r)[i]) <= MAX_SAFE_INTEGER
    ensures Slack(log + [Entry(again, true)], r, n) == Slack(log, r, n) - 1
  {
    AllowedGrows(log, Entry(again, true), CounterKey(Scopes(r)[n - 1], WindowStart(r.now)));
    assert Scopes(again) == Scopes(r);
    if n > 1 {
      SlackShrinks(log, r, again, n - 1);
    }
  }

  /** The log after serving further requests one by one. */
  function Serve(log: seq<Entry>, rs: seq<Request>): seq<Entry> {
    if rs == [] then log
    else
      var before := Serve(log, rs[..|rs| - 1]);
      before + [Entry(rs[|rs| - 1], Admits(before, rs[|rs| - 1]))]
  }

  predicate SafeLimits(r: Request) {
    forall i :: 0 <= i < |Scopes(r)| ==> LimitOf(r, Scopes(r)[i]) <= MAX_SAFE_INTEGER
  }

  /** Serving one repetition uses up one unit of slack, or none when there is none. */
  lemma ServeStep(before: seq<Entry>, r: Request, again: Request)
    requires SafeLimits(r) && Repeats(r, again) && Slack(before, r, |Scopes(r)|) >= 0
    ensures Slack(before + [Entry(again, Admits(before, again))], r, |Scopes(r)|)
         == Max(0, Slack(before, r, |Scopes(r)|) - 1)
  {
    SlackBelow(before, r, |Scopes(r)|);
    SameAdmission(before, r, again);
    if Admits(before, r) {
      SlackShrinks(before, r, again, |Scopes(r)|);
    } else {
      SlackUnchanged(before, r, Entry(again, false), |Scopes(r)|);
    }
  }

  lemma SameAdmission(log: seq<Entry>, r: Request, again: Request)
    requires Repeats(r, again)
    ensures Admits(log, again) <==> Admits(log, r)
  {
    assert Scopes(again) == Scopes(r);
    assert forall i :: 0 <= i < |Scopes(r)| ==> Room(log, again, Scopes(again)[i]) == Room(log, r, Scopes(r)[i]);
  }

  lemma {:induction false} ServeSlack(log: seq<Entry>, r: Request, rs: seq<Request>)
    requires SafeLimits(r) && forall i :: 0 <= i < |rs| ==> Repeats(r, rs[i])
    requires Slack(log, r, |Scopes(r)|) >= 0
    ensures Slack(Serve(log, rs), r, |Scopes(r)|) == Max(0, Slack(log, r, |Scopes(r)|) - |rs|)
  {
    if rs != [] {
      ServeSlack(log, r, rs[..|rs| - 1]);
      ServeStep(Serve(log, rs[..|rs| - 1]), r, rs[|rs| - 1]);
    }
  }

  lemma {:induction false} SlackUnchanged(log: seq<Entry>, r: Request, denied: Entry, n: nat)
    requires n <= |Scopes(r)| && !denied.allowed
    ensures Slack(log + [denied], r, n) == Slack(log, r, n)
  {
    if n > 0 {
      AllowedGrows(log, denied, CounterKey(Scopes(r)[n - 1], WindowStart(r.now)));
      SlackUnchanged(log, r, denied, n - 1);
    }
  }

  /** `remaining = n` is exact: of any further repetitions in the window, precisely the first n succeed. */
  lemma RemainingIsExact(log: seq<Entry>, r: Request, d: Decision, rs: seq<Request>, k: nat)
    requires Decides(log, r, d) && d.allowed && SafeLimits(r)
    requires k < |rs| && forall i :: 0 <= i < |rs| ==> Repeats(r, rs[i])
    ensures 0 <= d.remaining
    ensures Admits(Serve(log + [Entry(r, true)], rs[..k]), rs[k]) <==> k < d.remaining
  {
    var after := log + [Entry(r, true)];
    assert Repeats(r, r);
    SlackBelow(log, r, |Scopes(r)|);
    SlackShrinks(log, r, r, |Scopes(r)|);
    ServeSlack(after, r, rs[..k]);
    SlackBelow(Serve(after, rs[..k]), r, |Scopes(r)|);
    SameAdmission(Serve(after, rs[..k]), r, rs[k]);
  }

  // ----- how much any minute can admit -----

  predicate LimitedBy(log: seq<Entry>, scope: Scope, bound: nat) {
    forall i :: 0 <= i < |log| && log[i].allowed && scope in Scopes(log[i].request) ==> LimitOf(log[i].request, scope) <= bound
  }

  /** No window admits more than the limit in force. */
  lemma {:induction false} WindowBound(log: seq<Entry>, scope: Scope, window: int, bound: nat)
    requires Written(log) && LimitedBy(log, scope, bound)
    ensures AllowedCount(log, CounterKey(scope, window)) <= bound
  {
    if log != [] {
      var n := |log| - 1;
      WindowBound(log[..n], scope, window, bound);
      if Counts(log[n], CounterKey(scope, window)) {
        var r := log[n].request;
        var i :| 0 <= i < |Scopes(r)| && Scopes(r)[i] == scope;
        assert Room(log[..n], r, Scopes(r)[i]) > 0;
      }
    }
  }

  function SpanCount(log: seq<Entry>, scope: Scope, from: int): nat {
    if log == [] then 0
    else SpanCount(log[..|log| - 1], scope, from)
         + if log[|log| - 1].allowed && scope in Scopes(log[|log| - 1].request)
              && from <= log[|log| - 1].request.now < from + WINDOW then 1 else 0
  }

  lemma {:induction false} SpanInTwoWindows(log: seq<Entry>, scope: Scope, from: int)
    ensures SpanCount(log, scope, from) <=
            AllowedCount(log, CounterKey(scope, WindowStart(from)))
            + AllowedCount(log, CounterKey(scope, WindowStart(from) + WINDOW))
  {
    if log != [] {
      SpanInTwoWindows(log[..|log| - 1], scope, from);
      if from <= log[|log| - 1].request.now < from + WINDOW {
        TwoWindows(from, log[|log| - 1].request.now);
      }
    }
  }

  lemma TwoWindows(from: int, now: int)
    requires from <= now < from + WINDOW
    ensures WindowStart(now) == WindowStart(from) || WindowStart(now) == WindowStart(from) + WINDOW
  {
  }

  /** Any span of sixty seconds, aligned or not, admits at most twice the limit, in every scope. */
  lemma AnyMinuteAtMostTwice(log: seq<Entry>, scope: Scope, bound: nat, from: int)
    requires Written(log) && LimitedBy(log, scope, bound)
    ensures SpanCount(log, scope, from) <= 2 * bound
  {
    SpanInTwoWindows(log, scope, from);
    WindowBound(log, scope, WindowStart(from), bound);
    WindowBound(log, scope, WindowStart(from) + WINDOW, bound);
  }

  /** A request of this principal under the same limit in every scope. */
  function Plain(p: Principal, bound: nat, now: int): Request {
    Request(p, false, Limits(bound, bound, bound, bound, bound), now)
  }

  /** Admitted requests, the first `bound` of them just before `turn` and the others at it. */
  function Bursts(p: Principal, bound: nat, turn: int, n: nat): seq<Entry> {
    if n == 0 then []
    else Bursts(p, bound, turn, n - 1) + [Entry(Plain(p, bound, if n <= bound then turn - 1 else turn), true)]
  }

  lemma TurnWindows(turn: int)
    requires turn % WINDOW == 0
    ensures WindowStart(turn - 1) == turn - WINDOW && WindowStart(turn) == turn
  {
  }

  lemma BurstsMore(p: Principal, bound: nat, turn: int, n: nat)
    requires n > 0
    ensures var log := Bursts(p, bound, turn, n);
      log != [] && log[..|log| - 1] == Bursts(p, bound, turn, n - 1)
      && log[|log| - 1] == Entry(Plain(p, bound, if n <= bound then turn - 1 else turn), true)
  {
  }

  lemma {:induction false} BurstsCounted(p: Principal, bound: nat, turn: int, n: nat, scope: Scope)
    requires turn % WINDOW == 0 && scope in Scopes(Plain(p, bound, turn))
    ensures AllowedCount(Bursts(p, bound, turn, n), CounterKey(scope, turn - WINDOW)) == Min(n, bound)
    ensures AllowedCount(Bursts(p, bound, turn, n), CounterKey(scope, turn)) == Max(0, n - bound)
    decreases n
  {
    if n > 0 {
      BurstsMore(p, bound, turn, n);
      TurnWindows(turn);
      BurstsCounted(p, bound, turn, n - 1, scope);
    }
  }

  lemma {:induction false} BurstsInSpan(p: Principal, bound: nat, turn: int, n: nat, scope: Scope)
    requires scope in Scopes(Plain(p, bound, turn))
    ensures SpanCount(Bursts(p, bound, turn, n), scope, turn - 1) == n
    decreases n
  {
    if n > 0 {
      BurstsMore(p, bound, turn, n);
      BurstsInSpan(p, bound, turn, n - 1, scope);
    }
  }

  lemma BurstsLimited(p: Principal, bound: nat, turn: int, n: nat, scope: Scope)
    ensures LimitedBy(Bursts(p, bound, turn, n), scope, bound)
  {
    var log := Bursts(p, bound, turn, n);
    forall i | 0 <= i < |log|
      ensures LimitOf(log[i].request, scope) <= bound
    {
      BurstsPlain(p, bound, turn, n, i);
    }
  }

  lemma {:induction false} BurstsPlain(p: Principal, bound: nat, turn: int, n: nat, i: nat)
    requires i < |Bursts(p, bound, turn, n)|
    ensures Bursts(p, bound, turn, n)[i].request == Plain(p, bound, Bursts(p, bound, turn, n)[i].request.now)
    decreases n
  {
    if n > 0 && i < |Bursts(p, bound, turn, n - 1)| {
      BurstsPlain(p, bound, turn, n - 1, i);
    }
  }

  lemma RoomForBurst(p: Principal, bound: nat, turn: int, n: nat)
    requires turn % WINDOW == 0 && 0 < n <= 2 * bound
    ensures Admits(Bursts(p, bound, turn, n - 1), Plain(p, bound, if n <= bound then turn - 1 else turn))
  {
    var r := Plain(p, bound, if n <= bound then turn - 1 else turn);
    TurnWindows(turn);
    forall i | 0 <= i < |Scopes(r)|
      ensures Room(Bursts(p, bound, turn, n - 1), r, Scopes(r)[i]) > 0
    {
      assert Scopes(r)[i] in Scopes(Plain(p, bound, turn));
      BurstsCounted(p, bound, turn, n - 1, Scopes(r)[i]);
    }
  }

  lemma {:induction false} BurstsWritten(p: Principal, bound: nat, turn: int, n: nat)
    requires turn % WINDOW == 0 && n <= 2 * bound
    ensures Written(Bursts(p, bound, turn, n))
    decreases n
  {
    if n > 0 {
      BurstsMore(p, bound, turn, n);
      BurstsWritten(p, bound, turn, n - 1);
      RoomForBurst(p, bound, turn, n);
    }
  }

  /** Twice the limit is reached in every scope, within two ticks around the turn of a window. */
  lemma TwiceIsReached(p: Principal, bound: nat, turn: int, scope: Scope)
    requires turn % WINDOW == 0 && scope in Scopes(Plain(p, bound, turn))
    ensures var log := Bursts(p, bound, turn, 2 * bound);
      Written(log) && LimitedBy(log, scope, bound) && SpanCount(log, scope, turn - 1) == 2 * bound
  {
    BurstsWritten(p, bound, turn, 2 * bound);
    BurstsInSpan(p, bound, turn, 2 * bound, scope);
    BurstsLimited(p, bound, turn, 2 * bound, scope);
  }
}
