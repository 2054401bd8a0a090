/** The per-integration token bucket of `RateLimiter`. Tokens are reals, and the
    clock is a parameter: the instant each call read before it took the lock. */
module RateLimit {
  import opened Wrappers
  import opened Ids
  import opened Sums

  datatype Bucket = Bucket(tokens: real, at: real)

  type Buckets = map<Uuid, Bucket>

  datatype Call = Call(id: Uuid, perMinute: int, now: real)

  function Capacity(perMinute: int): (capacity: real)
    ensures capacity >= 1.0
  {
    if perMinute < 1 then 1.0 else perMinute as real
  }

  /** `duration_since` saturates at zero when the clock went back. */
  function Elapsed(from: real, to: real): (elapsed: real)
    ensures elapsed >= 0.0
  {
    if to > from then to - from else 0.0
  }

  /** What a budget of `capacity` a minute earns in `seconds`. */
  function Earned(seconds: real, capacity: real): real {
    seconds * capacity / 60.0
  }

  function Refilled(b: Bucket, capacity: real, now: real): Bucket {
    var tokens := b.tokens + Earned(Elapsed(b.at, now), capacity);
    Bucket(if tokens < capacity then tokens else capacity, now)
  }

  /** The bucket a call finds: a full one when the integration is new. */
  function Found(buckets: Buckets, call: Call): Bucket {
    var capacity := Capacity(call.perMinute);
    Refilled(if call.id in buckets then buckets[call.id] else Bucket(capacity, call.now), capacity, call.now)
  }

  predicate Admits(buckets: Buckets, call: Call) {
    Found(buckets, call).tokens >= 1.0
  }

  function After(buckets: Buckets, call: Call): Buckets {
    var found := Found(buckets, call);
    buckets[call.id := if found.tokens >= 1.0 then found.(tokens := found.tokens - 1.0) else found]
  }

  class RateLimiter {
    var buckets: Buckets

    constructor ()
      ensures buckets == map[]
    {
      buckets := map[];
    }

    /** A call finds what was left, and what `perMinute` a minute has earned since, but
        no more than a minute's worth (or one token); it takes one token if there is one.
        A new integration finds a minute's worth. */
    method Allow(id: Uuid, perMinute: int, now: real) returns (allowed: bool)
      modifies this
      ensures allowed == Admits(old(buckets), Call(id, perMinute, now))
      ensures buckets == After(old(buckets), Call(id, perMinute, now))
      ensures
        var most := if perMinute > 1 then perMinute as real else 1.0;
        var left := if id in old(buckets) then old(buckets)[id].tokens else most;
        var since := if id in old(buckets) then now - old(buckets)[id].at else 0.0;
        var filled := if since > 0.0 then left + since * most / 60.0 else left;
        var found := if filled > most then most else filled;
        && allowed == (found >= 1.0)
        && buckets == old(buckets)[id := Bucket(found - (if allowed then 1.0 else 0.0), now)]
    {
      var capacity := Capacity(perMinute);
      if id !in buckets {
        buckets := buckets[id := Bucket(capacity, now)];
      }
      var entry := buckets[id];
      var elapsed := Elapsed(entry.at, now);
      var tokens := entry.tokens + elapsed * capacity / 60.0;
      entry := entry.(tokens := if tokens < capacity then tokens else capacity);
      entry := entry.(at := now);
      allowed := entry.tokens >= 1.0;
      if allowed {
        entry := entry.(tokens := entry.tokens - 1.0);
      }
      buckets := buckets[id := entry];
    }
  }

  // ---------- Whole runs, in lock order ----------

  function Replay(buckets: Buckets, calls: seq<Call>): Buckets {
    if calls == [] then buckets
    else After(Replay(buckets, calls[..|calls| - 1]), calls[|calls| - 1])
  }

  /** The answers the calls of one integration get, in order. */
  function AnswersTo(buckets: Buckets, calls: seq<Call>, id: Uuid): seq<bool> {
    if calls == [] then []
    else
      var front, last := calls[..|calls| - 1], calls[|calls| - 1];
      AnswersTo(buckets, front, id) + if last.id == id then [Admits(Replay(buckets, front), last)] else []
  }

  function CountTrue(answers: seq<bool>): nat {
    if answers == [] then 0
    else CountTrue(answers[..|answers| - 1]) + if answers[|answers| - 1] then 1 else 0
  }

  function Accepted(buckets: Buckets, calls: seq<Call>, id: Uuid): nat {
    CountTrue(AnswersTo(buckets, calls, id))
  }

  lemma CountOne(answers: seq<bool>, answer: bool)
    ensures CountTrue(answers + [answer]) == CountTrue(answers) + if answer then 1 else 0
  {
    assert (answers + [answer])[..|answers|] == answers;
  }

  /** The last instant an integration's calls carried. */
  function LastInstant(calls: seq<Call>, id: Uuid): Option<real> {
    if calls == [] then None
    else if calls[|calls| - 1].id == id then Some(calls[|calls| - 1].now)
    else LastInstant(calls[..|calls| - 1], id)
  }

  function FirstInstant(calls: seq<Call>, id: Uuid): Option<real> {
    if calls == [] then None
    else if calls[0].id == id then Some(calls[0].now)
    else FirstInstant(calls[1..], id)
  }

  /** The time the clock moved forward between an integration's own calls. */
  function ForwardTime(calls: seq<Call>, id: Uuid): real {
    if calls == [] then 0.0
    else
      var front, last := calls[..|calls| - 1], calls[|calls| - 1];
      ForwardTime(front, id)
      + if last.id == id && LastInstant(front, id).Some? then Elapsed(LastInstant(front, id).value, last.now) else 0.0
  }

  ghost predicate BudgetIs(calls: seq<Call>, id: Uuid, capacity: real) {
    forall call | call in calls && call.id == id :: Capacity(call.perMinute) == capacity
  }

  ghost predicate NoDebt(buckets: Buckets) {
    forall id | id in buckets :: buckets[id].tokens >= 0.0
  }

  lemma EarnedAdds(a: real, b: real, capacity: real)
    ensures Earned(a + b, capacity) == Earned(a, capacity) + Earned(b, capacity)
  {
  }

  lemma EarnedIsPositive(a: real, capacity: real)
    requires a >= 0.0 && capacity >= 0.0
    ensures Earned(a, capacity) >= 0.0
  {
  }

  lemma StepKeepsNoDebt(buckets: Buckets, call: Call)
    requires NoDebt(buckets)
    ensures NoDebt(After(buckets, call))
  {
    EarnedIsPositive(Elapsed(if call.id in buckets then buckets[call.id].at else call.now, call.now),
                     Capacity(call.perMinute));
    hide Earned;
  }

  lemma {:induction false} NeverInDebt(buckets: Buckets, calls: seq<Call>)
    requires NoDebt(buckets)
    ensures NoDebt(Replay(buckets, calls))
  {
    if calls != [] {
      NeverInDebt(buckets, calls[..|calls| - 1]);
      StepKeepsNoDebt(Replay(buckets, calls[..|calls| - 1]), calls[|calls| - 1]);
    }
  }

  /** One call: what it finds is capped, and what it leaves it has paid for. */
  lemma OneCall(buckets: Buckets, call: Call)
    requires NoDebt(buckets)
    ensures
      var capacity, next := Capacity(call.perMinute), After(buckets, call);
      var spent := if Admits(buckets, call) then 1.0 else 0.0;
      && call.id in next && next[call.id].at == call.now
      && 0.0 <= next[call.id].tokens && next[call.id].tokens + spent <= capacity
      && (call.id in buckets ==>
            next[call.id].tokens + spent
            <= buckets[call.id].tokens + Earned(Elapsed(buckets[call.id].at, call.now), capacity))
  {
    StepKeepsNoDebt(buckets, call);
    hide Earned, Elapsed;
  }

  lemma AcceptedOne(buckets: Buckets, front: seq<Call>, last: Call, id: Uuid)
    ensures Replay(buckets, front + [last]) == After(Replay(buckets, front), last)
    ensures Accepted(buckets, front + [last], id)
         == Accepted(buckets, front, id) + if last.id == id && Admits(Replay(buckets, front), last) then 1 else 0
  {
    hide After, Admits;
    assert (front + [last])[..|front|] == front;
    CountOne(AnswersTo(buckets, front, id), Admits(Replay(buckets, front), last));
    assert AnswersTo(buckets, front, id) + [] == AnswersTo(buckets, front, id);
  }

  function Gap(front: seq<Call>, last: Call, id: Uuid): real {
    if last.id == id && LastInstant(front, id).Some? then Elapsed(LastInstant(front, id).value, last.now) else 0.0
  }

  lemma ForwardTimeOne(front: seq<Call>, last: Call, id: Uuid)
    ensures LastInstant(front + [last], id) == if last.id == id then Some(last.now) else LastInstant(front, id)
    ensures ForwardTime(front + [last], id) == ForwardTime(front, id) + Gap(front, last, id)
  {
    hide Elapsed;
    assert (front + [last])[..|front|] == front;
  }

  lemma TimeOne(front: seq<Call>, last: Call, id: Uuid, capacity: real)
    ensures LastInstant(front + [last], id) == if last.id == id then Some(last.now) else LastInstant(front, id)
    ensures Earned(ForwardTime(front + [last], id), capacity)
         == Earned(ForwardTime(front, id), capacity)
          + Earned(Gap(front, last, id), capacity)
  {
    hide Earned, Gap, ForwardTime, LastInstant;
    ForwardTimeOne(front, last, id);
    EarnedAdds(ForwardTime(front, id), Gap(front, last, id), capacity);
  }

  /** Tokens spent and tokens left never exceed one full bucket and what the clock
      earned in between. */
  lemma {:induction false} TokensAreAccountedFor(buckets: Buckets, calls: seq<Call>, id: Uuid, capacity: real)
    requires NoDebt(buckets) && BudgetIs(calls, id, capacity)
    ensures
      var last, after := LastInstant(calls, id), Replay(buckets, calls);
      if last == None then
        Accepted(buckets, calls, id) == 0 && Earned(ForwardTime(calls, id), capacity) == 0.0
      else
        && id in after && after[id].at == last.value && 0.0 <= after[id].tokens <= capacity
        && Accepted(buckets, calls, id) as real + after[id].tokens
             <= capacity + Earned(ForwardTime(calls, id), capacity)
  {
    if calls != [] {
      var front, last := calls[..|calls| - 1], calls[|calls| - 1];
      assert calls == front + [last];
      TokensAreAccountedFor(buckets, front, id, capacity);
      NeverInDebt(buckets, front);
      AcceptedOne(buckets, front, last, id);
      TimeOne(front, last, id, capacity);
      OneCall(Replay(buckets, front), last);
      if last.id == id {
        BudgetOfLast(calls, id, capacity);
      }
      NothingEarned(capacity);
      hide Replay, Accepted, Admits, LastInstant, ForwardTime, Earned, Elapsed, NoDebt, BudgetIs;
    }
  }

  lemma BudgetOfLast(calls: seq<Call>, id: Uuid, capacity: real)
    requires calls != [] && calls[|calls| - 1].id == id && BudgetIs(calls, id, capacity)
    ensures Capacity(calls[|calls| - 1].perMinute) == capacity
  {
  }

  /** Any stretch of calls, whatever came before it and whatever the clock did: at
      most one bucketful, plus what the clock's forward moves earn. */
  lemma StretchIsBounded(buckets: Buckets, calls: seq<Call>, id: Uuid, capacity: real)
    requires NoDebt(buckets) && BudgetIs(calls, id, capacity) && capacity >= 1.0
    ensures Accepted(buckets, calls, id) as real <= capacity + Earned(ForwardTime(calls, id), capacity)
  {
    TokensAreAccountedFor(buckets, calls, id, capacity);
    EarnedIsPositive(0.0, capacity);
  }

  /** The integration's own calls carry non-decreasing instants. */
  ghost predicate InOrder(calls: seq<Call>, id: Uuid) {
    forall i, j | 0 <= i < j < |calls| && calls[i].id == id && calls[j].id == id :: calls[i].now <= calls[j].now
  }

  lemma {:induction false} LastInstantIsACall(calls: seq<Call>, id: Uuid)
    ensures
      match LastInstant(calls, id)
      case None => forall call | call in calls :: call.id != id
      case Some(t) => exists i :: 0 <= i < |calls| && calls[i].id == id && calls[i].now == t
  {
    if calls != [] {
      var front, last := calls[..|calls| - 1], calls[|calls| - 1];
      LastInstantIsACall(front, id);
      assert calls == front + [last];
      if last.id != id && LastInstant(front, id).Some? {
        var i :| 0 <= i < |front| && front[i].id == id && front[i].now == LastInstant(front, id).value;
        assert calls[i] == front[i];
      }
    }
  }

  lemma {:induction false} FirstInstantSurvives(front: seq<Call>, last: Call, id: Uuid)
    ensures FirstInstant(front + [last], id)
         == if FirstInstant(front, id).Some? then FirstInstant(front, id)
            else if last.id == id then Some(last.now) else None
  {
    if front == [] {
      assert front + [last] == [last] && [last][1..] == [];
    } else {
      assert (front + [last])[1..] == front[1..] + [last];
      FirstInstantSurvives(front[1..], last, id);
    }
  }

  lemma {:induction false} ForwardTimeTelescopes(calls: seq<Call>, id: Uuid)
    requires InOrder(calls, id)
    ensures LastInstant(calls, id).Some? <==> FirstInstant(calls, id).Some?
    ensures LastInstant(calls, id).Some? ==>
      ForwardTime(calls, id) == LastInstant(calls, id).value - FirstInstant(calls, id).value
  {
    if calls != [] {
      var front, last := calls[..|calls| - 1], calls[|calls| - 1];
      assert calls == front + [last];
      ForwardTimeTelescopes(front, id);
      FirstInstantSurvives(front, last, id);
      LastInstantIsACall(front, id);
      ForwardTimeOne(front, last, id);
      hide ForwardTime;
      if last.id == id && LastInstant(front, id).Some? {
        var i :| 0 <= i < |front| && front[i].id == id && front[i].now == LastInstant(front, id).value;
        assert calls[i] == front[i] && calls[|front|] == last;
      } else if LastInstant(front, id) == None {
        NoCallsNoTime(front, id);
      }
      hide FirstInstant;
    }
  }

  lemma {:induction false} NoCallsNoTime(calls: seq<Call>, id: Uuid)
    requires LastInstant(calls, id) == None
    ensures ForwardTime(calls, id) == 0.0
  {
    if calls != [] {
      NoCallsNoTime(calls[..|calls| - 1], id);
    }
  }

  /** The documented budget holds whenever the clock's forward moves between the
      integration's own calls add up to no more than the window. */
  lemma StretchIsBoundedByItsWindow(buckets: Buckets, calls: seq<Call>, id: Uuid, capacity: real, s: real, t: real)
    requires NoDebt(buckets) && BudgetIs(calls, id, capacity) && capacity >= 1.0
    requires ForwardTime(calls, id) <= t - s
    ensures Accepted(buckets, calls, id) as real <= capacity + Earned(t - s, capacity)
  {
    var forward := ForwardTime(calls, id);
    StretchIsBounded(buckets, calls, id, capacity);
    EarnedAdds(forward, t - s - forward, capacity);
    EarnedIsPositive(t - s - forward, capacity);
  }

  ghost predicate InWindow(calls: seq<Call>, id: Uuid, s: real, t: real) {
    forall call | call in calls && call.id == id :: s <= call.now <= t
  }

  /** In particular, with instants in lock order any stretch of calls from `s` to `t`
      lets at most `c + c * (t - s) / 60` through. */
  lemma StretchInOrderIsBounded(buckets: Buckets, calls: seq<Call>, id: Uuid, capacity: real, s: real, t: real)
    requires NoDebt(buckets) && BudgetIs(calls, id, capacity) && capacity >= 1.0
    requires InOrder(calls, id) && s <= t && InWindow(calls, id, s, t)
    ensures Accepted(buckets, calls, id) as real <= capacity + capacity * (t - s) / 60.0
  {
    ForwardTimeTelescopes(calls, id);
    if LastInstant(calls, id).Some? {
      LastInstantIsACall(calls, id);
      FirstInstantIsACall(calls, id);
    } else {
      NoCallsNoTime(calls, id);
    }
    StretchIsBoundedByItsWindow(buckets, calls, id, capacity, s, t);
  }

  lemma {:induction false} FirstInstantIsACall(calls: seq<Call>, id: Uuid)
    requires FirstInstant(calls, id).Some?
    ensures exists call :: call in calls && call.id == id && call.now == FirstInstant(calls, id).value
  {
    if calls[0].id != id {
      FirstInstantIsACall(calls[1..], id);
    }
  }

  // ---------- Integrations do not share a budget ----------

  function OwnCalls(calls: seq<Call>, id: Uuid): seq<Call> {
    Filter((call: Call) => call.id == id, calls)
  }

  ghost predicate AgreeOn(a: Buckets, b: Buckets, id: Uuid) {
    (id in a <==> id in b) && (id in a ==> a[id] == b[id])
  }

  lemma OwnCallsOne(calls: seq<Call>, last: Call, id: Uuid)
    ensures OwnCalls(calls + [last], id) == OwnCalls(calls, id) + if last.id == id then [last] else []
  {
    FilterOne((call: Call) => call.id == id, calls, last);
  }

  lemma AgreementSurvives(a: Buckets, b: Buckets, call: Call, id: Uuid)
    requires AgreeOn(a, b, id)
    ensures call.id == id ==> Admits(a, call) == Admits(b, call) && AgreeOn(After(a, call), After(b, call), id)
    ensures call.id != id ==> AgreeOn(After(a, call), b, id)
  {
    hide Refilled;
  }

  /** One integration's answers are those it would get alone: other integrations'
      calls never change them. */
  lemma {:induction false} OthersNeverMatter(buckets: Buckets, others: Buckets, calls: seq<Call>, id: Uuid)
    requires AgreeOn(buckets, others, id)
    ensures AnswersTo(buckets, calls, id) == AnswersTo(others, OwnCalls(calls, id), id)
    ensures AgreeOn(Replay(buckets, calls), Replay(others, OwnCalls(calls, id)), id)
  {
    hide OwnCalls, After, Admits, AgreeOn;
    if calls == [] {
      assert OwnCalls(calls, id) == [] by { OwnCallsNone(id); }
    } else {
      var front, last := calls[..|calls| - 1], calls[|calls| - 1];
      assert calls == front + [last];
      OthersNeverMatter(buckets, others, front, id);
      var own := OwnCalls(front, id);
      OwnCallsOne(front, last, id);
      AgreementSurvives(Replay(buckets, front), Replay(others, own), last, id);
      assert (own + [last])[..|own|] == own && own + [] == own;
    }
  }

  lemma OwnCallsNone(id: Uuid)
    ensures OwnCalls([], id) == []
  {
  }

  // ---------- Calls within the budget are let through ----------

  ghost predicate AllTrue(answers: seq<bool>) {
    forall i | 0 <= i < |answers| :: answers[i]
  }

  ghost predicate AllBy(calls: seq<Call>, id: Uuid) {
    forall call | call in calls :: call.id == id
  }

  /** A new integration's first `c` calls all go through, however fast they come. */
  lemma {:induction false} FirstCallsAreAdmitted(buckets: Buckets, calls: seq<Call>, id: Uuid, capacity: real)
    requires AllBy(calls, id) && BudgetIs(calls, id, capacity) && id !in buckets
    requires |calls| as real <= capacity
    ensures AllTrue(AnswersTo(buckets, calls, id))
    ensures if calls == [] then Replay(buckets, calls) == buckets
            else id in Replay(buckets, calls) && Replay(buckets, calls)[id].tokens >= capacity - |calls| as real
  {
    if calls != [] {
      var front, last := calls[..|calls| - 1], calls[|calls| - 1];
      assert last in calls;
      FirstCallsAreAdmitted(buckets, front, id, capacity);
      EarnedIsPositive(if front == [] then 0.0 else Elapsed(Replay(buckets, front)[id].at, last.now), capacity);
      EarnedIsPositive(0.0, capacity);
      hide Earned, Elapsed;
    }
  }

  /** `60 / c` seconds or more. */
  predicate IsWorthAToken(seconds: real, capacity: real) {
    seconds * capacity >= 60.0
  }

  /** Each call comes at least `60 / c` seconds after the one before. */
  ghost predicate Spaced(calls: seq<Call>, capacity: real) {
    forall i | 0 < i < |calls| :: IsWorthAToken(calls[i].now - calls[i - 1].now, capacity)
  }

  /** A client that keeps to its rate is never refused again after its first call. */
  lemma {:induction false} SteadyCallsAreAdmitted(buckets: Buckets, calls: seq<Call>, id: Uuid, capacity: real)
    requires NoDebt(buckets) && AllBy(calls, id) && BudgetIs(calls, id, capacity) && Spaced(calls, capacity)
    requires calls != []
    ensures |AnswersTo(buckets, calls, id)| == |calls|
    ensures AllTrue(AnswersTo(buckets, calls, id)[1..])
    ensures id in Replay(buckets, calls) && Replay(buckets, calls)[id].at == calls[|calls| - 1].now
  {
    var front, last := calls[..|calls| - 1], calls[|calls| - 1];
    LastCall(calls, id, capacity);
    assert calls == front + [last];
    AnswersOne(buckets, front, last);
    AfterNow(Replay(buckets, front), last);
    hide Admits, After, Earned, NoDebt, BudgetIs, AllBy, Spaced, AnswersTo, Replay;
    if front == [] {
      assert AnswersTo(buckets, [], id) == [] by { NoAnswers(buckets, id); }
    } else {
      SteadyCallsAreAdmitted(buckets, front, id, capacity);
      NeverInDebt(buckets, front);
      SpacedCallIsAdmitted(Replay(buckets, front), last, last.now - front[|front| - 1].now);
    }
  }

  lemma AnswersOne(buckets: Buckets, front: seq<Call>, last: Call)
    ensures AnswersTo(buckets, front + [last], last.id)
         == AnswersTo(buckets, front, last.id) + [Admits(Replay(buckets, front), last)]
    ensures Replay(buckets, front + [last]) == After(Replay(buckets, front), last)
  {
    hide Admits, After;
    assert (front + [last])[..|front|] == front;
  }

  lemma NoAnswers(buckets: Buckets, id: Uuid)
    ensures AnswersTo(buckets, [], id) == []
  {
  }

  lemma AfterNow(buckets: Buckets, call: Call)
    ensures call.id in After(buckets, call) && After(buckets, call)[call.id].at == call.now
  {
    FoundNow(buckets, call);
    hide Found;
  }

  lemma LastCall(calls: seq<Call>, id: Uuid, capacity: real)
    requires calls != [] && AllBy(calls, id) && BudgetIs(calls, id, capacity) && Spaced(calls, capacity)
    ensures
      var front, last := calls[..|calls| - 1], calls[|calls| - 1];
      && last.id == id && Capacity(last.perMinute) == capacity
      && AllBy(front, id) && BudgetIs(front, id, capacity) && Spaced(front, capacity)
      && (front != [] ==> Earned(last.now - front[|front| - 1].now, capacity) >= 1.0)
  {
    hide Earned, Capacity, IsWorthAToken;
    assert calls[|calls| - 1] in calls;
    assert forall call | call in calls[..|calls| - 1] :: call in calls;
    if |calls| > 1 {
      TokenIsEarned(calls[|calls| - 1].now - calls[|calls| - 2].now, capacity);
    }
  }

  lemma TokenIsEarned(gap: real, capacity: real)
    requires IsWorthAToken(gap, capacity)
    ensures Earned(gap, capacity) >= 1.0
  {
  }

  lemma SpacedCallIsAdmitted(buckets: Buckets, call: Call, gap: real)
    requires NoDebt(buckets) && call.id in buckets && call.now == buckets[call.id].at + gap
    requires Earned(gap, Capacity(call.perMinute)) >= 1.0
    ensures Admits(buckets, call) && call.id in After(buckets, call) && After(buckets, call)[call.id].at == call.now
  {
    GapIsForward(gap, Capacity(call.perMinute));
    hide Earned;
  }

  lemma GapIsForward(gap: real, capacity: real)
    requires Earned(gap, capacity) >= 1.0 && capacity >= 1.0
    ensures gap > 0.0
  {
  }

  // ---------- Instants out of lock order ----------

  /** Two callers, one reading the clock at `s` and one at `t`, taking the lock in turns,
      the earlier instant last each time. */
  function ZigZag(id: Uuid, perMinute: int, s: real, t: real, n: nat): seq<Call> {
    if n == 0 then [Call(id, perMinute, s)]
    else ZigZag(id, perMinute, s, t, n - 1) + [Call(id, perMinute, t), Call(id, perMinute, s)]
  }

  function BucketsAfter(id: Uuid, perMinute: int, s: real, t: real, n: nat): Buckets {
    Replay(map[], ZigZag(id, perMinute, s, t, n))
  }

  function AcceptedOf(id: Uuid, perMinute: int, s: real, t: real, n: nat): nat {
    Accepted(map[], ZigZag(id, perMinute, s, t, n), id)
  }

  /** One turn and back: the bucket stands at `s` again, and if nothing was accepted it
      has kept all that the window earns. */
  lemma ZigEarns(b: Buckets, id: Uuid, perMinute: int, s: real, t: real)
    requires id in b && b[id].at == s && b[id].tokens >= 0.0 && s < t
    ensures
      var up, down := Call(id, perMinute, t), Call(id, perMinute, s);
      var b1 := After(b, up);
      var b2 := After(b1, down);
      && id in b2 && b2[id].at == s && b2[id].tokens >= 0.0
      && (!Admits(b, up) && !Admits(b1, down) ==>
            b2[id].tokens < 1.0 && b2[id].tokens == b[id].tokens + Earned(t - s, Capacity(perMinute)))
  {
    var capacity := Capacity(perMinute);
    EarnedIsPositive(t - s, capacity);
    NothingEarned(capacity);
    hide Earned;
  }

  lemma NothingEarned(capacity: real)
    ensures Earned(0.0, capacity) == 0.0
  {
  }

  lemma ZigZagGrows(id: Uuid, perMinute: int, s: real, t: real, n: nat)
    ensures
      var up, down := Call(id, perMinute, t), Call(id, perMinute, s);
      var b := BucketsAfter(id, perMinute, s, t, n);
      var b1 := After(b, up);
      && BucketsAfter(id, perMinute, s, t, n + 1) == After(b1, down)
      && AcceptedOf(id, perMinute, s, t, n + 1)
         == AcceptedOf(id, perMinute, s, t, n) + (if Admits(b, up) then 1 else 0) + (if Admits(b1, down) then 1 else 0)
  {
    hide Accepted, Replay, After, Admits;
    var before, up, down := ZigZag(id, perMinute, s, t, n), Call(id, perMinute, t), Call(id, perMinute, s);
    AcceptedOne(map[], before, up, id);
    AcceptedOne(map[], before + [up], down, id);
    assert ZigZag(id, perMinute, s, t, n + 1) == before + [up] + [down];
  }

  lemma FirstBucket(call: Call)
    ensures
      var b := Replay(map[], [call]);
      call.id in b && b[call.id].at == call.now && b[call.id].tokens >= 0.0
  {
    hide Found;
    StepKeepsNoDebt(map[], call);
    assert [call][..0] == [];
    assert Found(map[], call).at == call.now by { FoundNow(map[], call); }
  }

  lemma FoundNow(buckets: Buckets, call: Call)
    ensures Found(buckets, call).at == call.now
  {
  }

  lemma {:induction false} ZigZagStandsAtTheStart(id: Uuid, perMinute: int, s: real, t: real, n: nat)
    requires s < t
    ensures
      var b := BucketsAfter(id, perMinute, s, t, n);
      id in b && b[id].at == s && b[id].tokens >= 0.0
  {
    hide Replay, After;
    if n == 0 {
      FirstBucket(Call(id, perMinute, s));
    } else {
      ZigZagStandsAtTheStart(id, perMinute, s, t, n - 1);
      ZigZagGrows(id, perMinute, s, t, n - 1);
      ZigEarns(BucketsAfter(id, perMinute, s, t, n - 1), id, perMinute, s, t);
      hide BucketsAfter, After, Admits, AcceptedOf;
    }
  }

  /** As long as nothing is accepted the tokens add up. */
  lemma {:induction false} TokensAddUp(id: Uuid, perMinute: int, s: real, t: real, n: nat, k: nat)
    requires s < t && AcceptedOf(id, perMinute, s, t, n + k) == AcceptedOf(id, perMinute, s, t, n)
    ensures
      var b, later := BucketsAfter(id, perMinute, s, t, n), BucketsAfter(id, perMinute, s, t, n + k);
      && id in b && id in later && b[id].tokens >= 0.0
      && later[id].tokens == b[id].tokens + k as real * Earned(t - s, Capacity(perMinute))
      && (k > 0 ==> later[id].tokens < 1.0)
    decreases k
  {
    hide BucketsAfter, After, Admits, AcceptedOf;
    ZigZagStandsAtTheStart(id, perMinute, s, t, n);
    if k > 0 {
      AcceptedIsMonotone(id, perMinute, s, t, n, k - 1);
      ZigZagGrows(id, perMinute, s, t, n + k - 1);
      TokensAddUp(id, perMinute, s, t, n, k - 1);
      ZigZagStandsAtTheStart(id, perMinute, s, t, n + k - 1);
      ZigEarns(BucketsAfter(id, perMinute, s, t, n + k - 1), id, perMinute, s, t);
      var e := Earned(t - s, Capacity(perMinute));
      OneMore(k, e);
      hide Earned;
    }
  }

  lemma OneMore(k: nat, e: real)
    requires k > 0
    ensures k as real * e == (k - 1) as real * e + e
  {
  }

  lemma {:induction false} AcceptedIsMonotone(id: Uuid, perMinute: int, s: real, t: real, n: nat, k: nat)
    ensures AcceptedOf(id, perMinute, s, t, n) <= AcceptedOf(id, perMinute, s, t, n + k)
    decreases k
  {
    hide AcceptedOf, BucketsAfter;
    if k > 0 {
      AcceptedIsMonotone(id, perMinute, s, t, n, k - 1);
      ZigZagGrows(id, perMinute, s, t, n + k - 1);
    }
  }

  /** Enough turns to earn one token let at least one call through. */
  lemma {:induction false} TurnsAreAccepted(id: Uuid, perMinute: int, s: real, t: real, enough: nat, n: nat)
    requires s < t && enough > 0 && enough as real * Earned(t - s, Capacity(perMinute)) >= 1.0
    ensures AcceptedOf(id, perMinute, s, t, n * enough) >= n
  {
    hide AcceptedOf, BucketsAfter, Earned;
    if n > 0 {
      TurnsAreAccepted(id, perMinute, s, t, enough, n - 1);
      var before := (n - 1) * enough;
      assert n * enough == before + enough;
      AcceptedIsMonotone(id, perMinute, s, t, before, enough);
      if AcceptedOf(id, perMinute, s, t, before + enough) == AcceptedOf(id, perMinute, s, t, before) {
        TokensAddUp(id, perMinute, s, t, before, enough);
      }
    }
  }

  lemma EnoughTurns(e: real) returns (enough: nat)
    requires e > 0.0
    ensures enough > 0 && enough as real * e >= 1.0
  {
    var inverse := 1.0 / e;
    enough := inverse.Floor + 1;
    assert inverse * e == 1.0;
    assert (enough as real - inverse) * e >= 0.0;
  }

  lemma {:induction false} ZigZagCalls(id: Uuid, perMinute: int, s: real, t: real, n: nat)
    requires s <= t
    ensures BudgetIs(ZigZag(id, perMinute, s, t, n), id, Capacity(perMinute))
    ensures InWindow(ZigZag(id, perMinute, s, t, n), id, s, t)
  {
    if n > 0 {
      ZigZagCalls(id, perMinute, s, t, n - 1);
    }
  }

  /** In a window of any length and on any budget, any number of calls can go through:
      instants are read before the lock is taken, so they may arrive out of order. */
  lemma AnyNumberGoesThrough(id: Uuid, perMinute: int, s: real, t: real, n: nat) returns (calls: seq<Call>)
    requires s < t
    ensures BudgetIs(calls, id, Capacity(perMinute)) && InWindow(calls, id, s, t)
    ensures Accepted(map[], calls, id) >= n
  {
    assert Earned(t - s, Capacity(perMinute)) > 0.0 by { WindowEarns(t - s, Capacity(perMinute)); }
    var enough := EnoughTurns(Earned(t - s, Capacity(perMinute)));
    TurnsAreAccepted(id, perMinute, s, t, enough, n);
    calls := ZigZag(id, perMinute, s, t, n * enough);
    ZigZagCalls(id, perMinute, s, t, n * enough);
    hide ZigZag, Accepted;
  }

  lemma WindowEarns(seconds: real, capacity: real)
    requires seconds > 0.0 && capacity >= 1.0
    ensures Earned(seconds, capacity) > 0.0
  {
  }

  /** The documented budget over a window, for calls that may arrive in any order. */
  ghost predicate WindowIsBounded(id: Uuid, perMinute: int, s: real, t: real) {
    var capacity := Capacity(perMinute);
    forall buckets: Buckets, calls: seq<Call> |
      NoDebt(buckets) && BudgetIs(calls, id, capacity) && InWindow(calls, id, s, t) ::
      Accepted(buckets, calls, id) as real <= capacity + Earned(t - s, capacity)
  }

  /** Without lock order the documented budget holds over a window if and only if the
      window is a single instant. */
  lemma WindowIsBoundedIffAnInstant(id: Uuid, perMinute: int, s: real, t: real)
    requires s <= t
    ensures WindowIsBounded(id, perMinute, s, t) <==> s == t
  {
    var capacity := Capacity(perMinute);
    if s == t {
      forall buckets: Buckets, calls: seq<Call> |
        NoDebt(buckets) && BudgetIs(calls, id, capacity) && InWindow(calls, id, s, t)
        ensures Accepted(buckets, calls, id) as real <= capacity + Earned(t - s, capacity)
      {
        hide Accepted, NoDebt, BudgetIs, Earned;
        InstantsAreInOrder(calls, id, s);
        StretchInOrderIsBounded(buckets, calls, id, capacity, s, t);
      }
    } else {
      var bound := capacity + Earned(t - s, capacity);
      EarnedIsPositive(t - s, capacity);
      hide Accepted, BudgetIs, InWindow, Earned;
      var calls := AnyNumberGoesThrough(id, perMinute, s, t, bound.Floor + 1);
      var none: Buckets := map[];
      assert NoDebt(none);
      assert Accepted(none, calls, id) as real > bound;
    }
  }

  lemma InstantsAreInOrder(calls: seq<Call>, id: Uuid, s: real)
    requires InWindow(calls, id, s, s)
    ensures InOrder(calls, id)
  {
  }
}
