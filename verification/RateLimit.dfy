/** The reservation script: a fixed window per key, several keys at once, as one atomic step at a given time. */
module RateLimit {
  import opened Options

  type Key = string
  type Time = int

  /** Times and windows are in milliseconds; a window shorter than one millisecond arrives as zero. */
  datatype Rule = Rule(key: Key, limit: nat, window: nat)

  datatype Counter = Counter(count: int, expires: Option<Time>)

  type Db = map<Key, Counter>

  datatype Reply = Reply(allowed: bool, retry: nat)

  // ----- the store's commands -----

  predicate Live(db: Db, k: Key, now: Time) {
    k in db && (db[k].expires.Some? ==> now < db[k].expires.value)
  }

  function Count(db: Db, k: Key, now: Time): int {
    if Live(db, k, now) then db[k].count else 0
  }

  /** Remaining lifetime; negative for a key that is absent or never expires. */
  function Ttl(db: Db, k: Key, now: Time): int {
    if !Live(db, k, now) then -2 else if db[k].expires.None? then -1 else db[k].expires.value - now
  }

  /** Expiring at once deletes. */
  function Expire(db: Db, k: Key, window: int, now: Time): Db {
    if !Live(db, k, now) then db
    else if window <= 0 then db - {k}
    else db[k := db[k].(expires := Some(now + window))]
  }

  function Increment(db: Db, k: Key, now: Time): Db {
    if Live(db, k, now) then db[k := db[k].(count := db[k].count + 1)] else db[k := Counter(1, None)]
  }

  // ----- the script -----

  /** Looks at one rule of the first pass. */
  function Check(db: Db, retry: nat, rule: Rule, now: Time): (Db, nat) {
    if Count(db, rule.key, now) < rule.limit then (db, retry)
    else
      var ttl := Ttl(db, rule.key, now);
      var fixed := if ttl <= 0 then Expire(db, rule.key, rule.window, now) else db;
      var wait := if ttl <= 0 then rule.window else ttl;
      (fixed, if wait > retry then wait else retry)
  }

  function CheckAll(db: Db, rules: seq<Rule>, now: Time): (Db, nat) {
    if rules == [] then (db, 0)
    else
      var (before, retry) := CheckAll(db, rules[..|rules| - 1], now);
      Check(before, retry, rules[|rules| - 1], now)
  }

  function Take(db: Db, rule: Rule, now: Time): Db {
    var counted := Increment(db, rule.key, now);
    if counted[rule.key].count == 1 then Expire(counted, rule.key, rule.window, now) else counted
  }

  function TakeAll(db: Db, rules: seq<Rule>, now: Time): Db {
    if rules == [] then db else Take(TakeAll(db, rules[..|rules| - 1], now), rules[|rules| - 1], now)
  }

  function Reserve(db: Db, rules: seq<Rule>, now: Time): (Db, Reply) {
    var (checked, retry) := CheckAll(db, rules, now);
    if retry > 0 then (checked, Reply(false, retry)) else (TakeAll(checked, rules, now), Reply(true, 0))
  }

  class Redis {
    var db: Db

    constructor ()
      ensures db == map[]
    {
      db := map[];
    }

    /** The two passes of the script. */
    method ReserveRateLimit(rules: seq<Rule>, now: Time) returns (reply: Reply)
      modifies this
      ensures (db, reply) == Reserve(old(db), rules, now)
    {
      var retry := 0;
      for i := 0 to |rules|
        invariant (db, retry) == CheckAll(old(db), rules[..i], now)
      {
        assert rules[..i + 1][..i] == rules[..i];
        var rule := rules[i];
        if Count(db, rule.key, now) >= rule.limit {
          var ttl := Ttl(db, rule.key, now);
          if ttl <= 0 {
            ttl := rule.window;
            db := Expire(db, rule.key, ttl, now);
          }
          if ttl > retry {
            retry := ttl;
          }
        }
      }
      assert rules[..|rules|] == rules;
      if retry > 0 {
        return Reply(false, retry);
      }
      ghost var checked := db;
      for i := 0 to |rules|
        invariant db == TakeAll(checked, rules[..i], now)
      {
        assert rules[..i + 1][..i] == rules[..i];
        var rule := rules[i];
        db := Increment(db, rule.key, now);
        if db[rule.key].count == 1 {
          db := Expire(db, rule.key, rule.window, now);
        }
      }
      return Reply(true, 0);
    }
  }
}

/** What the limiter guarantees over whole histories of calls. */
module RateLimitTheorems {
  import opened Options
  import opened RateLimit

  predicate DistinctKeys(rules: seq<Rule>) {
    forall i, j :: 0 <= i < j < |rules| ==> rules[i].key != rules[j].key
  }

  /** What the caller's check demands; a window may still arrive as zero milliseconds. */
  predicate GoodRules(rules: seq<Rule>) {
    DistinctKeys(rules) && forall i :: 0 <= i < |rules| ==> rules[i].limit > 0
  }

  /** Every counter is positive and will expire. */
  predicate Mortal(db: Db) {
    forall k :: k in db ==> db[k].expires.Some? && db[k].count > 0
  }

  predicate Full(db: Db, rule: Rule, now: Time) {
    Count(db, rule.key, now) >= rule.limit
  }

  lemma {:induction false} CheckAllFacts(db: Db, rules: seq<Rule>, now: Time)
    requires Mortal(db) && GoodRules(rules)
    ensures CheckAll(db, rules, now).0 == db
    ensures forall i :: 0 <= i < |rules| && Full(db, rules[i], now) ==> 0 < Ttl(db, rules[i].key, now) <= CheckAll(db, rules, now).1
    ensures CheckAll(db, rules, now).1 > 0 ==>
              exists i :: 0 <= i < |rules| && Full(db, rules[i], now) && Ttl(db, rules[i].key, now) == CheckAll(db, rules, now).1
    decreases |rules|
  {
    if rules != [] {
      var n := |rules| - 1;
      CheckAllFacts(db, rules[..n], now);
      var retry := CheckAll(db, rules[..n], now).1;
      if retry > 0 {
        var i :| 0 <= i < n && Full(db, rules[..n][i], now) && Ttl(db, rules[..n][i].key, now) == retry;
        assert Full(db, rules[i], now) && Ttl(db, rules[i].key, now) == retry;
      }
      forall i | 0 <= i < n && Full(db, rules[i], now)
        ensures 0 < Ttl(db, rules[i].key, now) <= CheckAll(db, rules, now).1
      {
        assert rules[..n][i] == rules[i];
      }
      assert Full(db, rules[n], now) ==> Ttl(db, rules[n].key, now) > 0;
    }
  }

  function Lookup(db: Db, k: Key): Option<Counter> {
    if k in db then Some(db[k]) else None
  }

  /**
   The state of one key after an admitted call: counted once, in a fresh window if the old one had passed. A fresh
   window of no length is forgotten at once.
   */
  function Taken(db: Db, rule: Rule, now: Time): Option<Counter> {
    if Live(db, rule.key, now) then Some(db[rule.key].(count := db[rule.key].count + 1))
    else if rule.window > 0 then Some(Counter(1, Some(now + rule.window)))
    else None
  }

  lemma TakeOne(db: Db, rule: Rule, now: Time)
    requires Mortal(db)
    ensures Lookup(Take(db, rule, now), rule.key) == Taken(db, rule, now)
    ensures forall k :: k != rule.key ==> Lookup(Take(db, rule, now), k) == Lookup(db, k)
    ensures Mortal(Take(db, rule, now))
  {
  }

  predicate Uses(rules: seq<Rule>, k: Key) {
    exists i :: 0 <= i < |rules| && rules[i].key == k
  }

  lemma {:induction false} TakeAllMortal(db: Db, rules: seq<Rule>, now: Time)
    requires Mortal(db) && GoodRules(rules)
    ensures Mortal(TakeAll(db, rules, now))
    decreases |rules|
  {
    if rules != [] {
      TakeAllMortal(db, rules[..|rules| - 1], now);
      TakeOne(TakeAll(db, rules[..|rules| - 1], now), rules[|rules| - 1], now);
    }
  }

  lemma {:induction false} TakeAllOther(db: Db, rules: seq<Rule>, now: Time, k: Key)
    requires Mortal(db) && GoodRules(rules) && !Uses(rules, k)
    ensures Lookup(TakeAll(db, rules, now), k) == Lookup(db, k)
    decreases |rules|
  {
    if rules != [] {
      var n := |rules| - 1;
      assert forall i :: 0 <= i < n ==> rules[..n][i] == rules[i];
      TakeAllOther(db, rules[..n], now, k);
      TakeAllMortal(db, rules[..n], now);
      TakeOne(TakeAll(db, rules[..n], now), rules[n], now);
      assert rules[n].key != k;
    }
  }

  lemma {:induction false} TakeAllAt(db: Db, rules: seq<Rule>, now: Time, i: nat)
    requires Mortal(db) && GoodRules(rules) && i < |rules|
    ensures Lookup(TakeAll(db, rules, now), rules[i].key) == Taken(db, rules[i], now)
    decreases |rules|
  {
    var n := |rules| - 1;
    var before := TakeAll(db, rules[..n], now);
    TakeAllMortal(db, rules[..n], now);
    TakeOne(before, rules[n], now);
    if i < n {
      TakeAllAt(db, rules[..n], now, i);
      assert rules[i].key != rules[n].key;
    } else {
      TakeAllOther(db, rules[..n], now, rules[n].key);
    }
  }

  /** All or nothing: refused exactly when some key is full, and then nothing is counted; else every key counts once. */
  lemma AllOrNothing(db: Db, rules: seq<Rule>, now: Time)
    requires Mortal(db) && GoodRules(rules)
    ensures !Reserve(db, rules, now).1.allowed <==> exists i :: 0 <= i < |rules| && Full(db, rules[i], now)
    ensures !Reserve(db, rules, now).1.allowed ==> Reserve(db, rules, now).0 == db
    ensures Reserve(db, rules, now).1.allowed ==>
              forall i :: 0 <= i < |rules| ==> Lookup(Reserve(db, rules, now).0, rules[i].key) == Taken(db, rules[i], now)
    ensures forall k :: !Uses(rules, k) ==> Lookup(Reserve(db, rules, now).0, k) == Lookup(db, k)
    ensures Mortal(Reserve(db, rules, now).0)
  {
    CheckAllFacts(db, rules, now);
    TakeAllMortal(db, rules, now);
    forall i | 0 <= i < |rules| ensures Lookup(TakeAll(db, rules, now), rules[i].key) == Taken(db, rules[i], now) {
      TakeAllAt(db, rules, now, i);
    }
    forall k | !Uses(rules, k) ensures Lookup(TakeAll(db, rules, now), k) == Lookup(db, k) {
      TakeAllOther(db, rules, now, k);
    }
  }

  /** Waiting for the announced delay is enough: with no other admission in between, the retry is admitted. */
  lemma RetryAfterDelaySucceeds(db: Db, rules: seq<Rule>, now: Time, later: Time)
    requires Mortal(db) && GoodRules(rules) && !Reserve(db, rules, now).1.allowed
    requires later >= now + Reserve(db, rules, now).1.retry
    ensures Reserve(Reserve(db, rules, now).0, rules, later).1.allowed
  {
    CheckAllFacts(db, rules, now);
    AllOrNothing(db, rules, now);
    AllOrNothing(db, rules, later);
    forall i | 0 <= i < |rules| ensures !Full(db, rules[i], later) {
      if Full(db, rules[i], now) {
        assert Ttl(db, rules[i].key, now) <= Reserve(db, rules, now).1.retry;
      }
    }
  }

  /** And no shorter delay is: until then the key that caused it stays full. */
  lemma RetryBeforeDelayFails(db: Db, rules: seq<Rule>, now: Time, early: Time)
    requires Mortal(db) && GoodRules(rules) && !Reserve(db, rules, now).1.allowed
    requires now <= early < now + Reserve(db, rules, now).1.retry
    ensures !Reserve(Reserve(db, rules, now).0, rules, early).1.allowed
  {
    CheckAllFacts(db, rules, now);
    AllOrNothing(db, rules, now);
    var i :| 0 <= i < |rules| && Full(db, rules[i], now) && Ttl(db, rules[i].key, now) == Reserve(db, rules, now).1.retry;
    assert Full(db, rules[i], early);
    AllOrNothing(db, rules, early);
  }

  // ----- histories -----

  datatype Call = Call(rules: seq<Rule>, now: Time)

  function Run(calls: seq<Call>): Db
    decreases |calls|
  {
    if calls == [] then map[]
    else Reserve(Run(calls[..|calls| - 1]), calls[|calls| - 1].rules, calls[|calls| - 1].now).0
  }

  predicate Admits(calls: seq<Call>, n: nat, k: Key)
    requires n < |calls|
  {
    Reserve(Run(calls[..n]), calls[n].rules, calls[n].now).1.allowed && Uses(calls[n].rules, k)
  }

  /** When calls using key `k` were admitted, oldest first. */
  function Admissions(calls: seq<Call>, k: Key): seq<Time>
    decreases |calls|
  {
    if calls == [] then []
    else
      var n := |calls| - 1;
      Admissions(calls[..n], k) + if Admits(calls, n, k) then [calls[n].now] else []
  }

  /** One rule per key throughout, distinct keys in each call, and a clock that does not go back. */
  ghost predicate Regular(calls: seq<Call>, rule: Rule) {
    && (forall n :: 0 <= n < |calls| ==> GoodRules(calls[n].rules))
    && (forall m, n :: 0 <= m < n < |calls| ==> calls[m].now <= calls[n].now)
    && (forall n :: 0 <= n < |calls| ==> KeepsRule(calls[n].rules, rule))
  }

  predicate KeepsRule(rules: seq<Rule>, rule: Rule) {
    forall i :: 0 <= i < |rules| && rules[i].key == rule.key ==> rules[i] == rule
  }

  /**
   The windows behind the admissions of a key: `starts[i]` is when the window that admission `i` was counted in
   began. A window holds at most `limit` admissions, and the next one begins after it has passed.
   */
  ghost predicate Windows(times: seq<Time>, starts: seq<Time>, rule: Rule) {
    && |starts| == |times|
    && (forall i :: 0 <= i < |times| ==> starts[i] <= times[i] < starts[i] + rule.window)
    && (forall i, j :: 0 <= i < j < |times| ==> times[i] <= times[j])
    && (forall i, j :: 0 <= i < j < |times| ==> starts[i] == starts[j] || starts[j] >= starts[i] + rule.window)
    && forall i, j :: 0 <= i && i + rule.limit <= j < |times| ==> starts[j] >= starts[i] + rule.window
  }

  /** The stored counter is the last window: its admissions are the last ones, and none are older than its start. */
  ghost predicate Current(db: Db, times: seq<Time>, starts: seq<Time>, rule: Rule, now: Time) {
    && (forall i :: 0 <= i < |times| ==> times[i] <= now)
    && (rule.key !in db ==> times == [])
    && (rule.key in db ==> LastWindow(db[rule.key], starts, rule, now))
  }

  ghost predicate LastWindow(counter: Counter, starts: seq<Time>, rule: Rule, now: Time) {
    && 0 < counter.count <= rule.limit && counter.count <= |starts| && counter.expires.Some?
    && counter.expires.value - rule.window <= now
    && (forall i :: |starts| - counter.count <= i < |starts| ==> starts[i] == counter.expires.value - rule.window)
    && (forall i :: 0 <= i < |starts| - counter.count ==> starts[i] + rule.window <= counter.expires.value - rule.window)
  }

  lemma Idle(rule: Rule, starts: seq<Time>, db: Db, times: seq<Time>, before: Time, now: Time)
    requires Windows(times, starts, rule) && Current(db, times, starts, rule, before) && before <= now
    ensures Current(db, times, starts, rule, now)
  {
  }

  /** Adding an admission counted in a window that began at `start`. */
  lemma ExtendWindows(times: seq<Time>, starts: seq<Time>, rule: Rule, start: Time, now: Time)
    requires Windows(times, starts, rule) && rule.limit > 0 && start <= now < start + rule.window
    requires forall i :: 0 <= i < |times| ==> times[i] <= now
    requires forall i :: 0 <= i < |times| ==> starts[i] == start || start >= starts[i] + rule.window
    requires forall i :: 0 <= i <= |times| - rule.limit ==> start >= starts[i] + rule.window
    ensures Windows(times + [now], starts + [start], rule)
  {
  }

  /** An admission in a window that still has room. */
  lemma AdmitLive(db: Db, times: seq<Time>, starts: seq<Time>, rule: Rule, now: Time)
    requires Windows(times, starts, rule) && Current(db, times, starts, rule, now) && rule.limit > 0
    requires Live(db, rule.key, now) && !Full(db, rule, now)
    ensures var counter := db[rule.key];
            && Windows(times + [now], starts + [counter.expires.value - rule.window], rule)
            && LastWindow(counter.(count := counter.count + 1), starts + [counter.expires.value - rule.window], rule, now)
  {
    ExtendWindows(times, starts, rule, db[rule.key].expires.value - rule.window, now);
  }

  /** An admission that opens a window, the previous one having passed. */
  lemma AdmitNew(db: Db, times: seq<Time>, starts: seq<Time>, rule: Rule, now: Time)
    requires Windows(times, starts, rule) && Current(db, times, starts, rule, now) && rule.limit > 0 && rule.window > 0
    requires !Live(db, rule.key, now)
    ensures Windows(times + [now], starts + [now], rule)
    ensures LastWindow(Counter(1, Some(now + rule.window)), starts + [now], rule, now)
  {
    assert forall i :: 0 <= i < |times| ==> now >= starts[i] + rule.window;
    ExtendWindows(times, starts, rule, now, now);
  }

  /** An admission extends the current window or opens the next. */
  lemma Admission(db: Db, times: seq<Time>, starts: seq<Time>, rule: Rule, now: Time, db': Db) returns (starts': seq<Time>)
    requires Windows(times, starts, rule) && Current(db, times, starts, rule, now) && rule.limit > 0 && rule.window > 0
    requires !Full(db, rule, now) && Lookup(db', rule.key) == Taken(db, rule, now)
    ensures Windows(times + [now], starts', rule) && Current(db', times + [now], starts', rule, now)
  {
    if Live(db, rule.key, now) {
      AdmitLive(db, times, starts, rule, now);
      starts' := starts + [db[rule.key].expires.value - rule.window];
    } else {
      AdmitNew(db, times, starts, rule, now);
      starts' := starts + [now];
    }
  }

  /** One more call, seen from one key. */
  lemma HistoryStep(db: Db, times: seq<Time>, starts: seq<Time>, rule: Rule, rules: seq<Rule>, now: Time) returns (starts': seq<Time>)
    requires Mortal(db) && GoodRules(rules) && KeepsRule(rules, rule) && rule.limit > 0 && rule.window > 0
    requires Windows(times, starts, rule) && Current(db, times, starts, rule, now)
    ensures var (db', reply) := Reserve(db, rules, now);
            var times' := if reply.allowed && Uses(rules, rule.key) then times + [now] else times;
            Mortal(db') && Windows(times', starts', rule) && Current(db', times', starts', rule, now)
  {
    AllOrNothing(db, rules, now);
    starts' := starts;
    var (db', reply) := Reserve(db, rules, now);
    if reply.allowed {
      if Uses(rules, rule.key) {
        var i :| 0 <= i < |rules| && rules[i].key == rule.key;
        assert rules[i] == rule;
        starts' := Admission(db, times, starts, rule, now, db');
      } else {
        assert Lookup(db', rule.key) == Lookup(db, rule.key);
      }
    }
  }

  lemma RegularPrefix(calls: seq<Call>, rule: Rule, n: nat)
    requires Regular(calls, rule) && n <= |calls|
    ensures Regular(calls[..n], rule)
  {
  }

  /** The state of one key after a history. */
  ghost predicate Explained(calls: seq<Call>, rule: Rule, starts: seq<Time>) {
    && Mortal(Run(calls)) && Windows(Admissions(calls, rule.key), starts, rule)
    && (calls != [] ==> Current(Run(calls), Admissions(calls, rule.key), starts, rule, calls[|calls| - 1].now))
  }

  lemma AdmissionsStep(calls: seq<Call>, k: Key)
    requires calls != []
    ensures var n := |calls| - 1;
            var (db', reply) := Reserve(Run(calls[..n]), calls[n].rules, calls[n].now);
            && Run(calls) == db'
            && Admissions(calls, k) == if reply.allowed && Uses(calls[n].rules, k) then Admissions(calls[..n], k) + [calls[n].now]
                                       else Admissions(calls[..n], k)
  {
  }

  lemma OneMore(calls: seq<Call>, rule: Rule, starts: seq<Time>) returns (starts': seq<Time>)
    requires calls != [] && Regular(calls, rule) && rule.limit > 0 && rule.window > 0
    requires Explained(calls[..|calls| - 1], rule, starts)
    ensures Explained(calls, rule, starts')
  {
    var n := |calls| - 1;
    var before := calls[..n];
    if n > 0 {
      assert before[|before| - 1] == calls[n - 1];
      Idle(rule, starts, Run(before), Admissions(before, rule.key), calls[n - 1].now, calls[n].now);
    }
    AdmissionsStep(calls, rule.key);
    starts' := HistoryStep(Run(before), Admissions(before, rule.key), starts, rule, calls[n].rules, calls[n].now);
  }

  lemma {:induction false} History(calls: seq<Call>, rule: Rule) returns (starts: seq<Time>)
    requires Regular(calls, rule) && rule.limit > 0 && rule.window > 0
    ensures Explained(calls, rule, starts)
    decreases |calls|
  {
    if calls == [] {
      starts := [];
    } else {
      RegularPrefix(calls, rule, |calls| - 1);
      starts := History(calls[..|calls| - 1], rule);
      starts := OneMore(calls, rule, starts);
    }
  }

  /** Any `2 * limit + 1` consecutive admissions of a key span more than one window length. */
  lemma AtMostTwiceTheLimit(calls: seq<Call>, rule: Rule, i: nat, j: nat)
    requires Regular(calls, rule) && rule.limit > 0 && rule.window > 0
    requires i + 2 * rule.limit <= j < |Admissions(calls, rule.key)|
    ensures Admissions(calls, rule.key)[j] - Admissions(calls, rule.key)[i] > rule.window
  {
    var starts := History(calls, rule);
    var mid := i + rule.limit;
    assert starts[mid] >= starts[i] + rule.window && starts[j] >= starts[mid] + rule.window;
  }

  /** A refusal is deserved: some key of the call was used `limit` times within the last window. */
  lemma RefusalIsDeserved(calls: seq<Call>, n: nat, i: nat)
    requires n < |calls| && i < |calls[n].rules| && Regular(calls, calls[n].rules[i])
    requires Full(Run(calls[..n]), calls[n].rules[i], calls[n].now)
    ensures var rule := calls[n].rules[i];
            var times := Admissions(calls[..n], rule.key);
            |times| >= rule.limit && forall m :: |times| - rule.limit <= m < |times| ==> calls[n].now - rule.window < times[m]
  {
    var rule := calls[n].rules[i];
    assert GoodRules(calls[n].rules);
    RegularPrefix(calls, rule, n);
    if rule.window == 0 {
      ZeroWindowNeverRefuses(calls[..n], rule, calls[n].now);
    }
    var starts := History(calls[..n], rule);
    assert n > 0;
  }

  // ----- windows below a millisecond -----

  lemma {:induction false} RunMortal(calls: seq<Call>)
    requires forall n :: 0 <= n < |calls| ==> GoodRules(calls[n].rules)
    ensures Mortal(Run(calls))
    decreases |calls|
  {
    if calls != [] {
      var n := |calls| - 1;
      RunMortal(calls[..n]);
      AllOrNothing(Run(calls[..n]), calls[n].rules, calls[n].now);
    }
  }

  lemma {:induction false} ZeroWindowUncounted(calls: seq<Call>, rule: Rule)
    requires Regular(calls, rule) && rule.window == 0
    ensures Mortal(Run(calls)) && rule.key !in Run(calls)
    decreases |calls|
  {
    if calls != [] {
      var n := |calls| - 1;
      RegularPrefix(calls, rule, n);
      ZeroWindowUncounted(calls[..n], rule);
      AllOrNothing(Run(calls[..n]), calls[n].rules, calls[n].now);
      assert Lookup(Run(calls), rule.key) == None by {
        if Uses(calls[n].rules, rule.key) {
          var i :| 0 <= i < |calls[n].rules| && calls[n].rules[i].key == rule.key;
          assert calls[n].rules[i] == rule;
        }
      }
    }
  }

  /** After any history whatever, a rule with a window below one millisecond never refuses: each call is forgotten at once. */
  lemma ZeroWindowNeverRefuses(calls: seq<Call>, rule: Rule, now: Time)
    requires Regular(calls, rule) && rule.limit > 0 && rule.window == 0
    ensures !Full(Run(calls), rule, now)
    ensures Reserve(Run(calls), [rule], now) == (Run(calls), Reply(true, 0))
  {
    ZeroWindowUncounted(calls, rule);
    var db := Run(calls);
    assert [rule][..0] == [];
    assert CheckAll(db, [rule], now) == (db, 0);
    assert TakeAll(db, [rule], now) == Take(db, rule, now);
    assert Increment(db, rule.key, now) - {rule.key} == db;
  }

  /** So whatever refuses a call has a window of at least one millisecond. */
  lemma OnlyWindowsRefuse(calls: seq<Call>, rules: seq<Rule>, now: Time)
    requires GoodRules(rules) && forall i :: 0 <= i < |rules| ==> Regular(calls, rules[i])
    requires !Reserve(Run(calls), rules, now).1.allowed
    ensures exists i :: 0 <= i < |rules| && Full(Run(calls), rules[i], now) && rules[i].window > 0
  {
    RunMortal(calls);
    AllOrNothing(Run(calls), rules, now);
    var i :| 0 <= i < |rules| && Full(Run(calls), rules[i], now);
    if rules[i].window == 0 {
      ZeroWindowNeverRefuses(calls, rules[i], now);
    }
  }

  /** In every history, any `2 * limit + 1` consecutive admissions span more than one window length. */
  ghost predicate BoundHolds(rule: Rule) {
    forall calls, i: nat, j: nat :: Regular(calls, rule) && i + 2 * rule.limit <= j < |Admissions(calls, rule.key)| ==>
      Admissions(calls, rule.key)[j] - Admissions(calls, rule.key)[i] > rule.window
  }

  /** The same call again and again, all at one instant. */
  function Burst(rule: Rule, n: nat): seq<Call> {
    seq(n, _ => Call([rule], 0))
  }

  lemma {:induction false} BurstAdmitted(rule: Rule, n: nat)
    requires rule.limit > 0 && rule.window == 0
    ensures Regular(Burst(rule, n), rule)
    ensures Admissions(Burst(rule, n), rule.key) == seq(n, _ => 0)
  {
    if n > 0 {
      var calls := Burst(rule, n);
      assert calls[..n - 1] == Burst(rule, n - 1);
      BurstAdmitted(rule, n - 1);
      ZeroWindowNeverRefuses(Burst(rule, n - 1), rule, 0);
      AdmissionsStep(calls, rule.key);
      assert Uses([rule], rule.key) by {
        assert [rule][0].key == rule.key;
      }
    }
  }

  /** The admission bound holds in all histories if and only if the window lasts at least one millisecond. */
  lemma BoundHoldsExactly(rule: Rule)
    requires rule.limit > 0
    ensures BoundHolds(rule) <==> rule.window > 0
  {
    if rule.window > 0 {
      forall calls, i: nat, j: nat | Regular(calls, rule) && i + 2 * rule.limit <= j < |Admissions(calls, rule.key)|
        ensures Admissions(calls, rule.key)[j] - Admissions(calls, rule.key)[i] > rule.window
      {
        AtMostTwiceTheLimit(calls, rule, i, j);
      }
    } else {
      var n := 2 * rule.limit + 1;
      BurstAdmitted(rule, n);
      var times := Admissions(Burst(rule, n), rule.key);
      assert times[n - 1] - times[0] == 0;
    }
  }
}
