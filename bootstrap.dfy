/**
 * The cached, retrying database-connection bootstrap of the backend
 * (`connectToDatabase` and the `disconnected` observer it registers).
 *
 * The driver's connect call is replaced by a sequence of outcomes, one per
 * attempt; the driver's `isConnected()` probe by a boolean; the backoff
 * timer by a ghost trace of the attempts made and the delays waited.
 */
module Bootstrap {
  import opened Optional

  /** An established database session (`mongoose.connection.db`). */
  datatype Db = Db(id: nat)

  /**
   * An error value, thrown or passed on: its `message` property, which a
   * value without one (a bare string, a plain object) does not have.
   */
  datatype Failure = Failure(message: Option<string>)

  /** What one call of the driver's connect yields. */
  datatype Outcome = Ok(db: Db) | Err(error: Failure)

  /** What a call of `connectToDatabase` resolves to or rejects with. */
  datatype Result = Success(db: Db) | Thrown(error: Failure)

  /** One observable step of a call: connect attempt number `n` (from 1), or a backoff wait. */
  datatype Step = Attempt(n: nat) | Sleep(ms: nat)

  /** The observers registered on the driver's connection after a successful connect. */
  datatype Listener = LogError | ClearCacheOnDisconnect

  /** The result of one call together with the steps it took. */
  datatype Call = Call(result: Result, steps: seq<Step>)

  const MaxRetries: nat := 3
  const BaseDelay: nat := 100

  function Pow2(n: nat): (p: nat)
    ensures p >= 1
  {
    if n == 0 then 1 else 2 * Pow2(n - 1)
  }

  /** The wait after the `retries`-th failed attempt: `Math.pow(2, retries) * 100`. */
  function Backoff(retries: nat): (delay: nat)
    ensures delay >= BaseDelay
    ensures retries > 0 ==> delay == 2 * Backoff(retries - 1)
  {
    Pow2(retries) * BaseDelay
  }

  /**
   * The retry loop, entered with `retries` attempts already failed: attempt
   * number `retries + 1` is made with `outcomes[retries]`; a failure that
   * leaves attempts to spare waits `Backoff(retries + 1)` and goes round
   * again, the last failure is rethrown.
   */
  function Retry(outcomes: seq<Outcome>, retries: nat): (c: Call)
    requires retries < MaxRetries <= |outcomes|
    ensures c.steps != [] && c.steps[0] == Attempt(retries + 1)
    ensures c.result.Success? ==> Ok(c.result.db) in outcomes[retries..MaxRetries]
    ensures c.result.Thrown? ==> outcomes[MaxRetries - 1] == Err(c.result.error)
    decreases MaxRetries - retries
  {
    var n := retries + 1;
    match outcomes[retries]
    case Ok(db) => Call(Success(db), [Attempt(n)])
    case Err(e) =>
      if n < MaxRetries then
        var rest := Retry(outcomes, n);
        Call(rest.result, [Attempt(n), Sleep(Backoff(n))] + rest.steps)
      else
        Call(Thrown(e), [Attempt(n)])
  }

  /**
   * One call of `connectToDatabase` from cache `cached`, with liveness probe
   * `alive`: the cached handle when there is one and it is alive, otherwise
   * the retry loop from no failures.
   */
  function Connect(cached: Option<Db>, alive: bool, outcomes: seq<Outcome>): (c: Call)
    requires MaxRetries <= |outcomes|
    ensures c.result.Success? ==> cached == Some(c.result.db) || Ok(c.result.db) in outcomes[..MaxRetries]
    ensures c.result.Thrown? ==> outcomes[MaxRetries - 1] == Err(c.result.error) && c.steps != []
  {
    if cached.Some? && alive then Call(Success(cached.value), [])
    else Retry(outcomes, 0)
  }

  /** The call established a new connection (rather than reusing the cache). */
  predicate NewConnection(c: Call)
  {
    c.result.Success? && c.steps != []
  }

  /** The cache after call `c` made from cache `cached`. */
  function CacheAfter(cached: Option<Db>, c: Call): Option<Db>
  {
    if c.result.Success? then Some(c.result.db) else cached
  }

  /** The observers call `c` registers. */
  function Registered(c: Call): seq<Listener>
  {
    if NewConnection(c) then [LogError, ClearCacheOnDisconnect] else []
  }

  function AttemptCount(s: seq<Step>): nat
  {
    if s == [] then 0 else (if s[0].Attempt? then 1 else 0) + AttemptCount(s[1..])
  }

  function TotalWait(s: seq<Step>): nat
  {
    if s == [] then 0 else (if s[0].Sleep? then s[0].ms else 0) + TotalWait(s[1..])
  }

  /** The most a retry loop entered with `retries` failures can wait in all. */
  function MaxWait(retries: nat): nat
    decreases MaxRetries - retries
  {
    if retries + 1 < MaxRetries then Backoff(retries + 1) + MaxWait(retries + 1) else 0
  }

  lemma StepsPrefix(a: Step, b: Step, rest: seq<Step>)
    ensures AttemptCount([a, b] + rest) == AttemptCount([a]) + AttemptCount([b]) + AttemptCount(rest)
    ensures TotalWait([a, b] + rest) == TotalWait([a]) + TotalWait([b]) + TotalWait(rest)
  {
  }

  /** The loop makes between one and `MaxRetries - retries` attempts. */
  lemma {:induction false} AttemptBound(outcomes: seq<Outcome>, retries: nat)
    requires retries < MaxRetries <= |outcomes|
    ensures 1 <= AttemptCount(Retry(outcomes, retries).steps) <= MaxRetries - retries
    decreases MaxRetries - retries
  {
    var n := retries + 1;
    if outcomes[retries].Err? && n < MaxRetries {
      var rest := Retry(outcomes, n);
      AttemptBound(outcomes, n);
      StepsPrefix(Attempt(n), Sleep(Backoff(n)), rest.steps);
    }
  }

  /**
   * The loop stops at the first successful attempt: every attempt before the
   * last one failed, a success returns the db of the last attempt, and an
   * error is thrown only once every attempt has failed, and it is the error
   * of the last attempt.
   */
  lemma {:induction false} StopsAtFirstSuccess(outcomes: seq<Outcome>, retries: nat)
    requires retries < MaxRetries <= |outcomes|
    ensures var c := Retry(outcomes, retries);
      var k := AttemptCount(c.steps);
      1 <= k && retries + k <= MaxRetries &&
      (forall i :: retries <= i < retries + k - 1 ==> outcomes[i].Err?) &&
      (c.result.Success? ==> outcomes[retries + k - 1] == Ok(c.result.db)) &&
      (c.result.Thrown? ==> retries + k == MaxRetries && outcomes[MaxRetries - 1] == Err(c.result.error))
    ensures Retry(outcomes, retries).result.Success? <==> exists i :: retries <= i < MaxRetries && outcomes[i].Ok?
    decreases MaxRetries - retries
  {
    var n := retries + 1;
    var c := Retry(outcomes, retries);
    if outcomes[retries].Err? && n < MaxRetries {
      var rest := Retry(outcomes, n);
      StopsAtFirstSuccess(outcomes, n);
      StepsPrefix(Attempt(n), Sleep(Backoff(n)), rest.steps);
      assert AttemptCount(c.steps) == 1 + AttemptCount(rest.steps);
    } else {
      assert AttemptCount(c.steps) == 1;
    }
  }

  /**
   * The steps alternate attempt, wait, attempt, ...: attempts are numbered
   * consecutively from `retries + 1`, the wait after attempt `m` is
   * `Backoff(m)`, and the last step is an attempt, so the failure that ends
   * the loop is not followed by a wait.
   */
  lemma {:induction false} Schedule(outcomes: seq<Outcome>, retries: nat)
    requires retries < MaxRetries <= |outcomes|
    ensures var s := Retry(outcomes, retries).steps;
      |s| == 2 * AttemptCount(s) - 1 &&
      (forall i :: 0 <= i < |s| && i % 2 == 0 ==> s[i] == Attempt(retries + i / 2 + 1)) &&
      (forall i :: 0 <= i < |s| && i % 2 == 1 ==> s[i] == Sleep(Backoff(retries + i / 2 + 1)))
    decreases MaxRetries - retries
  {
    var n := retries + 1;
    var s := Retry(outcomes, retries).steps;
    if outcomes[retries].Err? && n < MaxRetries {
      var rest := Retry(outcomes, n);
      Schedule(outcomes, n);
      StepsPrefix(Attempt(n), Sleep(Backoff(n)), rest.steps);
      assert s == [Attempt(n), Sleep(Backoff(n))] + rest.steps;
      forall i | 2 <= i < |s|
        ensures s[i] == rest.steps[i - 2]
        ensures i / 2 == (i - 2) / 2 + 1 && i % 2 == (i - 2) % 2
      {
      }
    }
  }

  /** The waits of one loop add up to at most `MaxWait(retries)`. */
  lemma {:induction false} WaitBound(outcomes: seq<Outcome>, retries: nat)
    requires retries < MaxRetries <= |outcomes|
    ensures TotalWait(Retry(outcomes, retries).steps) <= MaxWait(retries)
    decreases MaxRetries - retries
  {
    var n := retries + 1;
    if outcomes[retries].Err? && n < MaxRetries {
      var rest := Retry(outcomes, n);
      WaitBound(outcomes, n);
      StepsPrefix(Attempt(n), Sleep(Backoff(n)), rest.steps);
    }
  }

  /** The two waits from a cold start are 200 and then 400. */
  lemma BackoffValues()
    ensures Backoff(1) == 200 && Backoff(2) == 400
    ensures MaxWait(0) == Backoff(1) + Backoff(2) == 600
  {
  }

  /**
   * A call that finds a live cached handle returns it without any attempt or
   * wait; any other call makes at least one attempt.
   */
  lemma CacheHit(cached: Option<Db>, alive: bool, outcomes: seq<Outcome>)
    requires MaxRetries <= |outcomes|
    ensures Connect(cached, alive, outcomes).steps == [] <==> cached.Some? && alive
    ensures cached.Some? && alive ==> Connect(cached, alive, outcomes).result == Success(cached.value)
  {
  }

  /**
   * Whole-call bounds: at most three attempts, at most 600 of waiting, and
   * every wait is 200 or 400.
   */
  lemma CallBounds(cached: Option<Db>, alive: bool, outcomes: seq<Outcome>)
    requires MaxRetries <= |outcomes|
    ensures var s := Connect(cached, alive, outcomes).steps;
      AttemptCount(s) <= MaxRetries && TotalWait(s) <= 600 &&
      forall i :: 0 <= i < |s| && s[i].Sleep? ==> s[i].ms == 200 || s[i].ms == 400
  {
    BackoffValues();
    if !(cached.Some? && alive) {
      AttemptBound(outcomes, 0);
      WaitBound(outcomes, 0);
      Schedule(outcomes, 0);
      var s := Retry(outcomes, 0).steps;
      forall i | 0 <= i < |s| && s[i].Sleep?
        ensures s[i].ms == 200 || s[i].ms == 400
      {
        assert i % 2 == 1;
        assert i / 2 + 1 < MaxRetries;
      }
    }
  }

  /** A cold start whose first two attempts fail connects on the third, after waiting 200 and then 400. */
  lemma FailTwiceThenSucceed(e1: Failure, e2: Failure, db: Db, alive: bool)
    ensures Connect(None, alive, [Err(e1), Err(e2), Ok(db)]) ==
      Call(Success(db), [Attempt(1), Sleep(200), Attempt(2), Sleep(400), Attempt(3)])
  {
  }

  /**
   * When every attempt fails the error of the third is thrown, after the same
   * two waits and none after it; a stale cached handle whose probe fails is
   * left in the cache.
   */
  lemma AllAttemptsFail(cached: Option<Db>, e1: Failure, e2: Failure, e3: Failure)
    ensures var c := Connect(cached, false, [Err(e1), Err(e2), Err(e3)]);
      c == Call(Thrown(e3), [Attempt(1), Sleep(200), Attempt(2), Sleep(400), Attempt(3)]) &&
      CacheAfter(cached, c) == cached && Registered(c) == []
  {
  }

  /** The process-wide connection cache and the observers registered on the driver's connection. */
  class Bootstrapper {
    var cachedDb: Option<Db>
    var listeners: seq<Listener>
    /** Every attempt and every wait taken, over all calls so far. */
    ghost var trace: seq<Step>

    /** A handle is only ever cached together with the observer that clears it on disconnect. */
    ghost predicate Valid()
      reads this
    {
      cachedDb.Some? ==> ClearCacheOnDisconnect in listeners
    }

    constructor ()
      ensures Valid()
      ensures cachedDb == None && listeners == [] && trace == []
    {
      cachedDb := None;
      listeners := [];
      trace := [];
    }

    /** `connectToDatabase`: `alive` is the cached handle's `isConnected()` probe. */
    method ConnectToDatabase(alive: bool, outcomes: seq<Outcome>) returns (r: Result)
      requires Valid()
      requires MaxRetries <= |outcomes|
      modifies this
      ensures Valid()
      ensures r == Connect(old(cachedDb), alive, outcomes).result
      ensures cachedDb == CacheAfter(old(cachedDb), Connect(old(cachedDb), alive, outcomes))
      ensures listeners == old(listeners) + Registered(Connect(old(cachedDb), alive, outcomes))
      ensures trace == old(trace) + Connect(old(cachedDb), alive, outcomes).steps
    {
      if cachedDb.Some? && alive {
        return Success(cachedDb.value);
      }
      ghost var spec := Retry(outcomes, 0);
      assert Connect(old(cachedDb), alive, outcomes) == spec;
      // The steps of this call, added to the trace when the call returns.
      ghost var done: seq<Step> := [];
      ghost var pending := spec;
      var retries: nat := 0;
      var lastError: Option<Failure> := None;
      while retries < MaxRetries
        invariant retries <= MaxRetries
        invariant cachedDb == old(cachedDb) && listeners == old(listeners)
        invariant trace == old(trace)
        invariant retries < MaxRetries ==> pending == Retry(outcomes, retries)
        invariant retries < MaxRetries ==> spec == Call(pending.result, done + pending.steps)
        invariant retries == MaxRetries ==> lastError.Some? && spec == Call(Thrown(lastError.value), done)
        decreases MaxRetries - retries
      {
        done := done + [Attempt(retries + 1)];
        if outcomes[retries].Ok? {
          var db := outcomes[retries].db;
          cachedDb := Some(db);
          listeners := listeners + [LogError, ClearCacheOnDisconnect];
          trace := trace + done;
          return Success(cachedDb.value);
        }
        lastError := Some(outcomes[retries].error);
        retries := retries + 1;
        if retries < MaxRetries {
          var delay := Backoff(retries);
          done := done + [Sleep(delay)];
          pending := Retry(outcomes, retries);
        }
      }
      trace := trace + done;
      return Thrown(lastError.value);
    }

    /** The driver's `disconnected` event: every registered clearing observer drops the cache. */
    method Disconnected()
      requires Valid()
      modifies this
      ensures Valid()
      ensures cachedDb == (if ClearCacheOnDisconnect in old(listeners) then None else old(cachedDb))
      ensures cachedDb == None
      ensures listeners == old(listeners) && trace == old(trace)
    {
      if ClearCacheOnDisconnect in listeners {
        cachedDb := None;
      }
    }
  }

  /**
   * A run of the bootstrapper across calls: a cold connect, a cache hit, a
   * disconnect, and a reconnect after one failure. Each connect registers
   * its two observers again, so they accumulate.
   */
  method ReconnectScenario()
  {
    var boot := new Bootstrapper();
    var handle1, handle2 := Db(1), Db(2);
    var down := Failure(Some("connection refused"));
    var outcomes := [Ok(handle1), Err(down), Err(down)];
    var r := boot.ConnectToDatabase(true, outcomes);
    assert r == Success(handle1) && |boot.listeners| == 2;
    r := boot.ConnectToDatabase(true, outcomes);
    assert r == Success(handle1) && |boot.listeners| == 2;
    assert boot.trace == [Attempt(1)];
    boot.Disconnected();
    r := boot.ConnectToDatabase(true, [Err(down), Ok(handle2), Err(down)]);
    BackoffValues();
    assert r == Success(handle2) && boot.cachedDb == Some(handle2);
    assert |boot.listeners| == 4;
    assert boot.trace == [Attempt(1), Attempt(1), Sleep(200), Attempt(2)];
  }
}
