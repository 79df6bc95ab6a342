/** A model of the retrying REST client of package `client` (client/rest.go).

    `RestClient` holds the configuration of one logical request; its `With*`
    setters update one field each and hand back the same object.  `Do` runs
    the retry loop: it sleeps for the current backoff wait, makes one attempt
    through `call`, stops at the first status below 500 and otherwise counts
    a retry and grows the wait to `intervalSeconds * backoffRate^(i+1)`.  After
    the loop the last attempt's error, or the error of decoding its body, is
    reported with the sentinel status 999; otherwise the last status is.

    The network is replaced by an oracle: the sequence of what each attempt
    meets (`Outcome`), one element per exit of `call`.  JSON decoding is a
    function parameter of `Do`.  Sleeping is recorded, not performed: `Do`
    returns the wait it requested before each attempt, in whole seconds. */
module Client {
  import opened Wrappers

  /** The status `call` and `Do` report for every failure that is not an
      HTTP status of the server. */
  const InternalStatusRequestError: int := 999

  /** `http.StatusInternalServerError`: statuses from here on are retried. */
  const StatusInternalServerError: int := 500

  newtype Byte = x: int | 0 <= x < 256
  type Bytes = seq<Byte>

  /** A Go `error` value; only its identity and message matter here. */
  datatype Error = Error(message: string)

  /** What one attempt of `call` meets in the world: one of its four
      failure exits, or a completed HTTP exchange. */
  datatype Outcome =
    | EncodeFailed(err: Error)      // the request value cannot be encoded as JSON
    | BuildFailed(err: Error)       // http.NewRequest rejects the method or URL
    | SendFailed(err: Error)        // the exchange fails, a deadline included
    | ReadFailed(err: Error)        // the response body cannot be read
    | Completed(statusCode: int, body: Bytes)

  /** The triple `call` returns; `None` stands for Go's nil. */
  datatype AttemptResult = AttemptResult(status: int, body: Option<Bytes>, err: Option<Error>)

  /** The zero values of `Do`'s locals `status`, `resp` and `err`, which
      are what the code after the loop sees when no attempt was made. */
  const NoAttempt: AttemptResult := AttemptResult(0, None, None)

  /** One attempt (`call`): every failure exit gives the sentinel status, no
      body and the error; a completed exchange gives its status and body and
      no error.  So a nil error always comes with a body, and every failure
      lands in the retried range. */
  function Call(o: Outcome): (r: AttemptResult)
    ensures r.err.Some? <==> !o.Completed?
    ensures r.err.Some? ==> r.status == InternalStatusRequestError && r.body == None && r.err == Some(o.err)
    ensures o.Completed? ==> r.status == o.statusCode && r.body == Some(o.body)
    ensures r.err.None? <==> r.body.Some?
    ensures r.err.Some? ==> r.status >= StatusInternalServerError
  {
    match o
    case EncodeFailed(e) => AttemptResult(InternalStatusRequestError, None, Some(e))
    case BuildFailed(e) => AttemptResult(InternalStatusRequestError, None, Some(e))
    case SendFailed(e) => AttemptResult(InternalStatusRequestError, None, Some(e))
    case ReadFailed(e) => AttemptResult(InternalStatusRequestError, None, Some(e))
    case Completed(code, bytes) => AttemptResult(code, Some(bytes), None)
  }

  /** The loop stops after an attempt whose status is below 500. */
  predicate Settles(o: Outcome) {
    Call(o).status < StatusInternalServerError
  }

  /** The 0-based position of the first outcome that stops the loop, or
      `|outcomes|` when none does. */
  function FirstSettled(outcomes: seq<Outcome>): (k: nat)
    ensures k <= |outcomes|
    ensures forall j :: 0 <= j < k ==> !Settles(outcomes[j])
    ensures k < |outcomes| ==> Settles(outcomes[k])
  {
    if outcomes == [] then 0
    else if Settles(outcomes[0]) then 0
    else 1 + FirstSettled(outcomes[1..])
  }

  /** Closed form of the number of attempts `Do` makes: none when
      `maxAttempts <= 0`, otherwise `min(maxAttempts, k)` where `k` is the
      1-based position of the first attempt with a status below 500. */
  function AttemptCount(maxAttempts: int, outcomes: seq<Outcome>): nat {
    if maxAttempts <= 0 then 0
    else if maxAttempts < FirstSettled(outcomes) + 1 then maxAttempts
    else FirstSettled(outcomes) + 1
  }

  /** The number of attempts in `attempts` that are retried (status >= 500). */
  function CountRetried(attempts: seq<Outcome>): nat {
    if attempts == [] then 0
    else CountRetried(attempts[..|attempts| - 1]) + (if Settles(attempts[|attempts| - 1]) then 0 else 1)
  }

  function Pow(b: real, n: nat): real {
    if n == 0 then 1.0 else b * Pow(b, n - 1)
  }

  /** Go's conversion of a float64 to an integer type: drop the fraction,
      rounding toward zero. */
  function TruncateToWholeSeconds(x: real): (n: int)
    ensures 0.0 <= x ==> n as real <= x < n as real + 1.0
    ensures x < 0.0 ==> n as real - 1.0 < x <= n as real
  {
    if x >= 0.0 then x.Floor else -((-x).Floor)
  }

  /** The whole seconds `Do` asks to sleep before attempt `i`: nothing before
      the first, `intervalSeconds * backoffRate^i` truncated before later ones. */
  function WaitBefore(intervalSeconds: real, backoffRate: real, i: nat): int {
    if i == 0 then 0 else TruncateToWholeSeconds(intervalSeconds * Pow(backoffRate, i))
  }

  /** What the code after the loop sees after `calls` attempts. */
  function LastResult(outcomes: seq<Outcome>, calls: nat): AttemptResult
    requires calls <= |outcomes|
  {
    if calls == 0 then NoAttempt else Call(outcomes[calls - 1])
  }

  /** The configuration a `RestClient` holds, as one value. */
  datatype Config = Config(
    httpMethod: string,
    url: string,
    header: map<string, string>,
    maxAttempts: int,
    intervalSeconds: real,
    backoffRate: real,
    timeout: int)

  /** Every field at its Go zero value (a nil header map reads as empty). */
  const ZeroConfig: Config := Config("", "", map[], 0, 0.0, 0.0, 0)

  class RestClient {
    var httpMethod: string
    var url: string
    var header: map<string, string>
    var maxAttempts: int       // int64 in Go; attempts and retries stay below it
    var intervalSeconds: real
    var backoffRate: real
    var timeout: int           // nanoseconds, as a time.Duration

    function Settings(): Config
      reads this
    {
      Config(httpMethod, url, header, maxAttempts, intervalSeconds, backoffRate, timeout)
    }

    /** The zero `RestClient` (`&RestClient{}`). */
    constructor ()
      ensures Settings() == ZeroConfig
    {
      httpMethod, url, header := "", "", map[];
      maxAttempts, intervalSeconds, backoffRate, timeout := 0, 0.0, 0.0, 0;
    }

    method WithMethod(httpMethod': string) returns (r: RestClient)
      modifies this
      ensures r == this && Settings() == old(Settings()).(httpMethod := httpMethod')
    {
      httpMethod := httpMethod';
      r := this;
    }

    method WithURL(url': string) returns (r: RestClient)
      modifies this
      ensures r == this && Settings() == old(Settings()).(url := url')
    {
      url := url';
      r := this;
    }

    method WithHeader(header': map<string, string>) returns (r: RestClient)
      modifies this
      ensures r == this && Settings() == old(Settings()).(header := header')
    {
      header := header';
      r := this;
    }

    method WithIntervalSeconds(intervalSeconds': real) returns (r: RestClient)
      modifies this
      ensures r == this && Settings() == old(Settings()).(intervalSeconds := intervalSeconds')
    {
      intervalSeconds := intervalSeconds';
      r := this;
    }

    method WithBackoffRate(backoffRate': real) returns (r: RestClient)
      modifies this
      ensures r == this && Settings() == old(Settings()).(backoffRate := backoffRate')
    {
      backoffRate := backoffRate';
      r := this;
    }

    method WithMaxAttempts(maxAttempts': int) returns (r: RestClient)
      modifies this
      ensures r == this && Settings() == old(Settings()).(maxAttempts := maxAttempts')
    {
      maxAttempts := maxAttempts';
      r := this;
    }

    method WithTimeout(timeout': int) returns (r: RestClient)
      modifies this
      ensures r == this && Settings() == old(Settings()).(timeout := timeout')
    {
      timeout := timeout';
      r := this;
    }

    /** The retry loop.  `outcomes[i]` is what attempt `i` meets; `decode`
        stands for `json.Unmarshal` into the caller's response value.  Besides
        Go's `(status, err)` and the decoded `response`, it returns how many
        attempts it made, the wait it requested before each, and `retries`. */
    method Do<V>(outcomes: seq<Outcome>, decode: Bytes -> Result<V, Error>)
      returns (status: int, err: Option<Error>, response: Option<V>,
               calls: nat, waits: seq<int>, retries: nat)
      requires maxAttempts <= |outcomes|
      ensures calls == AttemptCount(maxAttempts, outcomes) && calls <= |outcomes|
      ensures forall j :: 0 <= j < calls - 1 ==> !Settles(outcomes[j])
      ensures calls < maxAttempts ==> 0 < calls && Settles(outcomes[calls - 1])
      ensures |waits| == calls
      ensures forall j :: 0 <= j < calls ==> waits[j] == WaitBefore(intervalSeconds, backoffRate, j)
      ensures retries == CountRetried(outcomes[..calls])
      ensures retries == if 0 < calls && Settles(outcomes[calls - 1]) then calls - 1 else calls
      ensures var last := LastResult(outcomes, calls);
        if last.err.Some? then
          status == InternalStatusRequestError && err == last.err && response == None
        else
          match decode(last.body.GetOr([]))
          case Failure(e) => status == InternalStatusRequestError && err == Some(e) && response == None
          case Success(v) => status == last.status && err == None && response == Some(v)
      ensures err.Some? ==> status == InternalStatusRequestError && response == None
      ensures err.None? && 0 < calls ==> outcomes[calls - 1].Completed? && status == outcomes[calls - 1].statusCode
      ensures 0 < calls && status < StatusInternalServerError ==> err == None && Settles(outcomes[calls - 1])
    {
      var last := NoAttempt;
      var sleep := 0.0;
      retries := 0;
      waits := [];
      var i := 0;
      while i < maxAttempts
        invariant 0 <= i && (i <= maxAttempts || i == 0)
        invariant |waits| == i && retries == i
        invariant forall j :: 0 <= j < i ==> waits[j] == WaitBefore(intervalSeconds, backoffRate, j)
        invariant forall j :: 0 <= j < i ==> !Settles(outcomes[j])
        invariant sleep == if i == 0 then 0.0 else intervalSeconds * Pow(backoffRate, i)
        invariant last == LastResult(outcomes, i)
      {
        assert TruncateToWholeSeconds(sleep) == WaitBefore(intervalSeconds, backoffRate, i);
        waits := waits + [TruncateToWholeSeconds(sleep)];
        last := Call(outcomes[i]);
        if last.status < StatusInternalServerError {
          break;
        }
        retries := retries + 1;
        sleep := intervalSeconds * Pow(backoffRate, i + 1);
        i := i + 1;
      }
      calls := |waits|;
      assert last == LastResult(outcomes, calls);
      assert calls == AttemptCount(maxAttempts, outcomes);
      RetriesBeforeFirstSettled(outcomes[..calls]);

      if last.err.Some? {
        status, err, response := InternalStatusRequestError, last.err, None;
        return;
      }
      match decode(last.body.GetOr([])) {
        case Failure(e) =>
          status, err, response := InternalStatusRequestError, Some(e), None;
        case Success(v) =>
          status, err, response := last.status, None, Some(v);
      }
    }
  }

  /** `NewRestClient`: a client with every field at its zero value. */
  method NewRestClient() returns (c: RestClient)
    ensures fresh(c) && c.Settings() == ZeroConfig
  {
    c := new RestClient();
  }

  /** In a run of attempts that are all retried except possibly the last,
      every attempt counts as a retry except a last one that settles. */
  lemma {:induction false} RetriesBeforeFirstSettled(attempts: seq<Outcome>)
    requires forall j :: 0 <= j < |attempts| - 1 ==> !Settles(attempts[j])
    ensures CountRetried(attempts) ==
      if attempts != [] && Settles(attempts[|attempts| - 1]) then |attempts| - 1 else |attempts|
  {
    if attempts != [] {
      var prefix := attempts[..|attempts| - 1];
      assert forall j :: 0 <= j < |prefix| ==> prefix[j] == attempts[j];
      RetriesBeforeFirstSettled(prefix);
    }
  }

  /** When no attempt within the budget settles, the loop runs the whole
      budget and every attempt is a retry. */
  lemma ExhaustedBudget(maxAttempts: int, outcomes: seq<Outcome>)
    requires 0 <= maxAttempts <= |outcomes|
    requires forall j :: 0 <= j < maxAttempts ==> !Settles(outcomes[j])
    ensures AttemptCount(maxAttempts, outcomes) == maxAttempts
    ensures CountRetried(outcomes[..maxAttempts]) == maxAttempts
  {
    RetriesBeforeFirstSettled(outcomes[..maxAttempts]);
  }

  /** When every attempt within the budget fails in transport, all of them
      are made and retried and the last one's error is what remains. */
  lemma TransportFailuresExhaustBudget(maxAttempts: int, outcomes: seq<Outcome>)
    requires 0 < maxAttempts <= |outcomes|
    requires forall j :: 0 <= j < maxAttempts ==> !outcomes[j].Completed?
    ensures AttemptCount(maxAttempts, outcomes) == maxAttempts
    ensures CountRetried(outcomes[..maxAttempts]) == maxAttempts
    ensures LastResult(outcomes, maxAttempts).err == Some(outcomes[maxAttempts - 1].err)
  {
    forall j | 0 <= j < maxAttempts
      ensures !Settles(outcomes[j])
    {
      assert Call(outcomes[j]).err.Some?;
    }
    ExhaustedBudget(maxAttempts, outcomes);
  }

  /** A first attempt below 500 ends the loop: one call, no retry. */
  lemma FirstAttemptSettles(maxAttempts: int, outcomes: seq<Outcome>)
    requires 1 <= maxAttempts && outcomes != [] && Settles(outcomes[0])
    ensures AttemptCount(maxAttempts, outcomes) == 1
    ensures CountRetried(outcomes[..1]) == 0
  {
  }

  /** A budget of one attempt makes exactly one call, whatever the status. */
  lemma SingleAttemptMakesOneCall(outcomes: seq<Outcome>)
    requires outcomes != []
    ensures AttemptCount(1, outcomes) == 1
  {
  }

  lemma {:induction false} PowAtLeastOne(b: real, n: nat)
    requires 1.0 <= b
    ensures 1.0 <= Pow(b, n)
  {
    if n > 0 {
      PowAtLeastOne(b, n - 1);
      assert b * Pow(b, n - 1) >= 1.0 * Pow(b, n - 1);
    }
  }

  /** With a rate of at least one the backoff factor never shrinks. */
  lemma {:induction false} PowMonotone(b: real, m: nat, n: nat)
    requires 1.0 <= b && m <= n
    ensures 1.0 <= Pow(b, m) <= Pow(b, n)
  {
    if m < n {
      PowMonotone(b, m, n - 1);
      assert b * Pow(b, n - 1) >= 1.0 * Pow(b, n - 1);
    } else {
      PowAtLeastOne(b, m);
    }
  }

  /** With a non-negative interval and a rate of at least one, the requested
      waits never decrease from one retry to the next. */
  lemma WaitsNonDecreasing(intervalSeconds: real, backoffRate: real, i: nat, j: nat)
    requires 0.0 <= intervalSeconds && 1.0 <= backoffRate && i <= j
    ensures 0 <= WaitBefore(intervalSeconds, backoffRate, i) <= WaitBefore(intervalSeconds, backoffRate, j)
  {
    if 0 < i {
      PowMonotone(backoffRate, i, j);
      assert intervalSeconds * Pow(backoffRate, i) <= intervalSeconds * Pow(backoffRate, j);
    } else if 0 < j {
      PowAtLeastOne(backoffRate, j);
      assert 0.0 <= intervalSeconds * Pow(backoffRate, j);
    }
  }

  /** A server that always answers 503, three attempts, an interval of one
      second and a rate of two: three calls, waits of 0, 2 and 4 seconds,
      three retries, and the last 503 exchange is what gets decoded. */
  lemma ServerErrorScenario(body: Bytes)
    ensures var outcomes := [Completed(503, body), Completed(503, body), Completed(503, body)];
      && AttemptCount(3, outcomes) == 3
      && CountRetried(outcomes) == 3
      && LastResult(outcomes, 3) == AttemptResult(503, Some(body), None)
      && [WaitBefore(1.0, 2.0, 0), WaitBefore(1.0, 2.0, 1), WaitBefore(1.0, 2.0, 2)] == [0, 2, 4]
  {
    var outcomes := [Completed(503, body), Completed(503, body), Completed(503, body)];
    ExhaustedBudget(3, outcomes);
    assert outcomes[..3] == outcomes;
  }

  /** Configures a client as the test suite does and runs it against a
      server that answers 200 with a body decoding to {"message": "success"}. */
  method SuccessScenario(body: Bytes) returns (status: int, err: Option<Error>,
                                               response: Option<map<string, string>>, calls: nat)
    ensures status == 200 && err == None && response == Some(map["message" := "success"])
    ensures calls == 1
  {
    var c := new RestClient();
    var _ := c.WithURL("http://127.0.0.1");
    var _ := c.WithMethod("GET");
    var _ := c.WithHeader(map["Content-Type" := "application/json"]);
    var _ := c.WithMaxAttempts(3);
    var _ := c.WithIntervalSeconds(1.0);
    var _ := c.WithBackoffRate(2.0);
    var served := Completed(200, body);
    var decode := (bytes: Bytes) =>
      if bytes == body then Success(map["message" := "success"]) else Failure(Error("invalid character"));
    var waits, retries;
    status, err, response, calls, waits, retries := c.Do([served, served, served], decode);
  }

  /** A one-attempt client whose only attempt runs past its deadline reports
      the sentinel status and the deadline error. */
  method TimeoutScenario() returns (status: int, err: Option<Error>, calls: nat)
    ensures status == InternalStatusRequestError
    ensures err == Some(Error("context deadline exceeded"))
    ensures calls == 1
  {
    var c := new RestClient();
    var _ := c.WithURL("http://127.0.0.1");
    var _ := c.WithMethod("GET");
    var _ := c.WithMaxAttempts(1);
    var _ := c.WithIntervalSeconds(0.0);
    var _ := c.WithBackoffRate(0.0);
    var _ := c.WithTimeout(1_000_000);
    var decode := (bytes: Bytes) => Success(map["message" := "success"]);
    var response: Option<map<string, string>>, waits, retries;
    status, err, response, calls, waits, retries :=
      c.Do([SendFailed(Error("context deadline exceeded"))], decode);
  }
}
