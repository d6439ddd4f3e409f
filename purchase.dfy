/**
 * The timed purchase pipeline of function.py.
 *
 * A batch logs in once, then runs one task per lot. Each task waits until just
 * before its lot's target instant, fires a burst of purchase POSTs, turns every
 * reply (or exception) into an attempt record, and keeps the first record whose
 * text parses as JSON. The batch joins the tasks in lot order.
 *
 * The network is an input: `respond(p, k)` is what the k-th purchase POST carrying
 * payload `p` produced, and `isJson` says whether `json.loads` accepts a text.
 * Times are whole milliseconds.
 */
module Purchase {
  import opened Wrappers
  import opened Text

  /** Attempts per burst when the caller does not say otherwise. */
  const DefaultAttempts: nat := 5
  /** The burst is started this many milliseconds before the target instant. */
  const LeadMs: int := 100
  /** The HTTP status an attempt must carry to be marked successful. */
  const OkStatus: int := 200

  /** The record kept for one purchase attempt. */
  datatype Attempt = Attempt(success: bool, responseText: string, durationMs: int)

  /** What one purchase POST produced: a reply, or an exception with its message. */
  datatype AttemptOutcome =
    | Replied(status: int, body: string, elapsedMs: int)
    | Raised(error: string, elapsedMs: int)

  /** The form posted for a purchase: anti-forgery token, lot id and buyer code. */
  datatype Payload = Payload(csrfToken: string, lot: int, code: string)

  /** The text an attempt record carries: the reply body, or the exception's message. */
  function OutcomeText(o: AttemptOutcome): string
  {
    match o
    case Replied(_, body, _) => body
    case Raised(error, _) => error
  }

  // ---------------------------------------------------------------- attempts

  /**
   * One attempt of a burst. A reply is successful exactly when its status is 200
   * and its lower-cased body contains "success"; an exception never escapes and
   * becomes a failed record carrying the exception's text.
   */
  function RunAttempt(o: AttemptOutcome): (a: Attempt)
    ensures a.responseText == OutcomeText(o) && a.durationMs == o.elapsedMs
    ensures o.Replied? ==>
      (a.success <==> o.status == OkStatus && exists i :: OccursAt(Lower(o.body), "success", i))
    ensures o.Raised? ==> !a.success
  {
    match o
    case Replied(status, body, ms) =>
      ContainsIff(Lower(body), "success");
      Attempt(status == OkStatus && Contains(Lower(body), "success"), body, ms)
    case Raised(error, ms) =>
      Attempt(false, error, ms)
  }

  /**
   * The gathered records of a burst of `attempts` POSTs of the same payload:
   * exactly one record per attempt, in launch order, whatever each attempt did.
   */
  function Burst(payload: Payload, attempts: nat, respond: (Payload, nat) -> AttemptOutcome): (rs: seq<Attempt>)
    ensures |rs| == attempts
    ensures forall k :: 0 <= k < attempts ==> rs[k] == RunAttempt(respond(payload, k))
  {
    seq(attempts, k requires 0 <= k < attempts => RunAttempt(respond(payload, k)))
  }

  // ---------------------------------------------------------------- selection

  /** The position of the first record whose text is JSON, or |rs| when there is none. */
  function FirstJsonIndex(rs: seq<Attempt>, isJson: string -> bool): (k: nat)
    ensures k <= |rs|
    ensures forall j :: 0 <= j < k ==> !isJson(rs[j].responseText)
    ensures k < |rs| ==> isJson(rs[k].responseText)
  {
    if rs == [] then 0
    else if isJson(rs[0].responseText) then 0
    else 1 + FirstJsonIndex(rs[1..], isJson)
  }

  /**
   * The record the selection keeps: the earliest one in list order whose text is
   * JSON, whatever its `success` flag; None exactly when no text is JSON.
   */
  function FirstJson(rs: seq<Attempt>, isJson: string -> bool): (r: Option<Attempt>)
    ensures r.None? <==> forall j :: 0 <= j < |rs| ==> !isJson(rs[j].responseText)
    ensures r.Some? ==> exists k :: 0 <= k < |rs| && r.value == rs[k] && isJson(rs[k].responseText) &&
                                    forall j :: 0 <= j < k ==> !isJson(rs[j].responseText)
  {
    var k := FirstJsonIndex(rs, isJson);
    if k < |rs| then Some(rs[k]) else None
  }

  /** The selection loop over the gathered records, returning at the first JSON text. */
  method SelectFirstJson(rs: seq<Attempt>, isJson: string -> bool) returns (r: Option<Attempt>)
    ensures r == FirstJson(rs, isJson)
  {
    var i := 0;
    while i < |rs|
      invariant 0 <= i <= |rs|
      invariant forall j :: 0 <= j < i ==> !isJson(rs[j].responseText)
    {
      if isJson(rs[i].responseText) {
        return Some(rs[i]);
      }
      i := i + 1;
    }
    return None;
  }

  /** The selection looks at texts only: records with the same texts select the same position. */
  lemma {:induction false} SelectionDependsOnlyOnText(rs: seq<Attempt>, qs: seq<Attempt>, isJson: string -> bool)
    requires |rs| == |qs|
    requires forall j :: 0 <= j < |rs| ==> rs[j].responseText == qs[j].responseText
    ensures FirstJsonIndex(rs, isJson) == FirstJsonIndex(qs, isJson)
  {
    if rs != [] && !isJson(rs[0].responseText) {
      SelectionDependsOnlyOnText(rs[1..], qs[1..], isJson);
    }
  }

  /**
   * A whole burst and its selection: the kept record is the one of the earliest
   * attempt whose reply body or exception text is JSON; None when no attempt's is.
   */
  function ConcurrentPurchase(payload: Payload, attempts: nat, respond: (Payload, nat) -> AttemptOutcome,
                              isJson: string -> bool): (r: Option<Attempt>)
    ensures r.None? <==> forall k :: 0 <= k < attempts ==> !isJson(OutcomeText(respond(payload, k)))
    ensures r.Some? ==> exists k :: 0 <= k < attempts && r.value == RunAttempt(respond(payload, k)) &&
                                    isJson(OutcomeText(respond(payload, k))) &&
                                    forall j :: 0 <= j < k ==> !isJson(OutcomeText(respond(payload, j)))
  {
    FirstJson(Burst(payload, attempts, respond), isJson)
  }

  // ---------------------------------------------------------------- one lot

  /** How long a lot task sleeps before its burst, given the time left until its target. */
  function WaitMs(remainingMs: int): (w: nat)
    ensures w + LeadMs >= remainingMs
    ensures remainingMs >= LeadMs ==> w + LeadMs == remainingMs
    ensures remainingMs <= LeadMs ==> w == 0
  {
    if remainingMs > LeadMs then remainingMs - LeadMs else 0
  }

  /**
   * The value a lot task receives as its purchase time: one instant (given as the
   * milliseconds left until it), or a whole list of them.
   */
  datatype TimeArg = At(remainingMs: int) | AllTimes(remaining: seq<int>)

  const ListMinusDatetime: string := "unsupported operand type(s) for -: 'list' and 'datetime.datetime'"
  const NoneNotSubscriptable: string := "'NoneType' object is not subscriptable"

  /** The wait at the start of a lot task: subtracting "now" from a list raises. */
  function WaitBefore(t: TimeArg): Result<nat, string>
  {
    match t
    case At(ms) => Success(WaitMs(ms))
    case AllTimes(_) => Failure(ListMinusDatetime)
  }

  /** The result reported for one lot. */
  datatype LotResult = LotResult(lot: int, durationMs: Option<int>, success: bool, details: Option<Attempt>)

  /** The payload of every attempt for `lot`: the account password is sent as the buyer code. */
  function LotPayload(csrfToken: string, lot: int, password: string): Payload
  {
    Payload(csrfToken, lot, password)
  }

  /**
   * The purchase POSTs a lot task sends: none when its wait raises, otherwise one
   * burst of `DefaultAttempts` copies of the lot's payload.
   */
  function LotRequests(lot: int, time: TimeArg, csrfToken: string, password: string): (ps: seq<Payload>)
    ensures time.AllTimes? ==> ps == []
    ensures time.At? ==>
      |ps| == DefaultAttempts && forall k :: 0 <= k < |ps| ==> ps[k] == Payload(csrfToken, lot, password)
  {
    if WaitBefore(time).Failure? then []
    else
      var ps := seq(DefaultAttempts, k requires 0 <= k < DefaultAttempts => LotPayload(csrfToken, lot, password));
      assert forall k :: 0 <= k < |ps| ==> ps[k] == LotPayload(csrfToken, lot, password);
      ps
  }

  /**
   * A lot task as written: `duration_ms` is read from the selected record before
   * `success` is computed, so a burst without any JSON text raises instead of
   * yielding a failed lot, and a lot that returns always reports success.
   */
  function SynchronizedPurchase(lot: int, time: TimeArg, csrfToken: string, password: string,
                                respond: (Payload, nat) -> AttemptOutcome, isJson: string -> bool): (r: Result<LotResult, string>)
    ensures time.AllTimes? ==> r == Failure(ListMinusDatetime)
    ensures time.At? ==>
      (r.Success? <==> exists k :: 0 <= k < DefaultAttempts &&
                                   isJson(OutcomeText(respond(LotPayload(csrfToken, lot, password), k))))
    ensures time.At? && r.Failure? ==> r.error == NoneNotSubscriptable
    ensures r.Success? ==> r.value.lot == lot && r.value.success && r.value.details.Some? &&
                           r.value.durationMs == Some(r.value.details.value.durationMs)
    ensures r.Success? ==>
      r.value.details == ConcurrentPurchase(LotPayload(csrfToken, lot, password), DefaultAttempts, respond, isJson)
  {
    match WaitBefore(time)
    case Failure(e) => Failure(e)
    case Success(_) =>
      var selected := ConcurrentPurchase(LotPayload(csrfToken, lot, password), DefaultAttempts, respond, isJson);
      if selected.None? then Failure(NoneNotSubscriptable)
      else Success(LotResult(lot, Some(selected.value.durationMs), true, selected))
  }

  /**
   * A lot task with the duration read only from a selected record: it returns for
   * every burst, and reports success exactly when some attempt's text is JSON.
   */
  function SynchronizedPurchaseFixed(lot: int, time: TimeArg, csrfToken: string, password: string,
                                     respond: (Payload, nat) -> AttemptOutcome, isJson: string -> bool): (r: Result<LotResult, string>)
    ensures time.AllTimes? ==> r == Failure(ListMinusDatetime)
    ensures time.At? ==> r.Success? && r.value.lot == lot
    ensures time.At? ==>
      (r.value.success <==> exists k :: 0 <= k < DefaultAttempts &&
                                        isJson(OutcomeText(respond(LotPayload(csrfToken, lot, password), k))))
    ensures r.Success? ==>
      r.value.details == ConcurrentPurchase(LotPayload(csrfToken, lot, password), DefaultAttempts, respond, isJson) &&
      (r.value.success <==> r.value.details.Some?) &&
      (r.value.durationMs.Some? <==> r.value.details.Some?) &&
      (r.value.details.Some? ==> r.value.durationMs.value == r.value.details.value.durationMs)
  {
    match WaitBefore(time)
    case Failure(e) => Failure(e)
    case Success(_) =>
      var selected := ConcurrentPurchase(LotPayload(csrfToken, lot, password), DefaultAttempts, respond, isJson);
      var duration := if selected.Some? then Some(selected.value.durationMs) else None;
      Success(LotResult(lot, duration, selected.Some?, selected))
  }

  /** Where the written lot task returns, the corrected one returns the same result. */
  lemma FixedLotAgreesWhenSelected(lot: int, ms: int, csrfToken: string, password: string,
                                   respond: (Payload, nat) -> AttemptOutcome, isJson: string -> bool)
    ensures var written := SynchronizedPurchase(lot, At(ms), csrfToken, password, respond, isJson);
            var fixed := SynchronizedPurchaseFixed(lot, At(ms), csrfToken, password, respond, isJson);
            (written.Success? ==> written == fixed) &&
            (written.Failure? ==> fixed.Success? && !fixed.value.success && fixed.value.durationMs.None?)
  {
  }

  /**
   * A burst whose every attempt times out: the written task raises on the missing
   * selection, while the corrected task reports a failed lot.
   */
  lemma LotWithoutJsonReply(lot: int, ms: int, csrfToken: string, password: string)
    ensures var respond := (p: Payload, k: nat) => Raised("timeout", 10000);
            var isJson := (s: string) => false;
            SynchronizedPurchase(lot, At(ms), csrfToken, password, respond, isJson) == Failure(NoneNotSubscriptable) &&
            SynchronizedPurchaseFixed(lot, At(ms), csrfToken, password, respond, isJson) ==
              Success(LotResult(lot, None, false, None))
  {
  }

  // ---------------------------------------------------------------- login

  /** A network call that either completed with a value or raised with a message. */
  datatype Exchange<T> = Done(value: T) | Threw(message: string)

  /** What the login page yields: the CSRF cookie and the hidden login token, when present. */
  datatype LoginPage = LoginPage(csrfCookie: Option<string>, loginToken: Option<string>)

  /** The reply to the credentials POST: its body and the URL it finally landed on. */
  datatype AuthReply = AuthReply(body: string, finalUrl: string)

  /** The credentials form: the CSRF cookie's value, the login token, the login name and the password. */
  datatype LoginForm = LoginForm(csrfToken: string, loginToken: string, loginString: string, loginPass: string)

  /**
   * The server's side of a login: how the page fetch went, and how the credentials
   * POST goes for each form that could be posted.
   */
  datatype LoginExchange = LoginExchange(page: Exchange<LoginPage>, auth: LoginForm -> Exchange<AuthReply>)

  /** The page fetch returned both the CSRF cookie and the login token. */
  predicate PageComplete(ex: LoginExchange)
  {
    ex.page.Done? && ex.page.value.csrfCookie.Some? && ex.page.value.loginToken.Some?
  }

  /** The form posted once the page is complete: its tokens and the caller's credentials. */
  function PostedForm(ex: LoginExchange, loginString: string, password: string): LoginForm
    requires PageComplete(ex)
  {
    LoginForm(ex.page.value.csrfCookie.value, ex.page.value.loginToken.value, loginString, password)
  }

  /** Login is judged rejected when the lower-cased body mentions "error" or the final URL mentions "login". */
  predicate LoginRejected(body: string, finalUrl: string)
  {
    Contains(Lower(body), "error") || Contains(finalUrl, "login")
  }

  lemma LoginRejectedIff(body: string, finalUrl: string)
    ensures LoginRejected(body, finalUrl) <==>
      (exists i :: OccursAt(Lower(body), "error", i)) || (exists i :: OccursAt(finalUrl, "login", i))
  {
    ContainsIff(Lower(body), "error");
    ContainsIff(finalUrl, "login");
  }

  /**
   * The credentials POST goes to `<base>/login`; when the server answers without
   * redirecting, the final URL still ends in "login" and the login is judged rejected.
   */
  lemma UnredirectedLoginIsRejected(body: string, finalUrl: string)
    requires |finalUrl| >= 5 && finalUrl[|finalUrl| - 5..] == "login"
    ensures LoginRejected(body, finalUrl)
  {
    EndsWithContains(finalUrl, "login");
  }

  /**
   * The login flow: the page must carry the CSRF cookie and the login token, the
   * credentials POST (with the given login name and password) must not raise and
   * must not be judged rejected. On success the session's anti-forgery token is
   * the cookie's value; every failure carries its own message, an exception its text.
   */
  function Login(ex: LoginExchange, loginString: string, password: string): (r: Result<string, string>)
    ensures !PageComplete(ex) ==> r.Failure?
    ensures ex.page.Threw? ==> r == Failure(ex.page.message)
    ensures ex.page.Done? && ex.page.value.csrfCookie.None? ==> r == Failure("CSRF cookie missing")
    ensures ex.page.Done? && ex.page.value.csrfCookie.Some? && ex.page.value.loginToken.None? ==>
      r == Failure("Login token not found")
    ensures PageComplete(ex) ==>
      var reply := ex.auth(PostedForm(ex, loginString, password));
      (r.Success? <==> reply.Done? && !LoginRejected(reply.value.body, reply.value.finalUrl)) &&
      (reply.Threw? ==> r == Failure(reply.message)) &&
      (reply.Done? && LoginRejected(reply.value.body, reply.value.finalUrl) ==> r == Failure("Login failed"))
    ensures r.Success? ==> PageComplete(ex) && r.value == ex.page.value.csrfCookie.value
  {
    match ex.page
    case Threw(m) => Failure(m)
    case Done(page) =>
      if page.csrfCookie.None? then Failure("CSRF cookie missing")
      else if page.loginToken.None? then Failure("Login token not found")
      else
        match ex.auth(LoginForm(page.csrfCookie.value, page.loginToken.value, loginString, password))
        case Threw(m) => Failure(m)
        case Done(reply) =>
          if LoginRejected(reply.body, reply.finalUrl) then Failure("Login failed")
          else Success(page.csrfCookie.value)
  }

  // ---------------------------------------------------------------- batch

  /**
   * Joining the lot tasks: one result per task in task order, or, as soon as
   * one task raised, the empty list of the exception handler.
   */
  method GatherTasks(tasks: seq<Result<LotResult, string>>) returns (results: seq<LotResult>)
    ensures (exists j :: 0 <= j < |tasks| && tasks[j].Failure?) ==> results == []
    ensures (forall j :: 0 <= j < |tasks| ==> tasks[j].Success?) ==>
      |results| == |tasks| && forall j :: 0 <= j < |tasks| ==> results[j] == tasks[j].value
  {
    results := [];
    var i := 0;
    while i < |tasks|
      invariant 0 <= i <= |tasks|
      invariant |results| == i
      invariant forall j :: 0 <= j < i ==> tasks[j].Success? && results[j] == tasks[j].value
    {
      if tasks[i].Failure? {
        return [];
      }
      results := results + [tasks[i].value];
      i := i + 1;
    }
  }

  /**
   * The batch as written: every lot task is handed the whole list of purchase
   * times, so each one raises at its wait before sending anything, and the batch
   * always returns []. `posted` holds the purchase POSTs each lot task sent.
   */
  method TimedPurchaseBatchAsWritten(login: LoginExchange, loginString: string, password: string,
                                     lots: seq<int>, purchaseTimes: seq<int>,
                                     respond: (Payload, nat) -> AttemptOutcome, isJson: string -> bool)
    returns (results: seq<LotResult>, ghost posted: seq<seq<Payload>>)
    ensures results == []
    ensures forall j :: 0 <= j < |posted| ==> posted[j] == []
  {
    var session := Login(login, loginString, password);
    if session.Failure? {
      return [], [];
    }
    var tasks: seq<Result<LotResult, string>> := [];
    posted := [];
    for i := 0 to |lots|
      invariant |tasks| == i && |posted| == i
      invariant forall j :: 0 <= j < i ==> tasks[j].Failure? && posted[j] == []
    {
      var time := AllTimes(purchaseTimes);
      posted := posted + [LotRequests(lots[i], time, session.value, password)];
      tasks := tasks + [SynchronizedPurchase(lots[i], time, session.value, password, respond, isJson)];
    }
    if |tasks| > 0 {
      assert tasks[0].Failure?;
    }
    results := GatherTasks(tasks);
  }

  /**
   * The batch with each lot given its own purchase time and the corrected lot task.
   * When login fails, no purchase is sent and [] is returned. Otherwise there is one
   * result per lot, in the order of `lots`, and lot j's burst posts the session's
   * token, lot j and, as buyer code, the same password the login posted.
   */
  method TimedPurchaseBatch(login: LoginExchange, loginString: string, password: string,
                            lots: seq<int>, purchaseTimes: seq<int>,
                            respond: (Payload, nat) -> AttemptOutcome, isJson: string -> bool)
    returns (results: seq<LotResult>, ghost posted: seq<seq<Payload>>)
    requires |purchaseTimes| == |lots|
    ensures Login(login, loginString, password).Failure? ==> results == [] && posted == []
    ensures Login(login, loginString, password).Success? ==> |results| == |lots| && |posted| == |lots|
    ensures Login(login, loginString, password).Success? ==> forall j :: 0 <= j < |lots| ==>
      results[j].lot == lots[j] &&
      results[j] == SynchronizedPurchaseFixed(lots[j], At(purchaseTimes[j]), Login(login, loginString, password).value,
                                              password, respond, isJson).value
    ensures Login(login, loginString, password).Success? ==> forall j :: 0 <= j < |lots| ==>
      |posted[j]| == DefaultAttempts &&
      forall k :: 0 <= k < DefaultAttempts ==>
        posted[j][k] == Payload(Login(login, loginString, password).value, lots[j], password)
  {
    var session := Login(login, loginString, password);
    if session.Failure? {
      return [], [];
    }
    var tasks: seq<Result<LotResult, string>> := [];
    posted := [];
    for i := 0 to |lots|
      invariant |tasks| == i && |posted| == i
      invariant forall j :: 0 <= j < i ==>
        tasks[j] == SynchronizedPurchaseFixed(lots[j], At(purchaseTimes[j]), session.value, password, respond, isJson)
      invariant forall j :: 0 <= j < i ==> posted[j] == LotRequests(lots[j], At(purchaseTimes[j]), session.value, password)
    {
      var time := At(purchaseTimes[i]);
      posted := posted + [LotRequests(lots[i], time, session.value, password)];
      tasks := tasks + [SynchronizedPurchaseFixed(lots[i], time, session.value, password, respond, isJson)];
    }
    results := GatherTasks(tasks);
  }

  /**
   * Against the same network, a login that succeeds and one lot whose first reply
   * is JSON: the written batch returns nothing, the corrected batch reports the lot.
   */
  method BatchFindingWitness() returns (written: seq<LotResult>, fixed: seq<LotResult>)
    ensures written == [] && |fixed| == 1 && fixed[0].lot == 7 && fixed[0].success
  {
    var login := LoginExchange(Done(LoginPage(Some("csrf"), Some("token"))), (f: LoginForm) => Done(AuthReply("", "/")));
    assert !Contains(Lower(""), "error") && !Contains("/", "login");
    var respond := (p: Payload, k: nat) => Replied(200, "{}", 20);
    var isJson := (s: string) => s == "{}";
    ghost var postedWritten, postedFixed;
    written, postedWritten := TimedPurchaseBatchAsWritten(login, "buyer", "pw", [7], [5000], respond, isJson);
    fixed, postedFixed := TimedPurchaseBatch(login, "buyer", "pw", [7], [5000], respond, isJson);
    assert isJson(OutcomeText(respond(LotPayload("csrf", 7, "pw"), 0)));
  }
}
