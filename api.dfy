/** The NAS session client of module/api.py: the error catalogue, endpoint URLs, the
    bounded retry policy, login and logout over the session id, the user-info and
    log-page requests, and the paginator that gathers every page of a log.

    The HTTP transport is abstracted as a script of attempts: element i is what the
    network does on the i-th attempt of one call (an answer, or a transport failure
    such as a refused connection, a timeout, an HTTP error status or an unreadable
    body). An attempt past the end of the script is a timeout. */
module Api {
  import opened Common

  // ---------------------------------------------------------------- error catalogue

  /** ERROR_MESSAGES: the ten server error codes the client explains. */
  const ErrorMessages: map<int, string> := map[
    400 := "沒有該帳號或密碼錯誤",
    401 := "帳戶已禁用",
    402 := "權限不足",
    403 := "需要雙重驗證碼",
    404 := "雙重驗證失敗",
    406 := "必須啟用雙重驗證",
    407 := "IP被封鎖",
    408 := "密碼過期且無法更改",
    409 := "密碼已過期",
    410 := "必須更改密碼"
  ]

  function UnknownError(codeText: string): string
  {
    "未知錯誤 (代碼: " + codeText + ")"
  }

  /** get_error_message: the catalogue entry, or the generic text naming the code. */
  function ErrorMessage(code: int): (msg: string)
    ensures code in {400, 401, 402, 403, 404, 406, 407, 408, 409, 410} ==> msg == ErrorMessages[code]
    ensures code !in {400, 401, 402, 403, 404, 406, 407, 408, 409, 410} ==> msg == UnknownError(IntText(code))
  {
    if code in ErrorMessages then ErrorMessages[code] else UnknownError(IntText(code))
  }

  /** The message login raises for the code it found; a response without one
      formats Python's None. */
  function CodeMessage(code: Option<int>): string
  {
    match code
    case Some(c) => ErrorMessage(c)
    case None => UnknownError("None")
  }

  lemma UnknownErrorInjective(ta: string, tb: string)
    requires UnknownError(ta) == UnknownError(tb)
    ensures ta == tb
  {
    var n := |"未知錯誤 (代碼: "|;
    assert UnknownError(ta)[n..n + |ta|] == ta;
    assert UnknownError(tb)[n..n + |tb|] == tb;
  }

  /** The catalogue gives every code its own message. */
  lemma CatalogueDistinct(a: int, b: int)
    requires a in ErrorMessages && b in ErrorMessages && ErrorMessages[a] == ErrorMessages[b]
    ensures a == b
  {
    var m := ErrorMessages[a];
    if a == 400 || a == 408 || a == 406 || a == 403 {
      assert |m| >= 6 && (a == 400 ==> m[0] == '沒') && (a == 408 ==> m[2] == '過')
             && (a == 406 ==> m[0] == '必' && m[2] == '啟') && (a == 403 ==> m[0] == '需');
    } else if a == 401 || a == 402 || a == 404 || a == 407 {
      assert (a == 401 ==> m[0] == '帳') && (a == 402 ==> m[0] == '權')
             && (a == 404 ==> m[0] == '雙') && (a == 407 ==> m[0] == 'I');
    } else {
      assert (a == 409 ==> |m| == 5 && m[0] == '密') && (a == 410 ==> m[0] == '必' && m[2] == '更');
    }
  }

  /** The message names the code: distinct codes never share a message. */
  lemma ErrorMessageInjective(a: int, b: int)
    requires ErrorMessage(a) == ErrorMessage(b)
    ensures a == b
  {
    if a in ErrorMessages && b in ErrorMessages {
      CatalogueDistinct(a, b);
    } else if a !in ErrorMessages && b !in ErrorMessages {
      UnknownErrorInjective(IntText(a), IntText(b));
      IntTextInjective(a, b);
    }
  }

  // ---------------------------------------------------------------- retry policy

  /** `stop_after_attempt(3)` */
  const MaxAttempts: nat := 3

  /** What the network does when the script has nothing more to say. */
  const NoAnswer: string := "Read timed out."

  datatype Attempt<T> = Answered(response: T) | Dropped(reason: string)

  function AttemptAt<T>(script: seq<Attempt<T>>, i: nat): Attempt<T>
  {
    if i < |script| then script[i] else Dropped(NoAnswer)
  }

  /** The outcome of a retried call and how many attempts it made. */
  datatype Retried<T> = Retried(result: Result<T, Error>, attempts: nat)

  /** The retry decorator from attempt i on: a transport failure
      (`requests.RequestException`) is retried until the third attempt, which
      gives up with tenacity's RetryError; an answer ends the retrying. */
  function RetryFrom<T>(script: seq<Attempt<T>>, i: nat): (r: Retried<T>)
    requires i < MaxAttempts
    ensures i < r.attempts <= MaxAttempts
    ensures forall j :: i <= j < r.attempts - 1 ==> AttemptAt(script, j).Dropped?
    ensures r.result.Success? <==> AttemptAt(script, r.attempts - 1).Answered?
    ensures r.result.Success? ==> AttemptAt(script, r.attempts - 1) == Answered(r.result.value)
    ensures r.result.Failure? ==>
              r.attempts == MaxAttempts && r.result.error == RetryExhausted(AttemptAt(script, MaxAttempts - 1).reason)
    decreases MaxAttempts - i
  {
    match AttemptAt(script, i)
    case Answered(resp) => Retried(Success(resp), i + 1)
    case Dropped(reason) =>
      if i + 1 == MaxAttempts then Retried(Failure(RetryExhausted(reason)), MaxAttempts)
      else RetryFrom(script, i + 1)
  }

  function RetryOutcome<T>(script: seq<Attempt<T>>): Retried<T>
  {
    RetryFrom(script, 0)
  }

  /** The retry loop: attempt, and try again only after a transport failure. */
  method Retry<T>(script: seq<Attempt<T>>) returns (result: Result<T, Error>, attempts: nat)
    ensures Retried(result, attempts) == RetryOutcome(script)
    ensures 1 <= attempts <= MaxAttempts
  {
    attempts := 0;
    result := Failure(RetryExhausted(NoAnswer));
    while attempts < MaxAttempts
      invariant attempts <= MaxAttempts
      invariant attempts < MaxAttempts ==> RetryOutcome(script) == RetryFrom(script, attempts)
      invariant attempts == MaxAttempts ==> RetryOutcome(script) == Retried(result, attempts)
    {
      var attempt := AttemptAt(script, attempts);
      attempts := attempts + 1;
      match attempt {
        case Answered(resp) =>
          result := Success(resp);
          return;
        case Dropped(reason) =>
          result := Failure(RetryExhausted(reason));
      }
    }
  }

  /** At most three attempts: nothing the script says after the third attempt matters. */
  lemma {:induction false} RetryReadsThreeAttempts<T>(script: seq<Attempt<T>>, i: nat)
    requires i < MaxAttempts
    ensures RetryFrom(script, i) == RetryFrom(script[..if |script| < MaxAttempts then |script| else MaxAttempts], i)
    decreases MaxAttempts - i
  {
    var head := script[..if |script| < MaxAttempts then |script| else MaxAttempts];
    assert AttemptAt(script, i) == AttemptAt(head, i);
    if i + 1 < MaxAttempts {
      RetryReadsThreeAttempts(script, i + 1);
    }
  }

  /** Two transport failures then an answer: the caller sees the answer and no error. */
  lemma RetryIsTransparent<T>(first: string, second: string, answer: T)
    ensures RetryOutcome([Dropped(first), Dropped(second), Answered(answer)]) == Retried(Success(answer), 3)
  {
  }

  // ---------------------------------------------------------------- requests and responses

  datatype Request = Request(url: string, params: map<string, string>)

  /** The login answer: `data.sid` when present, else `error.code` when present. */
  datatype LoginResponse = LoginResponse(sid: Option<string>, errorCode: Option<int>)

  /** A user-info or log-page answer: `success`, the str() of `error` when present, and
      the `data.users` / `data.items` list when present. */
  datatype UserInfoResponse = UserInfoResponse(success: bool, error: Option<string>, users: seq<Record>)
  datatype PageResponse = PageResponse(success: bool, error: Option<string>, items: Option<seq<Record>>)

  /** The logout answer's `success`, False when absent. */
  datatype LogoutResponse = LogoutResponse(success: bool)

  const NotLoggedIn: string := "未登入"
  const NotLoggedInUserInfo: string := "未登入，請先執行 login 方法"
  const MalformedPage: string := "日誌資料結構無效，缺少 'data' 或 'items'"
  const DefaultAdditional: seq<string> := ["description", "email"]
  const DefaultPageSize: int := 1000

  function ApiFailure(error: Option<string>): Error
  {
    Raised("API 返回失敗: " + (match error case Some(e) => e case None => "未知錯誤"))
  }

  /** The exception fetch_all_logs raises for whatever stopped a page. */
  function PageFailure(e: Error): Error
  {
    Raised("獲取日誌失敗: " + Describe(e))
  }

  /** `if otp_code:` — an OTP is sent only when it is given and non-empty. */
  function LoginParams(account: string, password: string, otp: Option<string>): (p: map<string, string>)
    ensures "otp_code" in p <==> otp.Some? && otp.value != ""
    ensures "otp_code" in p ==> p["otp_code"] == otp.value
    ensures "account" in p && "passwd" in p && "method" in p
    ensures p["account"] == account && p["passwd"] == password && p["method"] == "login"
  {
    var base := map["api" := "SYNO.API.Auth", "method" := "login", "version" := "7",
                     "account" := account, "passwd" := password, "format" := "sid"];
    if otp.Some? && otp.value != "" then base["otp_code" := otp.value] else base
  }

  /** `json.dumps` of a list of plain field names. */
  function JsonList(fields: seq<string>): string
  {
    "[" + JsonItems(fields) + "]"
  }

  function JsonItems(fields: seq<string>): string
  {
    if fields == [] then ""
    else if |fields| == 1 then "\"" + fields[0] + "\""
    else "\"" + fields[0] + "\", " + JsonItems(fields[1..])
  }

  /** `if not username`: None and "" both ask for the whole user list. */
  predicate Named(username: Option<string>)
  {
    username.Some? && username.value != ""
  }

  function UserParams(sid: string, username: Option<string>, additional: seq<string>): (p: map<string, string>)
    ensures "method" in p && "_sid" in p
    ensures p["method"] == (if Named(username) then "get" else "list")
    ensures "name" in p <==> Named(username)
    ensures Named(username) ==> p["name"] == username.value
    ensures "additional" in p <==> additional != []
    ensures p["_sid"] == sid
  {
    var base := map["api" := "SYNO.Core.User", "version" := "1",
                     "method" := if Named(username) then "get" else "list", "_sid" := sid];
    var named := if Named(username) then base["name" := username.value] else base;
    if additional != [] then named["additional" := JsonList(additional)] else named
  }

  /** The log-page query. `requests` leaves out a parameter whose value is None, so
      without a session id the page is requested with no `_sid` at all. */
  function PageParams(sid: Option<string>, logtype: string, limit: int, offset: int): (p: map<string, string>)
    ensures "_sid" in p <==> sid.Some?
    ensures sid.Some? ==> p["_sid"] == sid.value
    ensures "limit" in p && "offset" in p && "logtype" in p
    ensures p["limit"] == IntText(limit) && p["offset"] == IntText(offset) && p["logtype"] == logtype
  {
    var base := map["api" := "SYNO.Core.SyslogClient.Log", "version" := "1", "method" := "list",
                     "limit" := IntText(limit), "offset" := IntText(offset), "logtype" := logtype];
    if sid.Some? then base["_sid" := sid.value] else base
  }

  function LogoutParams(sid: string): map<string, string>
  {
    map["api" := "SYNO.API.Auth", "method" := "logout", "version" := "7", "_sid" := sid]
  }

  // ---------------------------------------------------------------- login

  /** The codes for which login asks the caller to wipe the password field. */
  predicate ClearsPassword(code: Option<int>)
  {
    code.Some? && code.value in {400, 408, 409, 410}
  }

  /** The codes for which login asks the caller to wipe the OTP field. */
  predicate ClearsOtp(code: Option<int>)
  {
    code.Some? && code.value in {404, 406}
  }

  /** Everything a call to login does, given the session id before it. */
  datatype LoginEffect = LoginEffect(result: Result<string, Error>, sid: Option<string>, attempts: nat,
                                     passwordCleared: bool, otpCleared: bool)

  /** login: a response carrying `data.sid` stores and returns it; any other answer
      raises the catalogue message for its code, after firing at most one of the
      clearing callbacks the caller supplied; transport failures are retried. */
  function LoginStep(sid: Option<string>, network: seq<Attempt<LoginResponse>>,
                     passwordCallback: bool, otpCallback: bool): (e: LoginEffect)
    ensures e.result.Success? ==> e.sid == Some(e.result.value)
    ensures e.result.Failure? ==> e.sid == sid
    ensures !(e.passwordCleared && e.otpCleared)
    ensures (e.passwordCleared || e.otpCleared) ==> e.result.Failure? && e.result.error.Raised?
    ensures 1 <= e.attempts <= MaxAttempts
    ensures var o := RetryOutcome(network);
      && e.attempts == o.attempts
      && (o.result.Failure? ==> e.result == Failure(o.result.error) && !e.passwordCleared && !e.otpCleared)
      && (o.result.Success? && o.result.value.sid.Some? ==> e.result == Success(o.result.value.sid.value))
      && (o.result.Success? && o.result.value.sid.None? ==>
            && e.result == Failure(Raised(CodeMessage(o.result.value.errorCode)))
            && (e.passwordCleared <==> passwordCallback && ClearsPassword(o.result.value.errorCode))
            && (e.otpCleared <==> otpCallback && ClearsOtp(o.result.value.errorCode)))
  {
    var retried := RetryOutcome(network);
    match retried.result
    case Failure(err) => LoginEffect(Failure(err), sid, retried.attempts, false, false)
    case Success(resp) =>
      match resp.sid
      case Some(s) => LoginEffect(Success(s), Some(s), retried.attempts, false, false)
      case None =>
        var clearPassword := ClearsPassword(resp.errorCode) && passwordCallback;
        var clearOtp := !clearPassword && ClearsOtp(resp.errorCode) && otpCallback;
        LoginEffect(Failure(Raised(CodeMessage(resp.errorCode))), sid, retried.attempts, clearPassword, clearOtp)
  }

  /** A rejected login raises the catalogue message and wipes the password field
      exactly for codes 400, 408, 409 and 410, the OTP field exactly for 404 and 406,
      however many transport failures came before the answer. */
  lemma LoginRejection(sid: Option<string>, network: seq<Attempt<LoginResponse>>, resp: LoginResponse,
                       passwordCallback: bool, otpCallback: bool)
    requires RetryOutcome(network).result == Success(resp) && resp.sid.None?
    ensures var e := LoginStep(sid, network, passwordCallback, otpCallback);
      && e.result == Failure(Raised(CodeMessage(resp.errorCode)))
      && e.sid == sid
      && e.attempts == RetryOutcome(network).attempts
      && (e.passwordCleared <==> passwordCallback && resp.errorCode.Some? && resp.errorCode.value in {400, 408, 409, 410})
      && (e.otpCleared <==> otpCallback && resp.errorCode.Some? && resp.errorCode.value in {404, 406})
  {
  }

  /** A login whose first request is lost and whose second is granted stores the
      session id after two attempts, with no field wiped. */
  lemma LoginAfterDrop(sid: Option<string>, reason: string, token: string, passwordCallback: bool, otpCallback: bool)
    ensures LoginStep(sid, [Dropped(reason), Answered(LoginResponse(Some(token), None))], passwordCallback, otpCallback)
         == LoginEffect(Success(token), Some(token), 2, false, false)
  {
    assert RetryOutcome([Dropped(reason), Answered(LoginResponse(Some(token), None))])
        == Retried(Success(LoginResponse(Some(token), None)), 2);
  }

  /** Every code that fires a clearing callback has its own catalogue message, so the
      caller is never told "unknown error" while its fields are wiped. */
  lemma ClearingCodesAreCatalogued(code: Option<int>)
    requires ClearsPassword(code) || ClearsOtp(code)
    ensures code.Some? && code.value in ErrorMessages
    ensures CodeMessage(code) == ErrorMessages[code.value]
  {
  }

  /** Code 403 (OTP required) and an answer with no code raise without wiping anything. */
  lemma NoClearingWithoutCause(sid: Option<string>, network: seq<Attempt<LoginResponse>>, code: Option<int>,
                               passwordCallback: bool, otpCallback: bool)
    requires RetryOutcome(network).result == Success(LoginResponse(None, code))
    requires code == Some(403) || code.None?
    ensures var e := LoginStep(sid, network, passwordCallback, otpCallback);
      !e.passwordCleared && !e.otpCleared && e.result.Failure?
  {
  }

  // ---------------------------------------------------------------- user info

  /** fetch_user_info on an answered request. */
  function UserInfoReply(resp: UserInfoResponse): Result<UserInfoResponse, Error>
  {
    if resp.success then Success(resp) else Failure(ApiFailure(resp.error))
  }

  /** fetch_user_info: refused before any request without a session; otherwise the
      retried request, whose answer must report success. */
  function UserInfoOutcome(hasSession: bool, network: seq<Attempt<UserInfoResponse>>): (r: Result<UserInfoResponse, Error>)
    ensures !hasSession ==> r == Failure(Raised(NotLoggedInUserInfo))
    ensures r.Success? ==> r.value.success
    ensures hasSession && r.Success? ==> Answered(r.value) in network
    ensures hasSession ==> var o := RetryOutcome(network).result;
      && (o.Success? && o.value.success ==> r == o)
      && (o.Success? && !o.value.success ==> r == Failure(ApiFailure(o.value.error)))
      && (o.Failure? ==> r == o)
  {
    if !hasSession then Failure(Raised(NotLoggedInUserInfo))
    else match RetryOutcome(network).result
      case Failure(e) => Failure(e)
      case Success(resp) => UserInfoReply(resp)
  }

  // ---------------------------------------------------------------- log pages

  /** fetch_logs_page: the retried request, whose answer must report success. */
  function PageOutcome(script: seq<Attempt<PageResponse>>): (r: Result<PageResponse, Error>)
    ensures r.Success? ==> r.value.success && Answered(r.value) in script
    ensures var o := RetryOutcome(script).result;
      && (o.Success? && o.value.success ==> r == o)
      && (o.Success? && !o.value.success ==> r == Failure(ApiFailure(o.value.error)))
      && (o.Failure? ==> r == o)
  {
    match RetryOutcome(script).result
    case Failure(e) => Failure(e)
    case Success(resp) => if resp.success then Success(resp) else Failure(ApiFailure(resp.error))
  }

  /** One turn of fetch_all_logs' loop: the page's items, or the failure it wraps. */
  function PageItems(script: seq<Attempt<PageResponse>>): (r: Result<seq<Record>, Error>)
    ensures r.Failure? ==> r.error.Raised?
  {
    match PageOutcome(script)
    case Failure(e) => Failure(PageFailure(e))
    case Success(resp) =>
      if !resp.success then Failure(PageFailure(ApiFailure(resp.error)))
      else if resp.items.None? then Failure(PageFailure(Raised(MalformedPage)))
      else Success(resp.items.value)
  }

  /** The server the paginator talks to: the script for each page, by page number.
      A page past the end is never answered. */
  type Server = seq<seq<Attempt<PageResponse>>>

  function PageScript(pages: Server, k: nat): seq<Attempt<PageResponse>>
  {
    if k < |pages| then pages[k] else []
  }

  /** The failure of a page the server never answers. */
  const Unanswered: Error := PageFailure(RetryExhausted(NoAnswer))

  lemma UnscriptedPageFails(pages: Server, k: nat)
    requires k >= |pages|
    ensures PageItems(PageScript(pages, k)) == Failure(Unanswered)
  {
    assert RetryOutcome<PageResponse>([]) == Retried(Failure(RetryExhausted(NoAnswer)), MaxAttempts);
  }

  /** What one turn of fetch_all_logs' loop makes of a page: its items, or the
      failure that ends the loop. */
  type Turn = Result<seq<Record>, Error>

  /** The turns the server's pages give, page by page. */
  function Turns(pages: Server): (turns: seq<Turn>)
    ensures |turns| == |pages|
    ensures forall k :: 0 <= k < |pages| ==> turns[k] == PageItems(pages[k])
  {
    seq(|pages|, k requires 0 <= k < |pages| => PageItems(pages[k]))
  }

  /** The turn for page k: past the scripted pages, the unanswered request's failure. */
  function TurnAt(turns: seq<Turn>, k: nat): Turn
  {
    if k < |turns| then turns[k] else Failure(Unanswered)
  }

  lemma TurnOfPage(pages: Server, k: nat)
    ensures TurnAt(Turns(pages), k) == PageItems(PageScript(pages, k))
  {
    if k >= |pages| {
      UnscriptedPageFails(pages, k);
    }
  }

  /** The item lists of pages k, k+1, ... that fetch_all_logs reads, or the failure
      that stopped it. Every failure is a plain exception, never a RetryError, so the
      retry decorator on fetch_all_logs itself never retries. */
  function Walk(turns: seq<Turn>, limit: nat, k: nat): (r: Result<seq<seq<Record>>, Error>)
    requires limit > 0 && k <= |turns|
    decreases |turns| - k
  {
    if k == |turns| then Failure(Unanswered)
    else match turns[k]
      case Failure(e) => Failure(e)
      case Success(items) =>
        if |items| < limit then Success([items])
        else match Walk(turns, limit, k + 1)
          case Failure(e) => Failure(e)
          case Success(rest) => Success([items] + rest)
  }

  /** The number of page requests fetch_all_logs makes from page k on. */
  function Reach(turns: seq<Turn>, limit: nat, k: nat): (n: nat)
    requires limit > 0 && k <= |turns|
    ensures 1 <= n <= |turns| - k + 1
    decreases |turns| - k
  {
    if k == |turns| then 1
    else match turns[k]
      case Failure(_) => 1
      case Success(items) => if |items| < limit then 1 else 1 + Reach(turns, limit, k + 1)
  }

  function Concat(pages: seq<seq<Record>>): seq<Record>
  {
    if pages == [] then [] else pages[0] + Concat(pages[1..])
  }

  lemma {:induction false} ConcatAppend(pages: seq<seq<Record>>, last: seq<Record>)
    ensures Concat(pages + [last]) == Concat(pages) + last
  {
    if pages != [] {
      assert (pages + [last])[1..] == pages[1..] + [last];
      ConcatAppend(pages[1..], last);
    } else {
      assert Concat([last]) == last + Concat([]);
    }
  }

  /** fetch_all_logs: refused without a session; otherwise every page in order,
      concatenated, or the first failure and nothing else. */
  function FetchAllSpec(hasSession: bool, pages: Server, limit: nat): Result<seq<Record>, Error>
    requires limit > 0
  {
    if !hasSession then Failure(Raised(NotLoggedIn))
    else match Walk(Turns(pages), limit, 0)
      case Failure(e) => Failure(e)
      case Success(ps) => Success(Concat(ps))
  }

  function PagesRequested(hasSession: bool, pages: Server, limit: nat): nat
    requires limit > 0
  {
    if hasSession then Reach(Turns(pages), limit, 0) else 0
  }

  /** Every failure of fetch_all_logs is a plain exception: its own retry decorator,
      which retries only transport failures, never fires. */
  lemma FetchAllNeverRetried(hasSession: bool, pages: Server, limit: nat)
    requires limit > 0
    ensures FetchAllSpec(hasSession, pages, limit).Failure? ==> FetchAllSpec(hasSession, pages, limit).error.Raised?
  {
    WalkFailsAtATurn(Turns(pages), limit, 0);
  }

  /** A walk fails only with the failure of one of its turns. */
  lemma {:induction false} WalkFailsAtATurn(turns: seq<Turn>, limit: nat, k: nat)
    requires limit > 0 && k <= |turns|
    ensures Walk(turns, limit, k).Failure? ==>
              exists j :: k <= j <= |turns| && TurnAt(turns, j) == Failure(Walk(turns, limit, k).error)
    decreases |turns| - k
  {
    if k < |turns| && turns[k].Success? && |turns[k].value| >= limit {
      WalkFailsAtATurn(turns, limit, k + 1);
    } else if k == |turns| {
      assert TurnAt(turns, k) == Failure(Unanswered);
    } else {
      assert TurnAt(turns, k) == turns[k];
    }
  }

  /** A walk from page k, seen from page 0 after the pages before k were read. */
  function After(done: seq<seq<Record>>, w: Result<seq<seq<Record>>, Error>): Result<seq<seq<Record>>, Error>
  {
    match w
    case Failure(e) => Failure(e)
    case Success(rest) => Success(done + rest)
  }

  lemma AfterNothing(w: Result<seq<seq<Record>>, Error>)
    ensures After([], w) == w
  {
    if w.Success? {
      assert [] + w.value == w.value;
    }
  }

  /** The walk up to page k, seen from page 0, after `done` was read. */
  predicate WalkedTo(turns: seq<Turn>, limit: nat, k: nat, done: seq<seq<Record>>)
    requires limit > 0 && k <= |turns|
  {
    Walk(turns, limit, 0) == After(done, Walk(turns, limit, k))
    && Reach(turns, limit, 0) == k + Reach(turns, limit, k)
  }

  /** A failing page k ends the fetch with its error after k + 1 requests. */
  lemma FailedTurn(pages: Server, limit: nat, k: nat, done: seq<seq<Record>>)
    requires limit > 0 && k <= |pages| && WalkedTo(Turns(pages), limit, k, done)
    requires PageItems(PageScript(pages, k)).Failure?
    ensures Walk(Turns(pages), limit, 0) == Failure(PageItems(PageScript(pages, k)).error)
    ensures Reach(Turns(pages), limit, 0) == k + 1
  {
    TurnOfPage(pages, k);
  }

  /** A short page k ends the fetch with everything read so far. */
  lemma ShortTurn(pages: Server, limit: nat, k: nat, done: seq<seq<Record>>, items: seq<Record>)
    requires limit > 0 && k <= |pages| && WalkedTo(Turns(pages), limit, k, done)
    requires PageItems(PageScript(pages, k)) == Success(items) && |items| < limit
    ensures Walk(Turns(pages), limit, 0) == Success(done + [items])
    ensures Reach(Turns(pages), limit, 0) == k + 1
  {
    TurnOfPage(pages, k);
  }

  /** A full page k sends the fetch on to page k + 1. */
  lemma FullTurn(pages: Server, limit: nat, k: nat, done: seq<seq<Record>>, items: seq<Record>)
    requires limit > 0 && k <= |pages| && WalkedTo(Turns(pages), limit, k, done)
    requires PageItems(PageScript(pages, k)) == Success(items) && |items| >= limit
    ensures k < |pages| && WalkedTo(Turns(pages), limit, k + 1, done + [items])
  {
    TurnOfPage(pages, k);
    var w := Walk(Turns(pages), limit, k + 1);
    if w.Success? {
      assert done + ([items] + w.value) == (done + [items]) + w.value;
    }
  }

  /** The offset of page k: k pages of the given size, counted one page at a time. */
  function PageOffset(k: nat, size: int): (offset: int)
  {
    if k == 0 then 0 else PageOffset(k - 1, size) + size
  }

  /** The offsets of the first n pages, in order. */
  function PageOffsets(n: nat, size: int): (offsets: seq<int>)
    ensures |offsets| == n
  {
    if n == 0 then [] else PageOffsets(n - 1, size) + [PageOffset(n - 1, size)]
  }

  /** The log-page queries sent to `url` for the given offsets, in order. */
  function PageRequests(url: string, sid: Option<string>, logtype: string, limit: int, offsets: seq<int>): (rs: seq<Request>)
    ensures |rs| == |offsets|
    ensures forall i :: 0 <= i < |rs| ==> rs[i] == Request(url, PageParams(sid, logtype, limit, offsets[i]))
  {
    if offsets == [] then []
    else PageRequests(url, sid, logtype, limit, offsets[..|offsets| - 1])
         + [Request(url, PageParams(sid, logtype, limit, offsets[|offsets| - 1]))]
  }

  /** One more offset adds its query at the end. */
  lemma PageRequestsAppend(url: string, sid: Option<string>, logtype: string, limit: int,
                           offsets: seq<int>, offset: int, request: Request)
    requires request == Request(url, PageParams(sid, logtype, limit, offset))
    ensures PageRequests(url, sid, logtype, limit, offsets + [offset])
            == PageRequests(url, sid, logtype, limit, offsets) + [request]
  {
    assert (offsets + [offset])[..|offsets|] == offsets;
  }

  /** The i-th page requested starts at offset i * size. */
  lemma {:induction false} PageOffsetsInOrder(n: nat, size: int, i: nat)
    requires i < n
    ensures PageOffsets(n, size)[i] == i * size
  {
    if i < n - 1 {
      PageOffsetsInOrder(n - 1, size, i);
    } else {
      PageOffsetIsProduct(i, size);
    }
  }

  lemma {:induction false} PageOffsetIsProduct(k: nat, size: int)
    ensures PageOffset(k, size) == k * size
  {
    if k > 0 {
      PageOffsetIsProduct(k - 1, size);
      assert k * size == (k - 1) * size + size;
    }
  }

  /** A successful walk read pages k, k+1, ... in order, each answered successfully;
      all but the last are full and the last is short. */
  lemma {:induction false} WalkShape(turns: seq<Turn>, limit: nat, k: nat)
    requires limit > 0 && k <= |turns|
    ensures var r := Walk(turns, limit, k);
      r.Success? ==>
        && |r.value| >= 1 && k + |r.value| <= |turns|
        && (forall i :: 0 <= i < |r.value| ==> turns[k + i] == Success(r.value[i]))
        && (forall i :: 0 <= i < |r.value| - 1 ==> |r.value[i]| >= limit)
        && |r.value[|r.value| - 1]| < limit
    decreases |turns| - k
  {
    if k < |turns| && turns[k].Success? && |turns[k].value| >= limit {
      WalkShape(turns, limit, k + 1);
      var w := Walk(turns, limit, k + 1);
      if w.Success? {
        var ps := [turns[k].value] + w.value;
        forall i | 1 <= i < |ps|
          ensures turns[k + i] == Success(ps[i])
        {
          assert ps[i] == w.value[i - 1] && k + i == (k + 1) + (i - 1);
        }
      }
    }
  }

  /** A successful fetch returns the in-order concatenation of pages 0..n-1, each
      answered successfully; all but the last are full and the last is short. */
  lemma FetchAllIsConcatenation(pages: Server, limit: nat, all: seq<Record>)
    requires limit > 0
    requires FetchAllSpec(true, pages, limit) == Success(all)
    ensures exists ps: seq<seq<Record>> ::
      && |ps| >= 1
      && all == Concat(ps)
      && |ps| <= |pages|
      && (forall i :: 0 <= i < |ps| ==> Turns(pages)[i] == Success(ps[i]))
      && (forall i :: 0 <= i < |ps| - 1 ==> |ps[i]| >= limit)
      && |ps[|ps| - 1]| < limit
  {
    var turns := Turns(pages);
    WalkShape(turns, limit, 0);
    var ps := Walk(turns, limit, 0).value;
    assert forall i :: 0 <= i < |ps| ==> turns[0 + i] == Success(ps[i]);
  }

  /** No partial result: if some page fails before a short page is read, the whole
      fetch fails with that page's error. */
  lemma {:induction false} FailingPageFailsWalk(turns: seq<Turn>, limit: nat, k: nat, j: nat)
    requires limit > 0 && k <= j < |turns|
    requires forall i :: k <= i < j ==> turns[i].Success? && |turns[i].value| >= limit
    requires turns[j].Failure?
    ensures Walk(turns, limit, k) == Failure(turns[j].error)
    decreases j - k
  {
    if k < j {
      FailingPageFailsWalk(turns, limit, k + 1, j);
    }
  }

  lemma FailingPageFailsFetch(pages: Server, limit: nat, j: nat)
    requires limit > 0 && j < |pages|
    requires forall i :: 0 <= i < j ==> PageItems(pages[i]).Success? && |PageItems(pages[i]).value| >= limit
    requires PageItems(pages[j]).Failure?
    ensures FetchAllSpec(true, pages, limit) == Failure(PageItems(pages[j]).error)
  {
    FailingPageFailsWalk(Turns(pages), limit, 0, j);
  }

  // ---------------------------------------------------------------- an honest server

  function Chunk(log: seq<Record>, limit: nat, k: nat): seq<Record>
    requires limit > 0 && k <= |log| / limit
  {
    DivBounds(|log|, limit, k);
    log[k * limit..if (k + 1) * limit <= |log| then (k + 1) * limit else |log|]
  }

  lemma DivBounds(n: nat, limit: nat, k: nat)
    requires limit > 0 && k <= n / limit
    ensures k * limit <= n
    ensures k < n / limit ==> (k + 1) * limit <= n
    ensures k == n / limit ==> n - k * limit < limit
  {
    assert n == (n / limit) * limit + n % limit;
    if k < n / limit {
      assert (k + 1) * limit <= (n / limit) * limit;
    } else {
      assert k * limit == (n / limit) * limit;
    }
    assert k * limit <= (n / limit) * limit;
  }

  /** A server that answers page k at once with the records at offsets k*limit up to
      (k+1)*limit of a log of |log| records. */
  function HonestServer(log: seq<Record>, limit: nat): (pages: Server)
    requires limit > 0
    ensures |pages| == |log| / limit + 1
  {
    seq(|log| / limit + 1, k requires 0 <= k <= |log| / limit =>
      [Answered(PageResponse(true, None, Some(Chunk(log, limit, k))))])
  }

  /** Page k of an honest server is answered at once with its chunk. */
  lemma HonestPage(log: seq<Record>, limit: nat, k: nat)
    requires limit > 0 && k <= |log| / limit
    ensures Turns(HonestServer(log, limit))[k] == Success(Chunk(log, limit, k))
  {
    var items := Chunk(log, limit, k);
    var script := HonestServer(log, limit)[k];
    assert script == [Answered(PageResponse(true, None, Some(items)))];
    assert RetryOutcome(script) == Retried(Success(PageResponse(true, None, Some(items))), 1);
  }

  /** The chunks before the last are full and the last is short; each full chunk
      is followed by the rest of the log. */
  lemma ChunkShape(log: seq<Record>, limit: nat, k: nat)
    requires limit > 0 && k <= |log| / limit
    ensures k * limit <= |log|
    ensures k < |log| / limit ==>
              |Chunk(log, limit, k)| == limit && (k + 1) * limit <= |log|
              && log[k * limit..] == Chunk(log, limit, k) + log[(k + 1) * limit..]
    ensures k == |log| / limit ==> |Chunk(log, limit, k)| < limit && Chunk(log, limit, k) == log[k * limit..]
  {
    DivBounds(|log|, limit, k);
    if k < |log| / limit {
      assert (k + 1) * limit == k * limit + limit;
    }
  }

  lemma {:induction false} HonestWalk(log: seq<Record>, limit: nat, k: nat)
    requires limit > 0 && k <= |log| / limit && k * limit <= |log|
    ensures Walk(Turns(HonestServer(log, limit)), limit, k).Success?
            && Concat(Walk(Turns(HonestServer(log, limit)), limit, k).value) == log[k * limit..]
            && Reach(Turns(HonestServer(log, limit)), limit, k) == |log| / limit + 1 - k
    decreases |log| / limit - k
  {
    var turns := Turns(HonestServer(log, limit));
    var items := Chunk(log, limit, k);
    HonestPage(log, limit, k);
    ChunkShape(log, limit, k);
    if k < |log| / limit {
      ChunkShape(log, limit, k + 1);
      HonestWalk(log, limit, k + 1);
      var rest := Walk(turns, limit, k + 1).value;
      assert Walk(turns, limit, k) == Success([items] + rest);
      assert ([items] + rest)[1..] == rest;
    } else {
      assert Concat([items]) == items + Concat([]);
    }
  }

  /** Round trip: against a server holding a log, fetch_all_logs returns exactly that
      log, in order, after |log| / limit + 1 requests (the last one short, possibly empty). */
  lemma FetchAllHonest(log: seq<Record>, limit: nat)
    requires limit > 0
    ensures FetchAllSpec(true, HonestServer(log, limit), limit) == Success(log)
    ensures PagesRequested(true, HonestServer(log, limit), limit) == |log| / limit + 1
  {
    HonestWalk(log, limit, 0);
  }

  /** Pages of 1000, 1000 and 400 records fetched 1000 at a time: three requests,
      2400 records in their original order. */
  lemma ThreePagesExample(log: seq<Record>)
    requires |log| == 2400
    ensures FetchAllSpec(true, HonestServer(log, 1000), 1000) == Success(log)
    ensures PagesRequested(true, HonestServer(log, 1000), 1000) == 3
  {
    FetchAllHonest(log, 1000);
  }

  // ---------------------------------------------------------------- logout

  /** Everything a call to logout does, given the session id before it. */
  datatype LogoutEffect = LogoutEffect(result: Result<bool, Error>, sid: Option<string>, sent: bool)

  /** logout, which is not retried: without a session it succeeds without a request;
      otherwise the server's verdict decides whether the session id is dropped, and
      a transport failure is raised. */
  function LogoutStep(sid: Option<string>, answer: Attempt<LogoutResponse>): (e: LogoutEffect)
    ensures !(sid.Some? && sid.value != "") ==> e == LogoutEffect(Success(true), sid, false)
    ensures e.result == Success(true) ==> e.sid == None || !e.sent
    ensures e.sid != sid ==> e.sid == None && e.result == Success(true)
    ensures answer.Dropped? && e.sent ==> e.result.Failure?
  {
    if !(sid.Some? && sid.value != "") then LogoutEffect(Success(true), sid, false)
    else match answer
      case Dropped(reason) => LogoutEffect(Failure(Raised("登出失敗: " + reason)), sid, true)
      case Answered(resp) =>
        if resp.success then LogoutEffect(Success(true), None, true)
        else LogoutEffect(Success(false), sid, true)
  }

  /** After a logout the server accepted, a second logout sends nothing and succeeds. */
  lemma LogoutTwice(sid: Option<string>, first: Attempt<LogoutResponse>, second: Attempt<LogoutResponse>)
    requires LogoutStep(sid, first).sent && LogoutStep(sid, first).result == Success(true)
    ensures LogoutStep(LogoutStep(sid, first).sid, second) == LogoutEffect(Success(true), None, false)
  {
  }

  /** A login the server grants followed by a logout it accepts leaves no session. */
  lemma LoginThenLogout(sid: Option<string>, token: string, accepted: bool)
    requires token != ""
    ensures var l := LoginStep(sid, [Answered(LoginResponse(Some(token), None))], false, false);
      l.result == Success(token)
      && LogoutStep(l.sid, Answered(LogoutResponse(accepted)))
         == (if accepted then LogoutEffect(Success(true), None, true)
             else LogoutEffect(Success(false), Some(token), true))
  {
    assert RetryOutcome([Answered(LoginResponse(Some(token), None))])
        == Retried(Success(LoginResponse(Some(token), None)), 1);
  }

  // ---------------------------------------------------------------- the client

  class NASClient {
    const nasIp: string
    const nasPort: string
    var sid: Option<string>

    constructor (nasIp: string, nasPort: string)
      ensures this.nasIp == nasIp && this.nasPort == nasPort && sid == None
    {
      this.nasIp := nasIp;
      this.nasPort := nasPort;
      sid := None;
    }

    /** `self.sid` is truthy: absent and empty session ids both mean "not logged in". */
    predicate HasSession()
      reads this
    {
      sid.Some? && sid.value != ""
    }

    /** BASE_URL formatted with the host and port. */
    function BaseUrl(): string
    {
      "http://" + nasIp + ":" + nasPort + "/webapi/"
    }

    /** build_url: the base URL followed by the endpoint, verbatim. */
    function BuildUrl(endpoint: string): (url: string)
      ensures |url| == |BaseUrl()| + |endpoint|
      ensures url[..|BaseUrl()|] == BaseUrl() && url[|BaseUrl()|..] == endpoint
    {
      BaseUrl() + endpoint
    }

    method Login(account: string, password: string, otp: Option<string>,
                 passwordCallback: bool, otpCallback: bool, network: seq<Attempt<LoginResponse>>)
      returns (r: Result<string, Error>, request: Request, attempts: nat, passwordCleared: bool, otpCleared: bool)
      modifies this
      ensures request == Request(BuildUrl("auth.cgi"), LoginParams(account, password, otp))
      ensures LoginEffect(r, sid, attempts, passwordCleared, otpCleared)
              == LoginStep(old(sid), network, passwordCallback, otpCallback)
    {
      request := Request(BuildUrl("auth.cgi"), LoginParams(account, password, otp));
      var answer;
      answer, attempts := Retry(network);
      passwordCleared, otpCleared := false, false;
      match answer {
        case Failure(e) =>
          r := Failure(e);
        case Success(resp) =>
          if resp.sid.Some? {
            sid := resp.sid;
            r := Success(resp.sid.value);
          } else {
            if ClearsPassword(resp.errorCode) && passwordCallback {
              passwordCleared := true;
            } else if ClearsOtp(resp.errorCode) && otpCallback {
              otpCleared := true;
            }
            r := Failure(Raised(CodeMessage(resp.errorCode)));
          }
      }
    }

    /** fetch_user_info; `sent` is the number of requests that reached the network. */
    method FetchUserInfo(username: Option<string>, additional: seq<string>, network: seq<Attempt<UserInfoResponse>>)
      returns (r: Result<UserInfoResponse, Error>, request: Option<Request>, sent: nat)
      ensures r == UserInfoOutcome(HasSession(), network)
      ensures !HasSession() ==> request == None && sent == 0
      ensures HasSession() ==> request == Some(Request(BuildUrl("entry.cgi"), UserParams(sid.value, username, additional)))
                               && sent == RetryOutcome(network).attempts
    {
      if !HasSession() {
        return Failure(Raised(NotLoggedInUserInfo)), None, 0;
      }
      request := Some(Request(BuildUrl("entry.cgi"), UserParams(sid.value, username, additional)));
      var answer;
      answer, sent := Retry(network);
      match answer {
        case Failure(e) => r := Failure(e);
        case Success(resp) => r := UserInfoReply(resp);
      }
    }

    /** fetch_logs_page: sent whether or not there is a session. */
    method FetchLogsPage(logtype: string, limit: int, offset: int, script: seq<Attempt<PageResponse>>)
      returns (r: Result<PageResponse, Error>, request: Request, sent: nat)
      ensures r == PageOutcome(script)
      ensures request == Request(BuildUrl("entry.cgi"), PageParams(sid, logtype, limit, offset))
      ensures sent == RetryOutcome(script).attempts
    {
      request := Request(BuildUrl("entry.cgi"), PageParams(sid, logtype, limit, offset));
      var answer;
      answer, sent := Retry(script);
      match answer {
        case Failure(e) => r := Failure(e);
        case Success(resp) =>
          if resp.success {
            r := Success(resp);
          } else {
            r := Failure(ApiFailure(resp.error));
          }
      }
    }

    /** fetch_all_logs: the pages at offsets 0, pageSize, 2 * pageSize, ..., requested
        one after another (through fetch_logs_page) until a short page arrives.
        `offsets` lists the offsets requested, in order. */
    method FetchAllLogs(logtype: string, pageSize: int, pages: Server)
      returns (r: Result<seq<Record>, Error>, offsets: seq<int>, requests: seq<Request>)
      requires pageSize > 0
      ensures r == FetchAllSpec(HasSession(), pages, pageSize)
      ensures offsets == PageOffsets(PagesRequested(HasSession(), pages, pageSize), pageSize)
      ensures requests == PageRequests(BuildUrl("entry.cgi"), sid, logtype, pageSize, offsets)
    {
      offsets, requests := [], [];
      if !HasSession() {
        return Failure(Raised(NotLoggedIn)), offsets, requests;
      }
      var url, session := BuildUrl("entry.cgi"), sid;
      var allItems: seq<Record> := [];
      ghost var done: seq<seq<Record>> := [];
      var offset := 0;
      var k := 0;
      AfterNothing(Walk(Turns(pages), pageSize, 0));
      while true
        invariant 0 <= k <= |pages|
        invariant offset == PageOffset(k, pageSize)
        invariant offsets == PageOffsets(k, pageSize)
        invariant url == BuildUrl("entry.cgi") && session == sid
        invariant requests == PageRequests(url, session, logtype, pageSize, offsets)
        invariant allItems == Concat(done)
        invariant WalkedTo(Turns(pages), pageSize, k, done)
        decreases |pages| - k
      {
        var turn, request := ReadPage(logtype, pageSize, offset, PageScript(pages, k));
        PageRequestsAppend(url, session, logtype, pageSize, offsets, offset, request);
        offsets, requests := offsets + [offset], requests + [request];
        if turn.Failure? {
          FailedTurn(pages, pageSize, k, done);
          r := Failure(turn.error);
          break;
        }
        var items := turn.value;
        ConcatAppend(done, items);
        allItems := allItems + items;
        if |items| < pageSize {
          ShortTurn(pages, pageSize, k, done, items);
          done := done + [items];
          r := Success(allItems);
          break;
        }
        FullTurn(pages, pageSize, k, done, items);
        done := done + [items];
        offset := offset + pageSize;
        k := k + 1;
      }
    }

    /** One turn of fetch_all_logs' loop: fetch_logs_page for the page at the offset,
        then insist on success and on an item list. */
    method ReadPage(logtype: string, pageSize: int, offset: int, script: seq<Attempt<PageResponse>>)
      returns (turn: Result<seq<Record>, Error>, request: Request)
      ensures turn == PageItems(script)
      ensures request == Request(BuildUrl("entry.cgi"), PageParams(sid, logtype, pageSize, offset))
    {
      var page, sent;
      page, request, sent := FetchLogsPage(logtype, pageSize, offset, script);
      match page {
        case Failure(e) =>
          turn := Failure(PageFailure(e));
        case Success(resp) =>
          if !resp.success {
            turn := Failure(PageFailure(ApiFailure(resp.error)));
          } else if resp.items.None? {
            turn := Failure(PageFailure(Raised(MalformedPage)));
          } else {
            turn := Success(resp.items.value);
          }
      }
    }

    method FetchSystemLogs(pages: Server) returns (r: Result<seq<Record>, Error>, offsets: seq<int>, requests: seq<Request>)
      ensures r == FetchAllSpec(HasSession(), pages, DefaultPageSize)
      ensures offsets == PageOffsets(PagesRequested(HasSession(), pages, DefaultPageSize), DefaultPageSize)
      ensures requests == PageRequests(BuildUrl("entry.cgi"), sid, "system", 1000, offsets)
    {
      r, offsets, requests := FetchAllLogs("system", DefaultPageSize, pages);
    }

    method FetchFileStationLogs(pages: Server) returns (r: Result<seq<Record>, Error>, offsets: seq<int>, requests: seq<Request>)
      ensures r == FetchAllSpec(HasSession(), pages, DefaultPageSize)
      ensures offsets == PageOffsets(PagesRequested(HasSession(), pages, DefaultPageSize), DefaultPageSize)
      ensures requests == PageRequests(BuildUrl("entry.cgi"), sid, "filestation", 1000, offsets)
    {
      r, offsets, requests := FetchAllLogs("filestation", DefaultPageSize, pages);
    }

    method Logout(answer: Attempt<LogoutResponse>) returns (r: Result<bool, Error>, request: Option<Request>)
      modifies this
      ensures LogoutEffect(r, sid, request.Some?) == LogoutStep(old(sid), answer)
      ensures request.Some? ==> request.value == Request(BuildUrl("auth.cgi"), LogoutParams(old(sid).value))
    {
      if !HasSession() {
        return Success(true), None;
      }
      request := Some(Request(BuildUrl("auth.cgi"), LogoutParams(sid.value)));
      match answer {
        case Dropped(reason) =>
          r := Failure(Raised("登出失敗: " + reason));
        case Answered(resp) =>
          if resp.success {
            sid := None;
            r := Success(true);
          } else {
            r := Success(false);
          }
      }
    }
  }
}
