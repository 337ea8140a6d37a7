/**
 * `APIClient` of `lib/api/client.ts` and `lib/api/apiClient.ts` (the two
 * files carry the same interceptors and auth-state handling): the in-memory
 * token, the bearer header, the success and error toasts, the session-expiry
 * logout, login/logout and the payment report request. Browser storage,
 * cookies, toasts and navigation are recorded in fields.
 */
module ApiClient {
  import opened Base
  import opened JsString
  import PaymentReport

  const TokenKey: string := "auth_token"
  const RoleKey: string := "user_role"
  const LoginPath: string := "/auth/login"
  const LogoutPath: string := "/auth/logout"
  const ReportPath: string := "/screening/cashier/office"
  /** The storage keys and cookies that hold the session. */
  const AuthKeys: set<string> := {TokenKey, RoleKey}

  const DefaultSuccess: string := "Operasi berhasil"
  const SessionExpired: string := "Sesi Anda telah berakhir. Silakan login kembali."
  const DefaultError: string := "Terjadi kesalahan"
  const Unreachable: string := "Tidak dapat terhubung ke server"
  const Unexpected: string := "Terjadi kesalahan yang tidak terduga"

  /** A toast; an error toast's text is `None` when the source passes `undefined`. */
  datatype Toast = SuccessToast(text: string) | ErrorToast(message: Option<string>)

  /** One value of a 422 body's `errors` object: a list of messages, or anything else. */
  datatype ErrorEntry = MessageList(messages: seq<string>) | OtherEntry

  /** An HTTP error response: its status, `data.message` and `Object.values(data.errors)` (`None` when `errors` is falsy). */
  datatype ErrorResponse = ErrorResponse(status: int, message: Option<string>, errors: Option<seq<ErrorEntry>>)

  /** A rejected request: its URL, the response if one arrived, and whether the request was sent at all. */
  datatype RequestError = RequestError(url: Option<string>, response: Option<ErrorResponse>, requestSent: bool)

  /** The mutating methods whose success is announced. */
  predicate IsMutating(verb: string) {
    ToLower(verb) in ["post", "put", "patch", "delete"]
  }

  /** The success interceptor's toast: only for post/put/patch/delete, with the body's message or the default. */
  function SuccessText(verb: Option<string>, message: Option<string>): (r: Option<string>)
    ensures r.Some? <==> verb.Some? && IsMutating(verb.value)
    ensures r.Some? && message.Some? && message.value != "" ==> r.value == message.value
    ensures r.Some? && !(message.Some? && message.value != "") ==> r.value == DefaultSuccess
  {
    if verb.Some? && IsMutating(verb.value) then
      Some(if message.Some? && message.value != "" then message.value else DefaultSuccess)
    else None
  }

  /** A GET never toasts, whatever its body says. */
  lemma GetIsSilent(message: Option<string>)
    ensures SuccessText(Some("get"), message).None? && SuccessText(Some("GET"), message).None?
  {
    var lower, upper := ToLower("get"), ToLower("GET");
    assert lower[0] == upper[0] == 'g' && lower[1] == upper[1] == 'e' && lower[2] == upper[2] == 't';
    assert lower == upper == "get";
  }

  /** Every POST is announced, with the reply's message when it has one. */
  lemma PostIsAnnounced(message: Option<string>)
    ensures SuccessText(Some("post"), message) ==
      Some(if message.Some? && message.value != "" then message.value else DefaultSuccess)
  {
    var lower := ToLower("post");
    assert lower[0] == 'p' && lower[1] == 'o' && lower[2] == 's' && lower[3] == 't';
    assert lower == "post";
  }

  /** The error ends the session: a 401 on a request with a URL other than a login call, in a browser. */
  predicate EndsSession(err: RequestError, inBrowser: bool) {
    err.response.Some? && err.response.value.status == 401 &&
    err.url.Some? && err.url.value != "" && !Contains(err.url.value, LoginPath) && inBrowser
  }

  /** A failed login never ends the session, even with status 401. */
  lemma LoginErrorKeepsSession(err: RequestError, inBrowser: bool)
    requires err.url == Some(LoginPath)
    ensures !EndsSession(err, inBrowser)
  {
    assert StartsWith(LoginPath, LoginPath);
  }

  /** The text of the error toast for an error that does not end the session. */
  function ErrorText(err: RequestError): (r: Option<string>)
    ensures err.response.None? && err.requestSent ==> r == Some(Unreachable)
    ensures err.response.None? && !err.requestSent ==> r == Some(Unexpected)
    ensures err.response.Some? && !(err.response.value.status == 422 && err.response.value.errors.Some?) ==>
      r == Some(ResponseMessage(err.response.value))
    ensures err.response.Some? && err.response.value.status == 422 && err.response.value.errors.Some? ==>
      r == FirstValidationError(err.response.value)
  {
    match err.response
    case None => if err.requestSent then Some(Unreachable) else Some(Unexpected)
    case Some(resp) =>
      if resp.status == 422 && resp.errors.Some? then FirstValidationError(resp) else Some(ResponseMessage(resp))
  }

  /** `error.response.data?.message || 'Terjadi kesalahan'` */
  function ResponseMessage(resp: ErrorResponse): (r: string)
    ensures r != ""
    ensures resp.message.Some? && resp.message.value != "" ==> r == resp.message.value
    ensures !(resp.message.Some? && resp.message.value != "") ==> r == DefaultError
  {
    if resp.message.Some? && resp.message.value != "" then resp.message.value else DefaultError
  }

  /** `Array.isArray(firstError) ? firstError[0] : message`: the first message of the first entry when it is a list
      (`undefined` for an empty list), the body message otherwise. */
  function FirstValidationError(resp: ErrorResponse): (r: Option<string>)
    requires resp.errors.Some?
    ensures |resp.errors.value| > 0 && resp.errors.value[0].MessageList? && |resp.errors.value[0].messages| > 0 ==>
      r == Some(resp.errors.value[0].messages[0])
    ensures |resp.errors.value| > 0 && resp.errors.value[0].MessageList? && |resp.errors.value[0].messages| == 0 ==> r.None?
    ensures !(|resp.errors.value| > 0 && resp.errors.value[0].MessageList?) ==> r == Some(ResponseMessage(resp))
  {
    var entries := resp.errors.value;
    if |entries| > 0 && entries[0].MessageList? then
      (if |entries[0].messages| > 0 then Some(entries[0].messages[0]) else None)
    else Some(ResponseMessage(resp))
  }

  /** Every error toast carries a text except for a 422 whose first error list is empty. */
  lemma ErrorToastHasText(err: RequestError)
    requires !(err.response.Some? && err.response.value.status == 422 && err.response.value.errors.Some?
               && |err.response.value.errors.value| > 0 && err.response.value.errors.value[0].MessageList?
               && |err.response.value.errors.value[0].messages| == 0)
    ensures ErrorText(err).Some?
  {
  }

  /** A call that failed before reaching the interceptor's URL check: the response if one arrived, and whether
      the request was sent. */
  datatype CallFailure = CallFailure(response: Option<ErrorResponse>, requestSent: bool)

  /** Removing the same keys a second time changes nothing. */
  lemma RemoveTwice(m: map<string, string>, keys: set<string>)
    ensures (m - keys) - keys == m - keys
  {
  }

  /** The error the interceptor sees for a failed call to `url`. */
  function CallError(url: string, f: CallFailure): (err: RequestError)
    ensures err.url == Some(url) && err.response == f.response && err.requestSent == f.requestSent
  {
    RequestError(Some(url), f.response, f.requestSent)
  }

  /** The one toast the interceptors show for a POST to `url`: the success toast with the reply's message, or
      the error interceptor's toast for the failure. */
  function PostToast(url: string, reply: Result<Option<string>, CallFailure>, inBrowser: bool): (t: Toast)
    ensures reply.Success? ==> t == SuccessToast(if reply.value.Some? && reply.value.value != "" then reply.value.value else DefaultSuccess)
    ensures reply.Failure? && EndsSession(CallError(url, reply.error), inBrowser) ==> t == ErrorToast(Some(SessionExpired))
    ensures reply.Failure? && !EndsSession(CallError(url, reply.error), inBrowser) ==> t == ErrorToast(ErrorText(CallError(url, reply.error)))
  {
    match reply
    case Success(message) => SuccessToast(if message.Some? && message.value != "" then message.value else DefaultSuccess)
    case Failure(f) =>
      var err := CallError(url, f);
      if EndsSession(err, inBrowser) then ErrorToast(Some(SessionExpired)) else ErrorToast(ErrorText(err))
  }

  /** The failure as the report request sees it: its response body is a blob, so the status survives and the
      body has neither a `message` nor `errors`. */
  function BlobFailure(f: CallFailure): (b: CallFailure)
    ensures b.requestSent == f.requestSent
    ensures b.response.Some? <==> f.response.Some?
    ensures b.response.Some? ==>
      b.response.value.status == f.response.value.status && b.response.value.message.None? && b.response.value.errors.None?
  {
    CallFailure(if f.response.Some? then Some(ErrorResponse(f.response.value.status, None, None)) else None, f.requestSent)
  }

  /** A report request answered with an error that does not end the session shows 'Terjadi kesalahan', whatever
      the server wrote: the blob body carries no message and no validation errors. */
  lemma ReportFailureToastIsDefault(f: CallFailure, inBrowser: bool)
    requires f.response.Some? && !(f.response.value.status == 401 && inBrowser)
    ensures PostToast(ReportPath, Failure(BlobFailure(f)), inBrowser) == ErrorToast(Some(DefaultError))
  {
    var err := CallError(ReportPath, BlobFailure(f));
    assert !EndsSession(err, inBrowser);
    assert ErrorText(err) == Some(ResponseMessage(err.response.value));
  }

  /** A report download that succeeds is announced as 'Operasi berhasil': the blob it returns has no message. */
  lemma ReportSuccessAnnounced(inBrowser: bool)
    ensures PostToast(ReportPath, Success(None), inBrowser) == SuccessToast(DefaultSuccess)
  {
  }

  /** The report URL has no 'l', so it never contains `/auth/login`. */
  lemma ReportPathIsNotLogin()
    ensures !Contains(ReportPath, LoginPath)
  {
    assert LoginPath[6] == 'l';
    assert 'l' !in ReportPath;
    MissingCharNeverContains(ReportPath, LoginPath, 6);
  }

  /** A 401 on the report request in a browser ends the session: its URL is not a login URL. */
  lemma ReportUnauthorizedEndsSession(f: CallFailure)
    requires f.response.Some? && f.response.value.status == 401
    ensures EndsSession(CallError(ReportPath, f), true)
  {
    ReportPathIsNotLogin();
  }

  /** So a 401 on the report request in a browser shows the session-expired toast, not the server's message. */
  lemma ReportUnauthorizedToast(f: CallFailure)
    requires f.response.Some? && f.response.value.status == 401
    ensures PostToast(ReportPath, Failure(BlobFailure(f)), true) == ErrorToast(Some(SessionExpired))
  {
    ReportUnauthorizedEndsSession(BlobFailure(f));
  }

  /** A 401 on the logout call in a browser ends the session: `/auth/logout` is not a login URL. */
  lemma LogoutUnauthorizedEndsSession(f: CallFailure)
    requires f.response.Some? && f.response.value.status == 401
    ensures EndsSession(CallError(LogoutPath, f), true)
    ensures !EndsSession(CallError(LogoutPath, f), false)
  {
    var u := LogoutPath;
    assert !StartsWith(u, LoginPath) by { assert u[..|LoginPath|][9] != LoginPath[9]; }
    assert !StartsWith(u[1..], LoginPath) by { assert u[1..][..|LoginPath|][0] != LoginPath[0]; }
    assert u[1..][1..] == u[2..];
    ShortNeverContains(u[2..], LoginPath);
  }

  /** The reply to a successful login call. */
  datatype LoginReply = LoginReply(token: string, role: string, message: Option<string>)

  class Client {
    /** `typeof window !== 'undefined'` */
    const inBrowser: bool
    var token: Option<string>
    /** localStorage */
    var storage: map<string, string>
    /** document.cookie entries that have not expired */
    var cookies: map<string, string>
    var toasts: seq<Toast>
    /** The value last assigned to `window.location.href`. */
    var location: Option<string>

    constructor (inBrowser: bool, storage: map<string, string>, cookies: map<string, string>)
      ensures this.inBrowser == inBrowser && this.storage == storage && this.cookies == cookies
      ensures token.None? && toasts == [] && location.None?
    {
      this.inBrowser := inBrowser;
      this.storage := storage;
      this.cookies := cookies;
      token := None;
      toasts := [];
      location := None;
    }

    /** The request interceptor's `Authorization` header: the in-memory token if set, else the stored one in a
        browser, and no header when neither is a non-empty string. */
    function AuthHeader(): (r: Option<string>)
      reads this
      ensures token.Some? && token.value != "" ==> r == Some("Bearer " + token.value)
      ensures !(token.Some? && token.value != "") && inBrowser && TokenKey in storage && storage[TokenKey] != "" ==>
        r == Some("Bearer " + storage[TokenKey])
      ensures !(token.Some? && token.value != "") && !(inBrowser && TokenKey in storage && storage[TokenKey] != "") ==> r.None?
    {
      if token.Some? && token.value != "" then Some("Bearer " + token.value)
      else if inBrowser && TokenKey in storage && storage[TokenKey] != "" then Some("Bearer " + storage[TokenKey])
      else None
    }

    /** `setToken(token)` */
    method SetToken(t: string)
      modifies this
      ensures token == Some(t)
      ensures storage == old(storage) && cookies == old(cookies) && toasts == old(toasts) && location == old(location)
    {
      token := Some(t);
    }

    /** `clearAuthData()`: drops both stored keys and cookies in a browser, and always nulls the token. */
    method ClearAuthData()
      modifies this
      ensures token.None?
      ensures inBrowser ==> storage == old(storage) - AuthKeys && cookies == old(cookies) - AuthKeys
      ensures !inBrowser ==> storage == old(storage) && cookies == old(cookies)
      ensures toasts == old(toasts) && location == old(location)
    {
      if inBrowser {
        storage := storage - {TokenKey};
        storage := storage - {RoleKey};
        cookies := cookies - {TokenKey};
        cookies := cookies - {RoleKey};
      }
      token := None;
    }

    /** The success interceptor. */
    method OnResponse(verb: Option<string>, message: Option<string>)
      modifies this
      ensures SuccessText(verb, message).Some? ==> toasts == old(toasts) + [SuccessToast(SuccessText(verb, message).value)]
      ensures SuccessText(verb, message).None? ==> toasts == old(toasts)
      ensures token == old(token) && storage == old(storage) && cookies == old(cookies) && location == old(location)
    {
      var lowered := if verb.Some? then Some(ToLower(verb.value)) else None;
      if lowered.Some? && lowered.value in ["post", "put", "patch", "delete"] {
        var text := if message.Some? && message.value != "" then message.value else DefaultSuccess;
        toasts := toasts + [SuccessToast(text)];
      }
    }

    /** The error interceptor: ends the session on a 401 outside login, otherwise shows the classified error;
        in every case the same error is rejected to the caller. */
    method OnError(err: RequestError) returns (rejected: RequestError)
      modifies this
      ensures rejected == err
      ensures EndsSession(err, inBrowser) ==>
        token.None? && storage == old(storage) - AuthKeys && cookies == old(cookies) - AuthKeys
        && toasts == old(toasts) + [ErrorToast(Some(SessionExpired))] && location == Some(LoginPath)
      ensures !EndsSession(err, inBrowser) ==>
        token == old(token) && storage == old(storage) && cookies == old(cookies) && location == old(location)
        && toasts == old(toasts) + [ErrorToast(ErrorText(err))]
    {
      if EndsSession(err, inBrowser) {
        ClearAuthData();
        toasts := toasts + [ErrorToast(Some(SessionExpired))];
        location := Some(LoginPath);
        return err;
      }
      toasts := toasts + [ErrorToast(ErrorText(err))];
      return err;
    }

    /** `login(email, password)`: a POST to `/auth/login`. On success the token and role are stored (in a browser)
        but the in-memory token is left as it was, and the user's role is returned; a failure is shown and
        rejected, and never ends the session. */
    method Login(reply: Result<LoginReply, CallFailure>) returns (result: Result<string, RequestError>)
      modifies this
      ensures token == old(token) && cookies == old(cookies) && location == old(location)
      ensures reply.Success? ==> result == Success(reply.value.role)
      ensures reply.Success? ==>
        SuccessText(Some("post"), reply.value.message).Some? &&
        toasts == old(toasts) + [SuccessToast(SuccessText(Some("post"), reply.value.message).value)]
      ensures reply.Success? && inBrowser ==>
        storage == old(storage)[TokenKey := reply.value.token][RoleKey := reply.value.role]
      ensures reply.Success? && !inBrowser ==> storage == old(storage)
      ensures reply.Failure? ==> storage == old(storage)
      ensures reply.Failure? ==>
        var err := RequestError(Some(LoginPath), reply.error.response, reply.error.requestSent);
        result == Failure(err) && toasts == old(toasts) + [ErrorToast(ErrorText(err))]
    {
      match reply {
        case Success(r) =>
          PostIsAnnounced(r.message);
          OnResponse(Some("post"), r.message);
          if inBrowser {
            storage := storage[TokenKey := r.token];
            storage := storage[RoleKey := r.role];
          }
          result := Success(r.role);
        case Failure(f) =>
          var err := RequestError(Some(LoginPath), f.response, f.requestSent);
          LoginErrorKeepsSession(err, inBrowser);
          var rejected := OnError(err);
          result := Failure(rejected);
      }
    }

    /** `logout()`: a POST to `/auth/logout`; whatever it returns, auth data is cleared and, in a browser, the page
        goes to login. Other stored keys survive. The interceptors leave exactly one toast. */
    method Logout(reply: Result<Option<string>, CallFailure>)
      modifies this
      ensures token.None?
      ensures inBrowser ==> storage == old(storage) - AuthKeys && cookies == old(cookies) - AuthKeys
      ensures inBrowser ==> location == Some(LoginPath)
      ensures !inBrowser ==> storage == old(storage) && cookies == old(cookies) && location == old(location)
      ensures reply.Success? ==>
        SuccessText(Some("post"), reply.value).Some? &&
        toasts == old(toasts) + [SuccessToast(SuccessText(Some("post"), reply.value).value)]
      ensures reply.Failure? && EndsSession(CallError(LogoutPath, reply.error), inBrowser) ==>
        toasts == old(toasts) + [ErrorToast(Some(SessionExpired))]
      ensures reply.Failure? && !EndsSession(CallError(LogoutPath, reply.error), inBrowser) ==>
        toasts == old(toasts) + [ErrorToast(ErrorText(CallError(LogoutPath, reply.error)))]
    {
      LogoutCall(reply);
      ClearAuthData();
      if inBrowser {
        location := Some(LoginPath);
      }
    }

    /** The interceptors' part of `logout()`: the success toast, or the error path of `OnError`. A failure with
        401 may already end the session, which changes nothing about the keys that survive it. */
    method LogoutCall(reply: Result<Option<string>, CallFailure>)
      modifies this
      ensures storage - AuthKeys == old(storage) - AuthKeys && cookies - AuthKeys == old(cookies) - AuthKeys
      ensures !inBrowser ==> storage == old(storage) && cookies == old(cookies) && location == old(location)
      ensures reply.Success? ==>
        SuccessText(Some("post"), reply.value).Some? &&
        toasts == old(toasts) + [SuccessToast(SuccessText(Some("post"), reply.value).value)] &&
        token == old(token) && location == old(location)
      ensures reply.Failure? && EndsSession(CallError(LogoutPath, reply.error), inBrowser) ==>
        token.None? && location == Some(LoginPath) && toasts == old(toasts) + [ErrorToast(Some(SessionExpired))]
      ensures reply.Failure? && !EndsSession(CallError(LogoutPath, reply.error), inBrowser) ==>
        token == old(token) && location == old(location) && toasts == old(toasts) + [ErrorToast(ErrorText(CallError(LogoutPath, reply.error)))]
    {
      match reply {
        case Success(message) =>
          PostIsAnnounced(message);
          OnResponse(Some("post"), message);
        case Failure(f) =>
          ghost var storage0, cookies0 := storage, cookies;
          var _ := OnError(CallError(LogoutPath, f));
          RemoveTwice(storage0, AuthKeys);
          RemoveTwice(cookies0, AuthKeys);
      }
    }

    /** A POST to `url` through the interceptors: the success or error toast, and on a session-ending failure
        the cleared session; `reply` is the reply's message, or the failure. */
    method Post(url: string, reply: Result<Option<string>, CallFailure>)
      modifies this
      ensures toasts == old(toasts) + [PostToast(url, reply, inBrowser)]
      ensures reply.Failure? && EndsSession(CallError(url, reply.error), inBrowser) ==>
        token.None? && storage == old(storage) - AuthKeys && cookies == old(cookies) - AuthKeys && location == Some(LoginPath)
      ensures !(reply.Failure? && EndsSession(CallError(url, reply.error), inBrowser)) ==>
        token == old(token) && storage == old(storage) && cookies == old(cookies) && location == old(location)
    {
      match reply {
        case Success(message) =>
          PostIsAnnounced(message);
          OnResponse(Some("post"), message);
        case Failure(f) =>
          var _ := OnError(CallError(url, f));
      }
    }

    /** `getPaymentReport(params)`: the form it posts, and the call's outcome (`reply` is `Success` when the
        blob arrives). With `responseType: 'blob'` every body is a blob, so the interceptors announce a success
        with the default text and see a failure only through its status (`BlobFailure`). */
    method GetPaymentReport(params: PaymentReport.ReportParams, reply: Result<(), CallFailure>)
      returns (form: seq<PaymentReport.FormField>, result: Result<(), RequestError>)
      modifies this
      ensures form == PaymentReport.ReportForm(params)
      ensures reply.Success? ==> result.Success? && toasts == old(toasts) + [SuccessToast(DefaultSuccess)]
      ensures reply.Failure? ==>
        result == Failure(CallError(ReportPath, BlobFailure(reply.error))) &&
        toasts == old(toasts) + [PostToast(ReportPath, Failure(BlobFailure(reply.error)), inBrowser)]
      ensures !(reply.Failure? && EndsSession(CallError(ReportPath, reply.error), inBrowser)) ==>
        token == old(token) && storage == old(storage) && cookies == old(cookies) && location == old(location)
      ensures reply.Failure? && EndsSession(CallError(ReportPath, reply.error), inBrowser) ==>
        token.None? && storage == old(storage) - AuthKeys && cookies == old(cookies) - AuthKeys && location == Some(LoginPath)
    {
      form := PaymentReport.BuildReportForm(params);
      match reply {
        case Success(_) =>
          Post(ReportPath, Success(None));
          result := Success(());
        case Failure(f) =>
          var blob := BlobFailure(f);
          assert EndsSession(CallError(ReportPath, blob), inBrowser) == EndsSession(CallError(ReportPath, f), inBrowser);
          Post(ReportPath, Failure(blob));
          result := Failure(CallError(ReportPath, blob));
      }
    }
  }

  /** After a session-ending 401 no bearer header is sent any more, whatever was stored before. */
  lemma NoHeaderAfterClear(c: Client)
    requires c.token.None? && (c.inBrowser ==> TokenKey !in c.storage)
    ensures c.AuthHeader().None?
  {
  }
}
