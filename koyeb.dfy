/**
 * koyeb-alive: loads `email:PAT` accounts from KOYEB_LOGIN, checks each one
 * against the account-profile endpoint, and reports how many are active and
 * validated. The HTTP exchange is abstracted to a `Response` value; the
 * report is kept as structured data rather than the Telegram text.
 */
module Koyeb {
  import opened Wrappers
  import opened Text
  import opened Credentials

  /** An account: `name` is the email, `secret` the personal access token (PAT). */
  type Account = Credential

  datatype ConfigError =
    | LoginNotSet       // KOYEB_LOGIN unset or empty
    | NoValidAccounts   // KOYEB_LOGIN holds no `email:PAT` line

  /** What validate_and_load_accounts yields for KOYEB_LOGIN (None when the variable is unset). */
  function LoadSpec(env: Option<string>): Result<seq<Account>, ConfigError> {
    if env.None? || env.value == [] then Failure(LoginNotSet)
    else
      var accounts := Parsed(Split(Strip(env.value), '\n'));
      if accounts == [] then Failure(NoValidAccounts) else Success(accounts)
  }

  /** validate_and_load_accounts: read the lines in order, keep the `email:PAT` pairs. */
  method LoadAccounts(env: Option<string>) returns (r: Result<seq<Account>, ConfigError>)
    ensures r == LoadSpec(env)
    ensures r.Success? ==> |r.value| > 0
  {
    if env.None? || env.value == [] {
      return Failure(LoginNotSet);
    }
    var accounts: seq<Account> := [];
    var lines := Split(Strip(env.value), '\n');
    for i := 0 to |lines|
      invariant accounts == Parsed(lines[..i])
    {
      ParsedStep(lines, i);
      AcceptedByGuard(lines[i]);
      var line := Strip(lines[i]);
      if line == [] || ':' !in line {
        continue;
      }
      var parts := SplitOnce(line, ':');
      // The guard above found a ':', so the ValueError handler never runs.
      assert parts.Some?;
      var (email, pat) := parts.value;
      accounts := accounts + [Credential(Strip(email), Strip(pat))];
    }
    assert lines[..|lines|] == lines;
    if accounts == [] {
      return Failure(NoValidAccounts);
    }
    return Success(accounts);
  }

  /** The `user` member of the profile JSON; each field is None when the key is absent. */
  datatype UserInfo = UserInfo(email: Option<string>, flags: Option<seq<string>>, emailValidated: Option<bool>)

  datatype UserField =
    | NoUser                     // no "user" key: `.get('user', {})` gives {}
    | User(info: UserInfo)
    | UserNotObject(detail: string)  // "user" is not an object: `.get` on it raises

  /** The body of a response as `response.json()` sees it. */
  datatype Json =
    | NotJson(detail: string)                           // json() raises a decode error
    | Object(error: Option<string>, user: UserField)    // an object; its "error" and "user" members
    | NotObject(detail: string)                         // valid JSON, but `.get` on it raises

  datatype Response =
    | TimedOut                                    // requests.exceptions.Timeout
    | RequestError(detail: string)                // any other RequestException from requests.get
    | Http(status: int, text: string, json: Json)

  /** The message half of the verifier's (ok, message) pair. */
  datatype Message =
    | ActiveAndValidated
    | CredentialMissing
    | PatInvalid
    | EmailMismatch(returned: string)
    | Inactive(flags: seq<string>)
    | EmailNotValidated
    | UnknownAccount(info: UserInfo)
    | ApiError(status: int, error: string)
    | HttpError(status: int, text: string)
    | Timeout
    | NetworkError(detail: string)
    | HandlingError(detail: string)

  /** The verifier either returns (ok, message) or lets an exception escape. */
  datatype Verification = Returned(ok: bool, message: Message) | Raised(detail: string)

  /** `response.raise_for_status()` raises for 4xx and 5xx statuses only. */
  predicate RaisesForStatus(status: int) {
    400 <= status < 600
  }

  /** The success condition, stated on its own: every conjunct the verifier checks. */
  predicate Accepts(email: string, pat: string, response: Response) {
    && email != [] && pat != []
    && response.Http?
    && response.status != 401 && response.status != 403
    && !RaisesForStatus(response.status)
    && response.json.Object?
    && response.json.user.User?
    && var info := response.json.user.info;
    && info.email.Some? && Lower(info.email.value) == Lower(email)
    && info.flags.Some? && "ACTIVE" in info.flags.value
    && info.emailValidated == Some(true)
  }

  /** verify_koyeb_account_status with the GET request replaced by its outcome `response`. */
  function Verify(email: string, pat: string, response: Response): (v: Verification)
    ensures v.Returned? && v.ok <==> Accepts(email, pat, response)
    ensures v.Returned? ==> (v.ok <==> v.message == ActiveAndValidated)
    ensures !v.Returned? || !v.message.UnknownAccount?
    ensures email == [] || pat == [] ==> v == Returned(false, CredentialMissing)
    ensures v.Raised? <==>
      && email != [] && pat != [] && response.Http? && response.status != 401
      && response.status != 403 && RaisesForStatus(response.status) && response.json.NotObject?
  {
    if email == [] || pat == [] then Returned(false, CredentialMissing)
    else match response
      case TimedOut => Returned(false, Timeout)
      case RequestError(detail) => Returned(false, NetworkError(detail))
      case Http(status, text, json) =>
        if status == 401 || status == 403 then Returned(false, PatInvalid)
        else if RaisesForStatus(status) then ErrorStatus(status, text, json)
        else CheckProfile(email, json)
  }

  /** The HTTPError handler: the "error" member of a JSON object body, else the raw text. */
  function ErrorStatus(status: int, text: string, json: Json): Verification {
    match json
    case Object(error, _) => Returned(false, ApiError(status, error.GetOr(text)))
    case NotJson(_) => Returned(false, HttpError(status, text))
    // `.get` on a non-object raises inside the handler and escapes the verifier
    case NotObject(detail) => Raised(detail)
  }

  /**
   * The profile checks after a status that does not raise. A body that is not
   * JSON raises requests' JSONDecodeError, which is a RequestException.
   */
  function CheckProfile(email: string, json: Json): Verification {
    match json
    case NotJson(detail) => Returned(false, NetworkError(detail))
    case NotObject(detail) => Returned(false, HandlingError(detail))
    case Object(_, user) =>
      match user
      case UserNotObject(detail) => Returned(false, HandlingError(detail))
      case NoUser => Judge(email, UserInfo(None, None, None))
      case User(info) => Judge(email, info)
  }

  /** The strict checks on the decoded profile, in the source's order. */
  function Judge(email: string, info: UserInfo): Verification {
    var returned := info.email.GetOr("");
    var flags := info.flags.GetOr([]);
    var validated := info.emailValidated.GetOr(false);
    if Lower(returned) != Lower(email) then Returned(false, EmailMismatch(returned))
    else
      var isActive := "ACTIVE" in flags;
      if isActive && validated then Returned(true, ActiveAndValidated)
      else if !isActive then Returned(false, Inactive(flags))
      else if !validated then Returned(false, EmailNotValidated)
      else Returned(false, UnknownAccount(info))
  }

  /** A 401 or 403 answer means an invalid PAT, whatever the body says. */
  lemma AuthRejectionFirst(email: string, pat: string, status: int, text: string, json: Json)
    requires email != [] && pat != [] && (status == 401 || status == 403)
    ensures Verify(email, pat, Http(status, text, json)) == Returned(false, PatInvalid)
  {
  }

  /**
   * Any other 4xx or 5xx status is reported from the error body before the
   * profile is looked at: the body's "error" member (the text when there is
   * none), or the text when the body is not JSON; a JSON body that is not an
   * object makes the handler itself raise.
   */
  lemma ErrorStatusBeforeProfile(email: string, pat: string, status: int, text: string, json: Json)
    requires email != [] && pat != [] && status != 401 && status != 403 && RaisesForStatus(status)
    ensures var v := Verify(email, pat, Http(status, text, json));
      && (json.Object? ==> v == Returned(false, ApiError(status, json.error.GetOr(text))))
      && (json.NotJson? ==> v == Returned(false, HttpError(status, text)))
      && (json.NotObject? ==> v == Raised(json.detail))
  {
  }

  /** A request that times out, or fails in any other way, has its own message and no profile check. */
  lemma RequestFailures(email: string, pat: string, detail: string)
    requires email != [] && pat != []
    ensures Verify(email, pat, TimedOut) == Returned(false, Timeout)
    ensures Verify(email, pat, RequestError(detail)) == Returned(false, NetworkError(detail))
  {
  }

  /**
   * After a status that does not raise, a body that is not JSON is a network
   * request exception, and a body that is not an object, or whose "user" is
   * not an object, is an exception while handling the response.
   */
  lemma UnreadableProfile(email: string, pat: string, status: int, text: string, json: Json)
    requires email != [] && pat != [] && status != 401 && status != 403 && !RaisesForStatus(status)
    ensures var v := Verify(email, pat, Http(status, text, json));
      && (json.NotJson? ==> v == Returned(false, NetworkError(json.detail)))
      && (json.NotObject? ==> v == Returned(false, HandlingError(json.detail)))
      && (json.Object? && json.user.UserNotObject? ==> v == Returned(false, HandlingError(json.user.detail)))
  {
  }

  /** An email mismatch is reported before the flags and the validation are looked at. */
  lemma MismatchBeforeFlags(email: string, pat: string, status: int, text: string, error: Option<string>, info: UserInfo)
    requires email != [] && pat != [] && status != 401 && status != 403 && !RaisesForStatus(status)
    requires Lower(info.email.GetOr("")) != Lower(email)
    ensures Verify(email, pat, Http(status, text, Object(error, User(info))))
      == Returned(false, EmailMismatch(info.email.GetOr("")))
  {
  }

  /** With the email matching, each failed check yields its own message: inactive first, then not validated. */
  lemma FailedCheckMessages(email: string, pat: string, status: int, text: string, error: Option<string>, info: UserInfo)
    requires email != [] && pat != [] && status != 401 && status != 403 && !RaisesForStatus(status)
    requires Lower(info.email.GetOr("")) == Lower(email)
    ensures var v := Verify(email, pat, Http(status, text, Object(error, User(info))));
      && ("ACTIVE" !in info.flags.GetOr([]) ==> v == Returned(false, Inactive(info.flags.GetOr([]))))
      && ("ACTIVE" in info.flags.GetOr([]) && !info.emailValidated.GetOr(false) ==> v == Returned(false, EmailNotValidated))
  {
  }

  /** How one account appears in the report. */
  datatype Status = Verified(message: Message) | Unverified(message: Message) | Crashed(detail: string)

  datatype ReportLine =
    | Incomplete                          // empty email or PAT: skipped, never verified
    | Checked(email: string, status: Status)

  /** The report: its totals and its lines in account order. */
  datatype Report = Report(total: nat, successes: nat, failures: int, lines: seq<ReportLine>)

  datatype RunResult =
    | Completed(report: Report, exitCode: nat)
    | Aborted(error: ConfigError, exitCode: nat)

  /** One pass of main's loop: `response` is what the request for this account gets. */
  function ReportLineFor(account: Account, response: Response): ReportLine {
    var email := Strip(account.name);
    if email == [] || account.secret == [] then Incomplete
    else match Verify(email, account.secret, response)
      case Returned(ok, message) => Checked(email, if ok then Verified(message) else Unverified(message))
      case Raised(detail) => Checked(email, Crashed(detail))
  }

  /** The report lines for the accounts; `respond(i)` answers the request for the i-th account (from 1). */
  function ReportLines(accounts: seq<Account>, respond: nat -> Response): (lines: seq<ReportLine>)
    ensures |lines| == |accounts|
  {
    seq(|accounts|, k requires 0 <= k < |accounts| => ReportLineFor(accounts[k], respond(k + 1)))
  }

  predicate IsSuccess(line: ReportLine) {
    line.Checked? && line.status.Verified?
  }

  /** The number of successful lines. */
  function Successes(lines: seq<ReportLine>): (n: nat)
    ensures n <= |lines|
    ensures n == 0 <==> forall k :: 0 <= k < |lines| ==> !IsSuccess(lines[k])
  {
    if lines == [] then 0
    else
      var init := lines[..|lines| - 1];
      assert forall k :: 0 <= k < |init| ==> init[k] == lines[k];
      Successes(init) + (if IsSuccess(lines[|lines| - 1]) then 1 else 0)
  }

  /** Exit status 1 exactly when there were accounts and none succeeded. */
  function ExitCode(total: nat, successes: nat): nat {
    if successes == 0 && total > 0 then 1 else 0
  }

  /** What main produces for KOYEB_LOGIN and the network's answers. */
  function RunSpec(env: Option<string>, respond: nat -> Response): RunResult {
    match LoadSpec(env)
    case Failure(e) => Aborted(e, 1)
    case Success(accounts) =>
      var lines := ReportLines(accounts, respond);
      var n := Successes(lines);
      Completed(Report(|accounts|, n, |accounts| - n, lines), ExitCode(|accounts|, n))
  }

  /** The totals of a run: every account is reported, failures are the rest, and the exit status is 1 exactly when nothing succeeded. */
  lemma RunSpecTotals(env: Option<string>, respond: nat -> Response)
    ensures var result := RunSpec(env, respond);
      && (result.Completed? ==>
        && result.report.total == |result.report.lines| > 0
        && result.report.successes <= result.report.total
        && result.report.failures == result.report.total - result.report.successes)
      && (result.exitCode == 1 <==> result.Aborted? || result.report.successes == 0)
      && result.exitCode <= 1
  {
  }

  /** main: load, verify every account in order, total up, and choose the exit status. */
  method RunMain(env: Option<string>, respond: nat -> Response) returns (result: RunResult)
    ensures result == RunSpec(env, respond)
    ensures result.Completed? ==>
      && result.report.total == |result.report.lines| > 0
      && result.report.successes <= result.report.total
      && result.report.failures == result.report.total - result.report.successes
    ensures result.exitCode == 1 <==> result.Aborted? || result.report.successes == 0
    ensures result.exitCode <= 1
  {
    RunSpecTotals(env, respond);
    var loaded := LoadAccounts(env);
    if loaded.Failure? {
      return Aborted(loaded.error, 1);
    }
    var accounts := loaded.value;
    var total := |accounts|;
    var results, successCount := CheckAll(accounts, respond);
    var report := Report(total, successCount, total - successCount, results);
    result := Completed(report, ExitCode(total, successCount));
  }

  /** main's loop: check every account in order, keeping the report lines and counting the successes. */
  method CheckAll(accounts: seq<Account>, respond: nat -> Response) returns (results: seq<ReportLine>, successCount: nat)
    ensures results == ReportLines(accounts, respond)
    ensures successCount == Successes(results)
  {
    results := [];
    successCount := 0;
    for index := 1 to |accounts| + 1
      invariant results == ReportLines(accounts, respond)[..index - 1]
      invariant successCount == Successes(results)
    {
      ReportStep(accounts, respond, results, index);
      var line := CheckAccount(accounts[index - 1], respond(index));
      if IsSuccess(line) {
        successCount := successCount + 1;
      }
      results := results + [line];
    }
    assert results == ReportLines(accounts, respond)[..|accounts|];
  }

  /**
   * The body of main's loop for one account, split out of the loop for its proof:
   * skip the account when a field is empty, otherwise verify it and record the outcome.
   */
  method CheckAccount(account: Account, response: Response) returns (line: ReportLine)
    ensures line == ReportLineFor(account, response)
  {
    var email := Strip(account.name);
    var pat := account.secret;
    if email == [] || pat == [] {
      return Incomplete;
    }
    var status: Status;
    match Verify(email, pat, response) {
      case Returned(ok, message) =>
        if ok {
          status := Verified(message);
        } else {
          status := Unverified(message);
        }
      case Raised(detail) =>
        status := Crashed(detail);
    }
    line := Checked(email, status);
  }

  /** One more pass of main's loop appends the next line and counts it when it is a success. */
  lemma ReportStep(accounts: seq<Account>, respond: nat -> Response, results: seq<ReportLine>, index: nat)
    requires 1 <= index <= |accounts| && results == ReportLines(accounts, respond)[..index - 1]
    ensures var next := ReportLineFor(accounts[index - 1], respond(index));
      && ReportLines(accounts, respond)[..index] == results + [next]
      && Successes(results + [next]) == Successes(results) + (if IsSuccess(next) then 1 else 0)
  {
    var next := ReportLineFor(accounts[index - 1], respond(index));
    assert (results + [next])[..|results|] == results;
  }

  /** A report line counts as a success exactly when the account had both fields and the verifier accepted it. */
  lemma SuccessMeansAccepted(account: Account, response: Response)
    ensures IsSuccess(ReportLineFor(account, response))
      <==> Accepts(Strip(account.name), account.secret, response)
  {
  }

  /** The loader already strips the email, so main's second strip changes nothing. */
  lemma LoadedEmailsStripped(env: Option<string>)
    requires LoadSpec(env).Success?
    ensures forall k :: 0 <= k < |LoadSpec(env).value| ==>
      Strip(LoadSpec(env).value[k].name) == LoadSpec(env).value[k].name
  {
    var accounts := LoadSpec(env).value;
    forall k | 0 <= k < |accounts| ensures Strip(accounts[k].name) == accounts[k].name {
      ParsedStripped(Split(Strip(env.value), '\n'), k);
    }
  }

  lemma {:induction false} ParsedStripped(lines: seq<string>, k: nat)
    requires k < |Parsed(lines)|
    ensures IsStripped(Parsed(lines)[k].name)
    ensures Strip(Parsed(lines)[k].name) == Parsed(lines)[k].name
  {
    var acc := Accepted(lines[0]);
    if k < |acc| {
      StripNoop(Parsed(lines)[k].name);
    } else {
      ParsedStripped(lines[1..], k - |acc|);
      StripNoop(Parsed(lines)[k].name);
    }
  }

  /** Reading back a rendered, non-empty account list loads exactly those accounts. */
  lemma LoadRoundTrip(accounts: seq<Account>)
    requires |accounts| > 0 && forall k :: 0 <= k < |accounts| ==> Writable(accounts[k])
    ensures LoadSpec(Some(Render(accounts))) == Success(accounts)
  {
    RenderRoundTrip(accounts);
    JoinEnds(LinesOf(accounts), '\n');
    LineOfAt(accounts, 0);
  }

  /** The answers of the worked example: an active, validated profile for the first account and 403 for the second. */
  function ExampleAnswers(index: nat): Response {
    if index == 1 then Http(200, "", Object(None, User(UserInfo(Some("a@x.com"), Some(["ACTIVE"]), Some(true)))))
    else Http(403, "Forbidden", NotJson("Forbidden"))
  }

  /** The two accounts of the worked example. */
  function ExampleAccounts(): seq<Account> {
    [Credential("a@x.com", "tok1"), Credential("b@x.com", "tok2")]
  }

  /** Two accounts, one verified and one refused with 403: one success, one failure, exit status 0. */
  lemma ExampleRun(env: string)
    requires env == "a@x.com:tok1\nb@x.com:tok2"
    ensures RunSpec(Some(env), ExampleAnswers) == Completed(Report(2, 1, 1, ExampleReport()), 0)
  {
    ExampleLoads(env);
    ExampleLines();
    ExampleSuccesses();
  }

  lemma ExampleSuccesses()
    ensures Successes(ExampleReport()) == 1
  {
    var lines := ExampleReport();
    assert lines[..1] == [lines[0]];
    assert lines[..1][..0] == [];
  }

  function ExampleReport(): seq<ReportLine> {
    [Checked("a@x.com", Verified(ActiveAndValidated)), Checked("b@x.com", Unverified(PatInvalid))]
  }

  /** The example's KOYEB_LOGIN is the rendering of its two accounts, and loads them back. */
  lemma ExampleLoads(env: string)
    requires env == "a@x.com:tok1\nb@x.com:tok2"
    ensures LoadSpec(Some(env)) == Success(ExampleAccounts())
  {
    var accounts := ExampleAccounts();
    ExampleRendered();
    ExampleWritable();
    LoadRoundTrip(accounts);
  }

  lemma ExampleRendered()
    ensures Render(ExampleAccounts()) == "a@x.com:tok1\nb@x.com:tok2"
  {
    var cs := ExampleAccounts();
    assert cs[1..][1..] == [];
    assert LinesOf(cs) == [LineOf(cs[0]), LineOf(cs[1])];
    assert LineOf(cs[0]) == "a@x.com:tok1" && LineOf(cs[1]) == "b@x.com:tok2";
  }

  lemma ExampleWritable()
    ensures forall k :: 0 <= k < |ExampleAccounts()| ==> Writable(ExampleAccounts()[k])
  {
    assert Writable(Credential("a@x.com", "tok1"));
    assert Writable(Credential("b@x.com", "tok2"));
  }

  /** The first account is verified, the second refused as an invalid PAT. */
  lemma ExampleLines()
    ensures ReportLines(ExampleAccounts(), ExampleAnswers) == ExampleReport()
  {
    var lines := ReportLines(ExampleAccounts(), ExampleAnswers);
    ExampleFirst();
    ExampleSecond();
    assert lines[0] == ExampleReport()[0] && lines[1] == ExampleReport()[1];
  }

  lemma ExampleFirst()
    ensures ReportLineFor(Credential("a@x.com", "tok1"), ExampleAnswers(1)) == Checked("a@x.com", Verified(ActiveAndValidated))
  {
    StripNoop("a@x.com");
    assert Accepts("a@x.com", "tok1", ExampleAnswers(1));
  }

  lemma ExampleSecond()
    ensures ReportLineFor(Credential("b@x.com", "tok2"), ExampleAnswers(2)) == Checked("b@x.com", Unverified(PatInvalid))
  {
    StripNoop("b@x.com");
    AuthRejectionFirst("b@x.com", "tok2", 403, "Forbidden", NotJson("Forbidden"));
  }
}
