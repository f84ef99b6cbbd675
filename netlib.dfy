/**
 * netlib-login: reads `username:password` accounts from NETLIB_ACCOUNTS,
 * logs into each one through a browser, records every step in a log buffer
 * and pushes the buffer to Telegram in chunks of at most 3900 characters.
 * The browser session is abstracted to a `LoginAttempt` value and the
 * Telegram call to the list of chunks that would be sent.
 */
module Netlib {
  import opened Wrappers
  import opened Text
  import opened Credentials

  /** An account: `name` is the username, `secret` the password. */
  type Account = Credential

  /** The failure texts looked for on the page, in the order they are tried. */
  const FailMsgs: seq<string> := [
    "Invalid credentials.",
    "Not connected to server.",
    "Error with the login: login size should be between 2 and 50 (currently: 1)"
  ]

  /** Largest number of characters in one Telegram message. */
  const ChunkSize: nat := 3900

  const Warning: string := "\U{26A0}\U{FE0F} "

  function MalformedItemText(item: string): string {
    Warning + "忽略格式错误的账号项: " + item + " (预期格式: username:password)"
  }

  const NoAccountsText: string := Warning + "未找到任何账号配置，请检查 NETLIB_ACCOUNTS 环境变量。"

  function LoginStartText(user: string): string {
    "\U{1F680} 开始登录账号: " + user
  }

  function LoginOkText(user: string): string {
    "\U{2705} 账号 " + user + " 登录成功"
  }

  function LoginFailedText(user: string, reason: string): string {
    "\U{274C} 账号 " + user + " 登录失败: " + reason
  }

  function LoginUnknownText(user: string, url: string): string {
    "\U{274C} 账号 " + user + " 登录失败: 未知错误 (当前URL: " + url + ")"
  }

  function LoginErrorText(user: string, detail: string): string {
    "\U{274C} 账号 " + user + " 登录异常: " + detail
  }

  /** The first lines of the pushed log; `clock` is the formatted UTC+8 time. */
  function Header(clock: string): string {
    "\U{1F4CC} Netlib 保活执行日志\n\U{1F552} " + clock + " UTC+8\n\n"
  }

  /** The warnings logged for the malformed items, in order. */
  function Warnings(items: seq<string>): (ws: seq<string>)
    ensures |ws| == |items|
  {
    if items == [] then [] else [MalformedItemText(items[0])] + Warnings(items[1..])
  }

  lemma {:induction false} WarningsAppend(a: seq<string>, b: seq<string>)
    ensures Warnings(a + b) == Warnings(a) + Warnings(b)
  {
    if a == [] {
      assert a + b == b;
    } else {
      assert (a + b)[1..] == a[1..] + b;
      WarningsAppend(a[1..], b);
    }
  }

  /** The warning a line adds to the log: one for a malformed item, none otherwise. */
  function WarningFor(raw: string): seq<string> {
    match ClassifyLine(raw)
    case Malformed(item) => [MalformedItemText(item)]
    case _ => []
  }

  /** A line warns exactly when it is not blank and holds no ':'; such a line adds no account. */
  lemma WarningPerLine(raw: string)
    ensures WarningFor(raw) == (if !AllSpace(raw) && ':' !in raw then [MalformedItemText(Strip(raw))] else [])
    ensures WarningFor(raw) != [] ==> Accepted(raw) == []
  {
  }

  /** What parsing NETLIB_ACCOUNTS adds to the log, line by line. */
  function ParseLog(lines: seq<string>): seq<string> {
    if lines == [] then [] else ParseLog(lines[..|lines| - 1]) + WarningFor(lines[|lines| - 1])
  }

  /** Reading one more line adds that line's warning to the parse log. */
  lemma ParseLogStep(lines: seq<string>, i: nat)
    requires i < |lines|
    ensures ParseLog(lines[..i + 1]) == ParseLog(lines[..i]) + WarningFor(lines[i])
  {
    assert lines[..i + 1][..i] == lines[..i];
  }

  /** The parse log is exactly one warning per malformed item, in line order. */
  lemma {:induction false} ParseLogWarnings(lines: seq<string>)
    ensures ParseLog(lines) == Warnings(Malformations(lines))
  {
    if lines != [] {
      var n := |lines| - 1;
      ParseLogWarnings(lines[..n]);
      MalformationsStep(lines, n);
      assert lines[..n + 1] == lines;
      WarningsAppend(Malformations(lines[..n]), Rejected(lines[n]));
    }
  }

  /** The first of `msgs` that occurs in `body`, if any. */
  function FirstFailure(msgs: seq<string>, body: string): Option<string> {
    if msgs == [] then None
    else if Contains(body, msgs[0]) then Some(msgs[0])
    else FirstFailure(msgs[1..], body)
  }

  /** FirstFailure picks `msgs[k]` when it occurs and no earlier message does. */
  lemma {:induction false} FirstFailureChoosesFirst(msgs: seq<string>, body: string, k: nat)
    requires k < |msgs| && Contains(body, msgs[k])
    requires forall j :: 0 <= j < k ==> !Contains(body, msgs[j])
    ensures FirstFailure(msgs, body) == Some(msgs[k])
  {
    if k > 0 {
      FirstFailureChoosesFirst(msgs[1..], body, k - 1);
    }
  }

  /** FirstFailure finds nothing exactly when no message occurs in the body. */
  lemma {:induction false} FirstFailureNone(msgs: seq<string>, body: string)
    ensures FirstFailure(msgs, body).None? <==> forall k :: 0 <= k < |msgs| ==> !Contains(body, msgs[k])
  {
    if msgs != [] {
      FirstFailureNone(msgs[1..], body);
      assert forall k :: 1 <= k < |msgs| ==> msgs[k] == msgs[1..][k - 1];
    }
  }

  /** Whatever FirstFailure picks is one of the messages and occurs in the body. */
  lemma {:induction false} FirstFailureOccurs(msgs: seq<string>, body: string)
    requires FirstFailure(msgs, body).Some?
    ensures FirstFailure(msgs, body).value in msgs
    ensures Contains(body, FirstFailure(msgs, body).value)
  {
    if !Contains(body, msgs[0]) {
      FirstFailureOccurs(msgs[1..], body);
    }
  }

  /** The failure-message search of login_account: try the messages in order, stop at the first found. */
  method FindFailure(msgs: seq<string>, body: string) returns (failed: Option<string>)
    ensures failed == FirstFailure(msgs, body)
  {
    failed := None;
    var k := 0;
    while k < |msgs|
      invariant 0 <= k <= |msgs|
      invariant FirstFailure(msgs, body) == FirstFailure(msgs[k..], body)
    {
      assert msgs[k..][1..] == msgs[k + 1..];
      var at := Find(body, msgs[k]);
      if at != -1 {
        failed := Some(msgs[k]);
        break;
      }
      k := k + 1;
    }
  }

  /** What the browser session for one account came to. Playwright itself is not modelled. */
  datatype LoginAttempt =
    | PageLoaded(successShown: bool, body: string, url: string, closeError: Option<string>)
      // the form was submitted; `successShown` says whether the success text is on the page,
      // `body` is the page's text and `closeError` an exception raised while closing the browser
    | BrowserError(detail: string)
      // an exception before the outcome was known

  /** The log lines for the outcome of a submitted login. */
  function OutcomeLog(user: string, successShown: bool, body: string, url: string): string {
    if successShown then LoginOkText(user)
    else match FirstFailure(FailMsgs, body)
      case Some(m) => if m != [] then LoginFailedText(user, m) else LoginUnknownText(user, url)
      case None => LoginUnknownText(user, url)
  }

  /** The log lines login_account writes for one account. */
  function LoginLog(user: string, attempt: LoginAttempt): (log: seq<string>)
    ensures 2 <= |log| <= 3 && log[0] == LoginStartText(user)
  {
    [LoginStartText(user)] +
    match attempt
    case BrowserError(detail) => [LoginErrorText(user, detail)]
    case PageLoaded(shown, body, url, closeError) =>
      [OutcomeLog(user, shown, body, url)]
        + (if closeError.Some? then [LoginErrorText(user, closeError.value)] else [])
  }

  /** The log lines of logging into each account in turn; `browser(i)` is the session of the i-th account (from 1). */
  function LoginsLog(accounts: seq<Account>, browser: nat -> LoginAttempt): seq<string> {
    if accounts == [] then []
    else
      var n := |accounts|;
      LoginsLog(accounts[..n - 1], browser) + LoginLog(accounts[n - 1].name, browser(n))
  }

  /** The log lines run writes. */
  function RunLog(accounts: seq<Account>, browser: nat -> LoginAttempt): seq<string> {
    if accounts == [] then [NoAccountsText] else LoginsLog(accounts, browser)
  }

  /** Every login attempt writes at least its start line and its outcome line. */
  lemma {:induction false} LoginsLogLength(accounts: seq<Account>, browser: nat -> LoginAttempt)
    ensures 2 * |accounts| <= |LoginsLog(accounts, browser)| <= 3 * |accounts|
  {
    if accounts != [] {
      LoginsLogLength(accounts[..|accounts| - 1], browser);
    }
  }

  /** With no accounts, run writes a single warning and tries no login. */
  lemma NoAccountsNoLogin(browser: nat -> LoginAttempt)
    ensures RunLog([], browser) == [NoAccountsText]
  {
  }

  /** `s[i:i+ChunkSize]` in Python: the slice, cut short at the end of `s`. */
  function ChunkAt(s: string, i: nat): string
    requires i <= |s|
  {
    if i + ChunkSize <= |s| then s[i..i + ChunkSize] else s[i..]
  }

  /** The chunks of `msg`, in order. */
  function Chunks(msg: string): (cs: seq<string>)
    ensures forall k :: 0 <= k < |cs| ==> 0 < |cs[k]| <= ChunkSize
    decreases |msg|
  {
    if msg == [] then []
    else
      var c := ChunkAt(msg, 0);
      [c] + Chunks(msg[|c|..])
  }

  function Concat(parts: seq<string>): string {
    if parts == [] then "" else parts[0] + Concat(parts[1..])
  }

  /** The chunks put back together are the message. */
  lemma {:induction false} ChunksConcat(msg: string)
    ensures Concat(Chunks(msg)) == msg
    decreases |msg|
  {
    if msg != [] {
      var c := ChunkAt(msg, 0);
      ChunksConcat(msg[|c|..]);
      assert Chunks(msg)[1..] == Chunks(msg[|c|..]);
      assert c + msg[|c|..] == msg;
    }
  }

  /** There are ceil(|msg| / ChunkSize) chunks, and chunk k is the Python slice starting at k * ChunkSize. */
  lemma ChunksCount(msg: string)
    ensures |Chunks(msg)| == (|msg| + ChunkSize - 1) / ChunkSize
    ensures forall k :: 0 <= k < |Chunks(msg)| ==> k * ChunkSize <= |msg| && Chunks(msg)[k] == ChunkAt(msg, k * ChunkSize)
  {
    ChunksLength(msg);
    forall k | 0 <= k < |Chunks(msg)|
      ensures k * ChunkSize <= |msg| && Chunks(msg)[k] == ChunkAt(msg, k * ChunkSize)
    {
      ChunkIndex(msg, k);
    }
  }

  lemma {:induction false} ChunksLength(msg: string)
    ensures |Chunks(msg)| == (|msg| + ChunkSize - 1) / ChunkSize
    decreases |msg|
  {
    if msg != [] {
      var rest := msg[|ChunkAt(msg, 0)|..];
      ChunksLength(rest);
      CeilStep(|msg|, |rest|);
    }
  }

  /** Taking one chunk off a non-empty text of length m leaves one chunk fewer, rounding up. */
  lemma CeilStep(m: nat, r: nat)
    requires 0 < m && r == (if m <= ChunkSize then 0 else m - ChunkSize)
    ensures (m + ChunkSize - 1) / ChunkSize == 1 + (r + ChunkSize - 1) / ChunkSize
  {
  }

  lemma {:induction false} ChunkIndex(msg: string, k: nat)
    requires k < |Chunks(msg)|
    ensures k * ChunkSize <= |msg| && Chunks(msg)[k] == ChunkAt(msg, k * ChunkSize)
    decreases k
  {
    if k > 0 {
      var c := ChunkAt(msg, 0);
      var rest := msg[|c|..];
      assert Chunks(msg)[k] == Chunks(rest)[k - 1];
      assert |c| == ChunkSize;
      ChunkIndex(rest, k - 1);
      var j := (k - 1) * ChunkSize;
      Multiple(j, k - 1);
      ChunkAtShift(msg, ChunkSize, j);
    }
  }

  /** A chunk of what follows the first `d` characters is the chunk `d` further on in the whole text. */
  lemma ChunkAtShift(msg: string, d: nat, j: nat)
    requires d + j <= |msg|
    ensures ChunkAt(msg[d..], j) == ChunkAt(msg, d + j)
  {
    if d + j + ChunkSize <= |msg| {
      assert msg[d..][j..j + ChunkSize] == msg[d + j..d + j + ChunkSize];
    } else {
      assert msg[d..][j..] == msg[d + j..];
    }
  }

  /** One Telegram push: its number (shown as "[number]" in the console) and its text. */
  datatype Push = Push(number: nat, text: string)

  /** Chunks `cs` labelled from `start + 1` on. */
  function Numbered(cs: seq<string>, start: nat): (ps: seq<Push>)
    ensures |ps| == |cs|
  {
    seq(|cs|, k requires 0 <= k < |cs| => Push(start + k + 1, cs[k]))
  }

  /** The pushes for a message: chunk k, labelled k + 1. */
  function Pushes(msg: string): seq<Push> {
    Numbered(Chunks(msg), 0)
  }

  /** The pushes of send_tg_log's loop from offset `i` on: each labelled `i // ChunkSize + 1`. */
  function PushesFrom(msg: string, i: nat): seq<Push>
    decreases |msg| - i
  {
    if i >= |msg| then [] else [Push(i / ChunkSize + 1, ChunkAt(msg, i))] + PushesFrom(msg, i + ChunkSize)
  }

  /** From the n-th multiple of ChunkSize on, the loop pushes the remaining chunks labelled n + 1, n + 2, ... */
  lemma {:induction false} PushesFromNumbered(msg: string, i: nat, n: nat)
    requires i <= |msg| && i == n * ChunkSize
    ensures PushesFrom(msg, i) == Numbered(Chunks(msg[i..]), n)
    decreases |msg| - i
  {
    if i < |msg| {
      Multiple(i, n);
      ChunkStep(msg, i);
      if i + ChunkSize < |msg| {
        PushesFromNumbered(msg, i + ChunkSize, n + 1);
        NumberedCons(ChunkAt(msg, i), Chunks(msg[i + ChunkSize..]), n);
      }
    } else {
      assert msg[i..] == [];
    }
  }

  /** Labelling a chunk followed by more chunks from n on: the first gets n + 1, the rest go on from n + 1. */
  lemma NumberedCons(c: string, rest: seq<string>, n: nat)
    ensures Numbered([c] + rest, n) == [Push(n + 1, c)] + Numbered(rest, n + 1)
  {
  }

  /** The n-th multiple of ChunkSize is labelled n + 1, and the next multiple lies ChunkSize further on. */
  lemma Multiple(i: nat, n: nat)
    requires i == n * ChunkSize
    ensures i / ChunkSize == n && i + ChunkSize == (n + 1) * ChunkSize
  {
  }

  /** The loop's pushes are the chunks of the message, labelled 1, 2, ... */
  lemma PushesFromStart(msg: string)
    ensures PushesFrom(msg, 0) == Pushes(msg)
  {
    PushesFromNumbered(msg, 0, 0);
    assert msg[0..] == msg;
  }

  /** The text pushed: the header, then the log entries joined by newlines. */
  function FinalMessage(clock: string, buffer: seq<string>): string {
    Header(clock) + Join(buffer, '\n')
  }

  /** `not token or not chat_id` is false: both are set and non-empty. */
  predicate Configured(token: Option<string>, chatId: Option<string>) {
    token.Some? && token.value != [] && chatId.Some? && chatId.value != []
  }

  /** The whole log of a run of the script: the parsing warnings, then run's lines. */
  function ScriptLog(env: string, browser: nat -> LoginAttempt): seq<string> {
    var items := Split(Strip(env), '\n');
    ParseLog(items) + RunLog(Parsed(items), browser)
  }

  /** The parsing loop over the lines of NETLIB_ACCOUNTS: the accounts kept and the warnings written. */
  method ParseItems(items: seq<string>) returns (parsed: seq<Account>, warnings: seq<string>)
    ensures parsed == Parsed(items)
    ensures warnings == ParseLog(items)
  {
    parsed, warnings := [], [];
    for i := 0 to |items|
      invariant parsed == Parsed(items[..i])
      invariant warnings == ParseLog(items[..i])
    {
      ParsedStep(items, i);
      ParseLogStep(items, i);
      var kept, warned := ReadItem(items[i]);
      parsed := parsed + kept;
      warnings := warnings + warned;
    }
    assert items[..|items|] == items;
  }

  /** One pass of the parsing loop: keep the pair, or warn about an item that does not unpack. */
  method ReadItem(raw: string) returns (kept: seq<Account>, warned: seq<string>)
    ensures kept == Accepted(raw)
    ensures warned == WarningFor(raw)
  {
    ClassifyByUnpacking(raw);
    var item := Strip(raw);
    kept, warned := [], [];
    if item != [] {
      match SplitOnce(item, ':') {
        case Some((username, password)) =>
          kept := [Credential(Strip(username), Strip(password))];
        case None =>
          warned := [MalformedItemText(item)];
      }
    }
  }

  /** The script's module-level state: the log buffer and the parsed accounts. */
  class Session {
    var logBuffer: seq<string>
    var accounts: seq<Account>

    constructor ()
      ensures logBuffer == [] && accounts == []
    {
      logBuffer := [];
      accounts := [];
    }

    /** log: append one entry to the buffer. */
    method Log(msg: string)
      modifies this`logBuffer
      ensures logBuffer == old(logBuffer) + [msg]
    {
      logBuffer := logBuffer + [msg];
    }

    /**
     * The module-level parsing of NETLIB_ACCOUNTS (an unset variable reads as "").
     * Only the warnings of the parse are logged, so the buffer ends the same
     * whether they are appended one by one or together.
     */
    method LoadAccounts(env: string)
      modifies this
      ensures accounts == Parsed(Split(Strip(env), '\n'))
      ensures logBuffer == old(logBuffer) + ParseLog(Split(Strip(env), '\n'))
    {
      var parsed, warnings := ParseItems(Split(Strip(env), '\n'));
      accounts := parsed;
      logBuffer := logBuffer + warnings;
    }

    /** login_account for one account, given what its browser session came to. */
    method LoginAccount(user: string, password: string, attempt: LoginAttempt)
      modifies this`logBuffer
      ensures logBuffer == old(logBuffer) + LoginLog(user, attempt)
    {
      Log(LoginStartText(user));
      match attempt {
        case BrowserError(detail) =>
          Log(LoginErrorText(user, detail));
        case PageLoaded(shown, body, url, closeError) =>
          if shown {
            Log(LoginOkText(user));
          } else {
            var failed := FindFailure(FailMsgs, body);
            if failed.Some? && failed.value != [] {
              Log(LoginFailedText(user, failed.value));
            } else {
              Log(LoginUnknownText(user, url));
            }
          }
          if closeError.Some? {
            Log(LoginErrorText(user, closeError.value));
          }
      }
    }

    /** run: warn when there are no accounts, else log into each in order. */
    method Run(browser: nat -> LoginAttempt)
      modifies this`logBuffer
      ensures logBuffer == old(logBuffer) + RunLog(accounts, browser)
    {
      if accounts == [] {
        Log(NoAccountsText);
        return;
      }
      for k := 0 to |accounts|
        invariant logBuffer == old(logBuffer) + LoginsLog(accounts[..k], browser)
      {
        assert accounts[..k + 1][..k] == accounts[..k];
        LoginAccount(accounts[k].name, accounts[k].secret, browser(k + 1));
      }
      assert accounts[..|accounts|] == accounts;
    }

    /**
     * send_tg_log: nothing when Telegram is not configured; otherwise the
     * header and the joined log, cut into labelled chunks.
     */
    method SendTgLog(token: Option<string>, chatId: Option<string>, clock: string) returns (pushes: seq<Push>)
      ensures !Configured(token, chatId) ==> pushes == []
      ensures Configured(token, chatId) ==> pushes == Pushes(FinalMessage(clock, logBuffer))
    {
      if token.None? || token.value == [] || chatId.None? || chatId.value == [] {
        return [];
      }
      var msg := FinalMessage(clock, logBuffer);
      pushes := [];
      var i := 0;
      while i < |msg|
        invariant pushes + PushesFrom(msg, i) == PushesFrom(msg, 0)
        decreases |msg| - i
      {
        var chunk := ChunkAt(msg, i);
        assert PushesFrom(msg, i) == [Push(i / ChunkSize + 1, chunk)] + PushesFrom(msg, i + ChunkSize);
        pushes := pushes + [Push(i / ChunkSize + 1, chunk)];
        i := i + ChunkSize;
      }
      PushesFromStart(msg);
    }
  }

  /** Chunking what is left from `i` on: the chunk at `i`, then the chunks of what follows it. */
  lemma ChunkStep(msg: string, i: nat)
    requires i < |msg|
    ensures Chunks(msg[i..]) == [ChunkAt(msg, i)] + Chunks(msg[i + |ChunkAt(msg, i)|..])
    ensures i + ChunkSize > |msg| ==> Chunks(msg[i..]) == [ChunkAt(msg, i)]
  {
    var c := ChunkAt(msg, i);
    var rest := msg[i..];
    assert ChunkAt(rest, 0) == c;
    assert rest[|c|..] == msg[i + |c|..];
  }

  /** The texts of a list of pushes. */
  function Texts(pushes: seq<Push>): (ts: seq<string>)
    ensures |ts| == |pushes|
  {
    seq(|pushes|, k requires 0 <= k < |pushes| => pushes[k].text)
  }

  /** Netlib's loop unpacks the split: a non-blank line is a pair when it splits and malformed when it does not. */
  lemma ClassifyByUnpacking(raw: string)
    ensures var item := Strip(raw);
      && (item == [] ==> Accepted(raw) == [] && Rejected(raw) == [])
      && (item != [] && SplitOnce(item, ':').None? ==> Accepted(raw) == [] && Rejected(raw) == [item])
      && (item != [] && SplitOnce(item, ':').Some? ==>
            Rejected(raw) == []
            && Accepted(raw) == [Credential(Strip(SplitOnce(item, ':').value.0), Strip(SplitOnce(item, ':').value.1))])
  {
  }

  /** The whole script: parse, run, push. Returns the pushes that would be sent. */
  method Script(env: string, browser: nat -> LoginAttempt, token: Option<string>, chatId: Option<string>, clock: string)
    returns (pushes: seq<Push>)
    ensures !Configured(token, chatId) ==> pushes == []
    ensures Configured(token, chatId) ==> pushes == Pushes(FinalMessage(clock, ScriptLog(env, browser)))
  {
    var session := new Session();
    session.LoadAccounts(env);
    ghost var items := Split(Strip(env), '\n');
    assert session.logBuffer == ParseLog(items);
    session.Run(browser);
    assert session.logBuffer == ParseLog(items) + RunLog(Parsed(items), browser);
    pushes := session.SendTgLog(token, chatId, clock);
  }

  /** What is pushed, put back together, is the header followed by the log entries joined by newlines. */
  lemma PushedTextIsLog(clock: string, buffer: seq<string>)
    ensures Concat(Texts(Pushes(FinalMessage(clock, buffer)))) == Header(clock) + Join(buffer, '\n')
  {
    var msg := FinalMessage(clock, buffer);
    assert Texts(Pushes(msg)) == Chunks(msg);
    ChunksConcat(msg);
  }
}
