# Koyeb and netlib.re keep-alive scripts, modelled in Dafny

The repository holds two small Python scripts that keep free-tier accounts alive:

- **koyeb-alive** reads `email:PAT` pairs from `KOYEB_LOGIN`. It asks Koyeb's
  profile endpoint about each account and decides whether the account is
  active and its email validated. It then totals the results and exits with
  status 1 when no account succeeded.
- **netlib-login** reads `username:password` pairs from `NETLIB_ACCOUNTS`.
  It logs into netlib.re with a browser for each account and records every
  step in a log buffer. At the end it pushes the buffer to Telegram in slices
  of at most 3900 characters.

The model is split into five modules:

- `Wrappers` (`wrappers.dfy`): `Option` and `Result`.
- `Text` (`text.dfy`): the Python `str` operations both scripts rely on.
  - `isspace`, `strip`, `split`, `split(':', 1)`, `join`, `lower` and `find`, over `seq<char>`.
  - The operations and their round trips are proved.
- `Credentials` (`credentials.dfy`): the shared `name:secret` line format.
  - A line is stripped, skipped when blank, and split at its first `:`.
  - A non-blank line without `:` is malformed.
  - Lemmas cover order, a round trip, and the classification of every line.
- `Koyeb` (`koyeb.dfy`):
  - The loader and `main` are methods with loops, each proved equal to a specification function.
  - The verifier is a pure function of an abstract `Response`.
  - Lemmas cover the order of the checks, the success condition, the counters and the exit status.
- `Netlib` (`netlib.dfy`):
  - The script's module-level state (`log_buffer`, `accounts`) is the class `Session`.
  - `log`, the parsing loop, `login_account`, `run` and `send_tg_log` are its methods.
  - The failure-message search and the Telegram slicing are loops proved against functions.
  - Lemmas cover first-match selection, the slicing round trip, chunk sizes, counts and labels, and what the pushed text is.

Inputs from outside the program are parameters:

- The environment variables are `Option<string>` or `string`.
- Koyeb's HTTP answer for the i-th account is `respond(i)`, a `Response`.
- Netlib's browser session for the i-th account is `browser(i)`, a `LoginAttempt`.
- The formatted UTC+8 clock is the `clock` string.
- Telegram sending is represented by the list of `Push(number, text)` values it would send.

Details of the code the model follows:

- `raise_for_status()` raises only for statuses 400-599, although the comment at koyeb-alive/koyeb-alive.py:121 says "non-2xx". Any status outside 400-599 (1xx, 2xx, 3xx, or 600 and above) therefore goes on to the profile checks. It is not reported as an HTTP error.
- The verifier does not always return. Suppose an error status comes with a JSON body that is valid but not an object, such as `[]`. Then `.get` raises `AttributeError` inside the `HTTPError` handler. That exception leaves `verify_koyeb_account_status`, and `main`'s per-account handler catches it. The model calls this `Raised`, and the report line is `Crashed`. `Koyeb.Verify` characterises exactly when it happens.
- With current `requests`, a 2xx body that is not JSON raises `requests.JSONDecodeError`, which is a `RequestException`. It is therefore reported through the "network request exception" branch (`NetworkError`). It does not go to the generic handler.
- The final "unknown account" branch of the verifier cannot be reached. `Koyeb.Verify` proves that it never returns `UnknownAccount`.
- In koyeb-alive, the `ValueError` handler of the loader cannot be reached, because the colon is checked first. `Koyeb.LoadAccounts` asserts that the split always succeeds.

## Model

| member | source | states |
|---|---|---|
| Text.Strip | koyeb-alive/koyeb-alive.py:46-49 | `str.strip()`: the result has no whitespace at either end, is empty exactly when the input is all whitespace, and is no longer than the input |
| Text.StripKeeps | koyeb-alive/koyeb-alive.py:49-50 | stripping removes only whitespace: a non-whitespace character (such as `:`) is in the stripped line exactly when it is in the raw line |
| Text.StripIs | koyeb-alive/koyeb-alive.py:49 | strip is characterised by its result: any slice with only whitespace outside it and none at its ends is the stripped text |
| Text.StripIdempotent | koyeb-alive/koyeb-alive.py:46-49 | stripping twice is the same as stripping once |
| Text.StripNoop | koyeb-alive/koyeb-alive.py:171 | text whose ends are not whitespace is left unchanged by strip |
| Text.StripAfterLeading | koyeb-alive/koyeb-alive.py:55-57 | stripping after dropping the leading whitespace gives the same result as stripping the whole text |
| Text.StripAfterTrailing | koyeb-alive/koyeb-alive.py:55-58 | stripping after dropping the trailing whitespace gives the same result as stripping the whole text |
| Text.Split | koyeb-alive/koyeb-alive.py:46 | `s.split('\n')`: at least one piece (`"".split` is `[""]`), no piece contains the separator, and joining the pieces with it gives `s` back |
| Text.SplitJoin | koyeb-alive/koyeb-alive.py:46 | the other half of the round trip: splitting pieces joined with a separator they do not contain gives the pieces back |
| Text.Join | netlib-login/autologin.py:27 | `sep.join(parts)` for a one-character separator: empty for no pieces, otherwise as long as all the pieces plus one separator between each two, and beginning with the first piece |
| Text.JoinEnds | netlib-login/autologin.py:27 | `sep.join(parts)` begins with the first part and ends with the last |
| Text.SplitOnce | koyeb-alive/koyeb-alive.py:55 | `split(':', 1)` unpacking: fails exactly when there is no `:`; otherwise the two parts surround the first `:` and rebuild the line |
| Text.SplitOnceFirst | koyeb-alive/koyeb-alive.py:55 | only the first `:` splits: everything after it, further colons included, stays in the second part |
| Text.Lower | koyeb-alive/koyeb-alive.py:131 | `.lower()` on ASCII: the same length, no upper-case ASCII letter left, each of A-Z replaced by its lower-case partner and every other character kept |
| Text.Find | netlib-login/autologin.py:96 | `str.find`: -1 exactly when the needle does not occur; otherwise the lowest index where it occurs |
| Credentials.ClassifyLine | koyeb-alive/koyeb-alive.py:48-59 | a line is blank iff it is all whitespace, and malformed iff it is not blank and has no `:`; a malformed item is the stripped line; a pair has a stripped name with no `:` and a stripped secret |
| Credentials.ClassifyFirstColon | koyeb-alive/koyeb-alive.py:55-58 | a line `a:b` with no `:` in `a` yields the pair (strip(a), strip(b)) whatever `b` holds, so a secret may contain `:` |
| Credentials.AcceptedByGuard | koyeb-alive/koyeb-alive.py:49-58 | the accepted credential equals what the loop's guard computes: it skips an empty line or one without `:`, and otherwise splits at the first `:` and strips both halves |
| Credentials.ParsedAppend | koyeb-alive/koyeb-alive.py:48-59 | parsing is line by line and keeps line order: the credentials of `a + b` are those of `a` followed by those of `b` |
| Credentials.ParsedStep | koyeb-alive/koyeb-alive.py:48-59 | reading one more line appends that line's credential, if any, at the end |
| Credentials.MalformationsAppend | netlib-login/autologin.py:49-57 | malformed items are reported line by line, in order |
| Credentials.MalformationsStep | netlib-login/autologin.py:49-57 | reading one more line appends that line's malformed item, if any, at the end |
| Credentials.EveryLineAccounted | koyeb-alive/koyeb-alive.py:48-62 | every line is exactly one of blank, malformed, or a credential: the three counts add up to the number of lines |
| Credentials.ParseLinesOf | koyeb-alive/koyeb-alive.py:48-59 | parsing the lines `name:secret` written for writable credentials gives those credentials back |
| Credentials.RenderRoundTrip | koyeb-alive/koyeb-alive.py:46-59 | a list of writable credentials rendered one per line, then stripped, split at newlines and parsed, gives the same list back |
| Koyeb.LoadAccounts | koyeb-alive/koyeb-alive.py:35-67 | the loader loop computes `LoadSpec`: an error when the variable is unset or empty, or when no line yields an account; otherwise the non-empty list of accounts in line order |
| Koyeb.Verify | koyeb-alive/koyeb-alive.py:97-158 | returns success iff `Accepts` holds (both fields non-empty, not 401/403, no 4xx/5xx, a JSON profile whose email matches case-insensitively, `ACTIVE` in flags, email validated); success iff the message is "active and validated"; never "unknown account"; an empty field fails before any request; raises exactly for an error status with a non-object JSON body |
| Koyeb.AuthRejectionFirst | koyeb-alive/koyeb-alive.py:118-119 | a 401 or 403 answer is "PAT invalid or expired" whatever the body says |
| Koyeb.ErrorStatusBeforeProfile | koyeb-alive/koyeb-alive.py:121-152 | any other 4xx/5xx status is reported from the error body before the profile checks: an object body gives the API error with its "error" member (the text when it has none), a non-JSON body gives the HTTP error with the text, and a non-object JSON body makes the handler raise |
| Koyeb.RequestFailures | koyeb-alive/koyeb-alive.py:110-115 | a timed-out request gives the timeout message and any other request failure the network-exception message with its detail (handlers at lines 153-156) |
| Koyeb.UnreadableProfile | koyeb-alive/koyeb-alive.py:124-128 | after a status that does not raise, a non-JSON body is reported as a network request exception, and a non-object body or non-object `user` as an exception while handling the response (handlers at lines 155-158) |
| Koyeb.MismatchBeforeFlags | koyeb-alive/koyeb-alive.py:131-132 | an email mismatch is reported before the flags and the validation are looked at |
| Koyeb.FailedCheckMessages | koyeb-alive/koyeb-alive.py:134-143 | with the email matching, a missing `ACTIVE` flag gives "inactive" with the flags, and otherwise a missing validation gives "email not validated" |
| Koyeb.Successes | koyeb-alive/koyeb-alive.py:185-187 | the success count is at most the number of lines, and is zero iff no line is a success |
| Koyeb.CheckAccount | koyeb-alive/koyeb-alive.py:171-194 | one pass of main's loop: an account with an empty email or PAT is recorded as incomplete without verification; otherwise its verifier outcome is recorded |
| Koyeb.CheckAll | koyeb-alive/koyeb-alive.py:170-194 | main's loop produces one report line per account in account order, and counts exactly the successful lines |
| Koyeb.ReportStep | koyeb-alive/koyeb-alive.py:170-194 | each pass appends the next account's line, and the count grows by one exactly when that line is a success |
| Koyeb.RunMain | koyeb-alive/koyeb-alive.py:160-221 | main computes `RunSpec`; a completed run has total = number of accounts > 0, successes ≤ total, failures = total − successes; the exit status is 1 iff the load failed or nothing succeeded, else 0 |
| Koyeb.RunSpecTotals | koyeb-alive/koyeb-alive.py:196-221 | every run's totals: a completed run reports every account (at least one), failures are the accounts that did not succeed, and the exit status is 1 exactly when the load failed or nothing succeeded |
| Koyeb.SuccessMeansAccepted | koyeb-alive/koyeb-alive.py:174-187 | a report line counts as a success iff the account has both fields and the verifier's success condition holds |
| Koyeb.LoadedEmailsStripped | koyeb-alive/koyeb-alive.py:171 | main's second strip of an email changes nothing: the loader has already stripped it |
| Koyeb.LoadRoundTrip | koyeb-alive/koyeb-alive.py:35-67 | a non-empty list of writable accounts, written one per line, loads back as exactly that list |
| Koyeb.ExampleRun | koyeb-alive/koyeb-alive.py:160-214 | `a@x.com:tok1\nb@x.com:tok2` with an active, validated profile for the first account and 403 for the second gives one success, one failure ("PAT invalid"), exit status 0 |
| Netlib.Session.constructor | netlib-login/autologin.py:8-46 | the log buffer and the account list start empty |
| Netlib.Session.Log | netlib-login/autologin.py:10-12 | `log(msg)` appends exactly `msg` at the end of the buffer and changes nothing else |
| Netlib.Session.LoadAccounts | netlib-login/autologin.py:45-57 | the accounts are the pairs of the stripped, newline-split variable, in line order; the buffer grows by one warning per malformed item |
| Netlib.ParseItems | netlib-login/autologin.py:49-57 | the parsing loop keeps each line's pair, in order, and collects each line's warning, in order |
| Netlib.ReadItem | netlib-login/autologin.py:50-57 | one pass: a blank line does nothing; a line that unpacks gives its stripped pair; a line that does not gives one warning naming the stripped item |
| Netlib.ClassifyByUnpacking | netlib-login/autologin.py:50-57 | catching the `ValueError` from unpacking `split(":", 1)` classifies a line exactly as the shared format does |
| Netlib.WarningPerLine | netlib-login/autologin.py:51-57 | a line warns exactly when it is not blank and has no `:`, with its stripped text; such a line adds no account |
| Netlib.ParseLogStep | netlib-login/autologin.py:49-57 | reading one more line appends that line's warning, if any, to the parse log |
| Netlib.ParseLogWarnings | netlib-login/autologin.py:49-57 | the parse log is one warning per malformed item, in line order |
| Netlib.WarningsAppend | netlib-login/autologin.py:57 | the warnings for two runs of items are those of the first followed by those of the second |
| Netlib.FirstFailureChoosesFirst | netlib-login/autologin.py:93-98 | the chosen failure message is `msgs[k]` when it occurs in the body and no earlier message does |
| Netlib.FirstFailureNone | netlib-login/autologin.py:93-103 | no failure message is chosen (the "unknown error" outcome) iff none of them occurs in the body |
| Netlib.FirstFailureOccurs | netlib-login/autologin.py:93-98 | a chosen failure message is one of the list and occurs in the body |
| Netlib.FindFailure | netlib-login/autologin.py:93-98 | the loop with `break` returns the first message of the list that occurs in the body, or none |
| Netlib.Session.LoginAccount | netlib-login/autologin.py:65-109 | the buffer grows by the login log: the start line, then success / the first failure message / unknown error with the URL, or the exception, plus a line for an exception on closing |
| Netlib.LoginLog | netlib-login/autologin.py:65-109 | every login writes two or three lines, the first being the start line |
| Netlib.LoginsLogLength | netlib-login/autologin.py:116-118 | logging into n accounts writes between 2n and 3n lines |
| Netlib.Session.Run | netlib-login/autologin.py:111-119 | the buffer grows by one warning when there are no accounts, otherwise by the login logs of the accounts in order |
| Netlib.NoAccountsNoLogin | netlib-login/autologin.py:112-114 | with no accounts, run writes the single warning and attempts no login |
| Netlib.Chunks | netlib-login/autologin.py:29-30 | every chunk is non-empty and at most 3900 characters |
| Netlib.ChunksConcat | netlib-login/autologin.py:29-30 | the chunks concatenate back to the message |
| Netlib.ChunksCount | netlib-login/autologin.py:29-30 | there are ceil(len/3900) chunks, and chunk k is the slice `msg[k*3900 : k*3900+3900]` |
| Netlib.ChunksLength | netlib-login/autologin.py:29 | the number of chunks is ceil(len/3900) |
| Netlib.ChunkIndex | netlib-login/autologin.py:29-30 | chunk k starts at k*3900 within the message and is the Python slice there |
| Netlib.PushesFromNumbered | netlib-login/autologin.py:29-38 | from offset n*3900 on, the loop pushes the remaining chunks labelled n+1, n+2, … (`i//3900 + 1`) |
| Netlib.PushesFromStart | netlib-login/autologin.py:29-38 | the loop's pushes are the chunks of the message, labelled 1, 2, … in order |
| Netlib.Session.SendTgLog | netlib-login/autologin.py:16-42 | nothing is pushed unless both the token and the chat id are set and non-empty; otherwise chunk k of header + `"\n".join(log_buffer)` is pushed with label k+1 |
| Netlib.Script | netlib-login/autologin.py:45-123 | the whole script pushes the chunks of the header followed by the parse warnings and run's log lines, or nothing when Telegram is not configured |
| Netlib.PushedTextIsLog | netlib-login/autologin.py:27-30 | the pushed texts, put back together, are the header followed by the buffer entries joined with newlines |

## Left out

- Network calls: the GET to Koyeb's profile endpoint and every Telegram call are not modelled. Their outcomes are the `respond`, `browser` and `token`/`chatId` parameters, and the pushes are returned rather than sent.
- Console output is not modelled: `log`'s echo of each message to stdout (netlib-login/autologin.py:11) and `send_tg_log`'s prints of each push's success or failure. Neither affects the buffer.
- The Koyeb Telegram report is kept structured (totals and one line per account). Its text layout (koyeb-alive/koyeb-alive.py:196-205) is not modelled, and neither is sending it, nor the error message on an aborted run. Sending catches its own request errors and does not affect the exit status.
- Logging configuration, `logging` calls and the UTC+8 time formatting are not modelled. The netlib header takes the formatted clock as a parameter.
- `time.sleep` delays are not modelled.
- Playwright is not modelled. A login is summarised as a `LoginAttempt`: whether the success text was on the page, the page text, the URL, and an exception raised while closing, or an exception before the outcome. The source calls `inner_text()` again for each failure message. The model reads the page text once per attempt. `with sync_playwright()` (netlib-login/autologin.py:116) is outside `login_account`'s `try`. If the browser driver fails to start, the exception leaves `run()` and `send_tg_log()` never runs. The model cannot express this: `Netlib.Script` always pushes when Telegram is configured.
- `sys.exit` is represented only by the computed exit status.
- JSON members of the wrong type are not modelled, such as a `null` email or non-string flags. The model has only absent or well-typed members, plus a `user` member that is not an object.
- Text.Lower: folds only the ASCII letters A-Z. Python's `str.lower` also folds non-ASCII letters, so two emails that differ only in non-ASCII case compare unequal in the model.
- Netlib.Session.LoadAccounts: appends the parse warnings to the buffer after the loop, where the source logs each one inside it. Nothing reads the buffer in between, so the final buffer is the same.
