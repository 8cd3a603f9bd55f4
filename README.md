# check-cloudwatch-logs and check-mysql, modelled in Dafny

This project models two Nagios-style check plugins of the go-check-plugins
collection and proves properties of the models.

**check-cloudwatch-logs** counts the CloudWatch Logs events that match a
filter pattern since its last run. It pages through `FilterLogEvents`. Between
runs it keeps its place in a state file: the last pagination token and the
next start time. Its name is derived from the log group and from an md5 of
the `AWS_PROFILE` value and the command line. The model covers:

- the state file name;
- the resume-or-reset choice, with its one-hour freshness rule and one-minute default window;
- the pagination loop, with the start time moved one past each event;
- the rule that state is saved only when a token is set after the loop;
- the OK/WARNING/CRITICAL evaluation and its message;
- the final mapping of errors to UNKNOWN.

**check-mysql** works in these steps:

- It splits a subcommand off its arguments.
- It looks the subcommand up in a fixed table of four checks.
- It names the result `MySQL <Subcommand>`.
- It may overlay connection settings from a profile section of a my.cnf file.
- It chooses a unix-socket or TCP target and a TLS setting.
- It reads the server version as a dotted triple.

Files:

- `wrappers.dfy`: `Option` and `Result`.
- `decimal.dfy`: the decimal text of integers, as `fmt.Sprint` writes it, and reading digit runs back.
- `cloudwatch_logs.dfy`: module `CloudWatchLogs`.
  - The pure state-file naming is written as functions and lemmas.
  - The scan is written as methods: `TakeEvents` and `Paginate` hold the loops and `Run` composes them. They are proved against specification functions and predicates (`AdvanceStart`, `PageMessages`, `Chained`, `Resumes`).
  - `Check` builds the message step by step, as the source does.
- `mysql.dfy`: module `MySql`.
  - `readCnf`'s section search is a method with a loop, proved against the function `ProfileSetting`.
  - `newDB` is a method.
  - The rest is functions and lemmas.

The AWS service is modelled as a sequence of pages that it answers in order, one
page per request. A page is either events with an optional next token, or an
error. State loading is given as its outcome: not found, failed to load, or a
state. State saving is also given as its outcome. The clock is a parameter in
seconds. md5 is a function parameter. The INI file is given as its list of
sections, or as a load error or a nil config.

After a page, the scan's next start time is one past the timestamp of the
page's last event. The intended resume point is one past the latest timestamp
returned. `AdvanceStartIsMaxWhenSorted` and `SavedStartIsLatestPlusOne` prove
that the two agree when the service honours the requested start time and
returns each requested page sorted by time.
`AdvanceStartMayTrailMax` gives an unsorted page where they do not.

## Model

| member | source | states |
|---|---|---|
| CloudWatchLogs.SanitizeGroupName | check-cloudwatch-logs/lib/check-cloudwatch-logs.go:65-72 | definition: `stateRe.ReplaceAllString(name, "_")` then `strings.TrimLeft(…, "_")`; see `SanitizedNameIsSafe`, `SanitizeKeepsSafeName`, `SanitizeIdempotent` |
| CloudWatchLogs.Join | check-cloudwatch-logs/lib/check-cloudwatch-logs.go:73 | definition of `strings.Join`; see `JoinWordsInjective`, `JoinDiffersAtOne`, `ArgumentBoundariesAreLost` |
| CloudWatchLogs.DigestInput | check-cloudwatch-logs/lib/check-cloudwatch-logs.go:73 | definition: the profile, a blank, then the arguments joined by blanks; see `StateFilesDifferAtOneArgument`, `ArgumentBoundariesAreLost` |
| CloudWatchLogs.JoinPath | check-cloudwatch-logs/lib/check-cloudwatch-logs.go:68-69 | the path starts with the directory and ends with the file name; see `JoinPathInjective` |
| CloudWatchLogs.StateFileName | check-cloudwatch-logs/lib/check-cloudwatch-logs.go:70-74 | the base name is 38 characters longer than the sanitized group name; see `StateFileNameShape` |
| CloudWatchLogs.StateFile | check-cloudwatch-logs/lib/check-cloudwatch-logs.go:67-76 | the path starts with the state directory and ends with the base name; see `StateFileSeparatesDigests`, `StateFilesDifferAtOneArgument` |
| CloudWatchLogs.ReplaceDisallowed | check-cloudwatch-logs/lib/check-cloudwatch-logs.go:65-72 | same length; each character outside `[-a-zA-Z0-9_.]` becomes `_`, each other character is kept |
| CloudWatchLogs.TrimLeadingUnderscores | check-cloudwatch-logs/lib/check-cloudwatch-logs.go:72 | the result is a suffix of the input; only `_` characters were dropped; it does not start with `_` |
| CloudWatchLogs.SanitizedNameIsSafe | check-cloudwatch-logs/lib/check-cloudwatch-logs.go:65-72 | the sanitized group name holds only allowed characters and never starts with `_` |
| CloudWatchLogs.SanitizeKeepsSafeName | check-cloudwatch-logs/lib/check-cloudwatch-logs.go:65-72 | a name that is already safe is left unchanged |
| CloudWatchLogs.SanitizeIdempotent | check-cloudwatch-logs/lib/check-cloudwatch-logs.go:65-72 | sanitizing twice gives the same name as sanitizing once |
| CloudWatchLogs.HexDigit | check-cloudwatch-logs/lib/check-cloudwatch-logs.go:71 | each nibble is written as a lower-case hex digit |
| CloudWatchLogs.Hex | check-cloudwatch-logs/lib/check-cloudwatch-logs.go:70-73 | `%x` writes two characters per byte |
| CloudWatchLogs.HexInjective | check-cloudwatch-logs/lib/check-cloudwatch-logs.go:70-73 | byte strings with equal `%x` renderings are equal |
| CloudWatchLogs.HexDigitsOnly | check-cloudwatch-logs/lib/check-cloudwatch-logs.go:70-73 | every character of a `%x` rendering is a lower-case hex digit |
| CloudWatchLogs.NameShape | check-cloudwatch-logs/lib/check-cloudwatch-logs.go:70-74 | `"%s-%x.json"` of a name and a 16-byte digest: the name, `-`, exactly 32 hex digits, `.json` |
| CloudWatchLogs.StateFileNameShape | check-cloudwatch-logs/lib/check-cloudwatch-logs.go:67-76 | the state file name is a safe group name, `-`, 32 lower-case hex digits and `.json` |
| CloudWatchLogs.JoinPathInjective | check-cloudwatch-logs/lib/check-cloudwatch-logs.go:68-69 | joining two different file names to the same directory gives different paths |
| CloudWatchLogs.StateFileSeparatesDigests | check-cloudwatch-logs/lib/check-cloudwatch-logs.go:67-76 | invocations whose md5 inputs hash differently get different state files |
| CloudWatchLogs.JoinWordsInjective | check-cloudwatch-logs/lib/check-cloudwatch-logs.go:73 | two lists of non-empty, blank-free arguments with the same blank-joined text are the same list |
| CloudWatchLogs.JoinDiffersAtOne | check-cloudwatch-logs/lib/check-cloudwatch-logs.go:73 | two equally long argument lists that differ at exactly one index have different joined texts, whatever the arguments hold |
| CloudWatchLogs.StateFilesDifferAtOneArgument | check-cloudwatch-logs/lib/check-cloudwatch-logs.go:67-76 | under the same profile, argument lists that differ in one argument (a pattern with blanks, say) get different state files, unless md5 collides |
| CloudWatchLogs.ArgumentBoundariesAreLost | check-cloudwatch-logs/lib/check-cloudwatch-logs.go:73 | `-p "a b"` and `-p a b` share a state file, and so do one empty argument and no argument |
| CloudWatchLogs.StateFilesDifferForDifferentArgs | check-cloudwatch-logs/lib/check-cloudwatch-logs.go:67-76 | under the same profile, two different blank-free argument lists get different state files, unless md5 collides |
| CloudWatchLogs.AdvanceStart | check-cloudwatch-logs/lib/check-cloudwatch-logs.go:130 | definition: one past the last event's timestamp, unchanged for an empty page; see `TakeEvents`, `AdvanceStartIsMaxWhenSorted`, `AdvanceStartMayTrailMax`, `AdvanceNotBack` |
| CloudWatchLogs.EventMessages | check-cloudwatch-logs/lib/check-cloudwatch-logs.go:128-129 | the messages of a page are its events' messages, one per event, in order |
| CloudWatchLogs.ChainedAppend | check-cloudwatch-logs/lib/check-cloudwatch-logs.go:117-137 | a request sent with the latest page's token and moved start time keeps the request history chained to the pages |
| CloudWatchLogs.TakeEvents | check-cloudwatch-logs/lib/check-cloudwatch-logs.go:128-131 | the inner loop appends every event's message in order (a still-nil slice stays nil) and ends with the start time one past the last event's timestamp, or unchanged for an empty page |
| CloudWatchLogs.Resume | check-cloudwatch-logs/lib/check-cloudwatch-logs.go:101-116 | a load error other than not-found is an error; a state whose start time is present and later than one hour ago gives its token and start time together; otherwise the token is absent and the start is one minute ago, in milliseconds |
| CloudWatchLogs.Paginate | check-cloudwatch-logs/lib/check-cloudwatch-logs.go:117-137 | the first request carries the initial token and start; each later request carries the previous page's token and the moved start time; every request names the log group and pattern; the loop stops at the first error or the first page without a token, and then holds the messages of every page in order |
| CloudWatchLogs.Run | check-cloudwatch-logs/lib/check-cloudwatch-logs.go:100-145 | the whole scan. A load failure sends no request. A load or query error returns no messages and saves nothing. After a normal end the state `{last token, advanced start}` is saved exactly when the token is set, and a failed save is an error. Otherwise the result is every page's messages, nil when there were none |
| CloudWatchLogs.SaveGate | check-cloudwatch-logs/lib/check-cloudwatch-logs.go:132-143 | after a normal end, state is saved exactly when the scan resumed with a token or some page returned one |
| CloudWatchLogs.MaxTimestamp | check-cloudwatch-logs/lib/check-cloudwatch-logs.go:128-131 | the latest timestamp of a non-empty page: an upper bound that some event reaches |
| CloudWatchLogs.AdvanceStartIsMaxWhenSorted | check-cloudwatch-logs/lib/check-cloudwatch-logs.go:128-131 | on a page sorted by time, the next start time is the latest timestamp plus one |
| CloudWatchLogs.AdvanceStartMayTrailMax | check-cloudwatch-logs/lib/check-cloudwatch-logs.go:128-131 | on the unsorted page with timestamps 5 then 3, the next start time is 4, not the latest timestamp plus one, 6 |
| CloudWatchLogs.BelowAdvance | check-cloudwatch-logs/lib/check-cloudwatch-logs.go:128-131 | on a sorted page at or after the start time, every event lies before the moved start time, and the start does not move back |
| CloudWatchLogs.AdvanceNotBack | check-cloudwatch-logs/lib/check-cloudwatch-logs.go:128-131 | a page at or after the start time, sorted or not, moves the start strictly forward, or leaves it unchanged when the page is empty |
| CloudWatchLogs.StartTimeMonotone | check-cloudwatch-logs/lib/check-cloudwatch-logs.go:117-137 | along the chained requests the start time never decreases, when the service honours start times; no ordering within a page is needed |
| CloudWatchLogs.ResumePointPassesEveryEvent | check-cloudwatch-logs/lib/check-cloudwatch-logs.go:100-145 | when the service honours start times and sorts each requested page, the start time a completed scan ends with (the one it saves) lies after every event it returned, so scanning from it again returns none of them; on an unsorted page (`AdvanceStartMayTrailMax`) an event can come back |
| CloudWatchLogs.FinalStartFollowsLastEvent | check-cloudwatch-logs/lib/check-cloudwatch-logs.go:117-137 | with no ordering assumption: the start time after the chained pages is the first request's start when no page held an event, and otherwise one past the timestamp of a returned event |
| CloudWatchLogs.SavedStartIsLatestPlusOne | check-cloudwatch-logs/lib/check-cloudwatch-logs.go:100-145 | when the service honours start times and sorts each requested page, a completed scan that returned any event ends exactly one past the latest timestamp it returned |
| CloudWatchLogs.Check | check-cloudwatch-logs/lib/check-cloudwatch-logs.go:174-192 | CRITICAL exactly when the count is over the critical threshold, WARNING exactly when it is over the warning one but not the critical one, OK otherwise and always for a nil list; the message is the count, the exceeded threshold, the pattern, and with ReturnContent the messages after a newline |
| CloudWatchLogs.MessageStartsWithCount | check-cloudwatch-logs/lib/check-cloudwatch-logs.go:176-184 | the leading digits of the check's message read back as the number of messages |
| CloudWatchLogs.CountReadsBack | check-cloudwatch-logs/lib/check-cloudwatch-logs.go:176-184 | a number's text followed by a threshold note and the pattern note starts with exactly that number |
| CloudWatchLogs.ErrorText | check-cloudwatch-logs/lib/check-cloudwatch-logs.go:206 | definition: the text `fmt.Sprint` gives the scan's error; see `Conclude` |
| CloudWatchLogs.Conclude | check-cloudwatch-logs/lib/check-cloudwatch-logs.go:204-208 | a scan error gives UNKNOWN with the error's text; a successful scan is evaluated by the check and is never UNKNOWN |
| MySql.SeparateSub | check-mysql/lib/check-mysql.go:81-86 | empty arguments, or a first argument starting with `-`, give no subcommand and all the arguments; otherwise the subcommand and the rest add back up to the arguments |
| MySql.LookupCommand | check-mysql/lib/check-mysql.go:36-41 | the table has an entry exactly for `replication`, `connection`, `uptime` and `readonly`, and the entry's key is the subcommand |
| MySql.LookupCommandKey | check-mysql/lib/check-mysql.go:36-41 | every check is found under its own key |
| MySql.KeysAreNotFlags | check-mysql/lib/check-mysql.go:81-91 | a table key given first does not start with `-`, so `separateSub` takes it as the subcommand and gives the remaining arguments |
| MySql.Do | check-mysql/lib/check-mysql.go:89-105 | a check runs exactly when the first argument is a table key; it gets the remaining arguments and the name `MySQL ` followed by the key with its first letter upper-cased; anything else prints the usage |
| MySql.CheckerName | check-mysql/lib/check-mysql.go:103 | `MySQL `, the first letter upper-cased, then the rest of the subcommand; see `CheckerNames`, `Do` |
| MySql.CheckerNames | check-mysql/lib/check-mysql.go:103 | the four names are `MySQL Replication`, `MySQL Connection`, `MySQL Uptime` and `MySQL Readonly` |
| MySql.ApplyProfile | check-mysql/lib/check-mysql.go:58-72 | definition of the override; see `ApplyProfileRule`, `ApplyProfileIdempotent` |
| MySql.ApplyProfileRule | check-mysql/lib/check-mysql.go:57-73 | host, port, socket, user and password each take the section's value when it is non-empty and keep the old one otherwise; no other setting changes |
| MySql.ApplyProfileIdempotent | check-mysql/lib/check-mysql.go:57-73 | applying the same profile section twice changes nothing more |
| MySql.FindSection | check-mysql/lib/check-mysql.go:56-57 | the found section is the first with the profile's name; none is found only when no section has the name |
| MySql.FindSectionFirst | check-mysql/lib/check-mysql.go:56-57 | the first section with the name is the one found |
| MySql.ProfileSetting | check-mysql/lib/check-mysql.go:43-79 | a load error is returned as it is; a nil config is `had a nil config`; a profile missing from the file is `cannot find profile`; otherwise the override of the first section with the profile's name |
| MySql.ReadCnf | check-mysql/lib/check-mysql.go:43-79 | the loop over the sections returns the settings and error `ProfileSetting` describes, with the settings unchanged on every error |
| MySql.EffectiveSetting | check-mysql/lib/check-mysql.go:108-114 | without a my.cnf the settings are used as given; with one, only host, port, socket, user and password can change; see `NewDB` |
| MySql.NewDB | check-mysql/lib/check-mysql.go:107-146 | with a my.cnf, its error is returned; a non-empty socket gives `unix` and the socket, otherwise `tcp` and `host:port`; user and password carried over; native passwords allowed; with TLS, an unreadable root certificate is an error, else the root certificate (when named) and skip-verify flag are set |
| MySql.ScanDecimal | check-mysql/lib/check-mysql.go:157 | one `%d`: a value that fits an `int`, after which a shorter suffix of the input is left; see `ScanDecimalOfDigits`, `ScanDecimalSplits` |
| MySql.ParseVersion | check-mysql/lib/check-mysql.go:155-160 | every number read fits an `int`; see `ParseVersionComplete`, `ParseVersionSound` |
| MySql.ScanDecimalOfDigits | check-mysql/lib/check-mysql.go:157 | `%d` reads a digit run not followed by a digit as its value, when it fits an `int` |
| MySql.ScanFieldOfDigits | check-mysql/lib/check-mysql.go:157 | `%d.` reads a digit run and a dot |
| MySql.ScanDecimalSplits | check-mysql/lib/check-mysql.go:157 | a successful `%d` read the non-empty digit run at the head of its input |
| MySql.ScanFieldSplits | check-mysql/lib/check-mysql.go:157 | a successful `%d.` read a non-empty digit run followed by a dot |
| MySql.ParseVersionComplete | check-mysql/lib/check-mysql.go:155-166 | every input that starts with a dotted triple whose numbers fit an `int` parses to those three numbers, whatever follows |
| MySql.ParseVersionSound | check-mysql/lib/check-mysql.go:155-166 | every successful parse read a dotted triple at the head of the input, each number fitting an `int`; so a number too large for an `int` is an error |
| MySql.ParseVersionExample | check-mysql/lib/check-mysql.go:155-157 | `5.5.44-0+deb8u1-log` parses as 5, 5, 44 |
| MySql.ParseVersionIncomplete | check-mysql/lib/check-mysql.go:157-160 | `8.0` does not parse |
| Decimal.IntToString | check-cloudwatch-logs/lib/check-cloudwatch-logs.go:176-182 | `fmt.Sprint` of an int: non-empty, with a leading `-` exactly for negatives and only digits otherwise |
| Decimal.NatToStringInjective | check-cloudwatch-logs/lib/check-cloudwatch-logs.go:176 | different counts give different texts |
| Decimal.NatToStringReadsBack | check-cloudwatch-logs/lib/check-cloudwatch-logs.go:176 | a number's text followed by a non-digit reads back as the number |

## Left out

- AWS sessions, credentials and region (`createService`) are not modelled. The service is a sequence of pages answered in order.
- Running out of pages is treated as a query error (`NoResponse`). This is an artifact of a finite page sequence, not a behaviour of the source.
- The 250 ms pause between pages is left out; it has no effect on the result.
- The state file holds JSON and is read and written with file I/O (`loadState`, `saveState`, `MkdirAll`). Both are given as their outcomes: not found, failed or loaded, and save ok or failed.
- `AWS_PROFILE` is the `profile` parameter, and md5 is a function parameter. The md5 algorithm itself is not modelled.
- The default state directory (`PluginWorkDir`) and the plugin construction (`newCloudwatchLogsPlugin`) are not modelled. The state directory is a parameter.
- Option parsing (`flags.ParseArgs`), `os.Exit`, `Exit` and the usage text printed by `Do` are not modelled. `Do` gives `Usage` or the invocation.
- Resume: both `time.Now()` readings are one clock value, `nowSec`.
- Event: every event carries a message and a timestamp. The panic in `run` when the service returns a nil event, message or timestamp is not modelled.
- StateFile: the md5 input joins the arguments with blanks, so it does not keep argument boundaries. `ArgumentBoundariesAreLost` shows two invocations that share a state file. `StateFilesDifferForDifferentArgs` therefore needs non-empty, blank-free arguments, while `StateFilesDifferAtOneArgument` needs nothing of the differing argument.
- AdvanceStart: the `int64` overflow of `timestamp + 1` is not modelled. Timestamps are unbounded integers.
- JoinPath: only separator insertion is modelled. `filepath.Join` also cleans the path (removes `.`, `..` and double slashes), and that is not modelled.
- The INI parser is not modelled: its case-insensitive keys, boolean keys and loose loading. The file is given as its sections, with section and key names already as the parser reports them (lower case), so in the source a profile given with upper-case letters matches no section.
- Opening the database is not modelled: the x509 pool of the root certificate, `RegisterTLSConfig`, `FormatDSN` and `sql.Open`. `NewDB` gives the driver configuration, and reading the certificate is given as whether it succeeds.
- The `SELECT VERSION()` query is not modelled, nor are the four checks the table dispatches to. The parse starts from the version text.
- ParseVersion: it does not accept what `Sscanf` also accepts before a number, which is leading blanks and a `+` or `-` sign. Version strings carry neither.
- CheckerName: it upper-cases only ASCII letters. `strings.ToUpper(string(subCmd[0]))` is only applied to the four ASCII table keys.
