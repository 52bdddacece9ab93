# Airlock audit pipeline in Dafny

Airlock is a command-line reviewer. Its `audit` command (`--branch REF`)
takes a diff from git, caps its size, and sends it to a chat-completion service with
fixed review instructions. It then prints the service's answer as a report.
The Typer app registers `audit` as its only command and has no callback.
Typer therefore runs it as the root command: the program is invoked as
`airlock [--branch REF]`, not `airlock audit`, despite the comment at main.py
line 68. This project models the decision logic of that command and proves
what it promises:

- which `git diff` command is run, and how its outcome becomes a diff or `None`;
- the 10000-character cap on the diff;
- the two-message request;
- the order of everything `audit` prints and sends.

The two external effects are passed in as values:

- `GitRunner` maps an argument vector to a `ProcessResult(returncode, stdout)`;
- `Completion` maps a key and a message list to an `AiOutcome`, either
  `Completed(content)` or `Raised(message)`;
- the API key is an `Option<string>`.

Every effect is recorded in order as an `Event` in an `EffectLog`: the
banner, each printed message, and the one completion request. The methods
`GetGitDiff`, `AnalyzeWithAi` and `Audit` follow the Python functions step by
step: early returns, the reassignment of the diff, and the try/except. Each is
proved against a specification function (`GitDiff`, `Analyze`, `AuditTrace`).
The module `AuditProperties` proves the pipeline's guarantees about
`AuditTrace`, and `Scenarios` works through concrete runs.

Files: `wrappers.dfy` (Option, Result), `airlock.dfy` (module `Airlock`, the
model of `src/airlock/main.py`), `audit_properties.dfy` (trace lemmas),
`scenarios.dfy` (concrete runs).

Points where the model follows the code rather than a cleaner reading of it:

- Python truthiness is one predicate, `Truthy`. `None` and `""` are both
  "absent", for the branch, the API key and the extracted diff alike. An API
  key set to the empty string is therefore reported as missing.
- A failing git command prints its error, and then `audit` also prints
  its no-changes notice. The git-failure trace is
  `[Started, GitFailed, NoChanges]`.
- `typer.Exit(code=1)` is a `RuntimeError`, so `audit`'s `except Exception`
  catches it. A missing key therefore ends with `ErrorShown(Exit(1))`, and the
  run finishes normally rather than exiting with status 1. A git failure
  also lets `audit` return normally. Neither case changes the process's exit
  status, so a CI run without a key, or with a failing git command, exits 0.
- The truncation notice is printed whenever the diff is cut, even when the
  key check then fails.

## Model

| member | source | states |
|---|---|---|
| `Airlock.Mode` | src/airlock/main.py:18-23 | the staged mode is chosen exactly when the branch is `None` or empty; otherwise the mode carries the branch, which is non-empty |
| `Airlock.DiffCommand` | src/airlock/main.py:18-23 | a truthy branch gives exactly `["git","diff",branch]`; `None` or `""` gives exactly `["git","diff","--staged"]` |
| `Airlock.ModeOfCommand` | src/airlock/main.py:20-23 | reading a mode back from an argument vector succeeds exactly for three-word `git diff X` with non-empty X, and rebuilding from that mode gives the same vector |
| `Airlock.CommandRevealsMode` | src/airlock/main.py:18-23 | the command determines the mode it was built from; the one exception is a branch spelled `--staged`, which collides with the staged command |
| `Airlock.DiffFromProcess` | src/airlock/main.py:25-34 | a diff is returned exactly when the exit status is 0, and it is the captured stdout verbatim, empty included; a non-zero exit gives `None` |
| `Airlock.GitDiff` | src/airlock/main.py:15-34 | `get_git_diff` returns a diff exactly when the selected command exits with status 0, and that diff is the command's stdout; it prints the git error exactly when it returns `None` |
| `Airlock.GetGitDiff` | src/airlock/main.py:15-34 | the imperative `get_git_diff` returns what `GitDiff` specifies and appends exactly its printed effects to the log |
| `Airlock.Truncate` | src/airlock/main.py:83-85 | the diff sent is a prefix of the original, has length min(len, 10000), and equals the original when it is at most 10000 long |
| `Airlock.TruncateIdempotent` | src/airlock/main.py:83-85 | cutting an already cut diff changes nothing |
| `Airlock.TruncateLongestPrefix` | src/airlock/main.py:85 | every prefix of the original within the cap is a prefix of the diff sent, so the diff sent is the longest such prefix |
| `Airlock.UserPrompt` | src/airlock/main.py:54 | the prompt starts with `"Here is the git diff:\n\n"`, is that prefix's length plus the diff's length, and what follows the prefix is the diff |
| `Airlock.DiffOfPrompt` | src/airlock/main.py:54 | a diff is recovered exactly when the text starts with the fixed prefix, and the prompt rebuilt from it is the original text |
| `Airlock.PromptRoundTrip` | src/airlock/main.py:54 | recovering the diff from a prompt inverts prompt construction in both directions |
| `Airlock.Messages` | src/airlock/main.py:59-62 | the request has exactly two messages, system instructions first, then a user message whose text gives back the diff |
| `Airlock.SentDiff` | src/airlock/main.py:59-62 | a message list from which a diff is recovered is exactly the list built for that diff |
| `Airlock.SentDiffOfMessages` | src/airlock/main.py:54-62 | the diff that was sent is recovered from the message list |
| `Airlock.Analyze` | src/airlock/main.py:37-65 | without a truthy key only the key error happens and `Exit(1)` is raised; with one, exactly one request is sent, with that key and the messages for the diff, and the result is the reply content or the raised error |
| `Airlock.AnalyzeWithAi` | src/airlock/main.py:37-65 | the imperative `analyze_with_ai` returns what `Analyze` specifies and appends exactly its effects to the log |
| `Airlock.Target` | src/airlock/main.py:74 | the banner names the branch when it is truthy, and `Staged` otherwise |
| `Airlock.Render` | src/airlock/main.py:87-93 | a report is shown exactly when the analysis returned, and it holds the returned text; a raised error is shown as an error |
| `Airlock.Truthy` | src/airlock/main.py:18 | no contract of its own: Python truthiness of `None`-or-`str`, the test used at lines 18, 40, 74 and 78; the AuditProperties lemmas carry its consequences |
| `Airlock.CommandOf` | src/airlock/main.py:20-23 | no contract of its own: the argument vector for each mode; `DiffCommand` and `ModeOfCommand` state its properties |
| `Airlock.EffectLog.Record` | src/airlock/main.py:33 | one `console.print` (or the request) appends exactly one event to the ordered log and changes nothing else |
| `Airlock.Notice` | src/airlock/main.py:83-84 | no contract of its own: the truncation warning for a diff over 10000 characters; `NoticeExactlyWhenTruncated` and `NoticeBeforeCall` state its properties |
| `Airlock.ReviewTrace` | src/airlock/main.py:83-93 | no contract of its own: what `audit` does after a non-empty diff; `ReviewCallsOnceWithKey`, `ReviewNoticeOnceWhenLong` and `ReviewNoticeFirst` state its properties |
| `Airlock.AuditTrace` | src/airlock/main.py:70-93 | no contract of its own: every effect of one `audit` run in order; the AuditProperties lemmas state its properties and `Audit` is proved to produce it |
| `Airlock.Audit` | src/airlock/main.py:70-93 | the imperative `audit` appends to the log exactly the trace `AuditTrace` specifies for its inputs |
| `AuditProperties.GitFailureShortCircuits` | src/airlock/main.py:32-34 | a failing git command makes the whole run: banner, git error, "no changes" |
| `AuditProperties.EmptyDiffShortCircuits` | src/airlock/main.py:76-80 | an empty but successful diff is no error: the run is banner, then "no changes" |
| `AuditProperties.NoChangesMeansNoCall` | src/airlock/main.py:76-80 | with a `None` or empty diff the run ends with "no changes", with no request, no key check and no truncation notice |
| `AuditProperties.ReviewCallsOnceWithKey` | src/airlock/main.py:83-93 | after extraction, exactly one request is sent with a truthy key and none without one |
| `AuditProperties.NetworkCalledAtMostOnce` | src/airlock/main.py:76-93 | the run sends the request exactly once when there is a non-empty diff and a truthy key, and never otherwise |
| `AuditProperties.MissingKeyStopsBeforeCall` | src/airlock/main.py:39-44 | with changes but no key, the run ends with the key error followed by the caught `Exit(1)`, with no request and no report |
| `AuditProperties.CallCarriesTruncatedDiff` | src/airlock/main.py:83-88 | every request is authenticated with the configured key and carries the two messages built from the truncated diff |
| `AuditProperties.ReviewNoticeOnceWhenLong` | src/airlock/main.py:83-85 | after extraction, the notice appears once when the diff is over 10000 characters and not otherwise |
| `AuditProperties.NoticeExactlyWhenTruncated` | src/airlock/main.py:83-85 | the notice appears exactly once when a non-empty diff is over 10000 characters, and not at all otherwise |
| `AuditProperties.ReviewNoticeFirst` | src/airlock/main.py:83-88 | after extraction, the notice can only come first, and the request comes right after it when it is present |
| `AuditProperties.NoticeBeforeCall` | src/airlock/main.py:83-88 | the truncation notice always comes strictly before the request |
| `AuditProperties.ReportIsCompletion` | src/airlock/main.py:87-91 | a report with a given text is shown exactly when the request was sent and the service answered with that text |
| `AuditProperties.ApiErrorIsShown` | src/airlock/main.py:92-93 | an error with a given message is shown exactly when the request was sent and the service raised that message |
| `AuditProperties.RunEndsHandled` | src/airlock/main.py:74-93 | every run starts with the banner and ends with exactly one outcome, no changes, report or error, as its last event |
| `Scenarios.CommandForBranchAndForStaged` | src/airlock/main.py:18-23 | `origin/main` gives `git diff origin/main`; `None` and `""` give `git diff --staged` |
| `Scenarios.SmallDiffIsReviewed` | src/airlock/main.py:76-91 | a five-character diff is sent unchanged and the service's answer is the report |
| `Scenarios.LargeDiffIsCut` | src/airlock/main.py:83-88 | 12000 `a`s: notice, then a request carrying exactly 10000 `a`s |
| `Scenarios.RejectedKeyIsShown` | src/airlock/main.py:87-93 | an authentication error from the service is shown and no report is rendered |
| `Scenarios.EmptyKeyIsMissing` | src/airlock/main.py:39-42 | an empty key is treated as missing |

## Left out

- Running git (`subprocess.run`): an external process. It is the injected `GitRunner`. Exceptions other than `CalledProcessError` are not modelled: `FileNotFoundError` when git is absent, or `UnicodeDecodeError` from `text=True` decoding. They escape `get_git_diff`, and since the call at main.py line 76 is outside `audit`'s `try`, they escape `audit` too and end the run with a traceback. Rich markup errors escape the same way: a `--branch` value holding a stray closing tag such as `[/x]` makes the banner print at line 74 raise `MarkupError` before git runs, and an exception message holding one makes the error print at line 93 raise `MarkupError` inside the `except` block.
- The OpenAI client, its model name, the HTTP exchange and the `console.status` spinner: network I/O through a library outside the model. The call is the injected `Completion`; every way it can fail, an empty `choices` list included, is one `Raised(message)`.
- A reply whose content is `None`: `Markdown(None)` would raise inside the try block, after the REPORT header has been printed, and be shown as an error. `AiOutcome.Completed` always carries a string.
- `os.getenv` and `load_dotenv()`: process environment. The key is a parameter.
- The wording of the system prompt: a static constant. `Content.Instructions` stands for it.
- Rich formatting, colours and Markdown rendering: presentation. Rich reads markup inside interpolated text; the model does not, and the markup errors this causes are listed with the errors that escape `audit`. The report's three prints (header, Markdown, footer) are one `Report` event; the exact message texts are the event names.
- How `str(e)` renders an exception: `ErrorShown` records the exception itself (`Exit(code)` or `ApiError(message)`).
- Typer app registration, option parsing and the `__main__` entry point: CLI scaffolding. The process exit status is not modelled.
- Character counting: `len` and slicing count code points, and so does Dafny's `char`. Python strings can also hold lone surrogates, which Dafny's `string` cannot.
