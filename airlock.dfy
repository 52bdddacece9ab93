/**
 * The decision logic of `src/airlock/main.py`: choosing the `git diff`
 * command, mapping its outcome, capping the diff, building the two-message
 * chat request, and the `audit` command that strings these together.
 *
 * The two external effects are injected: `GitRunner` stands for running a
 * command with `subprocess.run(..., capture_output=True, text=True)`, and
 * `Completion` for the chat-completion request of the OpenAI client. What
 * the program prints, and the request it sends, are recorded in order in an
 * `EffectLog`.
 */
module Airlock {
  import opened Wrappers

  /* ---------------------------------------------------------------------- */
  /* Python truthiness of an optional string                                  */
  /* ---------------------------------------------------------------------- */

  /** `if s:` for a value that is `None` or a `str`: false for `None` and for `""`. */
  predicate Truthy(s: Option<string>) {
    s.Some? && s.value != ""
  }

  /* ---------------------------------------------------------------------- */
  /* get_git_diff: command selection                                          */
  /* ---------------------------------------------------------------------- */

  /** The two comparison modes of `get_git_diff`. */
  datatype DiffMode = Staged | AgainstRef(ref: string)

  /** The mode chosen for a `branch` argument: a truthy branch selects it, anything else the staged changes. */
  function Mode(branch: Option<string>): (m: DiffMode)
    ensures m.Staged? <==> !Truthy(branch)
    ensures m.AgainstRef? ==> m.ref != "" && branch == Some(m.ref)
  {
    if Truthy(branch) then AgainstRef(branch.value) else Staged
  }

  /** The argument vector passed to the subprocess for a mode. */
  function CommandOf(m: DiffMode): seq<string> {
    match m
    case Staged => ["git", "diff", "--staged"]
    case AgainstRef(r) => ["git", "diff", r]
  }

  /** The command `get_git_diff` runs for its `branch` argument. */
  function DiffCommand(branch: Option<string>): (cmd: seq<string>)
    ensures Truthy(branch) ==> cmd == ["git", "diff", branch.value]
    ensures !Truthy(branch) ==> cmd == ["git", "diff", "--staged"]
  {
    CommandOf(Mode(branch))
  }

  /** Reads the mode back from an argument vector; `None` for anything that is not a three-word `git diff`. */
  function ModeOfCommand(cmd: seq<string>): (m: Option<DiffMode>)
    ensures m.Some? <==> |cmd| == 3 && cmd[0] == "git" && cmd[1] == "diff" && cmd[2] != ""
    ensures m.Some? ==> CommandOf(m.value) == cmd
  {
    if |cmd| == 3 && cmd[0] == "git" && cmd[1] == "diff" && cmd[2] != "" then
      if cmd[2] == "--staged" then Some(Staged) else Some(AgainstRef(cmd[2]))
    else None
  }

  /**
   * The command reveals the mode it was built for, except that a branch
   * spelled "--staged" yields the same command as no branch: the branch is
   * passed to git without a "--" separator.
   */
  lemma CommandRevealsMode(branch: Option<string>)
    ensures branch != Some("--staged") ==> ModeOfCommand(DiffCommand(branch)) == Some(Mode(branch))
    ensures DiffCommand(Some("--staged")) == DiffCommand(None)
  {
  }

  /* ---------------------------------------------------------------------- */
  /* get_git_diff: result mapping                                             */
  /* ---------------------------------------------------------------------- */

  /** What `subprocess.run` reports about a finished process. */
  datatype ProcessResult = ProcessResult(returncode: int, stdout: string)

  /** Runs an argument vector and reports how the process ended. */
  type GitRunner = seq<string> -> ProcessResult

  /**
   * The value `get_git_diff` returns for a process result: with `check=True`
   * a non-zero exit raises `CalledProcessError`, which is caught and turned
   * into `None`; otherwise the captured standard output, possibly empty.
   */
  function DiffFromProcess(p: ProcessResult): (d: Option<string>)
    ensures d.Some? <==> p.returncode == 0
    ensures d.Some? ==> d.value == p.stdout
  {
    if p.returncode != 0 then None else Some(p.stdout)
  }

  /* ---------------------------------------------------------------------- */
  /* Effects                                                                  */
  /* ---------------------------------------------------------------------- */

  /** Who a chat message is from. */
  datatype Role = System | User

  /**
   * The content of a chat message. `Instructions` stands for the fixed
   * system prompt, whose wording the model does not reproduce.
   */
  datatype Content = Instructions | Text(text: string)

  datatype Message = Message(role: Role, content: Content)

  /**
   * What `analyze_with_ai` can raise into `audit`: `typer.Exit` (a
   * `RuntimeError`) with its exit code, or an error from the API call with
   * its message.
   */
  datatype AnalysisError = Exit(code: int) | ApiError(message: string)

  /** One observable effect of an `audit` run, in the order it happens. */
  datatype Event =
    | Started(target: string)                           // the banner naming the target
    | GitFailed                                         // the git command failed
    | NoChanges                                         // nothing to analyze
    | TruncationWarning                                 // the diff is large and is being cut
    | KeyMissing                                        // the API key variable is not set
    | NetworkCall(key: string, messages: seq<Message>)  // the one chat-completion request
    | Report(text: string)                              // the report, rendered as Markdown
    | ErrorShown(error: AnalysisError)                  // a caught exception, shown as an error

  /** What a helper records and what it hands back to its caller. */
  datatype Step<T> = Step(effects: seq<Event>, result: T)

  /** The ordered record of what the program has printed and sent. */
  class EffectLog {
    var events: seq<Event>

    constructor ()
      ensures events == []
    {
      events := [];
    }

    method Record(e: Event)
      modifies this
      ensures events == old(events) + [e]
    {
      events := events + [e];
    }
  }

  /** The specification of `get_git_diff`: what it prints and what it returns. */
  function GitDiff(branch: Option<string>, git: GitRunner): (s: Step<Option<string>>)
    ensures s.result.Some? <==> git(DiffCommand(branch)).returncode == 0
    ensures s.result.Some? ==> s.result.value == git(DiffCommand(branch)).stdout
    ensures s.effects == if s.result.None? then [GitFailed] else []
  {
    var d := DiffFromProcess(git(DiffCommand(branch)));
    Step(if d.None? then [GitFailed] else [], d)
  }

  /** `get_git_diff`: picks the command, runs it, and maps the outcome. */
  method GetGitDiff(log: EffectLog, branch: Option<string>, git: GitRunner) returns (diff: Option<string>)
    modifies log
    ensures diff == GitDiff(branch, git).result
    ensures log.events == old(log.events) + GitDiff(branch, git).effects
  {
    var command: seq<string>;
    if Truthy(branch) {
      command := ["git", "diff", branch.value];
    } else {
      command := ["git", "diff", "--staged"];
    }
    var result := git(command);
    if result.returncode != 0 {
      log.Record(GitFailed);
      return None;
    }
    return Some(result.stdout);
  }

  /* ---------------------------------------------------------------------- */
  /* Truncation                                                               */
  /* ---------------------------------------------------------------------- */

  /** The largest number of characters of a diff that is sent. */
  const MaxDiffChars: nat := 10000

  /** The diff that is sent: a diff over the cap is cut to its first `MaxDiffChars` characters. */
  function Truncate(diff: string): (sent: string)
    ensures sent <= diff
    ensures |sent| == if |diff| > MaxDiffChars then MaxDiffChars else |diff|
    ensures |diff| <= MaxDiffChars ==> sent == diff
  {
    if |diff| > MaxDiffChars then diff[..MaxDiffChars] else diff
  }

  /** Cutting an already cut diff changes nothing. */
  lemma TruncateIdempotent(diff: string)
    ensures Truncate(Truncate(diff)) == Truncate(diff)
  {
  }

  /** The diff sent is the longest prefix of the original within the cap. */
  lemma TruncateLongestPrefix(diff: string, p: string)
    requires p <= diff && |p| <= MaxDiffChars
    ensures p <= Truncate(diff)
  {
  }

  /* ---------------------------------------------------------------------- */
  /* analyze_with_ai: request construction                                    */
  /* ---------------------------------------------------------------------- */

  /** The fixed text put in front of the diff in the user message. */
  const PromptPrefix: string := "Here is the git diff:\n\n"

  /** The user prompt for a diff. */
  function UserPrompt(diffText: string): (p: string)
    ensures PromptPrefix <= p
    ensures |p| == |PromptPrefix| + |diffText|
    ensures p[|PromptPrefix|..] == diffText
  {
    PromptPrefix + diffText
  }

  /** The diff carried by a user prompt: what follows the fixed prefix, if the prompt starts with it. */
  function DiffOfPrompt(p: string): (d: Option<string>)
    ensures d.Some? <==> PromptPrefix <= p
    ensures d.Some? ==> UserPrompt(d.value) == p
  {
    if PromptPrefix <= p then
      assert p == p[..|PromptPrefix|] + p[|PromptPrefix|..];
      Some(p[|PromptPrefix|..])
    else None
  }

  /** A prompt gives back the diff it was built from, and a prompt that gives back a diff was built from it. */
  lemma PromptRoundTrip(p: string, diffText: string)
    ensures DiffOfPrompt(UserPrompt(diffText)) == Some(diffText)
    ensures DiffOfPrompt(p) == Some(diffText) <==> p == UserPrompt(diffText)
  {
    assert UserPrompt(diffText)[|PromptPrefix|..] == diffText;
  }

  /** The message list of the request: the system instructions, then the user prompt. */
  function Messages(diffText: string): (ms: seq<Message>)
    ensures |ms| == 2
    ensures ms[0].role == System && ms[0].content == Instructions
    ensures ms[1].role == User && ms[1].content.Text?
    ensures DiffOfPrompt(ms[1].content.text) == Some(diffText)
  {
    [Message(System, Instructions), Message(User, Text(UserPrompt(diffText)))]
  }

  /** The diff carried by a message list, if it has the shape `Messages` builds. */
  function SentDiff(ms: seq<Message>): (d: Option<string>)
    ensures d.Some? ==> ms == Messages(d.value)
  {
    if |ms| == 2 && ms[0] == Message(System, Instructions) && ms[1].role == User && ms[1].content.Text? then
      match DiffOfPrompt(ms[1].content.text)
      case Some(diffText) => Some(diffText)
      case None => None
    else None
  }

  /** The diff that was sent is recovered from the message list. */
  lemma SentDiffOfMessages(diffText: string)
    ensures SentDiff(Messages(diffText)) == Some(diffText)
  {
    PromptRoundTrip(UserPrompt(diffText), diffText);
  }

  /* ---------------------------------------------------------------------- */
  /* analyze_with_ai: the call                                                */
  /* ---------------------------------------------------------------------- */

  /** How the chat-completion request ends: the first choice's message content, or a raised error. */
  datatype AiOutcome = Completed(content: string) | Raised(message: string)

  /** Sends a message list, authenticated with a key, and reports the outcome. */
  type Completion = (string, seq<Message>) -> AiOutcome

  /** The specification of `analyze_with_ai`: what it prints and sends, and what it returns or raises. */
  function Analyze(diffText: string, apiKey: Option<string>, complete: Completion): (s: Step<Result<string, AnalysisError>>)
    ensures !Truthy(apiKey) ==> s.effects == [KeyMissing] && s.result == Failure(Exit(1))
    ensures Truthy(apiKey) ==> s.effects == [NetworkCall(apiKey.value, Messages(diffText))]
    ensures Truthy(apiKey) ==> match complete(apiKey.value, Messages(diffText))
                               case Completed(c) => s.result == Success(c)
                               case Raised(m) => s.result == Failure(ApiError(m))
  {
    if !Truthy(apiKey) then
      Step([KeyMissing], Failure(Exit(1)))
    else
      var request := Messages(diffText);
      var outcome := complete(apiKey.value, request);
      Step([NetworkCall(apiKey.value, request)],
           match outcome
           case Completed(c) => Success(c)
           case Raised(m) => Failure(ApiError(m)))
  }

  /** `analyze_with_ai`: checks the key, builds the request, sends it once and returns the reply. */
  method AnalyzeWithAi(log: EffectLog, diffText: string, apiKey: Option<string>, complete: Completion)
    returns (summary: Result<string, AnalysisError>)
    modifies log
    ensures summary == Analyze(diffText, apiKey, complete).result
    ensures log.events == old(log.events) + Analyze(diffText, apiKey, complete).effects
  {
    if !Truthy(apiKey) {
      log.Record(KeyMissing);
      return Failure(Exit(1));
    }
    var userPrompt := PromptPrefix + diffText;
    var messages := [Message(System, Instructions), Message(User, Text(userPrompt))];
    log.Record(NetworkCall(apiKey.value, messages));
    var response := complete(apiKey.value, messages);
    match response
    case Completed(content) => summary := Success(content);
    case Raised(m) => summary := Failure(ApiError(m));
  }

  /* ---------------------------------------------------------------------- */
  /* audit                                                                    */
  /* ---------------------------------------------------------------------- */

  /** The target named in the banner: the branch when truthy, else "Staged". */
  function Target(branch: Option<string>): (t: string)
    ensures Truthy(branch) ==> t == branch.value
    ensures !Truthy(branch) ==> t == "Staged"
  {
    match Mode(branch)
    case Staged => "Staged"
    case AgainstRef(r) => r
  }

  /** What `audit`'s try/except shows for the outcome of the analysis. */
  function Render(summary: Result<string, AnalysisError>): (e: Event)
    ensures e.Report? <==> summary.Success?
    ensures summary.Success? ==> e.text == summary.value
    ensures summary.Failure? ==> e == ErrorShown(summary.error)
  {
    match summary
    case Success(s) => Report(s)
    case Failure(err) => ErrorShown(err)
  }

  /** The specification of `audit`: every effect of one run, in order. */
  function AuditTrace(branch: Option<string>, git: GitRunner, apiKey: Option<string>, complete: Completion): seq<Event> {
    var diff := GitDiff(branch, git);
    [Started(Target(branch))] + diff.effects +
    if !Truthy(diff.result) then [NoChanges] else ReviewTrace(diff.result.value, apiKey, complete)
  }

  /** The part of `audit` after a non-empty diff was extracted: the notice, the analysis and what is shown for it. */
  function ReviewTrace(diff: string, apiKey: Option<string>, complete: Completion): seq<Event> {
    var analysis := Analyze(Truncate(diff), apiKey, complete);
    Notice(diff) + analysis.effects + [Render(analysis.result)]
  }

  /** The truncation warning, printed only for a diff over the cap. */
  function Notice(diff: string): seq<Event> {
    if |diff| > MaxDiffChars then [TruncationWarning] else []
  }

  /** `audit`: banner, extraction, the short-circuit on no changes, truncation, then one guarded analysis. */
  method Audit(log: EffectLog, branch: Option<string>, git: GitRunner, apiKey: Option<string>, complete: Completion)
    modifies log
    ensures log.events == old(log.events) + AuditTrace(branch, git, apiKey, complete)
  {
    ghost var start := log.events;
    log.Record(Started(Target(branch)));
    var diff := GetGitDiff(log, branch, git);
    if !Truthy(diff) {
      log.Record(NoChanges);
      return;
    }
    var text := diff.value;
    ghost var original := text;
    if |text| > MaxDiffChars {
      log.Record(TruncationWarning);
      text := text[..MaxDiffChars];
    }
    var summary := AnalyzeWithAi(log, text, apiKey, complete);
    log.Record(Render(summary));
    ReviewAppended(start, [Started(Target(branch))] + GitDiff(branch, git).effects, log.events, original, apiKey, complete);
  }

  /** Regroups the effects `Audit` appends after extraction as the review part of its trace. */
  lemma ReviewAppended(start: seq<Event>, prefix: seq<Event>, events: seq<Event>, diff: string, apiKey: Option<string>, complete: Completion)
    requires events == start + prefix + Notice(diff) + Analyze(Truncate(diff), apiKey, complete).effects + [Render(Analyze(Truncate(diff), apiKey, complete).result)]
    ensures events == start + (prefix + ReviewTrace(diff, apiKey, complete))
  {
  }
}
