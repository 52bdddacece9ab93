/**
 * Concrete runs of `audit`: the two diff commands, a small diff reviewed
 * end to end, a large diff cut before it is sent, and a rejected key.
 */
module Scenarios {
  import opened Wrappers
  import opened Airlock

  /** A git stand-in that exits successfully with the given output, whatever it is asked. */
  function Succeeds(stdout: string): GitRunner {
    cmd => ProcessResult(0, stdout)
  }

  /** A completion stand-in that answers every request the same way. */
  function Answers(outcome: AiOutcome): Completion {
    (key, messages) => outcome
  }

  lemma CommandForBranchAndForStaged()
    ensures DiffCommand(Some("origin/main")) == ["git", "diff", "origin/main"]
    ensures DiffCommand(None) == ["git", "diff", "--staged"]
    ensures DiffCommand(Some("")) == ["git", "diff", "--staged"]
  {
  }

  /** A five-character diff reaches the service unchanged and its answer is the report. */
  lemma SmallDiffIsReviewed()
    ensures AuditTrace(None, Succeeds("+x=1\n"), Some("sk-test"), Answers(Completed("Summary: added x.\n")))
         == [Started("Staged"), NetworkCall("sk-test", Messages("+x=1\n")), Report("Summary: added x.\n")]
  {
  }

  /** A diff of 12000 'a's is announced as truncated and sent as its first 10000 characters. */
  lemma LargeDiffIsCut()
    ensures AuditTrace(None, Succeeds(seq(12000, i => 'a')), Some("sk-test"), Answers(Completed("ok")))
         == [Started("Staged"), TruncationWarning, NetworkCall("sk-test", Messages(seq(10000, i => 'a'))), Report("ok")]
  {
    assert seq(12000, i => 'a')[..MaxDiffChars] == seq(10000, i => 'a');
  }

  /** An authentication error from the service is shown with its message; no report is rendered. */
  lemma RejectedKeyIsShown()
    ensures AuditTrace(Some("origin/main"), Succeeds("+x=1\n"), Some("sk-bad"), Answers(Raised("invalid api key")))
         == [Started("origin/main"), NetworkCall("sk-bad", Messages("+x=1\n")), ErrorShown(ApiError("invalid api key"))]
  {
  }

  /** An empty key counts as missing: the exit it raises is caught and shown. */
  lemma EmptyKeyIsMissing()
    ensures AuditTrace(None, Succeeds("+x=1\n"), Some(""), Answers(Completed("unused")))
         == [Started("Staged"), KeyMissing, ErrorShown(Exit(1))]
  {
  }
}
