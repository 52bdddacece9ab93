/**
 * What one `audit` run does, stated over the ordered trace `AuditTrace`
 * records: when the completion request is sent (at most once, never
 * without changes or without a key), what it carries, when the truncation
 * notice appears and where, and how every run ends in a handled outcome.
 */
module AuditProperties {
  import opened Wrappers
  import opened Airlock

  predicate IsCall(e: Event) { e.NetworkCall? }

  predicate IsNotice(e: Event) { e.TruncationWarning? }

  /** An event that closes a run: the no-changes notice, a report, or a shown error. */
  predicate IsOutcome(e: Event) { e.NoChanges? || e.Report? || e.ErrorShown? }

  /** How many events of a trace satisfy `p`. */
  function Occurrences(t: seq<Event>, p: Event -> bool): (n: nat)
    ensures n <= |t|
    ensures n == 0 <==> forall i :: 0 <= i < |t| ==> !p(t[i])
  {
    if t == [] then 0
    else
      var rest := Occurrences(t[1..], p);
      assert forall i :: 1 <= i < |t| ==> t[i] == t[1..][i - 1];
      (if p(t[0]) then 1 else 0) + rest
  }

  lemma {:induction false} OccurrencesAppend(a: seq<Event>, b: seq<Event>, p: Event -> bool)
    ensures Occurrences(a + b, p) == Occurrences(a, p) + Occurrences(b, p)
  {
    if a == [] {
      assert a + b == b;
    } else {
      assert (a + b)[1..] == a[1..] + b;
      OccurrencesAppend(a[1..], b, p);
    }
  }

  /** The diff `get_git_diff` hands back to `audit` in this run. */
  function Extracted(branch: Option<string>, git: GitRunner): Option<string> {
    GitDiff(branch, git).result
  }

  /* ---------------------------------------------------------------------- */
  /* Short-circuits                                                           */
  /* ---------------------------------------------------------------------- */

  /** A failing `git diff` prints its error, then "no changes", and nothing else happens. */
  lemma GitFailureShortCircuits(branch: Option<string>, git: GitRunner, apiKey: Option<string>, complete: Completion)
    requires git(DiffCommand(branch)).returncode != 0
    ensures AuditTrace(branch, git, apiKey, complete) == [Started(Target(branch)), GitFailed, NoChanges]
  {
  }

  /** An empty but successful diff is not an error: the run reports "no changes" and stops. */
  lemma EmptyDiffShortCircuits(branch: Option<string>, git: GitRunner, apiKey: Option<string>, complete: Completion)
    requires git(DiffCommand(branch)) == ProcessResult(0, "")
    ensures AuditTrace(branch, git, apiKey, complete) == [Started(Target(branch)), NoChanges]
  {
  }

  /** Without a non-empty diff there is no truncation, no key check and no request, and the run ends with "no changes". */
  lemma NoChangesMeansNoCall(branch: Option<string>, git: GitRunner, apiKey: Option<string>, complete: Completion)
    requires !Truthy(Extracted(branch, git))
    ensures var t := AuditTrace(branch, git, apiKey, complete);
      && t[|t| - 1] == NoChanges
      && forall i :: 0 <= i < |t| ==> !t[i].NetworkCall? && !t[i].KeyMissing? && !t[i].TruncationWarning?
  {
  }

  /* ---------------------------------------------------------------------- */
  /* The completion request                                                   */
  /* ---------------------------------------------------------------------- */

  /** After extraction, the request is sent once with a key and never without one. */
  lemma ReviewCallsOnceWithKey(diff: string, apiKey: Option<string>, complete: Completion)
    ensures Occurrences(ReviewTrace(diff, apiKey, complete), IsCall) == if Truthy(apiKey) then 1 else 0
  {
    var analysis := Analyze(Truncate(diff), apiKey, complete);
    var notice := Notice(diff);
    OccurrencesAppend(notice + analysis.effects, [Render(analysis.result)], IsCall);
    OccurrencesAppend(notice, analysis.effects, IsCall);
    assert Occurrences(notice, IsCall) == 0;
    assert Occurrences([Render(analysis.result)], IsCall) == 0;
  }

  /** The request is sent exactly once when there are changes and a key, and never otherwise. */
  lemma NetworkCalledAtMostOnce(branch: Option<string>, git: GitRunner, apiKey: Option<string>, complete: Completion)
    ensures Occurrences(AuditTrace(branch, git, apiKey, complete), IsCall)
         == if Truthy(Extracted(branch, git)) && Truthy(apiKey) then 1 else 0
  {
    var diff := GitDiff(branch, git);
    var head := [Started(Target(branch))] + diff.effects;
    assert Occurrences(head, IsCall) == 0;
    if Truthy(diff.result) {
      OccurrencesAppend(head, ReviewTrace(diff.result.value, apiKey, complete), IsCall);
      ReviewCallsOnceWithKey(diff.result.value, apiKey, complete);
    } else {
      OccurrencesAppend(head, [NoChanges], IsCall);
    }
  }

  /** With changes but no usable key, the key error is shown and the run ends without a request or a report. */
  lemma MissingKeyStopsBeforeCall(branch: Option<string>, git: GitRunner, apiKey: Option<string>, complete: Completion)
    requires Truthy(Extracted(branch, git)) && !Truthy(apiKey)
    ensures var t := AuditTrace(branch, git, apiKey, complete);
      && |t| >= 3
      && t[|t| - 2] == KeyMissing
      && t[|t| - 1] == ErrorShown(Exit(1))
      && forall i :: 0 <= i < |t| ==> !t[i].NetworkCall? && !t[i].Report?
  {
  }

  /** Every request carries the key and the two messages built from the truncated diff. */
  lemma CallCarriesTruncatedDiff(branch: Option<string>, git: GitRunner, apiKey: Option<string>, complete: Completion)
    ensures var t := AuditTrace(branch, git, apiKey, complete);
      forall j :: 0 <= j < |t| && t[j].NetworkCall? ==>
        && Truthy(Extracted(branch, git)) && Truthy(apiKey)
        && t[j].key == apiKey.value
        && SentDiff(t[j].messages) == Some(Truncate(Extracted(branch, git).value))
  {
    var diff := GitDiff(branch, git);
    if Truthy(diff.result) {
      SentDiffOfMessages(Truncate(diff.result.value));
    }
  }

  /* ---------------------------------------------------------------------- */
  /* Truncation notice                                                        */
  /* ---------------------------------------------------------------------- */

  /** After extraction, the notice appears once exactly when the diff is over the cap. */
  lemma ReviewNoticeOnceWhenLong(diff: string, apiKey: Option<string>, complete: Completion)
    ensures Occurrences(ReviewTrace(diff, apiKey, complete), IsNotice) == if |diff| > MaxDiffChars then 1 else 0
  {
    var analysis := Analyze(Truncate(diff), apiKey, complete);
    var notice := Notice(diff);
    OccurrencesAppend(notice + analysis.effects, [Render(analysis.result)], IsNotice);
    OccurrencesAppend(notice, analysis.effects, IsNotice);
    assert Occurrences(analysis.effects, IsNotice) == 0;
    assert Occurrences([Render(analysis.result)], IsNotice) == 0;
  }

  /** The notice appears once exactly when a non-empty diff is over the cap, and not at all otherwise. */
  lemma NoticeExactlyWhenTruncated(branch: Option<string>, git: GitRunner, apiKey: Option<string>, complete: Completion)
    ensures Occurrences(AuditTrace(branch, git, apiKey, complete), IsNotice)
         == if Truthy(Extracted(branch, git)) && |Extracted(branch, git).value| > MaxDiffChars then 1 else 0
  {
    var diff := GitDiff(branch, git);
    var head := [Started(Target(branch))] + diff.effects;
    assert Occurrences(head, IsNotice) == 0;
    if Truthy(diff.result) {
      OccurrencesAppend(head, ReviewTrace(diff.result.value, apiKey, complete), IsNotice);
      ReviewNoticeOnceWhenLong(diff.result.value, apiKey, complete);
    } else {
      OccurrencesAppend(head, [NoChanges], IsNotice);
    }
  }

  /** After extraction, the notice can only be the first event and the request only the one after it. */
  lemma ReviewNoticeFirst(diff: string, apiKey: Option<string>, complete: Completion)
    ensures var r := ReviewTrace(diff, apiKey, complete);
      && (forall i :: 0 <= i < |r| && r[i].TruncationWarning? ==> i == 0)
      && (forall j :: 0 <= j < |r| && r[j].NetworkCall? ==> j == if |diff| > MaxDiffChars then 1 else 0)
  {
  }

  /** The notice comes strictly before the request. */
  lemma NoticeBeforeCall(branch: Option<string>, git: GitRunner, apiKey: Option<string>, complete: Completion)
    ensures var t := AuditTrace(branch, git, apiKey, complete);
      forall i, j :: 0 <= i < |t| && 0 <= j < |t| && t[i].TruncationWarning? && t[j].NetworkCall? ==> i < j
  {
    var diff := GitDiff(branch, git);
    var t := AuditTrace(branch, git, apiKey, complete);
    if Truthy(diff.result) {
      var head := [Started(Target(branch))];
      var r := ReviewTrace(diff.result.value, apiKey, complete);
      assert t == head + r;
      ReviewNoticeFirst(diff.result.value, apiKey, complete);
      forall i, j | 0 <= i < |t| && 0 <= j < |t| && t[i].TruncationWarning? && t[j].NetworkCall?
        ensures i < j
      {
        assert t[i] == r[i - 1] && t[j] == r[j - 1];
      }
    }
  }

  /* ---------------------------------------------------------------------- */
  /* How a run ends                                                           */
  /* ---------------------------------------------------------------------- */

  /** The report shown is exactly the completion's text for the request that was sent. */
  lemma ReportIsCompletion(branch: Option<string>, git: GitRunner, apiKey: Option<string>, complete: Completion, text: string)
    ensures Report(text) in AuditTrace(branch, git, apiKey, complete) <==>
      && Truthy(Extracted(branch, git)) && Truthy(apiKey)
      && complete(apiKey.value, Messages(Truncate(Extracted(branch, git).value))) == Completed(text)
  {
  }

  /** An error raised by the request is caught and shown with its message. */
  lemma ApiErrorIsShown(branch: Option<string>, git: GitRunner, apiKey: Option<string>, complete: Completion, message: string)
    ensures ErrorShown(ApiError(message)) in AuditTrace(branch, git, apiKey, complete) <==>
      && Truthy(Extracted(branch, git)) && Truthy(apiKey)
      && complete(apiKey.value, Messages(Truncate(Extracted(branch, git).value))) == Raised(message)
  {
  }

  /** Every run starts with the banner and ends with exactly one outcome, as its last event: within the model, nothing escapes uncaught. */
  lemma RunEndsHandled(branch: Option<string>, git: GitRunner, apiKey: Option<string>, complete: Completion)
    ensures var t := AuditTrace(branch, git, apiKey, complete);
      && |t| >= 2
      && t[0] == Started(Target(branch))
      && IsOutcome(t[|t| - 1])
      && forall i :: 0 <= i < |t| - 1 ==> !IsOutcome(t[i])
  {
  }
}
