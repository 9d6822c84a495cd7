/** The scoring script: three checks on a published repository (licence,
    README, live Pages site), the record built for one submission, and
    the loop that scores every stored submission in turn.

    The repository host, the Pages site and the feedback service are
    collaborators: what they answer is given by an `EvalWorld`. */
module Evaluator {
  import opened Outcomes
  import opened Strings

  /** The `(ok, message)` pair every check returns. */
  datatype Check = Check(ok: bool, msg: string)

  /** `check_license`: the decoded LICENSE text, or `None` when fetching
      or decoding it raised. */
  function CheckLicense(license: Option<string>): (c: Check)
    ensures c.ok <==> license.Some? && Contains(license.value, "MIT")
    ensures license.None? ==> c == Check(false, "LICENSE not found")
    ensures license.Some? && !c.ok ==> c.msg == "LICENSE exists but does not mention MIT"
    ensures c.ok ==> c.msg == "MIT license found"
  {
    match license
    case None => Check(false, "LICENSE not found")
    case Some(text) =>
      if Contains(text, "MIT") then Check(true, "MIT license found")
      else Check(false, "LICENSE exists but does not mention MIT")
  }

  /** The licence check is a plain substring test: it passes exactly when
      "MIT" occurs somewhere in the text, whatever surrounds it. */
  lemma LicenseMentionsMit(text: string)
    ensures CheckLicense(Some(text)).ok <==> exists i :: OccursAt(text, "MIT", i)
  {
    ContainsAt(text, "MIT");
  }

  /** `check_readme`: the README passes when, once stripped, it is longer
      than 20 characters. */
  function CheckReadme(readme: Option<string>): (c: Check)
    ensures c.ok <==> readme.Some? && |Strip(readme.value)| > 20
    ensures readme.None? ==> c == Check(false, "README.md not found")
    ensures readme.Some? && !c.ok ==> c.msg == "README.md too short"
    ensures c.ok ==> c.msg == "README.md exists and non-trivial"
  {
    match readme
    case None => Check(false, "README.md not found")
    case Some(text) =>
      if |Strip(text)| > 20 then Check(true, "README.md exists and non-trivial")
      else Check(false, "README.md too short")
  }

  /** For a README with no outer whitespace the bound is on its own length:
      exactly 20 characters is still too short, 21 pass; and a README of
      whitespace only never passes, however long. */
  lemma ReadmeThreshold(text: string)
    ensures text != [] && !IsSpace(text[0]) && !IsSpace(text[|text| - 1]) ==>
      (CheckReadme(Some(text)).ok <==> |text| > 20)
    ensures AllSpace(text) ==> CheckReadme(Some(text)) == Check(false, "README.md too short")
  {
    if text != [] && !IsSpace(text[0]) && !IsSpace(text[|text| - 1]) {
      StripStripped(text);
    }
  }

  /** `check_pages_url`: one GET of the Pages address. */
  function CheckPagesUrl(reply: Reply): (c: Check)
    ensures c.ok <==> reply.Reply? && reply.status == 200
    ensures c.ok ==> c.msg == "Pages URL reachable"
    ensures reply.Reply? && !c.ok ==> c.msg == "Pages returned status " + NatToString(reply.status)
    ensures reply.Raised? ==> c == Check(false, "Pages URL request failed: " + reply.reason)
  {
    match reply
    case Reply(status, _) =>
      if status == 200 then Check(true, "Pages URL reachable")
      else Check(false, "Pages returned status " + NatToString(status))
    case Raised(reason) => Check(false, "Pages URL request failed: " + reason)
  }

  const StatusPrefix := "Pages returned status "

  /** A failing status can be read back from the message: the text after
      the prefix is the decimal status code, so two different failing
      statuses never give the same message. */
  lemma PagesStatusReadable(status: nat, text: string)
    requires status != 200
    ensures var m := CheckPagesUrl(Reply(status, text)).msg;
      |StatusPrefix| <= |m| && m[..|StatusPrefix|] == StatusPrefix
      && (forall i :: |StatusPrefix| <= i < |m| ==> '0' <= m[i] <= '9')
      && DecimalValue(m[|StatusPrefix|..]) == status
  {
    var m := CheckPagesUrl(Reply(status, text)).msg;
    assert m[|StatusPrefix|..] == NatToString(status);
    NatToStringValue(status);
  }

  /** What the repository host holds for one repository: the decoded
      LICENSE and README.md, or `None` where fetching raised. */
  datatype Repo = Repo(license: Option<string>, readme: Option<string>)

  /** The answer of the feedback service: the message content, or the
      exception raised while asking (the re-fetch of the README, the
      request, a non-2xx status or a reply without the expected fields). */
  datatype Feedback = Feedback(content: string) | FeedbackFailed(reason: string)

  /** The collaborators of the script: repository lookup by path (an error
      text when it raises), the Pages GET by address and the configured
      feedback key (`""` when unset). The feedback service and the clock
      answer each evaluation of a run afresh: `feedback(k)` and `clock(k)`
      are what they give the evaluation at position `k`. */
  datatype EvalWorld = EvalWorld(
    getRepo: string -> Result<Repo, string>,
    pages: string -> Reply,
    openAiKey: string,
    feedback: nat -> Feedback,
    clock: nat -> string)

  /** The record for one submission: the short error shape when the
      repository could not be opened, or the full set of check results.
      `llmFeedback` is `None` when the key is not in the record. */
  datatype Evaluation =
    | AccessFailed(email: string, task: string, error: string)
    | Scored(email: string, task: string, commitSha: string,
             license: Check, readme: Check, pages: Check,
             timestamp: string, llmFeedback: Option<string>)

  const HostPrefix := "https://github.com/"

  /** The submission keys read by indexing, in the order they are read. */
  const EvalRequired := ["email", "task", "repo_url", "commit_sha"]

  /** `repo_url.replace("https://github.com/", "")`. */
  function RepoPath(repoUrl: string): (path: string)
    ensures |path| <= |repoUrl|
  {
    RemoveAll(repoUrl, HostPrefix)
  }

  /** For the addresses the build route reports, the path is what follows
      the host prefix. */
  lemma RepoPathOfHostUrl(rest: string)
    requires !Contains(rest, HostPrefix)
    ensures RepoPath(HostPrefix + rest) == rest
  {
    var s := HostPrefix + rest;
    assert s[..|HostPrefix|] == HostPrefix;
    assert s[|HostPrefix|..] == rest;
    RemoveAllAbsent(rest, HostPrefix);
  }

  /** Every occurrence is removed, not only the first. */
  lemma RepoPathRemovesRepeats(rest: string)
    requires !Contains(rest, HostPrefix)
    ensures RepoPath(HostPrefix + HostPrefix + rest) == rest
  {
    var s := HostPrefix + HostPrefix + rest;
    assert s[..|HostPrefix|] == HostPrefix;
    assert s[|HostPrefix|..] == HostPrefix + rest;
    RepoPathOfHostUrl(rest);
  }

  /** The Pages check: skipped with a fixed message when `pages_url` is
      absent or empty, otherwise one GET. */
  function PagesCheck(pagesUrl: Option<string>, pages: string -> Reply): (c: Check)
  {
    if pagesUrl.None? || pagesUrl.value == "" then Check(false, "No pages_url")
    else CheckPagesUrl(pages(pagesUrl.value))
  }

  /** The optional feedback entry: present only when a key is configured
      and the README check passed; a failure is recorded, not raised. */
  function FeedbackEntry(openAiKey: string, readmeOk: bool, answer: Feedback): (e: Option<string>)
  {
    if openAiKey != "" && readmeOk then
      match answer
      case Feedback(content) => Some(Strip(content))
      case FeedbackFailed(reason) => Some("LLM evaluation failed: " + reason)
    else None
  }

  /** `evaluate_submission`, as the evaluation at position `k` of a run:
      `Err(key)` is the `KeyError` for the first missing key among those
      read by indexing. */
  function EvaluateSubmission(sub: map<string, string>, w: EvalWorld, k: nat): Result<Evaluation, string>
  {
    var missing := MissingFields(EvalRequired, sub);
    if missing != [] then Err(missing[0])
    else
      match w.getRepo(RepoPath(sub["repo_url"]))
      case Err(e) => Ok(AccessFailed(sub["email"], sub["task"], "Repo access failed: " + e))
      case Ok(repo) =>
        var license := CheckLicense(repo.license);
        var readme := CheckReadme(repo.readme);
        var pages := PagesCheck(Get(sub, "pages_url"), w.pages);
        Ok(Scored(sub["email"], sub["task"], sub["commit_sha"], license, readme, pages,
                  w.clock(k), FeedbackEntry(w.openAiKey, readme.ok, w.feedback(k))))
  }

  /** Only the four indexed keys can make the evaluation raise, and it
      raises with the first one missing; `pages_url` is read with `get`. */
  lemma EvaluateRaises(sub: map<string, string>, w: EvalWorld, k: nat)
    ensures EvaluateSubmission(sub, w, k).Err? <==>
      !("email" in sub && "task" in sub && "repo_url" in sub && "commit_sha" in sub)
    ensures EvaluateSubmission(sub, w, k).Err? ==>
      EvaluateSubmission(sub, w, k).error in EvalRequired
      && EvaluateSubmission(sub, w, k).error !in sub
      && EvaluateSubmission(sub, w, k).error == MissingFields(EvalRequired, sub)[0]
  {
    var missing := MissingFields(EvalRequired, sub);
    assert missing == [] <==> forall i :: 0 <= i < |EvalRequired| ==> EvalRequired[i] in sub;
    if missing != [] {
      assert missing[0] in missing;
    }
  }

  /** A repository that cannot be opened gives the short record with the
      error, and no check is made: the answer does not depend on the
      contents, the Pages site, the feedback service, the clock or the
      position in the run. */
  lemma EvaluateAccessFailed(sub: map<string, string>, w: EvalWorld, w': EvalWorld, k: nat, k': nat, e: string)
    requires "email" in sub && "task" in sub && "repo_url" in sub && "commit_sha" in sub
    requires w.getRepo(RepoPath(sub["repo_url"])) == Err(e)
    requires w'.getRepo(RepoPath(sub["repo_url"])) == Err(e)
    ensures EvaluateSubmission(sub, w, k) == Ok(AccessFailed(sub["email"], sub["task"], "Repo access failed: " + e))
    ensures EvaluateSubmission(sub, w', k') == EvaluateSubmission(sub, w, k)
  {
    assert MissingFields(EvalRequired, sub) == [];
  }

  /** When the repository opens, the record carries the three checks on
      what the host holds, the commit as submitted and the clock reading
      of this evaluation. */
  lemma EvaluateScored(sub: map<string, string>, w: EvalWorld, k: nat, repo: Repo)
    requires "email" in sub && "task" in sub && "repo_url" in sub && "commit_sha" in sub
    requires w.getRepo(RepoPath(sub["repo_url"])) == Ok(repo)
    ensures var r := EvaluateSubmission(sub, w, k);
      r.Ok? && r.value.Scored?
      && r.value.email == sub["email"] && r.value.task == sub["task"]
      && r.value.commitSha == sub["commit_sha"] && r.value.timestamp == w.clock(k)
      && r.value.license == CheckLicense(repo.license)
      && r.value.readme == CheckReadme(repo.readme)
  {
    assert MissingFields(EvalRequired, sub) == [];
  }

  /** A missing or empty `pages_url` gives the fixed message and no GET is
      made: the record is the same whatever the Pages site would answer. */
  lemma EvaluateNoPagesUrl(sub: map<string, string>, w: EvalWorld, k: nat, pages': string -> Reply)
    requires "pages_url" !in sub || sub["pages_url"] == ""
    requires EvaluateSubmission(sub, w, k).Ok? && EvaluateSubmission(sub, w, k).value.Scored?
    ensures EvaluateSubmission(sub, w, k).value.pages == Check(false, "No pages_url")
    ensures EvaluateSubmission(sub, w.(pages := pages'), k) == EvaluateSubmission(sub, w, k)
  {
  }

  /** A non-empty `pages_url` is fetched once, and the check passes exactly
      when that GET answers 200. */
  lemma EvaluatePagesFetched(sub: map<string, string>, w: EvalWorld, k: nat)
    requires "pages_url" in sub && sub["pages_url"] != ""
    requires EvaluateSubmission(sub, w, k).Ok? && EvaluateSubmission(sub, w, k).value.Scored?
    ensures EvaluateSubmission(sub, w, k).value.pages == CheckPagesUrl(w.pages(sub["pages_url"]))
    ensures EvaluateSubmission(sub, w, k).value.pages.ok <==>
      w.pages(sub["pages_url"]).Reply? && w.pages(sub["pages_url"]).status == 200
  {
  }

  /** The feedback entry is present exactly when a key is configured and
      the README check passed; it comes from this evaluation's answer, and
      a failed request leaves a message in its place instead of raising. */
  lemma EvaluateFeedback(sub: map<string, string>, w: EvalWorld, k: nat)
    requires EvaluateSubmission(sub, w, k).Ok? && EvaluateSubmission(sub, w, k).value.Scored?
    ensures var s := EvaluateSubmission(sub, w, k).value;
      (s.llmFeedback.Some? <==> w.openAiKey != "" && s.readme.ok)
      && (s.llmFeedback.Some? && w.feedback(k).FeedbackFailed? ==>
            s.llmFeedback.value == "LLM evaluation failed: " + w.feedback(k).reason)
      && (s.llmFeedback.Some? && w.feedback(k).Feedback? ==>
            s.llmFeedback.value == Strip(w.feedback(k).content))
  {
  }

  /** The keys the progress line of `run_evaluation` reads, in order; it
      reads them outside the `try`, so a missing one ends the whole run. */
  const PrintFields := ["email", "task", "round"]

  /** What evaluating one submission adds to the results. */
  function Kept(r: Result<Evaluation, string>): seq<Evaluation> {
    if r.Ok? then [r.value] else []
  }

  /** The outcome of `run_evaluation` over the stored submissions in
      iteration order: the results list, or the `KeyError` that ended the
      run. Defined on the last submission, as the loop extends it; the
      submission at position `i` is the `i`-th evaluation. */
  function RunSpec(subs: seq<(string, map<string, string>)>, w: EvalWorld): Result<seq<Evaluation>, string>
  {
    if subs == [] then Ok([])
    else
      match RunSpec(subs[..|subs| - 1], w)
      case Err(k) => Err(k)
      case Ok(rs) =>
        var sub := subs[|subs| - 1].1;
        var missing := MissingFields(PrintFields, sub);
        if missing != [] then Err(missing[0])
        else Ok(rs + Kept(EvaluateSubmission(sub, w, |subs| - 1)))
  }

  /** `run_evaluation` without the results file: scores each submission in
      turn, keeps the records of those that did not raise, and stops at a
      submission whose progress line cannot be printed. */
  method RunEvaluation(subs: seq<(string, map<string, string>)>, w: EvalWorld)
      returns (r: Result<seq<Evaluation>, string>)
    ensures r == RunSpec(subs, w)
  {
    var results: seq<Evaluation> := [];
    var i := 0;
    while i < |subs|
      invariant 0 <= i <= |subs|
      invariant RunSpec(subs[..i], w) == Ok(results)
    {
      var sub := subs[i].1;
      assert subs[..i + 1][..i] == subs[..i];
      var missing := MissingFields(PrintFields, sub);
      if missing != [] {
        RunSpecStops(subs, i + 1, w);
        return Err(missing[0]);
      }
      var res := EvaluateSubmission(sub, w, i);
      assert subs[..i + 1][i] == subs[i];
      assert RunSpec(subs[..i + 1], w) == Ok(results + Kept(res));
      if res.Ok? {
        results := results + [res.value];
      } else {
        assert results + Kept(res) == results;
      }
      i := i + 1;
    }
    assert subs[..i] == subs;
    r := Ok(results);
  }

  /** Once a prefix of the submissions ends the run, the whole run ends
      with the same error. */
  lemma {:induction false} RunSpecStops(subs: seq<(string, map<string, string>)>, n: nat, w: EvalWorld)
    requires n <= |subs| && RunSpec(subs[..n], w).Err?
    ensures RunSpec(subs, w) == RunSpec(subs[..n], w)
    decreases |subs| - n
  {
    if n < |subs| {
      assert subs[..n + 1][..n] == subs[..n];
      RunSpecStops(subs, n + 1, w);
    } else {
      assert subs[..n] == subs;
    }
  }

  /** What the loop evaluates: the `i`-th submission as the evaluation at
      position `i`. */
  function Evaluations(subs: seq<(string, map<string, string>)>, w: EvalWorld): (rs: seq<Result<Evaluation, string>>)
    ensures |rs| == |subs|
    ensures forall i :: 0 <= i < |subs| ==> rs[i] == EvaluateSubmission(subs[i].1, w, i)
  {
    seq(|subs|, i requires 0 <= i < |subs| => EvaluateSubmission(subs[i].1, w, i))
  }

  /** The records of the evaluations that did not raise, front to back. */
  function KeptAll(rs: seq<Result<Evaluation, string>>): seq<Evaluation>
  {
    if rs == [] then [] else Kept(rs[0]) + KeptAll(rs[1..])
  }

  /** The reference reading of the loop: the records of the submissions
      that did not raise, taken front to back. */
  function Scores(subs: seq<(string, map<string, string>)>, w: EvalWorld): seq<Evaluation>
  {
    KeptAll(Evaluations(subs, w))
  }

  lemma {:induction false} KeptAllAppend(rs: seq<Result<Evaluation, string>>, r: Result<Evaluation, string>)
    ensures KeptAll(rs + [r]) == KeptAll(rs) + Kept(r)
  {
    if rs != [] {
      assert (rs + [r])[1..] == rs[1..] + [r];
      KeptAllAppend(rs[1..], r);
    } else {
      assert [r][1..] == [];
    }
  }

  /** The run ends early exactly when some submission lacks one of the
      progress-line keys. */
  lemma {:induction false} RunOutcome(subs: seq<(string, map<string, string>)>, w: EvalWorld)
    ensures RunSpec(subs, w).Err? <==> exists j :: 0 <= j < |subs| && MissingFields(PrintFields, subs[j].1) != []
  {
    if subs != [] {
      var n := |subs| - 1;
      var init := subs[..n];
      RunOutcome(init, w);
      var lastMissing := MissingFields(PrintFields, subs[n].1) != [];
      assert RunSpec(subs, w).Err? <==> RunSpec(init, w).Err? || lastMissing;
      if RunSpec(init, w).Err? {
        var j :| 0 <= j < |init| && MissingFields(PrintFields, init[j].1) != [];
        assert subs[j] == init[j];
      } else if lastMissing {
        assert MissingFields(PrintFields, subs[n].1) != [];
      } else {
        assert !exists j :: 0 <= j < |init| && MissingFields(PrintFields, init[j].1) != [];
        forall j | 0 <= j < |subs| ensures MissingFields(PrintFields, subs[j].1) == [] {
          if j < n {
            assert subs[j] == init[j];
            assert MissingFields(PrintFields, init[j].1) == [];
          } else {
            assert j == n;
          }
        }
      }
    }
  }

  /** A run that is not ended early yields the records of the submissions
      that did not raise, in iteration order, each evaluated at its own
      position. */
  lemma {:induction false} RunScores(subs: seq<(string, map<string, string>)>, w: EvalWorld)
    ensures RunSpec(subs, w).Ok? ==> RunSpec(subs, w).value == Scores(subs, w)
  {
    if subs != [] {
      var n := |subs| - 1;
      var init := subs[..n];
      RunScores(init, w);
      assert Evaluations(subs, w) == Evaluations(init, w) + [EvaluateSubmission(subs[n].1, w, n)];
      KeptAllAppend(Evaluations(init, w), EvaluateSubmission(subs[n].1, w, n));
    }
  }

  /** The number of evaluations that did not raise. */
  function CountOk(rs: seq<Result<Evaluation, string>>): nat
  {
    if rs == [] then 0 else (if rs[0].Ok? then 1 else 0) + CountOk(rs[1..])
  }

  /** One record per evaluation that did not raise, never more records
      than evaluations, and the evaluations themselves, in order, when none
      raises. */
  lemma {:induction false} KeptAllCount(rs: seq<Result<Evaluation, string>>)
    ensures |KeptAll(rs)| == CountOk(rs) <= |rs|
    ensures (forall j :: 0 <= j < |rs| ==> rs[j].Ok?) ==>
      |KeptAll(rs)| == |rs| && forall j :: 0 <= j < |rs| ==> KeptAll(rs)[j] == rs[j].value
  {
    if rs != [] {
      KeptAllCount(rs[1..]);
      if forall j :: 0 <= j < |rs| ==> rs[j].Ok? {
        assert forall j :: 0 <= j < |rs[1..]| ==> rs[1..][j] == rs[j + 1];
        forall j | 0 <= j < |rs| ensures KeptAll(rs)[j] == rs[j].value {
          if j > 0 {
            assert KeptAll(rs)[j] == KeptAll(rs[1..])[j - 1];
          }
        }
      }
    }
  }

  /** One record per submission that did not raise, and never more records
      than submissions; when none raises the `j`-th record is the
      evaluation of the `j`-th submission, with that evaluation's own clock
      reading and feedback answer. */
  lemma ScoresCount(subs: seq<(string, map<string, string>)>, w: EvalWorld)
    ensures |Scores(subs, w)| == CountOk(Evaluations(subs, w)) <= |subs|
    ensures (forall j :: 0 <= j < |subs| ==> EvaluateSubmission(subs[j].1, w, j).Ok?) ==>
      |Scores(subs, w)| == |subs|
      && forall j :: 0 <= j < |subs| ==> Scores(subs, w)[j] == EvaluateSubmission(subs[j].1, w, j).value
  {
    KeptAllCount(Evaluations(subs, w));
  }
}
