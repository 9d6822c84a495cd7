/** How the parts fit together: what each route posts to the submission
    store, what the store hands on to the scoring script, the licence
    texts the routes write against the script's licence check, and where
    the two routes and the two host helpers disagree. */
module Pipeline {
  import opened Outcomes
  import opened Strings
  import BuildRoute
  import ReviseRoute
  import EvaluationStore
  import Evaluator
  import HostApi
  import AppPublisher

  /** The JSON object the build route posts to the evaluation address. */
  function BuildPayloadFields(p: BuildRoute.EvalPayload): map<string, string> {
    map["email" := p.email, "task" := p.task, "round" := p.round, "nonce" := p.nonce,
        "repo_url" := p.repoUrl, "pages_url" := p.pagesUrl, "commit_sha" := p.commitSha]
  }

  /** The JSON object the revision route posts to the evaluation address. */
  function RevisePayloadFields(p: ReviseRoute.RevisePayload): map<string, string> {
    map["email" := p.email, "task" := p.task, "round" := p.round, "nonce" := p.nonce,
        "repo_url" := p.repoUrl, "commit_sha" := p.commitSha]
  }

  /** The build route's notification carries no secret, so the store
      refuses it with 400 whatever secret it is configured with. */
  lemma StoreRefusesBuildPayload(p: BuildRoute.EvalPayload, validSecret: string, timestamp: string)
    ensures EvaluationStore.Admit(Object(BuildPayloadFields(p)), validSecret, timestamp)
            == Err(EvaluationStore.StoreReply(400, EvaluationStore.Error("Missing fields: ['secret']")))
  {
    var f := BuildPayloadFields(p);
    MissingFieldsSkip(EvaluationStore.StoreRequired, f, 7);
    assert EvaluationStore.StoreRequired[7..] == ["secret"];
    assert MissingFields(["secret"], f) == ["secret"];
    EvaluationStore.AdmitRejects(Object(f), validSecret, timestamp);
    PyListReprOne("secret");
    assert MissingFields(EvaluationStore.StoreRequired, f) == ["secret"];
    assert "Missing fields: " + PyListRepr(["secret"]) == "Missing fields: ['secret']";
  }

  /** A body with the six metadata fields but neither `pages_url` nor a
      secret lacks exactly those two among the fields the store requires. */
  lemma MissingPagesAndSecret(f: map<string, string>)
    requires "email" in f && "task" in f && "round" in f && "nonce" in f && "repo_url" in f && "commit_sha" in f
    requires "pages_url" !in f && "secret" !in f
    ensures MissingFields(EvaluationStore.StoreRequired, f) == ["pages_url", "secret"]
  {
    MissingFieldsSkip(EvaluationStore.StoreRequired, f, 6);
    assert EvaluationStore.StoreRequired[6..] == ["pages_url", "secret"];
    assert ["pages_url", "secret"][1..] == ["secret"];
    assert MissingFields(["secret"], f) == ["secret"];
  }

  /** The revision route's notification lacks exactly `pages_url` and the
      secret among the fields the store requires. */
  lemma RevisePayloadMissing(p: ReviseRoute.RevisePayload)
    ensures MissingFields(EvaluationStore.StoreRequired, RevisePayloadFields(p)) == ["pages_url", "secret"]
  {
    var f := RevisePayloadFields(p);
    assert "email" in f && "task" in f && "round" in f && "nonce" in f && "repo_url" in f && "commit_sha" in f;
    assert "pages_url" !in f && "secret" !in f;
    MissingPagesAndSecret(f);
  }

  /** The revision route's notification has neither `pages_url` nor a
      secret, so the store refuses it with 400 naming both. */
  lemma StoreRefusesRevisePayload(p: ReviseRoute.RevisePayload, validSecret: string, timestamp: string)
    ensures EvaluationStore.Admit(Object(RevisePayloadFields(p)), validSecret, timestamp)
            == Err(EvaluationStore.StoreReply(400, EvaluationStore.Error("Missing fields: ['pages_url', 'secret']")))
  {
    var f := RevisePayloadFields(p);
    RevisePayloadMissing(p);
    EvaluationStore.AdmitRejects(Object(f), validSecret, timestamp);
    PagesAndSecretRepr();
  }

  /** The message naming both missing fields. */
  lemma PagesAndSecretRepr()
    ensures "Missing fields: " + PyListRepr(["pages_url", "secret"]) == "Missing fields: ['pages_url', 'secret']"
  {
    PyListReprTwo("pages_url", "secret");
  }

  /** A stored record as the scoring script reads it. */
  function SubmissionFields(s: EvaluationStore.Submission): map<string, string> {
    map["email" := s.email, "task" := s.task, "round" := s.round, "nonce" := s.nonce,
        "repo_url" := s.repoUrl, "commit_sha" := s.commitSha, "pages_url" := s.pagesUrl,
        "timestamp" := s.timestamp]
  }

  /** The store's entries as the scoring script iterates them: in the
      store's insertion order, each record read as a dictionary. */
  function StoredSubmissions(store: EvaluationStore.Table): seq<(string, map<string, string>)> {
    seq(|store|, i requires 0 <= i < |store| => (store[i].0, SubmissionFields(store[i].1)))
  }

  /** Records written by the store always carry what the script indexes:
      scoring them never ends the run and never skips one, so the `j`-th
      result is the evaluation of the `j`-th entry in insertion order. */
  lemma StoredSubmissionsAllScored(store: EvaluationStore.Table, w: Evaluator.EvalWorld)
    ensures var subs := StoredSubmissions(store);
      Evaluator.RunSpec(subs, w).Ok?
      && |Evaluator.RunSpec(subs, w).value| == |store|
      && forall j :: 0 <= j < |store| ==>
           Evaluator.RunSpec(subs, w).value[j] == Evaluator.EvaluateSubmission(SubmissionFields(store[j].1), w, j).value
  {
    var subs := StoredSubmissions(store);
    forall j | 0 <= j < |subs|
      ensures MissingFields(Evaluator.PrintFields, subs[j].1) == []
      ensures Evaluator.EvaluateSubmission(subs[j].1, w, j).Ok?
    {
      var d := subs[j].1;
      assert d == SubmissionFields(store[j].1);
      assert forall i :: 0 <= i < |Evaluator.PrintFields| ==> Evaluator.PrintFields[i] in d;
      Evaluator.EvaluateRaises(d, w, j);
    }
    Evaluator.RunOutcome(subs, w);
    Evaluator.RunScores(subs, w);
    Evaluator.ScoresCount(subs, w);
  }

  /** Scoring what a store holds: one result per entry, in the store's
      order. */
  lemma StoreRunScoresAll(st: EvaluationStore.SubmissionStore, w: Evaluator.EvalWorld)
    ensures var subs := StoredSubmissions(st.submissions);
      Evaluator.RunSpec(subs, w).Ok? && |Evaluator.RunSpec(subs, w).value| == |st.submissions|
  {
    StoredSubmissionsAllScored(st.submissions, w);
  }

  /** A submission stored under a new key is scored last: the run over the
      store after the write is the run before it with one more result at
      the end. */
  lemma NewEntryScoredLast(store: EvaluationStore.Table, key: string,
                           rec: EvaluationStore.Submission, w: Evaluator.EvalWorld)
    requires !EvaluationStore.HasKey(store, key)
    ensures var before := Evaluator.RunSpec(StoredSubmissions(store), w);
      var after := Evaluator.RunSpec(StoredSubmissions(EvaluationStore.Put(store, key, rec)), w);
      before.Ok? && after.Ok?
      && after.value == before.value + [Evaluator.EvaluateSubmission(SubmissionFields(rec), w, |store|).value]
  {
    assert EvaluationStore.Put(store, key, rec) == store + [(key, rec)];
    var n := |store|;
    var subs := StoredSubmissions(store + [(key, rec)]);
    var d := SubmissionFields(rec);
    assert subs[..n] == StoredSubmissions(store);
    assert subs[n].1 == d;
    StoredSubmissionsAllScored(store, w);
    assert MissingFields(Evaluator.PrintFields, d) == [] by {
      assert forall i :: 0 <= i < |Evaluator.PrintFields| ==> Evaluator.PrintFields[i] in d;
    }
    Evaluator.EvaluateRaises(d, w, n);
    assert Evaluator.RunSpec(subs, w)
        == Ok(Evaluator.RunSpec(StoredSubmissions(store), w).value + Evaluator.Kept(Evaluator.EvaluateSubmission(d, w, n)));
  }

  /** A text that opens with "MIT" passes the licence check. */
  lemma OpensWithMit(a: string, b: string)
    requires |a| >= 3 && a[..3] == "MIT"
    ensures Evaluator.CheckLicense(Some(a + b)).ok
  {
    assert (a + b)[..3] == a[..3];
    assert StartsWith(a + b, "MIT");
  }

  /** The build route's licence passes the script's licence check. */
  lemma BuildLicencePassesCheck(year: string, owner: string)
    ensures Evaluator.CheckLicense(Some(BuildRoute.MakeMitLicense(year, owner))).ok
  {
    var holder := if owner == "" then "Unknown" else owner;
    var head := BuildRoute.MitHead + year + " " + holder + "\n\n";
    assert BuildRoute.MitHead[..3] == "MIT";
    HeadKept(BuildRoute.MitHead, year);
    HeadKept(BuildRoute.MitHead + year, " ");
    HeadKept(BuildRoute.MitHead + year + " ", holder);
    HeadKept(BuildRoute.MitHead + year + " " + holder, "\n\n");
    OpensWithMit(head, BuildRoute.MitBody);
  }

  lemma HeadKept(a: string, b: string)
    requires |a| >= 3
    ensures (a + b)[..3] == a[..3]
  {
  }

  /** The API helper's licence passes the script's licence check. */
  lemma HelperLicencePassesCheck(year: string, githubUser: Option<string>)
    ensures Evaluator.CheckLicense(Some(HostApi.AddMitLicense(year, githubUser))).ok
  {
    OpensWithMit(HostApi.LicenseTitle, HostApi.CopyrightLine(year, HostApi.Holder(githubUser)) + HostApi.MitNotice);
  }

  /** The application helper's licence passes the script's licence check. */
  lemma AppLicencePassesCheck(year: string, owner: string)
    ensures Evaluator.CheckLicense(Some(AppPublisher.MakeMitLicense(year, owner))).ok
  {
    assert AppPublisher.AppMitHead[..3] == "MIT";
    OpensWithMit(AppPublisher.AppMitHead, year + " " + AppPublisher.OwnerText(owner) + "\n\n" + AppPublisher.AppMitBody);
  }

  /** The two routes name the same repository differently: the revision
      route's name is one longer than the email and the task together, the
      build route's sixteen longer than the task, so for any email that is
      not 15 characters long a revision addresses a repository other than
      the one the build created. */
  lemma RepoNamesDiffer(email: string, task: string, emailHash: string, uid: string)
    requires |emailHash| == 8 && |uid| == 6 && |email| != 15
    ensures ReviseRoute.ReviseRepoName(email, task) != BuildRoute.SafeRepoName(task, emailHash, uid)
  {
  }

  /** The build route accepts only 201 for a new repository; the helper
      module accepts 200 as well. */
  lemma CreateRulesDiffer(text: string, htmlUrl: string, cloneUrl: string, branch: Option<string>)
    ensures HostApi.CreateRepo(CreateReply(200, text, htmlUrl, cloneUrl, branch)).Ok?
    ensures BuildRoute.CreateRepoResult(CreateReply(200, text, htmlUrl, cloneUrl, branch)).Err?
  {
  }
}
