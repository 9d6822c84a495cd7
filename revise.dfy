/** The revision route: checks the caller's secret and the request,
    regenerates the page, pushes the two files to the existing
    repository, posts one notification to the evaluation address and
    reports success whatever that notification met.

    The generation service, the host and the notification receiver are
    outcomes passed in; every call made to them is recorded in order. */
module ReviseRoute {
  import opened Outcomes
  import opened Strings
  import HostApi
  import LlmGenerator

  /** The settings read from the environment; `None` when not set. */
  datatype ReviseConfig = ReviseConfig(githubUser: Option<string>, validSecret: Option<string>)

  /** What the collaborators answer: the generation service's reply (or
      the exception raised building the prompt or asking), the JSON parse,
      the host's reply to a push of each path, and the receiver's reply. */
  datatype ReviseWorld = ReviseWorld(
    service: Result<string, string>,
    parse: string -> Body,
    push: string -> HostApi.PushReply,
    callback: Reply)

  /** The notification sent once the files are pushed: no `pages_url` and
      no secret. */
  datatype RevisePayload = RevisePayload(email: string, task: string, round: string, nonce: string,
                                         repoUrl: string, commitSha: string)

  datatype ReviseCall =
    | Generate(brief: string)
    | Push(request: HostApi.PushRequest)
    | PostCallback(url: string, payload: RevisePayload)

  datatype ReviseBody =
    | Success(message: string, repoUrl: string, payload: RevisePayload)
    | Failure(error: string)
    | ParseFailure

  datatype ReviseResponse = ReviseResponse(status: nat, body: ReviseBody)

  /** How an unset setting is written into an f-string. */
  function Shown(v: Option<string>): string {
    if v.Some? then v.value else "None"
  }

  /** `all([email, task, brief, evaluation_url, nonce])` over the `get` of
      each field: every one present and non-empty. */
  predicate AllTruthy(f: map<string, string>) {
    "email" in f && f["email"] != "" && "task" in f && f["task"] != "" && "brief" in f && f["brief"] != ""
    && "evaluation_url" in f && f["evaluation_url"] != "" && "nonce" in f && f["nonce"] != ""
  }

  /** The repository name this route uses: the email with `@` made `_`
      and `.` made `-`, then `_` and the task. */
  function ReviseRepoName(email: string, task: string): (name: string)
    ensures |name| == |email| + 1 + |task|
    ensures forall i :: 0 <= i < |email| ==>
      name[i] == (if email[i] == '@' then '_' else if email[i] == '.' then '-' else email[i])
    ensures '@' !in name[..|email|] && '.' !in name[..|email|]
    ensures name[|email|] == '_' && name[|email| + 1..] == task
  {
    var local := ReplaceChar(ReplaceChar(email, '@', '_'), '.', '-');
    var name := local + "_" + task;
    assert name[..|email|] == local;
    name
  }

  /** Where this route says the repository is. */
  function RepoUrlOf(githubUser: Option<string>, name: string): string {
    "https://github.com/" + Shown(githubUser) + "/" + name
  }

  /** str(e) of what generation raised. */
  function GenErrorText(e: LlmGenerator.GenError): string {
    match e
    case MissingName(k) => "'" + k + "'"
    case ServiceFailed(reason) => reason
    case Unparsed(message) => message
  }

  /** A field of the generated object, "" when absent. */
  function GetOr(f: map<string, string>, k: string): string {
    if k in f then f[k] else ""
  }

  /** The route from the generation on, for an accepted request. */
  function RevisionSpec(f: map<string, string>, cfg: ReviseConfig, w: ReviseWorld): (ReviseResponse, seq<ReviseCall>)
    requires AllTruthy(f)
  {
    var gen := [Generate(f["brief"])];
    match LlmGenerator.GenerateAppCode(None, w.service, w.parse)
    case Err(e) => (ReviseResponse(500, Failure(GenErrorText(e))), gen)
    case Ok(app) =>
      var (resp, calls) := PublishSpec(f, cfg, w, app);
      (resp, gen + calls)
  }

  /** The pushes and the notification, once the files are generated. */
  function PublishSpec(f: map<string, string>, cfg: ReviseConfig, w: ReviseWorld, app: map<string, string>)
    : (ReviseResponse, seq<ReviseCall>)
    requires AllTruthy(f)
  {
    var round := if "round" in f then f["round"] else "2";
    var name := ReviseRepoName(f["email"], f["task"]);
    var message := "Round " + round + " revision for " + f["task"];
    var user := Shown(cfg.githubUser);
    var first := HostApi.PushRequestOf(user, name, "index.html", GetOr(app, "index.html"), message);
    var second := HostApi.PushRequestOf(user, name, "README.md", GetOr(app, "README.md"), message);
    match HostApi.PushFile("index.html", w.push("index.html"))
    case Err(e) => (ReviseResponse(500, Failure(e)), [Push(first)])
    case Ok(_) =>
      match HostApi.PushFile("README.md", w.push("README.md"))
      case Err(e) => (ReviseResponse(500, Failure(e)), [Push(first), Push(second)])
      case Ok(_) =>
        var url := RepoUrlOf(cfg.githubUser, name);
        var payload := RevisePayload(f["email"], f["task"], round, f["nonce"], url, "latest");
        (ReviseResponse(200, Success("Revision round " + round + " complete", url, payload)),
         [Push(first), Push(second), PostCallback(f["evaluation_url"], payload)])
  }

  /** `revise_app`: the response and the calls made. */
  function ReviseSpec(body: Body, cfg: ReviseConfig, w: ReviseWorld): (ReviseResponse, seq<ReviseCall>)
  {
    match body
    case Malformed => (ReviseResponse(500, ParseFailure), [])
    case Object(f) =>
      if f == map[] || Get(f, "secret") != cfg.validSecret then (ReviseResponse(403, Failure("Invalid secret")), [])
      else if !AllTruthy(f) then (ReviseResponse(400, Failure("Missing required fields")), [])
      else RevisionSpec(f, cfg, w)
  }

  /** `revise_app`, recording every collaborator call. */
  method Revise(body: Body, cfg: ReviseConfig, w: ReviseWorld) returns (response: ReviseResponse, calls: seq<ReviseCall>)
    ensures response == ReviseSpec(body, cfg, w).0
    ensures calls == ReviseSpec(body, cfg, w).1
  {
    calls := [];
    if body.Malformed? {
      return ReviseResponse(500, ParseFailure), calls;
    }
    var f := body.fields;
    if f == map[] || Get(f, "secret") != cfg.validSecret {
      return ReviseResponse(403, Failure("Invalid secret")), calls;
    }
    if !AllTruthy(f) {
      return ReviseResponse(400, Failure("Missing required fields")), calls;
    }
    response, calls := Revision(f, cfg, w);
  }

  /** The route from the generation on, for an accepted request. */
  method Revision(f: map<string, string>, cfg: ReviseConfig, w: ReviseWorld) returns (response: ReviseResponse, calls: seq<ReviseCall>)
    requires AllTruthy(f)
    ensures response == RevisionSpec(f, cfg, w).0
    ensures calls == RevisionSpec(f, cfg, w).1
  {
    calls := [Generate(f["brief"])];
    var generated := LlmGenerator.GenerateAppCode(None, w.service, w.parse);
    if generated.Err? {
      return ReviseResponse(500, Failure(GenErrorText(generated.error))), calls;
    }
    var published;
    response, published := Publish(f, cfg, w, generated.value);
    calls := calls + published;
  }

  /** The two pushes, each only after the one before succeeded, and the
      notification after both. */
  method Publish(f: map<string, string>, cfg: ReviseConfig, w: ReviseWorld, app: map<string, string>)
      returns (response: ReviseResponse, calls: seq<ReviseCall>)
    requires AllTruthy(f)
    ensures response == PublishSpec(f, cfg, w, app).0
    ensures calls == PublishSpec(f, cfg, w, app).1
  {
    var round := if "round" in f then f["round"] else "2";
    var name := ReviseRepoName(f["email"], f["task"]);
    var message := "Round " + round + " revision for " + f["task"];
    var user := Shown(cfg.githubUser);
    calls := [Push(HostApi.PushRequestOf(user, name, "index.html", GetOr(app, "index.html"), message))];
    var pushed := HostApi.PushFile("index.html", w.push("index.html"));
    if pushed.Err? {
      return ReviseResponse(500, Failure(pushed.error)), calls;
    }
    calls := calls + [Push(HostApi.PushRequestOf(user, name, "README.md", GetOr(app, "README.md"), message))];
    pushed := HostApi.PushFile("README.md", w.push("README.md"));
    if pushed.Err? {
      return ReviseResponse(500, Failure(pushed.error)), calls;
    }
    var url := RepoUrlOf(cfg.githubUser, name);
    var payload := RevisePayload(f["email"], f["task"], round, f["nonce"], url, "latest");
    calls := calls + [PostCallback(f["evaluation_url"], payload)];
    response := ReviseResponse(200, Success("Revision round " + round + " complete", url, payload));
  }

  /** Rejections in order, none of which calls anything: an unparseable
      body (500); an empty body or a secret that differs from the
      configured one (403), checked before the fields; then a required
      field absent or empty (400). */
  lemma ReviseRejects(body: Body, cfg: ReviseConfig, w: ReviseWorld)
    ensures var (resp, calls) := ReviseSpec(body, cfg, w);
      (body.Malformed? ==> resp == ReviseResponse(500, ParseFailure) && calls == [])
      && (body.Object? && (body.fields == map[] || Get(body.fields, "secret") != cfg.validSecret) ==>
            resp == ReviseResponse(403, Failure("Invalid secret")) && calls == [])
      && (body.Object? && body.fields != map[] && Get(body.fields, "secret") == cfg.validSecret && !AllTruthy(body.fields) ==>
            resp == ReviseResponse(400, Failure("Missing required fields")) && calls == [])
      && (calls == [] <==> resp.status != 200 && (body.Malformed? || body.fields == map[] || Get(body.fields, "secret") != cfg.validSecret || !AllTruthy(body.fields)))
  {
  }

  /** The secret test is plain equality with the setting: when no secret
      is configured, a request that sends none passes it. */
  lemma UnsetSecretAdmitsNone(f: map<string, string>, githubUser: Option<string>, w: ReviseWorld)
    requires "secret" !in f && AllTruthy(f)
    ensures ReviseSpec(Object(f), ReviseConfig(githubUser, None), w).0.status != 403
    ensures ReviseSpec(Object(f), ReviseConfig(githubUser, None), w).1 != []
  {
    assert f != map[] by { assert "email" in f; }
  }

  /** For an accepted request the service is asked first; the page is then
      pushed, and the README only after that push succeeded, both with the
      message "Round <round> revision for <task>" (round 2 when absent),
      on "main", with "" for a file the service did not return; any
      failure gives 500 with its message and nothing is posted. */
  lemma RevisionPushes(f: map<string, string>, cfg: ReviseConfig, w: ReviseWorld)
    requires AllTruthy(f)
    ensures var (resp, calls) := RevisionSpec(f, cfg, w);
      calls != [] && calls[0] == Generate(f["brief"])
      && (resp.status == 200 || resp.status == 500)
      && (resp.status == 500 ==> resp.body.Failure? && forall k :: 0 <= k < |calls| ==> !calls[k].PostCallback?)
      && (LlmGenerator.GenerateAppCode(None, w.service, w.parse).Err? ==> |calls| == 1 && resp.status == 500)
      && (LlmGenerator.GenerateAppCode(None, w.service, w.parse).Ok? ==>
            var app := LlmGenerator.GenerateAppCode(None, w.service, w.parse).value;
            var round := if "round" in f then f["round"] else "2";
            var message := "Round " + round + " revision for " + f["task"];
            var name := ReviseRepoName(f["email"], f["task"]);
            |calls| >= 2
            && calls[1] == Push(HostApi.PushRequestOf(Shown(cfg.githubUser), name, "index.html", GetOr(app, "index.html"), message))
            && calls[1].request.branch == "main"
            && (|calls| >= 3 <==> HostApi.PushFile("index.html", w.push("index.html")).Ok?)
            && (|calls| >= 3 ==> calls[2] == Push(HostApi.PushRequestOf(Shown(cfg.githubUser), name, "README.md", GetOr(app, "README.md"), message))))
  {
    var generated := LlmGenerator.GenerateAppCode(None, w.service, w.parse);
    if generated.Ok? {
      PublishCalls(f, cfg, w, generated.value);
    }
  }

  /** The calls of `PublishSpec`: the page's push, then the README's only
      after the first succeeded, and no notification on a failure. */
  lemma PublishCalls(f: map<string, string>, cfg: ReviseConfig, w: ReviseWorld, app: map<string, string>)
    requires AllTruthy(f)
    ensures var (resp, calls) := PublishSpec(f, cfg, w, app);
      var round := if "round" in f then f["round"] else "2";
      var message := "Round " + round + " revision for " + f["task"];
      var name := ReviseRepoName(f["email"], f["task"]);
      1 <= |calls| <= 3
      && calls[0] == Push(HostApi.PushRequestOf(Shown(cfg.githubUser), name, "index.html", GetOr(app, "index.html"), message))
      && calls[0].request.branch == "main"
      && (|calls| >= 2 <==> HostApi.PushFile("index.html", w.push("index.html")).Ok?)
      && (|calls| >= 2 ==> calls[1] == Push(HostApi.PushRequestOf(Shown(cfg.githubUser), name, "README.md", GetOr(app, "README.md"), message)))
      && (resp.status == 200 || resp.status == 500)
      && (resp.status == 500 ==> resp.body.Failure? && forall k :: 0 <= k < |calls| ==> !calls[k].PostCallback?)
  {
  }

  /** The route answers 200 exactly when generation and both pushes
      succeed; the notification is then the one last call, it goes to the
      evaluation address with commit "latest", and what the receiver
      answers changes nothing. */
  lemma RevisionNotifies(f: map<string, string>, cfg: ReviseConfig, w: ReviseWorld, callback': Reply)
    requires AllTruthy(f)
    ensures var (resp, calls) := RevisionSpec(f, cfg, w);
      (resp.status == 200 <==>
            LlmGenerator.GenerateAppCode(None, w.service, w.parse).Ok?
            && HostApi.PushFile("index.html", w.push("index.html")).Ok?
            && HostApi.PushFile("README.md", w.push("README.md")).Ok?)
      && (resp.status == 200 ==>
            var round := if "round" in f then f["round"] else "2";
            var url := RepoUrlOf(cfg.githubUser, ReviseRepoName(f["email"], f["task"]));
            var payload := RevisePayload(f["email"], f["task"], round, f["nonce"], url, "latest");
            |calls| == 4 && calls[3] == PostCallback(f["evaluation_url"], payload)
            && resp.body == Success("Revision round " + round + " complete", url, payload))
      && RevisionSpec(f, cfg, w.(callback := callback')) == RevisionSpec(f, cfg, w)
  {
  }
}
