/** Properties of the build route's reference definition `BuildSpec`:
    check precedence, which collaborator calls each outcome makes and in
    which order, the pushed file list, and the shape of the report. */
module BuildProperties {
  import opened Outcomes
  import opened Strings
  import opened Dicts
  import opened Secrets
  import opened BuildRoute

  /** The files of a build, in push order. */
  const PublishedPaths: seq<string> := ["index.html", "README.md", "LICENSE", ".gitignore"]

  /** The paths of the push calls of a trace, in order. */
  function PushedPaths(calls: seq<Call>): seq<string> {
    if calls == [] then [] else (if calls[0].PushFile? then [calls[0].path] else []) + PushedPaths(calls[1..])
  }

  lemma {:induction false} PushedPathsAppend(a: seq<Call>, b: seq<Call>)
    ensures PushedPaths(a + b) == PushedPaths(a) + PushedPaths(b)
    decreases |a|
  {
    if a != [] {
      assert (a + b)[1..] == a[1..] + b;
      PushedPathsAppend(a[1..], b);
    } else {
      assert a + b == b;
    }
  }

  predicate AllAt(calls: seq<Call>, s: nat) {
    forall i :: 0 <= i < |calls| ==> Stage(calls[i]) == s
  }

  predicate AllUpTo(calls: seq<Call>, s: nat) {
    forall i :: 0 <= i < |calls| ==> Stage(calls[i]) <= s
  }

  /** Appending calls of the latest stage keeps the trace in stage order. */
  lemma OrderExtend(a: seq<Call>, b: seq<Call>, s: nat)
    requires InStageOrder(a) && AllUpTo(a, s) && AllAt(b, s)
    ensures InStageOrder(a + b) && AllUpTo(a + b, s)
  {
    var c := a + b;
    forall i, j | 0 <= i < j < |c| ensures Stage(c[i]) <= Stage(c[j]) {
      if j < |a| {
        assert c[i] == a[i] && c[j] == a[j];
      } else if i < |a| {
        assert c[i] == a[i] && c[j] == b[j - |a|];
      } else {
        assert c[i] == b[i - |a|] && c[j] == b[j - |a|];
      }
    }
  }

  /** A trace without callback posts counts none. */
  lemma {:induction false} NoPostsCounted(calls: seq<Call>)
    requires AllUpTo(calls, 3)
    ensures CountPosts(calls) == 0
    decreases |calls|
  {
    if calls != [] {
      NoPostsCounted(calls[1..]);
    }
  }

  /** A trace of one stage other than pushing pushes nothing. */
  lemma {:induction false} NoPushesAt(calls: seq<Call>, s: nat)
    requires s != 2 && AllAt(calls, s)
    ensures PushedPaths(calls) == []
    decreases |calls|
  {
    if calls != [] {
      NoPushesAt(calls[1..], s);
    }
  }

  /** The push loop's calls are pushes of a prefix of the file list. */
  lemma {:induction false} PushCalls(user: string, repo: string, files: Dict, push: string -> Reply)
    ensures var r := PushSpec(user, repo, files, push).1;
      && AllAt(r, 2) && |r| <= |files| && PushedPaths(r) == Keys(files)[..|r|]
    decreases |files|
  {
    if files != [] {
      var call := PushFile(user, repo, files[0].0, files[0].1, "Add " + files[0].0);
      if PushFileResult(files[0].0, push(files[0].0)).Ok? {
        PushCalls(user, repo, files[1..], push);
        var rest := PushSpec(user, repo, files[1..], push).1;
        PushStep(call, rest, files);
      } else {
        assert PushSpec(user, repo, files, push).1 == [call];
        assert [call][1..] == [];
      }
    }
  }

  /** One push in front of the pushes of the remaining files. */
  lemma {:induction false} PushStep(call: Call, rest: seq<Call>, files: Dict)
    requires files != [] && call.PushFile? && call.path == files[0].0 && Stage(call) == 2
    requires AllAt(rest, 2) && |rest| <= |files| - 1 && PushedPaths(rest) == Keys(files[1..])[..|rest|]
    ensures AllAt([call] + rest, 2) && PushedPaths([call] + rest) == Keys(files)[..1 + |rest|]
  {
    assert ([call] + rest)[0] == call;
    assert ([call] + rest)[1..] == rest;
    assert Keys(files)[..1 + |rest|] == [files[0].0] + Keys(files[1..])[..|rest|];
  }

  /** Failed rounds are callback posts and waits only. */
  lemma {:induction false} FailedRoundsAt(url: string, payload: EvalPayload, n: nat)
    ensures AllAt(FailedRounds(url, payload, n), 4)
  {
    if n > 0 {
      FailedRoundsAt(url, payload, n - 1);
    }
  }

  lemma NotifyAt(url: string, payload: EvalPayload, reply: nat -> Reply)
    ensures AllAt(NotifySpec(url, payload, reply).calls, 4)
  {
    var k := FirstDelivered(reply, 0, MaxTries);
    FailedRoundsAt(url, payload, k);
    FailedRoundsAt(url, payload, MaxTries);
  }

  /** A failed create ends the publishing block after its one call. */
  lemma PublishCreateFailed(name: string, task: string, user: string, files: Dict, w: BuildWorld)
    requires CreateRepoResult(w.create).Err?
    ensures PublishSpec(name, task, user, files, w).calls == [CreateRepo(name, "Auto-generated app for " + task)]
    ensures PublishSpec(name, task, user, files, w).result == Err(CreateRepoResult(w.create).error)
  {
  }

  /** The publishing block's trace stops after the create, after the
      pushes, or after the Pages request. */
  lemma PublishCalls(name: string, task: string, user: string, files: Dict, w: BuildWorld)
    ensures var calls := PublishSpec(name, task, user, files, w).calls;
      var created := [CreateRepo(name, "Auto-generated app for " + task)];
      var pushes := PushSpec(user, name, files, w.push).1;
      calls == created || calls == created + pushes || calls == created + pushes + [EnablePages(user, name, "main")]
  {
  }

  /** A failed push ends the block: the error is returned, the trace is
      the create and the pushes made so far, and Pages is never asked. */
  lemma PublishPushFailed(name: string, task: string, user: string, files: Dict, w: BuildWorld)
    requires CreateRepoResult(w.create).Ok? && PushSpec(user, name, files, w.push).0.Err?
    ensures var p := PublishSpec(name, task, user, files, w);
      && p.result == Err(PushSpec(user, name, files, w.push).0.error)
      && p.calls == [CreateRepo(name, "Auto-generated app for " + task)] + PushSpec(user, name, files, w.push).1
      && forall i :: 0 <= i < |p.calls| ==> !p.calls[i].EnablePages?
  {
    PushCalls(user, name, files, w.push);
  }

  /** The publishing block's trace is in stage order, between the create
      stage and the Pages stage (no generation request, no callback). */
  lemma PublishOrder(name: string, task: string, user: string, files: Dict, w: BuildWorld)
    ensures var p := PublishSpec(name, task, user, files, w);
      && InStageOrder(p.calls) && AllUpTo(p.calls, 3) && (forall i :: 0 <= i < |p.calls| ==> Stage(p.calls[i]) >= 1)
  {
    PublishCalls(name, task, user, files, w);
    var created := [CreateRepo(name, "Auto-generated app for " + task)];
    var pushes := PushSpec(user, name, files, w.push).1;
    var enable := [EnablePages(user, name, "main")];
    PushCalls(user, name, files, w.push);
    OrderExtend(created, pushes, 2);
    OrderExtend(created + pushes, enable, 3);
  }

  /** The publishing block's trace opens with the create call, and pushes
      a prefix of the files. */
  lemma PublishPushes(name: string, task: string, user: string, files: Dict, w: BuildWorld)
    ensures var p := PublishSpec(name, task, user, files, w);
      && p.calls != [] && p.calls[0] == CreateRepo(name, "Auto-generated app for " + task)
      && |PushedPaths(p.calls)| <= |files| && PushedPaths(p.calls) == Keys(files)[..|PushedPaths(p.calls)|]
  {
    PublishCalls(name, task, user, files, w);
    PushCalls(user, name, files, w.push);
    PublishTrace(CreateRepo(name, "Auto-generated app for " + task), PushSpec(user, name, files, w.push).1,
                 EnablePages(user, name, "main"), files);
  }

  /** The trace opens with `create` and pushes a prefix of the files. */
  predicate OpensThenPushesPrefix(calls: seq<Call>, create: Call, files: Dict) {
    calls != [] && calls[0] == create
    && |PushedPaths(calls)| <= |files| && PushedPaths(calls) == Keys(files)[..|PushedPaths(calls)|]
  }

  /** Each of the publishing block's three possible traces, the create call
      alone, then some pushes of a prefix of the files, then the Pages
      request, pushes that prefix. */
  lemma PublishTrace(create: Call, pushes: seq<Call>, enable: Call, files: Dict)
    requires !create.PushFile? && !enable.PushFile?
    requires |pushes| <= |files| && PushedPaths(pushes) == Keys(files)[..|pushes|]
    ensures OpensThenPushesPrefix([create], create, files)
    ensures OpensThenPushesPrefix([create] + pushes, create, files)
    ensures OpensThenPushesPrefix([create] + pushes + [enable], create, files)
  {
    assert PushedPaths([create]) == [];
    assert PushedPaths([enable]) == [];
    PushedPathsAppend([create], pushes);
    PushedPathsAppend([create] + pushes, [enable]);
    assert ([create] + pushes)[0] == create;
    assert ([create] + pushes + [enable])[0] == create;
  }

  /** The publishing block succeeds exactly when the create, every push
      and the Pages request succeed. */
  lemma PublishSucceeds(name: string, task: string, user: string, files: Dict, w: BuildWorld)
    ensures PublishSpec(name, task, user, files, w).result.Ok? <==>
            && CreateRepoResult(w.create).Ok?
            && (forall i :: 0 <= i < |files| ==> PushFileResult(files[i].0, w.push(files[i].0)).Ok?)
            && w.enable.Reply?
  {
    if CreateRepoResult(w.create).Ok? {
      PushSpecShape(user, name, files, w.push);
    }
  }

  /** A push loop that got through, framed by calls of other stages,
      pushes every file in order. */
  lemma OkPushTrace(user: string, repo: string, files: Dict, push: string -> Reply, before: seq<Call>, after: seq<Call>)
    requires PushSpec(user, repo, files, push).0.Ok?
    requires AllAt(before, 1) && AllAt(after, 3)
    ensures PushedPaths(before + PushSpec(user, repo, files, push).1 + after) == Keys(files)
  {
    var pushes := PushSpec(user, repo, files, push).1;
    PushSpecShape(user, repo, files, push);
    PushCalls(user, repo, files, push);
    NoPushesAt(before, 1);
    NoPushesAt(after, 3);
    PushedPathsAppend(before, pushes);
    PushedPathsAppend(before + pushes, after);
    assert Keys(files)[..|pushes|] == Keys(files);
  }

  /** A successful publishing block has pushed every file, ends with the
      Pages request, and yields the created repository's metadata with the
      Pages URL of the name. */
  lemma PublishResult(name: string, task: string, user: string, files: Dict, w: BuildWorld)
    ensures var p := PublishSpec(name, task, user, files, w);
      p.result.Ok? ==>
        && PushedPaths(p.calls) == Keys(files)
        && p.calls[|p.calls| - 1] == EnablePages(user, name, "main")
        && p.result.value == (CreateRepoResult(w.create).value, PagesUrl(user, name))
  {
    var p := PublishSpec(name, task, user, files, w);
    if p.result.Ok? {
      var created := [CreateRepo(name, "Auto-generated app for " + task)];
      var pushed := PushSpec(user, name, files, w.push);
      var enable := [EnablePages(user, name, "main")];
      assert pushed.0.Ok?;
      assert p.calls == created + pushed.1 + enable;
      OkPushTrace(user, name, files, w.push, created, enable);
    }
  }

  predicate AllFrom(calls: seq<Call>, s: nat) {
    forall i :: 0 <= i < |calls| ==> Stage(calls[i]) >= s
  }

  /** Two traces in stage order, the first no later than the second. */
  lemma OrderJoin(a: seq<Call>, b: seq<Call>, s: nat)
    requires InStageOrder(a) && InStageOrder(b) && AllUpTo(a, s) && AllFrom(b, s)
    ensures InStageOrder(a + b)
  {
    var c := a + b;
    forall i, j | 0 <= i < j < |c| ensures Stage(c[i]) <= Stage(c[j]) {
      if j < |a| {
        assert c[i] == a[i] && c[j] == a[j];
      } else if i < |a| {
        assert c[i] == a[i] && c[j] == b[j - |a|];
      } else {
        assert c[i] == b[i - |a|] && c[j] == b[j - |a|];
      }
    }
  }

  /** A trace before the callback stage waits for nothing. */
  lemma {:induction false} NoWaitsCounted(calls: seq<Call>)
    requires AllUpTo(calls, 3)
    ensures Waits(calls) == []
    decreases |calls|
  {
    if calls != [] {
      NoWaitsCounted(calls[1..]);
    }
  }

  /** The generation request, when a key is set, is a one-call trace of
      the first stage. */
  function GenCalls(req: BuildRequest, cfg: BuildConfig): (gen: seq<Call>)
    ensures AllAt(gen, 0) && InStageOrder(gen) && PushedPaths(gen) == [] && CountPosts(gen) == 0 && Waits(gen) == []
    ensures gen == [] <==> cfg.openAiKey == ""
  {
    var gen := if cfg.openAiKey != "" then [LlmRequest(req.brief)] else [];
    assert gen != [] ==> gen[1..] == [];
    NoPushesAt(gen, 0);
    NoPostsCounted(gen);
    NoWaitsCounted(gen);
    gen
  }

  /** What an accepted request's trace is made of. */
  lemma AcceptedCalls(req: BuildRequest, cfg: BuildConfig, w: BuildWorld, name: string, files: Dict)
    ensures var pub := PublishSpec(name, req.task, cfg.githubUser, files, w);
      var r := AcceptedRun(req, cfg, w, name, files);
      && (pub.result.Err? ==> r.calls == GenCalls(req, cfg) + pub.calls)
      && (pub.result.Ok? ==>
            r.calls == GenCalls(req, cfg) + pub.calls
                       + NotifySpec(req.evaluationUrl, PayloadOf(req, pub.result.value.0, pub.result.value.1), w.callback).calls)
  {
  }

  /** Every path of the list is pushed with success. */
  predicate AllPushed(paths: seq<string>, push: string -> Reply) {
    forall i :: 0 <= i < |paths| ==> PushFileResult(paths[i], push(paths[i])).Ok?
  }

  /** An accepted request is answered 200 exactly when the create, every
      push and the Pages request succeed, and 500 otherwise. */
  lemma AcceptedStatus(req: BuildRequest, cfg: BuildConfig, w: BuildWorld, name: string, files: Dict)
    ensures var r := AcceptedRun(req, cfg, w, name, files);
      && (r.response.status == 200 || r.response.status == 500)
      && (r.response.status == 200 <==> CreateRepoResult(w.create).Ok? && AllPushed(Keys(files), w.push) && w.enable.Reply?)
  {
    PublishSucceeds(name, req.task, cfg.githubUser, files, w);
  }

  /** An accepted request's trace is in stage order, posts the callback
      at most six times and never unless published. */
  lemma AcceptedOrder(req: BuildRequest, cfg: BuildConfig, w: BuildWorld, name: string, files: Dict)
    ensures var r := AcceptedRun(req, cfg, w, name, files);
      && InStageOrder(r.calls)
      && CountPosts(r.calls) <= MaxTries
      && (r.response.status != 200 ==> CountPosts(r.calls) == 0 && Waits(r.calls) == [])
  {
    var pub := PublishSpec(name, req.task, cfg.githubUser, files, w);
    var gen := GenCalls(req, cfg);
    AcceptedCalls(req, cfg, w, name, files);
    PublishOrder(name, req.task, cfg.githubUser, files, w);
    OrderJoin(gen, pub.calls, 0);
    NoPostsCounted(gen + pub.calls);
    NoWaitsCounted(gen + pub.calls);
    if pub.result.Ok? {
      var payload := PayloadOf(req, pub.result.value.0, pub.result.value.1);
      var n := NotifySpec(req.evaluationUrl, payload, w.callback);
      NotifyAt(req.evaluationUrl, payload, w.callback);
      NotifyContract(req.evaluationUrl, payload, w.callback);
      OrderExtend(gen + pub.calls, n.calls, 4);
      CountPostsAppend(gen + pub.calls, n.calls);
    }
  }

  /** An accepted request's first call is the generation request when a
      key is set and the create otherwise, and without a key no generation
      request is made. */
  lemma AcceptedFirstCall(req: BuildRequest, cfg: BuildConfig, w: BuildWorld, name: string, files: Dict)
    ensures var r := AcceptedRun(req, cfg, w, name, files);
      && r.calls != []
      && (cfg.openAiKey != "" ==> r.calls[0] == LlmRequest(req.brief))
      && (cfg.openAiKey == "" ==> r.calls[0] == CreateRepo(name, "Auto-generated app for " + req.task))
      && (cfg.openAiKey == "" ==> forall i :: 0 <= i < |r.calls| ==> !r.calls[i].LlmRequest?)
  {
    var pub := PublishSpec(name, req.task, cfg.githubUser, files, w);
    var gen := GenCalls(req, cfg);
    AcceptedCalls(req, cfg, w, name, files);
    PublishPushes(name, req.task, cfg.githubUser, files, w);
    PublishOrder(name, req.task, cfg.githubUser, files, w);
    var rest := [];
    if pub.result.Ok? {
      rest := NotifySpec(req.evaluationUrl, PayloadOf(req, pub.result.value.0, pub.result.value.1), w.callback).calls;
      NotifyAt(req.evaluationUrl, PayloadOf(req, pub.result.value.0, pub.result.value.1), w.callback);
    } else {
      assert gen + pub.calls + rest == gen + pub.calls;
    }
    FirstCallOf(gen, pub.calls, rest, req.brief, CreateRepo(name, "Auto-generated app for " + req.task));
  }

  /** In a trace of generation calls, then a publishing block, then
      notification calls, the first call is the generation request if
      there is one and the create otherwise. */
  lemma FirstCallOf(gen: seq<Call>, pub: seq<Call>, rest: seq<Call>, brief: string, create: Call)
    requires gen == [] || gen == [LlmRequest(brief)]
    requires pub != [] && pub[0] == create
    requires forall i :: 0 <= i < |pub| ==> Stage(pub[i]) >= 1
    requires AllAt(rest, 4)
    ensures var c := gen + pub + rest;
      && c != []
      && (gen != [] ==> c[0] == LlmRequest(brief))
      && (gen == [] ==> c[0] == create && forall i :: 0 <= i < |c| ==> !c[i].LlmRequest?)
  {
    var c := gen + pub + rest;
    assert c[0] == (gen + pub)[0];
    if gen == [] {
      forall i | 0 <= i < |c| ensures !c[i].LlmRequest? {
        if i < |pub| {
          assert c[i] == pub[i];
        } else {
          assert c[i] == rest[i - |pub|];
        }
      }
    }
  }

  /** The pushed files are a prefix of the file list, all of it on 200; a
      failed create pushes nothing, enables nothing and posts nothing. */
  lemma AcceptedPushes(req: BuildRequest, cfg: BuildConfig, w: BuildWorld, name: string, files: Dict)
    ensures var r := AcceptedRun(req, cfg, w, name, files);
      && |PushedPaths(r.calls)| <= |files| && PushedPaths(r.calls) == Keys(files)[..|PushedPaths(r.calls)|]
      && (r.response.status == 200 ==> PushedPaths(r.calls) == Keys(files))
      && (CreateRepoResult(w.create).Err? ==>
            && r.response == BuildResponse(500, Failure("GitHub operation failed: " + CreateRepoResult(w.create).error))
            && forall i :: 0 <= i < |r.calls| ==> Stage(r.calls[i]) <= 1)
  {
    var pub := PublishSpec(name, req.task, cfg.githubUser, files, w);
    var gen := GenCalls(req, cfg);
    AcceptedCalls(req, cfg, w, name, files);
    PublishPushes(name, req.task, cfg.githubUser, files, w);
    PushedPathsAppend(gen, pub.calls);
    if CreateRepoResult(w.create).Err? {
      PublishCreateFailed(name, req.task, cfg.githubUser, files, w);
      forall i | 0 <= i < |gen + pub.calls| ensures Stage((gen + pub.calls)[i]) <= 1 {
        if i >= |gen| {
          assert (gen + pub.calls)[i] == pub.calls[i - |gen|];
        } else {
          assert (gen + pub.calls)[i] == gen[i];
        }
      }
    }
    if pub.result.Ok? {
      PublishResult(name, req.task, cfg.githubUser, files, w);
      var payload := PayloadOf(req, pub.result.value.0, pub.result.value.1);
      var n := NotifySpec(req.evaluationUrl, payload, w.callback);
      NotifyAt(req.evaluationUrl, payload, w.callback);
      NoPushesAt(n.calls, 4);
      PushedPathsAppend(gen + pub.calls, n.calls);
    }
  }

  /** A 200 answer reports the request's fields, the created repository's
      URL, the Pages URL of the name and commit "latest"; it says "ok"
      exactly when one of the six callback attempts got a 200, and
      "partial" otherwise. */
  lemma AcceptedReport(req: BuildRequest, cfg: BuildConfig, w: BuildWorld, name: string, files: Dict)
    ensures var r := AcceptedRun(req, cfg, w, name, files);
      r.response.status == 200 ==>
        && CreateRepoResult(w.create).Ok?
        && r.response.body.Report?
        && r.response.body.payload
           == EvalPayload(req.email, req.task, req.round, req.nonce, CreateRepoResult(w.create).value.repoUrl,
                          PagesUrl(cfg.githubUser, name), "latest")
        && (r.response.body.outcome == "ok" || r.response.body.outcome == "partial")
        && (r.response.body.outcome == "ok" <==> exists i :: 0 <= i < MaxTries && Delivered(w.callback(i)))
  {
    var pub := PublishSpec(name, req.task, cfg.githubUser, files, w);
    PublishResult(name, req.task, cfg.githubUser, files, w);
    if pub.result.Ok? {
      NotifyContract(req.evaluationUrl, PayloadOf(req, pub.result.value.0, pub.result.value.1), w.callback);
    }
  }

  /** A published build whose callback always fails: "partial" with a
      200, six posts and waits of 1, 2, 4, 8, 16 and 32 seconds. */
  lemma CallbackAlwaysFails(req: BuildRequest, cfg: BuildConfig, w: BuildWorld, name: string, files: Dict)
    requires AcceptedRun(req, cfg, w, name, files).response.status == 200
    requires forall i :: 0 <= i < MaxTries ==> w.callback(i) == Reply(500, "")
    ensures AcceptedRun(req, cfg, w, name, files).response.body == Report("partial", AcceptedRun(req, cfg, w, name, files).response.body.payload)
    ensures CountPosts(AcceptedRun(req, cfg, w, name, files).calls) == 6
    ensures Waits(AcceptedRun(req, cfg, w, name, files).calls) == [1, 2, 4, 8, 16, 32]
  {
    AcceptedReport(req, cfg, w, name, files);
    var pub := PublishSpec(name, req.task, cfg.githubUser, files, w);
    PublishOrder(name, req.task, cfg.githubUser, files, w);
    AcceptedCalls(req, cfg, w, name, files);
    var gen := GenCalls(req, cfg);
    var payload := PayloadOf(req, pub.result.value.0, pub.result.value.1);
    var n := NotifySpec(req.evaluationUrl, payload, w.callback);
    NotifyContract(req.evaluationUrl, payload, w.callback);
    NoPostsCounted(gen + pub.calls);
    NoWaitsCounted(gen + pub.calls);
    CountPostsAppend(gen + pub.calls, n.calls);
    WaitsAppend(gen + pub.calls, n.calls);
  }


  /** 400 and 403 are answered before any collaborator is called, in
      precedence order: an unparseable body or a missing field (whatever
      the secret), then a refused secret. Any accepted request calls the
      repository host and is answered 200 or 500. */
  lemma BuildRejections(body: Body, cfg: BuildConfig, w: BuildWorld)
    requires WorldValid(w)
    ensures var r := BuildSpec(body, cfg, w);
      && (r.calls == [] <==> ParseRequest(body, cfg).Err?)
      && (r.response.status == 400 <==> body.Malformed? || MissingFields(BuildRequired, body.fields) != [])
      && (r.response.status == 403 <==>
            && body.Object? && MissingFields(BuildRequired, body.fields) == []
            && "secret" in body.fields && !ValidSecret(cfg.validSecret, body.fields["secret"]))
      && (ParseRequest(body, cfg).Ok? ==> r.response.status == 200 || r.response.status == 500)
  {
    ParseStatus(body, cfg);
    var r := BuildSpec(body, cfg, w);
    match ParseRequest(body, cfg)
    case Err(response) =>
      assert r == BuildRun(response, []);
    case Ok(req) =>
      var name := RepoNameOf(req, w);
      var files := FilesOf(req, cfg, w);
      assert r == AcceptedRun(req, cfg, w, name, files);
      AcceptedAnswered(req, cfg, w, name, files);
  }

  /** The parse step answers 400 for an unparseable body or a missing
      field, 403 for a complete body with a refused secret, and nothing
      else. */
  lemma ParseStatus(body: Body, cfg: BuildConfig)
    ensures var p := ParseRequest(body, cfg);
      && (p.Err? ==> p.error.status == 400 || p.error.status == 403)
      && (p.Err? && p.error.status == 400 <==> body.Malformed? || MissingFields(BuildRequired, body.fields) != [])
      && (p.Err? && p.error.status == 403 <==>
            && body.Object? && MissingFields(BuildRequired, body.fields) == []
            && "secret" in body.fields && !ValidSecret(cfg.validSecret, body.fields["secret"]))
  {
    ParseRejects(body, cfg);
  }

  /** An accepted request calls the repository host and is answered 200
      or 500. */
  lemma AcceptedAnswered(req: BuildRequest, cfg: BuildConfig, w: BuildWorld, name: string, files: Dict)
    ensures var r := AcceptedRun(req, cfg, w, name, files);
      r.calls != [] && (r.response.status == 200 || r.response.status == 500)
  {
    AcceptedFirstCall(req, cfg, w, name, files);
    AcceptedStatus(req, cfg, w, name, files);
  }

  /** An accepted request is answered 200 exactly when the create, all four
      pushes and the Pages request succeed. */
  lemma BuildPublished(body: Body, cfg: BuildConfig, w: BuildWorld)
    requires WorldValid(w) && ParseRequest(body, cfg).Ok?
    ensures BuildSpec(body, cfg, w).response.status == 200 <==>
            CreateRepoResult(w.create).Ok? && AllPushed(PublishedPaths, w.push) && w.enable.Reply?
  {
    var req := ParseRequest(body, cfg).value;
    AcceptedStatus(req, cfg, w, RepoNameOf(req, w), FilesOf(req, cfg, w));
  }

  /** Every build trace is in stage order (generation, create, pushes,
      Pages, callback) and posts the callback at most six times, and only
      on a 200; the pushed files are a prefix of index.html, README.md,
      LICENSE, .gitignore, all four on a 200. */
  lemma BuildTrace(body: Body, cfg: BuildConfig, w: BuildWorld)
    requires WorldValid(w)
    ensures var r := BuildSpec(body, cfg, w);
      && InStageOrder(r.calls)
      && CountPosts(r.calls) <= MaxTries
      && (r.response.status != 200 ==> CountPosts(r.calls) == 0)
      && |PushedPaths(r.calls)| <= 4 && PushedPaths(r.calls) == PublishedPaths[..|PushedPaths(r.calls)|]
      && (r.response.status == 200 ==> PushedPaths(r.calls) == PublishedPaths)
  {
    if ParseRequest(body, cfg).Ok? {
      var req := ParseRequest(body, cfg).value;
      AcceptedOrder(req, cfg, w, RepoNameOf(req, w), FilesOf(req, cfg, w));
      AcceptedPushes(req, cfg, w, RepoNameOf(req, w), FilesOf(req, cfg, w));
    } else {
      assert PushedPaths([]) == [];
    }
  }

  /** A 200 answer reports the body's email, task, round and nonce, the
      created repository's URL, the Pages URL of the derived name and
      commit "latest", with "ok" exactly when a callback attempt got a 200. */
  lemma BuildReport(body: Body, cfg: BuildConfig, w: BuildWorld)
    requires WorldValid(w)
    ensures var r := BuildSpec(body, cfg, w);
      r.response.status == 200 ==>
        && body.Object? && "email" in body.fields && "task" in body.fields
        && "round" in body.fields && "nonce" in body.fields
        && CreateRepoResult(w.create).Ok?
        && r.response.body.Report?
        && r.response.body.payload
           == EvalPayload(body.fields["email"], body.fields["task"], body.fields["round"], body.fields["nonce"],
                          CreateRepoResult(w.create).value.repoUrl,
                          PagesUrl(cfg.githubUser, SafeRepoName(body.fields["task"], w.emailHash, w.uid)), "latest")
        && (r.response.body.outcome == "ok" <==> exists i :: 0 <= i < MaxTries && Delivered(w.callback(i)))
  {
    ParseRejects(body, cfg);
    if ParseRequest(body, cfg).Ok? {
      var req := ParseRequest(body, cfg).value;
      ParseAccepts(body, cfg);
      AcceptedReport(req, cfg, w, RepoNameOf(req, w), FilesOf(req, cfg, w));
    }
  }
}
