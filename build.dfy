/** The build route (api/build.py; index.py is the same program): check
    the request, derive the repository name, generate the files, create the
    repository, push every file, enable Pages and report to the callback
    URL with doubling waits. Every collaborator call is recorded in a
    trace, and the collaborators' answers are given by a `BuildWorld`. */
module BuildRoute {
  import opened Outcomes
  import opened Strings
  import opened Dicts
  import opened Secrets
  import opened PyFormat

  /** EVAL_POST_MAX_TRIES. */
  const MaxTries: nat := 6

  // ----- Naming -----

  predicate IsHex(s: string) {
    forall i :: 0 <= i < |s| ==> '0' <= s[i] <= '9' || 'a' <= s[i] <= 'f'
  }

  /** The task label as it appears in the repository name. */
  function TaskToken(task: string): (t: string)
    ensures |t| == |task|
    ensures forall i :: 0 <= i < |task| ==> t[i] == if task[i] == ' ' || task[i] == '/' then '-' else LowerChar(task[i])
    ensures ' ' !in t && '/' !in t
    ensures forall i :: 0 <= i < |t| ==> !('A' <= t[i] <= 'Z')
  {
    Lower(ReplaceChar(ReplaceChar(task, ' ', '-'), '/', '-'))
  }

  /** `safe_repo_name`: the task token, the first 8 hex digits of the SHA-1
      of the email and 6 hex digits of a fresh uuid, joined by hyphens. The
      digest and the uuid digits are passed in. Nothing is truncated. */
  function SafeRepoName(task: string, emailHash: string, uid: string): (name: string)
    requires |emailHash| == 8 && |uid| == 6
    ensures |name| == |task| + 16
    ensures name[..|task|] == TaskToken(task)
    ensures name[|task|] == '-' && name[|task| + 9] == '-'
    ensures name[|task| + 1..|task| + 9] == emailHash
    ensures name[|task| + 10..] == uid
    ensures ' ' !in name[..|task|] && '/' !in name[..|task|]
  {
    var name := TaskToken(task) + "-" + emailHash + "-" + uid;
    assert name[..|task|] == TaskToken(task);
    name
  }

  /** Two fresh suffixes give two different names for the same request. */
  lemma NamesDifferBySuffix(task: string, emailHash: string, uid1: string, uid2: string)
    requires |emailHash| == 8 && |uid1| == 6 && |uid2| == 6 && uid1 != uid2
    ensures SafeRepoName(task, emailHash, uid1) != SafeRepoName(task, emailHash, uid2)
  {
    assert SafeRepoName(task, emailHash, uid1)[|task| + 10..] == uid1;
  }

  /** A worked example: the task "Solve Captcha". */
  lemma SolveCaptchaName(emailHash: string, uid: string)
    requires |emailHash| == 8 && |uid| == 6
    ensures SafeRepoName("Solve Captcha", emailHash, uid) == "solve-captcha-" + emailHash + "-" + uid
  {
    assert TaskToken("Solve Captcha") == "solve-captcha";
  }

  // ----- License and default page -----

  const MitBody: string :=
    "Permission is hereby granted, free of charge, to any person obtaining a copy\n"
    + "of this software and associated documentation files (the \"Software\"), to deal\n"
    + "in the Software without restriction, including without limitation the rights\n"
    + "to use, copy, modify, merge, publish, distribute, sublicense, and/or sell\n"
    + "copies of the Software, and to permit persons to whom the Software is\n"
    + "furnished to do so, subject to the following conditions:\n"
    + "(standard MIT text truncated for brevity)\n"

  const MitHead: string := "MIT License\n\nCopyright (c) "

  /** MIT_LICENSE_TEXT, as the pieces of a `str.format` template. */
  const MitTemplate: seq<Piece> := [Lit(MitHead), Field("year"), Lit(" "), Field("owner"), Lit("\n\n" + MitBody)]

  /** `make_mit_license`: the template filled with the year and the owner,
      and "Unknown" in place of an empty owner. */
  function MakeMitLicense(year: string, owner: string): string {
    MitHead + year + " " + (if owner == "" then "Unknown" else owner) + "\n\n" + MitBody
  }

  /** `MIT_LICENSE_TEXT.format(year=…, owner=…)` succeeds and yields
      `MakeMitLicense`: the template's only fields are the year and the
      owner, and an empty owner becomes "Unknown". */
  lemma MakeMitLicenseFormats(year: string, owner: string)
    ensures Format(Render(MitTemplate), map["year" := year, "owner" := if owner == "" then "Unknown" else owner])
            == Ok(MakeMitLicense(year, owner))
    ensures MakeMitLicense(year, "") == MakeMitLicense(year, "Unknown")
  {
    var holder := if owner == "" then "Unknown" else owner;
    var env := map["year" := year, "owner" := holder];
    assert ValidName("year") && ValidName("owner");
    assert env["year"] == year && env["owner"] == holder;
    FormatTwoFields(MitHead, "year", " ", "owner", "\n\n" + MitBody, env);
    ConcatAssoc(MitHead + year + " " + holder, "\n\n", MitBody);
  }

  // The page's markup between the substitution positions, abbreviated:
  // the head and style block, then the heading, then the paragraph and the
  // script that shows the `?url` image.
  const IndexHead: string := "<!DOCTYPE html>\n<html lang=\"en\">\n<head>\n  <title>"

  const IndexStyle: string := " - Demo</title>\n  <style>body{font-family:sans-serif;}</style>\n</head>\n<body>\n  <h1>"

  const IndexPara: string := "</h1>\n  <p>"

  const IndexTail: string := "</p>\n  <img id=\"image\" alt=\"captcha\"/>\n  <script>if(url){img.src=url;}</script>\n</body>\n</html>"

  /** `generate_default_index_html`: the task lands in the title and the
      heading, the brief in the paragraph. */
  function DefaultIndexHtml(brief: string, task: string): string {
    IndexHead + task + IndexStyle + task + IndexPara + brief + IndexTail
  }

  // ----- Content generation -----

  /** What the chat-completion step produced: the two fields of the JSON
      answer, or any failure on the way (status, transport, parse). */
  datatype LlmReply = LlmFields(indexHtml: Option<string>, readmeMd: Option<string>) | LlmFailed(reason: string)

  /** Python truthiness of an optional string. */
  predicate Truthy(o: Option<string>) {
    o.Some? && o.value != ""
  }

  function DemoReadme(brief: string, task: string): string {
    "# " + task + "\n\nAuto-generated demo page.\n\nBrief: " + brief + "\n"
  }

  function FallbackReadme(brief: string, task: string): string {
    "# " + task + "\n\nFallback content.\n\nBrief: " + brief + "\n"
  }

  /** `llm_generate_files`: always exactly index.html then README.md, both
      non-empty; no key means the demo page, a failure the fallback page,
      and an answer's empty or absent field is replaced by a default. */
  function LlmGenerateFiles(brief: string, task: string, apiKey: string, reply: LlmReply): (files: Dict)
    ensures Keys(files) == ["index.html", "README.md"]
    ensures files[0].1 != [] && files[1].1 != []
    ensures apiKey == "" ==> files[1].1 == DemoReadme(brief, task)
    ensures apiKey != "" && reply.LlmFailed? ==> files[1].1 == FallbackReadme(brief, task)
    ensures files[0].1 == if apiKey != "" && reply.LlmFields? && Truthy(reply.indexHtml)
                          then reply.indexHtml.value else DefaultIndexHtml(brief, task)
    ensures apiKey != "" && reply.LlmFields? ==>
              files[1].1 == if Truthy(reply.readmeMd) then reply.readmeMd.value else "# " + task + "\n\nBrief: " + brief + "\n"
  {
    var page := DefaultIndexHtml(brief, task);
    if apiKey == "" then
      [("index.html", page), ("README.md", DemoReadme(brief, task))]
    else
      match reply
      case LlmFailed(_) => [("index.html", page), ("README.md", FallbackReadme(brief, task))]
      case LlmFields(h, m) =>
        [("index.html", if Truthy(h) then h.value else page),
         ("README.md", if Truthy(m) then m.value else "# " + task + "\n\nBrief: " + brief + "\n")]
  }

  const GitIgnore: string := "__pycache__/\nnode_modules/\n.env\n"

  /** `email.split("@")[0]`. */
  function LocalPart(email: string): (local: string)
    ensures '@' !in local
    ensures |local| <= |email| && local == email[..|local|]
  {
    SplitHead(email, '@');
    Split(email, '@')[0]
  }

  /** `files["LICENSE"] = …` then `files.setdefault(".gitignore", …)` on
      the two generated files. */
  function AddLicenseAndIgnore(generated: Dict, license: string): (files: Dict)
    requires Keys(generated) == ["index.html", "README.md"]
    ensures Keys(files) == ["index.html", "README.md", "LICENSE", ".gitignore"]
    ensures Lookup(files, "LICENSE") == Some(license)
    ensures Lookup(files, ".gitignore") == Some(GitIgnore)
    ensures forall k :: k != "LICENSE" && k != ".gitignore" ==> Lookup(files, k) == Lookup(generated, k)
  {
    NewKeys(Keys(generated), "index.html", "README.md", "LICENSE", ".gitignore");
    SetThenDefault(generated, "LICENSE", license, ".gitignore", GitIgnore);
    SetDefault(SetItem(generated, "LICENSE", license), ".gitignore", GitIgnore)
  }

  /** The licence and ignore-file names are new to the generated pair. */
  lemma NewKeys(ks: seq<string>, a: string, b: string, x: string, y: string)
    requires ks == [a, b]
    requires a == "index.html" && b == "README.md" && x == "LICENSE" && y == ".gitignore"
    ensures x !in ks && y !in ks && y != x && ks + [x, y] == [a, b, x, y]
  {
    assert x[0] != a[0] && x[0] != b[0] && y[0] != a[0] && y[0] != b[0] && y[0] != x[0];
  }

  /** The files `build_endpoint` pushes. */
  function PublishedFiles(brief: string, task: string, email: string, apiKey: string, year: string, reply: LlmReply): (files: Dict)
    ensures Keys(files) == ["index.html", "README.md", "LICENSE", ".gitignore"]
    ensures Lookup(files, "LICENSE") == Some(MakeMitLicense(year, LocalPart(email)))
    ensures Lookup(files, ".gitignore") == Some(GitIgnore)
    ensures forall k :: k != "LICENSE" && k != ".gitignore" ==> Lookup(files, k) == Lookup(LlmGenerateFiles(brief, task, apiKey, reply), k)
  {
    AddLicenseAndIgnore(LlmGenerateFiles(brief, task, apiKey, reply), MakeMitLicense(year, LocalPart(email)))
  }

  // ----- Repository-host status rules -----

  datatype RepoMeta = RepoMeta(repoUrl: string, defaultBranch: string)

  /** `create_repo`: only 201 is success; the branch defaults to "main". */
  function CreateRepoResult(reply: CreateReply): (r: Result<RepoMeta, string>)
    ensures r.Ok? <==> reply.CreateReply? && reply.status == 201
    ensures r.Ok? ==> r.value.repoUrl == reply.htmlUrl
    ensures r.Ok? ==> r.value.defaultBranch == (if reply.defaultBranch.Some? then reply.defaultBranch.value else "main")
    ensures reply.CreateRaised? ==> r == Err(reply.reason)
    ensures reply.CreateReply? && reply.status != 201 ==> r == Err("GitHub repo creation failed: " + reply.text)
  {
    match reply
    case CreateRaised(e) => Err(e)
    case CreateReply(status, text, url, _, branch) =>
      if status != 201 then Err("GitHub repo creation failed: " + text)
      else Ok(RepoMeta(url, match branch case Some(b) => b case None => "main"))
  }

  /** `push_file`: success iff the status is 200 or 201. */
  function PushFileResult(path: string, reply: Reply): (r: Result<bool, string>)
    ensures r.Ok? <==> reply.Reply? && reply.status in {200, 201}
    ensures reply.Reply? && r.Err? ==> r.error == "Failed to push " + path + ": " + reply.text
  {
    match reply
    case Raised(e) => Err(e)
    case Reply(status, text) =>
      if status == 200 || status == 201 then Ok(true) else Err("Failed to push " + path + ": " + text)
  }

  function PagesUrl(user: string, repo: string): string {
    "https://" + user + ".github.io/" + repo + "/"
  }

  /** `enable_pages`: any status yields the Pages URL (a refused status
      only logs a warning); only a raised request fails. */
  function EnablePagesResult(user: string, repo: string, reply: Reply): (r: Result<string, string>)
    ensures r.Ok? <==> reply.Reply?
    ensures r.Ok? ==> r.value == PagesUrl(user, repo)
  {
    match reply
    case Raised(e) => Err(e)
    case Reply(_, _) => Ok(PagesUrl(user, repo))
  }

  // ----- Trace of collaborator calls -----

  datatype EvalPayload = EvalPayload(email: string, task: string, round: string, nonce: string,
                                     repoUrl: string, pagesUrl: string, commitSha: string)

  datatype Call =
    | LlmRequest(brief: string)
    | CreateRepo(name: string, description: string)
    | PushFile(owner: string, repo: string, path: string, content: string, message: string)
    | EnablePages(owner: string, repo: string, branch: string)
    | PostCallback(url: string, payload: EvalPayload)
    | Sleep(seconds: nat)

  /** The pipeline stage a call belongs to. */
  function Stage(c: Call): nat {
    match c
    case LlmRequest(_) => 0
    case CreateRepo(_, _) => 1
    case PushFile(_, _, _, _, _) => 2
    case EnablePages(_, _, _) => 3
    case PostCallback(_, _) => 4
    case Sleep(_) => 4
  }

  predicate InStageOrder(calls: seq<Call>) {
    forall i, j :: 0 <= i < j < |calls| ==> Stage(calls[i]) <= Stage(calls[j])
  }

  // ----- Callback delivery -----

  function Pow2(n: nat): (p: nat)
    ensures p >= 1
  {
    if n == 0 then 1 else 2 * Pow2(n - 1)
  }

  predicate Delivered(r: Reply) {
    r.Reply? && r.status == 200
  }

  /** The first attempt in [i, n) whose reply is a 200, or n. */
  function FirstDelivered(reply: nat -> Reply, i: nat, n: nat): (k: nat)
    requires i <= n
    ensures i <= k <= n
    ensures forall j :: i <= j < k ==> !Delivered(reply(j))
    ensures k < n ==> Delivered(reply(k))
    decreases n - i
  {
    if i == n then n else if Delivered(reply(i)) then i else FirstDelivered(reply, i + 1, n)
  }

  /** `n` failed attempts, each followed by its wait: 1, 2, 4, … */
  function FailedRounds(url: string, payload: EvalPayload, n: nat): (calls: seq<Call>)
    ensures |calls| == 2 * n
  {
    if n == 0 then [] else FailedRounds(url, payload, n - 1) + [PostCallback(url, payload), Sleep(Pow2(n - 1))]
  }

  datatype Notified = Notified(delivered: bool, calls: seq<Call>)

  /** What `post_evaluation` does: attempts until the first 200, at most
      MaxTries, waiting after every failed attempt including the last. */
  function NotifySpec(url: string, payload: EvalPayload, reply: nat -> Reply): Notified {
    var k := FirstDelivered(reply, 0, MaxTries);
    if k < MaxTries then Notified(true, FailedRounds(url, payload, k) + [PostCallback(url, payload)])
    else Notified(false, FailedRounds(url, payload, MaxTries))
  }

  /** `post_evaluation`; `delivered` is false where the source raises. */
  method PostEvaluation(url: string, payload: EvalPayload, reply: nat -> Reply) returns (delivered: bool, calls: seq<Call>)
    ensures Notified(delivered, calls) == NotifySpec(url, payload, reply)
  {
    var wait: nat := 1;
    var i: nat := 0;
    calls := [];
    while i < MaxTries
      invariant i <= MaxTries
      invariant wait == Pow2(i)
      invariant forall j :: 0 <= j < i ==> !Delivered(reply(j))
      invariant calls == FailedRounds(url, payload, i)
    {
      calls := calls + [PostCallback(url, payload)];
      if Delivered(reply(i)) {
        assert FirstDelivered(reply, 0, MaxTries) == i by {
          FirstDeliveredAt(reply, i);
        }
        return true, calls;
      }
      calls := calls + [Sleep(wait)];
      wait := wait * 2;
      i := i + 1;
    }
    assert FirstDelivered(reply, 0, MaxTries) == MaxTries;
    delivered := false;
  }

  lemma FirstDeliveredAt(reply: nat -> Reply, i: nat)
    requires i < MaxTries && Delivered(reply(i))
    requires forall j :: 0 <= j < i ==> !Delivered(reply(j))
    ensures FirstDelivered(reply, 0, MaxTries) == i
  {
  }

  function CountPosts(calls: seq<Call>): nat {
    if calls == [] then 0 else (if calls[0].PostCallback? then 1 else 0) + CountPosts(calls[1..])
  }

  /** The waits in the order they happen. */
  function Waits(calls: seq<Call>): seq<nat> {
    if calls == [] then [] else (if calls[0].Sleep? then [calls[0].seconds] else []) + Waits(calls[1..])
  }

  function Total(ws: seq<nat>): nat {
    if ws == [] then 0 else ws[0] + Total(ws[1..])
  }

  function Doubling(n: nat): (ws: seq<nat>)
    ensures |ws| == n
    ensures forall i :: 0 <= i < n ==> ws[i] == Pow2(i)
  {
    if n == 0 then [] else Doubling(n - 1) + [Pow2(n - 1)]
  }

  lemma {:induction false} CountPostsAppend(a: seq<Call>, b: seq<Call>)
    ensures CountPosts(a + b) == CountPosts(a) + CountPosts(b)
    decreases |a|
  {
    if a != [] {
      assert (a + b)[1..] == a[1..] + b;
      CountPostsAppend(a[1..], b);
    } else {
      assert a + b == b;
    }
  }

  lemma {:induction false} WaitsAppend(a: seq<Call>, b: seq<Call>)
    ensures Waits(a + b) == Waits(a) + Waits(b)
    decreases |a|
  {
    if a != [] {
      assert (a + b)[1..] == a[1..] + b;
      WaitsAppend(a[1..], b);
    } else {
      assert a + b == b;
    }
  }

  lemma {:induction false} TotalAppend(a: seq<nat>, b: seq<nat>)
    ensures Total(a + b) == Total(a) + Total(b)
    decreases |a|
  {
    if a != [] {
      assert (a + b)[1..] == a[1..] + b;
      TotalAppend(a[1..], b);
    } else {
      assert a + b == b;
    }
  }

  /** `n` failed rounds post `n` times and wait 1, 2, …, 2^(n-1), which is
      2^n - 1 in all. */
  lemma {:induction false} FailedRoundsShape(url: string, payload: EvalPayload, n: nat)
    ensures CountPosts(FailedRounds(url, payload, n)) == n
    ensures Waits(FailedRounds(url, payload, n)) == Doubling(n)
    ensures Total(Doubling(n)) + 1 == Pow2(n)
  {
    if n > 0 {
      FailedRoundsShape(url, payload, n - 1);
      var tail := [PostCallback(url, payload), Sleep(Pow2(n - 1))];
      CountPostsAppend(FailedRounds(url, payload, n - 1), tail);
      WaitsAppend(FailedRounds(url, payload, n - 1), tail);
      assert tail[1..] == [Sleep(Pow2(n - 1))] && tail[1..][1..] == [];
      assert CountPosts(tail[1..]) == 0 && Waits(tail[1..]) == [Pow2(n - 1)];
      assert CountPosts(tail) == 1 && Waits(tail) == [] + Waits(tail[1..]);
      TotalAppend(Doubling(n - 1), [Pow2(n - 1)]);
    }
  }

  /** The retry contract: at most six attempts, one attempt more than the
      failures before the first 200, and a wait after every failure that
      doubles from 1; exhausting the attempts waits 1+2+…+32 = 63. */
  lemma NotifyContract(url: string, payload: EvalPayload, reply: nat -> Reply)
    ensures var n := NotifySpec(url, payload, reply);
      && CountPosts(n.calls) <= MaxTries
      && (n.delivered <==> exists i :: 0 <= i < MaxTries && Delivered(reply(i)))
      && (n.delivered ==>
            CountPosts(n.calls) >= 1 && Waits(n.calls) == Doubling(CountPosts(n.calls) - 1) && Delivered(reply(CountPosts(n.calls) - 1))
            && forall j :: 0 <= j < CountPosts(n.calls) - 1 ==> !Delivered(reply(j)))
      && (!n.delivered ==> CountPosts(n.calls) == MaxTries && Waits(n.calls) == [1, 2, 4, 8, 16, 32] && Total(Waits(n.calls)) == 63)
  {
    var k := FirstDelivered(reply, 0, MaxTries);
    if k < MaxTries {
      DeliveredShape(url, payload, k);
    } else {
      ExhaustedShape(url, payload);
    }
  }

  /** `k` failed rounds and the attempt that succeeds. */
  lemma DeliveredShape(url: string, payload: EvalPayload, k: nat)
    ensures var calls := FailedRounds(url, payload, k) + [PostCallback(url, payload)];
      CountPosts(calls) == k + 1 && Waits(calls) == Doubling(k)
  {
    FailedRoundsShape(url, payload, k);
    var last := [PostCallback(url, payload)];
    CountPostsAppend(FailedRounds(url, payload, k), last);
    WaitsAppend(FailedRounds(url, payload, k), last);
    assert last[1..] == [];
    assert CountPosts(last) == 1 && Waits(last) == [];
  }

  /** Six failed rounds wait 1, 2, 4, 8, 16 and 32 seconds. */
  lemma ExhaustedShape(url: string, payload: EvalPayload)
    ensures CountPosts(FailedRounds(url, payload, MaxTries)) == MaxTries
    ensures Waits(FailedRounds(url, payload, MaxTries)) == [1, 2, 4, 8, 16, 32]
    ensures Total([1, 2, 4, 8, 16, 32]) == 63
  {
    FailedRoundsShape(url, payload, MaxTries);
    assert Doubling(6) == [1, 2, 4, 8, 16, 32];
  }

  // ----- The route -----

  datatype BuildConfig = BuildConfig(validSecret: string, openAiKey: string, githubUser: string)

  /** The collaborators' answers: the email digest and uuid digits, the
      year, the generation step, the host's replies (pushes by path) and
      the callback receiver's reply to each attempt. */
  datatype BuildWorld = BuildWorld(emailHash: string, uid: string, year: string, llm: LlmReply,
                                   create: CreateReply, push: string -> Reply, enable: Reply,
                                   callback: nat -> Reply)

  predicate WorldValid(w: BuildWorld) {
    |w.emailHash| == 8 && |w.uid| == 6 && IsHex(w.emailHash) && IsHex(w.uid)
  }

  datatype BuildBody = Failure(error: string) | Report(outcome: string, payload: EvalPayload)

  datatype BuildResponse = BuildResponse(status: nat, body: BuildBody)

  datatype BuildRun = BuildRun(response: BuildResponse, calls: seq<Call>)

  const BuildRequired: seq<string> := ["email", "secret", "task", "round", "nonce", "brief", "evaluation_url"]

  /** The fields the route reads, once they are all present. */
  datatype BuildRequest = BuildRequest(email: string, secret: string, task: string, round: string,
                                       nonce: string, brief: string, evaluationUrl: string)

  lemma RequiredPresent(f: map<string, string>)
    requires MissingFields(BuildRequired, f) == []
    ensures "email" in f && "secret" in f && "task" in f && "round" in f
    ensures "nonce" in f && "brief" in f && "evaluation_url" in f
  {
    assert BuildRequired[0] == "email" && BuildRequired[1] == "secret" && BuildRequired[2] == "task";
    assert BuildRequired[3] == "round" && BuildRequired[4] == "nonce" && BuildRequired[5] == "brief";
    assert BuildRequired[6] == "evaluation_url";
  }

  function RequestOf(f: map<string, string>): (req: BuildRequest)
    requires MissingFields(BuildRequired, f) == []
  {
    RequiredPresent(f);
    BuildRequest(f["email"], f["secret"], f["task"], f["round"], f["nonce"], f["brief"], f["evaluation_url"])
  }

  /** The checks before any side effect: a parseable body, then every
      required field present (an empty value passes), then the secret. */
  function ParseRequest(body: Body, cfg: BuildConfig): Result<BuildRequest, BuildResponse> {
    if body.Malformed? then Err(BuildResponse(400, Failure("Invalid JSON")))
    else
      var f := body.fields;
      var missing := MissingFields(BuildRequired, f);
      if missing != [] then Err(BuildResponse(400, Failure("Missing fields: " + PyListRepr(missing))))
      else
        RequiredPresent(f);
        if !ValidSecret(cfg.validSecret, f["secret"]) then Err(BuildResponse(403, Failure("Invalid secret")))
        else Ok(RequestOf(f))
  }

  /** Rejections, in precedence order: an unparseable body, then missing
      fields (listed, whatever the secret), then a refused secret. */
  lemma ParseRejects(body: Body, cfg: BuildConfig)
    ensures body.Malformed? ==> ParseRequest(body, cfg) == Err(BuildResponse(400, Failure("Invalid JSON")))
    ensures body.Object? && MissingFields(BuildRequired, body.fields) != [] ==>
              ParseRequest(body, cfg) == Err(BuildResponse(400, Failure("Missing fields: " + PyListRepr(MissingFields(BuildRequired, body.fields)))))
    ensures body.Object? && MissingFields(BuildRequired, body.fields) == [] ==>
              && "secret" in body.fields
              && (ParseRequest(body, cfg).Err? <==> !ValidSecret(cfg.validSecret, body.fields["secret"]))
              && (ParseRequest(body, cfg).Err? ==> ParseRequest(body, cfg).error == BuildResponse(403, Failure("Invalid secret")))
    ensures ParseRequest(body, cfg).Err? ==> ParseRequest(body, cfg).error.status == 400 || ParseRequest(body, cfg).error.status == 403
  {
    if body.Object? && MissingFields(BuildRequired, body.fields) == [] {
      RequiredPresent(body.fields);
    }
  }

  /** An accepted request carries the body's fields and an accepted secret. */
  lemma ParseAccepts(body: Body, cfg: BuildConfig)
    requires ParseRequest(body, cfg).Ok?
    ensures body.Object? && MissingFields(BuildRequired, body.fields) == []
    ensures var req := ParseRequest(body, cfg).value;
      && "email" in body.fields && "secret" in body.fields && "task" in body.fields && "round" in body.fields
      && "nonce" in body.fields && "brief" in body.fields && "evaluation_url" in body.fields
      && req.email == body.fields["email"] && req.secret == body.fields["secret"]
      && req.task == body.fields["task"] && req.round == body.fields["round"]
      && req.nonce == body.fields["nonce"] && req.brief == body.fields["brief"]
      && req.evaluationUrl == body.fields["evaluation_url"]
      && ValidSecret(cfg.validSecret, req.secret)
  {
    RequiredPresent(body.fields);
  }

  /** Pushing `files` in order, stopping at the first failure. */
  function PushSpec(user: string, repo: string, files: Dict, push: string -> Reply): (Result<bool, string>, seq<Call>) {
    if files == [] then (Ok(true), [])
    else
      var path := files[0].0;
      var call := PushFile(user, repo, path, files[0].1, "Add " + path);
      match PushFileResult(path, push(path))
      case Err(e) => (Err(e), [call])
      case Ok(_) =>
        var rest := PushSpec(user, repo, files[1..], push);
        (rest.0, [call] + rest.1)
  }

  /** The pushes are the files in order with message "Add <path>", every
      push before the last succeeded, an error is the last push's own, and
      success means every file was pushed. */
  lemma {:induction false} PushSpecShape(user: string, repo: string, files: Dict, push: string -> Reply)
    ensures var r := PushSpec(user, repo, files, push);
      && |r.1| <= |files|
      && (r.0.Ok? ==> |r.1| == |files|)
      && (forall i :: 0 <= i < |r.1| ==> r.1[i] == PushFile(user, repo, files[i].0, files[i].1, "Add " + files[i].0))
      && (forall i :: 0 <= i < |r.1| - 1 ==> PushFileResult(files[i].0, push(files[i].0)).Ok?)
      && (r.0.Err? ==> r.1 != [] && r.0 == PushFileResult(files[|r.1| - 1].0, push(files[|r.1| - 1].0)))
      && (r.0.Ok? ==> forall i :: 0 <= i < |files| ==> PushFileResult(files[i].0, push(files[i].0)).Ok?)
    decreases |files|
  {
    if files != [] && PushFileResult(files[0].0, push(files[0].0)).Ok? {
      PushSpecShape(user, repo, files[1..], push);
    }
  }

  /** What the publishing block produced: the repository and Pages URLs,
      or the message of the exception that ended it. */
  datatype Published = Published(result: Result<(RepoMeta, string), string>, calls: seq<Call>)

  function RepoNameOf(req: BuildRequest, w: BuildWorld): string
    requires WorldValid(w)
  {
    SafeRepoName(req.task, w.emailHash, w.uid)
  }

  function FilesOf(req: BuildRequest, cfg: BuildConfig, w: BuildWorld): Dict {
    PublishedFiles(req.brief, req.task, req.email, cfg.openAiKey, w.year, w.llm)
  }

  /** create, then every file, then Pages, inside one `try`. */
  function PublishSpec(name: string, task: string, user: string, files: Dict, w: BuildWorld): Published {
    var created := [CreateRepo(name, "Auto-generated app for " + task)];
    match CreateRepoResult(w.create)
    case Err(e) => Published(Err(e), created)
    case Ok(meta) =>
      var pushed := PushSpec(user, name, files, w.push);
      if pushed.0.Err? then Published(Err(pushed.0.error), created + pushed.1)
      else
        var enabled := created + pushed.1 + [EnablePages(user, name, "main")];
        match EnablePagesResult(user, name, w.enable)
        case Err(e) => Published(Err(e), enabled)
        case Ok(pagesUrl) => Published(Ok((meta, pagesUrl)), enabled)
  }

  function PayloadOf(req: BuildRequest, meta: RepoMeta, pagesUrl: string): EvalPayload {
    EvalPayload(req.email, req.task, req.round, req.nonce, meta.repoUrl, pagesUrl, "latest")
  }

  /** An accepted request from the generation request on, for the
      derived repository name and file list. */
  function AcceptedRun(req: BuildRequest, cfg: BuildConfig, w: BuildWorld, name: string, files: Dict): BuildRun {
    var gen := if cfg.openAiKey != "" then [LlmRequest(req.brief)] else [];
    var pub := PublishSpec(name, req.task, cfg.githubUser, files, w);
    match pub.result
    case Err(e) => BuildRun(BuildResponse(500, Failure("GitHub operation failed: " + e)), gen + pub.calls)
    case Ok((meta, pagesUrl)) =>
      var payload := PayloadOf(req, meta, pagesUrl);
      var notified := NotifySpec(req.evaluationUrl, payload, w.callback);
      BuildRun(BuildResponse(200, Report(if notified.delivered then "ok" else "partial", payload)),
               gen + pub.calls + notified.calls)
  }

  /** The reference definition of one request, stage by stage. */
  function BuildSpec(body: Body, cfg: BuildConfig, w: BuildWorld): BuildRun
    requires WorldValid(w)
  {
    match ParseRequest(body, cfg)
    case Err(response) => BuildRun(response, [])
    case Ok(req) => AcceptedRun(req, cfg, w, RepoNameOf(req, w), FilesOf(req, cfg, w))
  }

  /** The push loop of `build_endpoint`. */
  method PushAll(user: string, repo: string, files: Dict, push: string -> Reply) returns (ok: Result<bool, string>, calls: seq<Call>)
    ensures ok == PushSpec(user, repo, files, push).0 && calls == PushSpec(user, repo, files, push).1
  {
    var i := 0;
    calls := [];
    assert files[0..] == files;
    while i < |files|
      invariant 0 <= i <= |files|
      invariant PushSpec(user, repo, files, push).0 == PushSpec(user, repo, files[i..], push).0
      invariant PushSpec(user, repo, files, push).1 == calls + PushSpec(user, repo, files[i..], push).1
    {
      var path := files[i].0;
      var call := PushFile(user, repo, path, files[i].1, "Add " + path);
      assert files[i..][0] == files[i] && files[i..][1..] == files[i + 1..];
      var r := PushFileResult(path, push(path));
      if r.Err? {
        assert PushSpec(user, repo, files[i..], push) == (r, [call]);
        return r, calls + [call];
      }
      assert PushSpec(user, repo, files[i..], push).1 == [call] + PushSpec(user, repo, files[i + 1..], push).1;
      calls := calls + [call];
      i := i + 1;
    }
    assert files[i..] == [];
    ok := Ok(true);
  }

  /** The `try` block of `build_endpoint`: create, push, enable. */
  method Publish(name: string, task: string, user: string, files: Dict, w: BuildWorld)
    returns (result: Result<(RepoMeta, string), string>, calls: seq<Call>)
    ensures Published(result, calls) == PublishSpec(name, task, user, files, w)
  {
    calls := [CreateRepo(name, "Auto-generated app for " + task)];
    var meta := CreateRepoResult(w.create);
    if meta.Err? {
      return Err(meta.error), calls;
    }
    var pushed, pushes := PushAll(user, name, files, w.push);
    calls := calls + pushes;
    if pushed.Err? {
      return Err(pushed.error), calls;
    }
    calls := calls + [EnablePages(user, name, "main")];
    var pages := EnablePagesResult(user, name, w.enable);
    if pages.Err? {
      return Err(pages.error), calls;
    }
    result := Ok((meta.value, pages.value));
  }

  /** The generated files, then `files["LICENSE"] = …` and
      `files.setdefault(".gitignore", …)` in place. */
  method PrepareFiles(brief: string, task: string, email: string, apiKey: string, year: string, reply: LlmReply)
    returns (files: Dict)
    ensures files == PublishedFiles(brief, task, email, apiKey, year, reply)
  {
    files := LlmGenerateFiles(brief, task, apiKey, reply);
    var ownerForLicense := LocalPart(email);
    files := SetItem(files, "LICENSE", MakeMitLicense(year, ownerForLicense));
    files := SetDefault(files, ".gitignore", GitIgnore);
  }

  /** `build_endpoint`. */
  method BuildEndpoint(body: Body, cfg: BuildConfig, w: BuildWorld) returns (response: BuildResponse, calls: seq<Call>)
    requires WorldValid(w)
    ensures BuildRun(response, calls) == BuildSpec(body, cfg, w)
  {
    var parsed := ParseRequest(body, cfg);
    if parsed.Err? {
      return parsed.error, [];
    }
    var req := parsed.value;
    var repoName := SafeRepoName(req.task, w.emailHash, w.uid);
    calls := if cfg.openAiKey != "" then [LlmRequest(req.brief)] else [];
    var files := PrepareFiles(req.brief, req.task, req.email, cfg.openAiKey, w.year, w.llm);

    var published, publishCalls := Publish(repoName, req.task, cfg.githubUser, files, w);
    calls := calls + publishCalls;
    if published.Err? {
      return BuildResponse(500, Failure("GitHub operation failed: " + published.error)), calls;
    }
    var (meta, pagesUrl) := published.value;
    var payload := PayloadOf(req, meta, pagesUrl);
    var delivered, posts := PostEvaluation(req.evaluationUrl, payload, w.callback);
    calls := calls + posts;
    if !delivered {
      return BuildResponse(200, Report("partial", payload)), calls;
    }
    response := BuildResponse(200, Report("ok", payload));
  }
}
