/** The repository-host helpers used by the revision route: repository
    creation, pushing one file, turning Pages on and waiting until the
    site answers, and the licence text.

    Every HTTP exchange is an outcome passed in: a status with body text,
    or the exception the client raised, which the helpers let propagate. */
module HostApi {
  import opened Outcomes
  import opened Strings

  const ApiRoot := "https://api.github.com"

  /** What `create_repo` returns. */
  datatype RepoInfo = RepoInfo(repoUrl: string, cloneUrl: string, defaultBranch: string)

  /** `create_repo`: 200 and 201 both count as created; the default branch
      falls back to "main" when the reply does not name one. */
  function CreateRepo(reply: CreateReply): (r: Result<RepoInfo, string>)
    ensures r.Ok? <==> reply.CreateReply? && (reply.status == 200 || reply.status == 201)
    ensures r.Ok? ==> r.value.repoUrl == reply.htmlUrl && r.value.cloneUrl == reply.cloneUrl
    ensures r.Ok? ==> r.value.defaultBranch == (if reply.defaultBranch.Some? then reply.defaultBranch.value else "main")
    ensures reply.CreateReply? && r.Err? ==> r.error == "GitHub repo creation failed: " + reply.text
    ensures reply.CreateRaised? ==> r == Err(reply.reason)
  {
    match reply
    case CreateRaised(reason) => Err(reason)
    case CreateReply(status, text, htmlUrl, cloneUrl, branch) =>
      if status != 200 && status != 201 then Err("GitHub repo creation failed: " + text)
      else Ok(RepoInfo(htmlUrl, cloneUrl, if branch.Some? then branch.value else "main"))
  }

  /** The request `push_file` sends: the contents address of the path, the
      commit message, the file content (its base64 form is not modelled)
      and the branch. */
  datatype PushRequest = PushRequest(url: string, message: string, content: string, branch: string)

  function PushRequestOf(user: string, repo: string, path: string, content: string, message: string): PushRequest
  {
    PushRequest(ApiRoot + "/repos/" + user + "/" + repo + "/contents/" + path, message, content, "main")
  }

  /** The host's answer to a push: status, body text and the sha of the
      commit it made. */
  datatype PushReply = PushReply(status: nat, text: string, commitSha: string) | PushRaised(reason: string)

  /** `push_file`: 200 and 201 succeed and give the new commit's sha. */
  function PushFile(path: string, reply: PushReply): (r: Result<string, string>)
    ensures r.Ok? <==> reply.PushReply? && (reply.status == 200 || reply.status == 201)
    ensures r.Ok? ==> r.value == reply.commitSha
    ensures reply.PushReply? && r.Err? ==> r.error == "Push failed for " + path + ": " + reply.text
    ensures reply.PushRaised? ==> r == Err(reply.reason)
  {
    match reply
    case PushRaised(reason) => Err(reason)
    case PushReply(status, text, sha) =>
      if status != 200 && status != 201 then Err("Push failed for " + path + ": " + text)
      else Ok(sha)
  }

  /** The exchanges of `enable_github_pages`, all on the repository's
      Pages address, and its waits in seconds. */
  datatype PagesCall = PostPages(url: string) | GetPages(url: string) | Wait(seconds: nat)

  /** One poll's answer: the status and the `html_url` field, if any. */
  datatype PollReply = PollReply(status: nat, htmlUrl: Option<string>) | PollRaised(reason: string)

  const PollLimit := 10
  const PollWait := 3
  const TimedOut := "Timed out waiting for GitHub Pages URL."

  function PagesAddress(user: string, repo: string): string {
    ApiRoot + "/repos/" + user + "/" + repo + "/pages"
  }

  /** Polls `i` to 9: each waits, asks, and ends the wait on a 200 or on
      a raised request. */
  function PollFrom(url: string, i: nat, polls: nat -> PollReply): (Result<Option<string>, string>, seq<PagesCall>)
    decreases PollLimit - i
  {
    if i >= PollLimit then (Err(TimedOut), [])
    else
      var step := [Wait(PollWait), GetPages(url)];
      match polls(i)
      case PollRaised(e) => (Err(e), step)
      case PollReply(status, html) =>
        if status == 200 then (Ok(html), step)
        else
          var (r, rest) := PollFrom(url, i + 1, polls);
          (r, step + rest)
  }

  /** `enable_github_pages`: the request, the check made when it was not
      accepted, then the polling. */
  function PagesSpec(user: string, repo: string, post: Reply, check: Reply, polls: nat -> PollReply)
    : (Result<Option<string>, string>, seq<PagesCall>)
  {
    var url := PagesAddress(user, repo);
    match post
    case Raised(e) => (Err(e), [PostPages(url)])
    case Reply(status, text) =>
      if status != 201 && status != 202 then
        match check
        case Raised(e) => (Err(e), [PostPages(url), GetPages(url)])
        case Reply(cs, _) =>
          if cs != 200 then (Err("Failed to enable GitHub Pages: " + text), [PostPages(url), GetPages(url)])
          else
            var (r, calls) := PollFrom(url, 0, polls);
            (r, [PostPages(url), GetPages(url)] + calls)
      else
        var (r, calls) := PollFrom(url, 0, polls);
        (r, [PostPages(url)] + calls)
  }

  /** The polling loop of `enable_github_pages`. */
  method PollPages(url: string, polls: nat -> PollReply) returns (r: Result<Option<string>, string>, calls: seq<PagesCall>)
    ensures r == PollFrom(url, 0, polls).0
    ensures calls == PollFrom(url, 0, polls).1
  {
    calls := [];
    var i := 0;
    while i < PollLimit
      invariant 0 <= i <= PollLimit
      invariant PollFrom(url, 0, polls).0 == PollFrom(url, i, polls).0
      invariant PollFrom(url, 0, polls).1 == calls + PollFrom(url, i, polls).1
    {
      var reply := polls(i);
      ghost var rest := PollFrom(url, i + 1, polls);
      ghost var before := calls;
      calls := calls + [Wait(PollWait), GetPages(url)];
      if reply.PollRaised? {
        return Err(reply.reason), calls;
      }
      if reply.status == 200 {
        return Ok(reply.htmlUrl), calls;
      }
      assert PollFrom(url, i, polls).0 == rest.0;
      assert PollFrom(url, i, polls).1 == [Wait(PollWait), GetPages(url)] + rest.1;
      assert before + ([Wait(PollWait), GetPages(url)] + rest.1) == calls + rest.1;
      i := i + 1;
    }
    r := Err(TimedOut);
  }

  /** `enable_github_pages`, recording every exchange and wait. */
  method EnableGithubPages(user: string, repo: string, post: Reply, check: Reply, polls: nat -> PollReply)
      returns (r: Result<Option<string>, string>, calls: seq<PagesCall>)
    ensures r == PagesSpec(user, repo, post, check, polls).0
    ensures calls == PagesSpec(user, repo, post, check, polls).1
  {
    var url := PagesAddress(user, repo);
    calls := [PostPages(url)];
    if post.Raised? {
      return Err(post.reason), calls;
    }
    if post.status != 201 && post.status != 202 {
      calls := calls + [GetPages(url)];
      if check.Raised? {
        return Err(check.reason), calls;
      }
      if check.status != 200 {
        return Err("Failed to enable GitHub Pages: " + post.text), calls;
      }
    }
    var polled;
    r, polled := PollPages(url, polls);
    calls := calls + polled;
  }

  /** A poll that ends the polling: a 200, or a raised request. */
  predicate Settles(polls: nat -> PollReply, k: nat) {
    polls(k).PollRaised? || polls(k).status == 200
  }

  /** What a settling poll makes `enable_github_pages` return. */
  function Answer(p: PollReply): Result<Option<string>, string> {
    match p
    case PollRaised(e) => Err(e)
    case PollReply(_, html) => Ok(html)
  }

  /** Polling from `i` waits 3 before each request and makes never more
      than `10 - i` requests. */
  lemma {:induction false} PollFromCalls(url: string, i: nat, polls: nat -> PollReply)
    requires i <= PollLimit
    ensures var calls := PollFrom(url, i, polls).1;
      |calls| % 2 == 0 && |calls| <= 2 * (PollLimit - i)
      && forall j :: 0 <= j < |calls| / 2 ==> calls[2 * j] == Wait(PollWait) && calls[2 * j + 1] == GetPages(url)
    decreases PollLimit - i
  {
    if i < PollLimit && !Settles(polls, i) {
      PollFromCalls(url, i + 1, polls);
      var rest := PollFrom(url, i + 1, polls).1;
      AlternationStep(url, rest);
      assert PollFrom(url, i, polls).1 == [Wait(PollWait), GetPages(url)] + rest;
    }
  }

  /** A wait and a request in front of an alternation keep it one. */
  lemma AlternationStep(url: string, rest: seq<PagesCall>)
    requires |rest| % 2 == 0
    requires forall j :: 0 <= j < |rest| / 2 ==> rest[2 * j] == Wait(PollWait) && rest[2 * j + 1] == GetPages(url)
    ensures var calls := [Wait(PollWait), GetPages(url)] + rest;
      |calls| % 2 == 0
      && forall j :: 0 <= j < |calls| / 2 ==> calls[2 * j] == Wait(PollWait) && calls[2 * j + 1] == GetPages(url)
  {
    var calls := [Wait(PollWait), GetPages(url)] + rest;
    forall j | 0 <= j < |calls| / 2
      ensures calls[2 * j] == Wait(PollWait) && calls[2 * j + 1] == GetPages(url)
    {
      if j > 0 {
        assert calls[2 * j] == rest[2 * (j - 1)];
        assert calls[2 * j + 1] == rest[2 * (j - 1) + 1];
      }
    }
  }

  /** Every poll before the last one made did not settle. */
  lemma {:induction false} PollFromUnsettled(url: string, i: nat, polls: nat -> PollReply)
    requires i <= PollLimit
    ensures var calls := PollFrom(url, i, polls).1;
      forall j :: i <= j < i + |calls| / 2 - 1 ==> !Settles(polls, j)
    decreases PollLimit - i
  {
    if i < PollLimit && !Settles(polls, i) {
      PollFromUnsettled(url, i + 1, polls);
      var rest := PollFrom(url, i + 1, polls).1;
      assert PollFrom(url, i, polls).1 == [Wait(PollWait), GetPages(url)] + rest;
    }
  }

  /** When no poll from `i` on settles, polling times out after all of
      them: two calls for each. */
  lemma {:induction false} PollFromTimesOut(url: string, i: nat, polls: nat -> PollReply)
    requires i <= PollLimit
    requires forall j :: i <= j < PollLimit ==> !Settles(polls, j)
    ensures PollFrom(url, i, polls).0 == Err(TimedOut)
    ensures |PollFrom(url, i, polls).1| == 2 * (PollLimit - i)
    decreases PollLimit - i
  {
    if i < PollLimit {
      assert !Settles(polls, i);
      PollFromTimesOut(url, i + 1, polls);
      var (r, rest) := PollFrom(url, i + 1, polls);
      assert PollFrom(url, i, polls) == (r, [Wait(PollWait), GetPages(url)] + rest);
    }
  }

  /** When some poll from `i` on settles, polling ends at the first one
      that does, with what it answered. */
  lemma {:induction false} PollFromSettles(url: string, i: nat, polls: nat -> PollReply)
    requires i <= PollLimit
    requires exists j :: i <= j < PollLimit && Settles(polls, j)
    ensures var (r, calls) := PollFrom(url, i, polls);
      |calls| >= 2 && |calls| % 2 == 0 && Settles(polls, i + |calls| / 2 - 1)
      && r == Answer(polls(i + |calls| / 2 - 1))
    decreases PollLimit - i
  {
    if !Settles(polls, i) {
      var k :| i <= k < PollLimit && Settles(polls, k);
      assert k != i;
      PollFromSettles(url, i + 1, polls);
      var (r, rest) := PollFrom(url, i + 1, polls);
      var calls := [Wait(PollWait), GetPages(url)] + rest;
      assert PollFrom(url, i, polls) == (r, calls);
      assert i + |calls| / 2 - 1 == (i + 1) + |rest| / 2 - 1;
    }
  }

  /** The request is made once; a raised request ends it; a request that
      was not accepted (201/202) is followed by one check, whose non-200
      ends it with the request's body text; otherwise, and also when the
      request was accepted, the polling follows. */
  lemma PagesOutcome(user: string, repo: string, post: Reply, check: Reply, polls: nat -> PollReply)
    ensures var (r, calls) := PagesSpec(user, repo, post, check, polls);
      var url := PagesAddress(user, repo);
      var polled := PollFrom(url, 0, polls);
      calls != [] && calls[0] == PostPages(url)
      && (post.Raised? ==> r == Err(post.reason) && calls == [PostPages(url)])
      && (post.Reply? && (post.status == 201 || post.status == 202) ==>
            r == polled.0 && calls == [PostPages(url)] + polled.1)
      && (post.Reply? && post.status != 201 && post.status != 202 ==>
            |calls| >= 2 && calls[..2] == [PostPages(url), GetPages(url)]
            && (check.Raised? ==> r == Err(check.reason) && |calls| == 2)
            && (check.Reply? && check.status != 200 ==>
                  r == Err("Failed to enable GitHub Pages: " + post.text) && |calls| == 2)
            && (check.Reply? && check.status == 200 ==> r == polled.0 && calls[2..] == polled.1))
  {
    var url := PagesAddress(user, repo);
    var polled := PollFrom(url, 0, polls);
    if post.Reply? && post.status != 201 && post.status != 202 && check.Reply? && check.status == 200 {
      assert ([PostPages(url), GetPages(url)] + polled.1)[2..] == polled.1;
    }
  }

  /** When Pages was turned on but no poll answers 200, the helper gives up
      with the timeout after exactly ten waits of 3 and ten polls. */
  lemma PagesTimesOut(user: string, repo: string, post: Reply, check: Reply, polls: nat -> PollReply)
    requires post.Reply?
    requires post.status == 201 || post.status == 202 || (check.Reply? && check.status == 200)
    requires forall j :: 0 <= j < PollLimit ==> polls(j).PollReply? && polls(j).status != 200
    ensures PagesSpec(user, repo, post, check, polls).0 == Err(TimedOut)
    ensures |PagesSpec(user, repo, post, check, polls).1| == (if post.status == 201 || post.status == 202 then 21 else 22)
  {
    PollFromTimesOut(PagesAddress(user, repo), 0, polls);
    PagesOutcome(user, repo, post, check, polls);
  }

  // The permission notice of the licence, as the helper writes it.
  const MitNotice: string :=
    "Permission is hereby granted, free of charge, to any person obtaining a copy\n"
    + "of this software and associated documentation files (the \"Software\"), to deal\n"
    + "in the Software without restriction, including without limitation the rights\n"
    + "to use, copy, modify, merge, publish, distribute, sublicense, and/or sell\n"
    + "copies of the Software, and to permit persons to whom the Software is\n"
    + "furnished to do so, subject to the following conditions:\n"
    + "\n"
    + "The above copyright notice and this permission notice shall be included in\n"
    + "all copies or substantial portions of the Software.\n"
    + "\n"
    + "THE SOFTWARE IS PROVIDED \"AS IS\", WITHOUT WARRANTY OF ANY KIND, EXPRESS OR\n"
    + "IMPLIED, INCLUDING BUT NOT LIMITED TO THE WARRANTIES OF MERCHANTABILITY,\n"
    + "FITNESS FOR A PARTICULAR PURPOSE AND NONINFRINGEMENT. IN NO EVENT SHALL THE\n"
    + "AUTHORS OR COPYRIGHT HOLDERS BE LIABLE FOR ANY CLAIM, DAMAGES OR OTHER\n"
    + "LIABILITY, WHETHER IN AN ACTION OF CONTRACT, TORT OR OTHERWISE, ARISING FROM,\n"
    + "OUT OF OR IN CONNECTION WITH THE SOFTWARE OR THE USE OR OTHER DEALINGS IN\n"
    + "THE SOFTWARE.\n"

  const LicenseTitle := "MIT License\n\n"

  /** The holder: the `GITHUB_USER` setting when it exists (even if it is
      empty), otherwise "Student Developer". */
  function Holder(githubUser: Option<string>): string {
    if githubUser.Some? then githubUser.value else "Student Developer"
  }

  /** The copyright line and the blank line after it. */
  function CopyrightLine(year: string, holder: string): string {
    "Copyright (c) " + year + " " + holder + "\n\n"
  }

  /** `add_mit_license`, with the year passed in. */
  function AddMitLicense(year: string, githubUser: Option<string>): string {
    LicenseTitle + (CopyrightLine(year, Holder(githubUser)) + MitNotice)
  }

  lemma PrefixOfConcat(a: string, b: string)
    ensures StartsWith(a + b, a) && (a + b)[|a|..] == b
  {
    assert (a + b)[..|a|] == a;
  }

  /** The text opens with the licence name, then the copyright line for
      the year and the holder, which defaults to "Student Developer". */
  lemma AddMitLicenseHeader(year: string, githubUser: Option<string>)
    ensures StartsWith(AddMitLicense(year, githubUser), LicenseTitle)
    ensures StartsWith(AddMitLicense(year, githubUser)[|LicenseTitle|..],
                       "Copyright (c) " + year + " " + Holder(githubUser) + "\n\n")
    ensures githubUser.None? ==> AddMitLicense(year, githubUser) == AddMitLicense(year, Some("Student Developer"))
  {
    var line := CopyrightLine(year, Holder(githubUser));
    PrefixOfConcat(LicenseTitle, line + MitNotice);
    PrefixOfConcat(line, MitNotice);
  }
}
