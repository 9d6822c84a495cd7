/** The publisher helpers of the application package: the licence text,
    creating a repository and adding the files one commit at a time, and
    turning Pages on. The host library's calls are outcomes passed in; a
    failure is the text of the exception the library raised. */
module AppPublisher {
  import opened Outcomes
  import opened Strings
  import opened Dicts
  import opened PyFormat

  const AppMitHead: string := "MIT License\n\nCopyright (c) "
  const AppMitBody: string :=
    "Permission is hereby granted, free of charge, to any person obtaining a copy...\n"
    + "(standard MIT body omitted for brevity)\n"

  /** MIT_LICENSE_TEXT, as the pieces of a `str.format` template. */
  const AppMitTemplate: seq<Piece> :=
    [Lit(AppMitHead), Field("year"), Lit(" "), Field("owner"), Lit("\n\n" + AppMitBody)]

  /** `owner or "Unknown"`. */
  function OwnerText(owner: string): string {
    if owner == "" then "Unknown" else owner
  }

  /** `make_mit_license`, with the year passed in. */
  function MakeMitLicense(year: string, owner: string): string {
    AppMitHead + year + " " + OwnerText(owner) + "\n\n" + AppMitBody
  }

  /** The template formats with the year and the owner to `MakeMitLicense`,
      and an empty owner is written as "Unknown". */
  lemma MakeMitLicenseFormats(year: string, owner: string)
    ensures Format(Render(AppMitTemplate), map["year" := year, "owner" := OwnerText(owner)])
            == Ok(MakeMitLicense(year, owner))
    ensures MakeMitLicense(year, "") == MakeMitLicense(year, "Unknown")
  {
    var env := map["year" := year, "owner" := OwnerText(owner)];
    FormatTwoFields(AppMitHead, "year", " ", "owner", "\n\n" + AppMitBody, env);
    assert env["year"] == year && env["owner"] == OwnerText(owner);
    assert AppMitHead + year + " " + OwnerText(owner) + ("\n\n" + AppMitBody) == MakeMitLicense(year, owner);
  }

  /** `owner_override or user.login`: an empty override counts as none. */
  function Owner(ownerOverride: Option<string>, login: string): (owner: string)
    ensures ownerOverride.Some? && ownerOverride.value != "" ==> owner == ownerOverride.value
    ensures ownerOverride.None? || ownerOverride.value == "" ==> owner == login
  {
    if ownerOverride.Some? && ownerOverride.value != "" then ownerOverride.value else login
  }

  /** The library calls `create_github_repo_and_push` makes. */
  datatype FileCall =
    | CreateRepoCall(name: string)
    | CreateFile(path: string, message: string, content: string, branch: string)

  /** What it returns: the repository address, the sha of the newest
      commit after the last file (`None` when no file was given) and the
      owner. */
  datatype PushSummary = PushSummary(repoUrl: string, commitSha: Option<string>, owner: string)

  function CreateFileCall(entry: (string, string)): FileCall {
    CreateFile(entry.0, "Add " + entry.0, entry.1, "main")
  }

  /** The file loop from some point on, with the sha seen so far:
      `commit(path)` is the newest commit's sha once the file is created,
      or the text of the exception raised by either step. */
  function FilesFrom(files: Dict, last: Option<string>, commit: string -> Result<string, string>)
    : (Result<Option<string>, string>, seq<FileCall>)
  {
    if files == [] then (Ok(last), [])
    else
      var step := [CreateFileCall(files[0])];
      match commit(files[0].0)
      case Err(e) => (Err("Failed to create file " + files[0].0 + ": " + e), step)
      case Ok(sha) =>
        var (r, rest) := FilesFrom(files[1..], Some(sha), commit);
        (r, step + rest)
  }

  /** `create_github_repo_and_push`: `create` is the new repository's
      address, or the text of the exception raised creating it. */
  function RepoPushSpec(repoName: string, files: Dict, login: string, ownerOverride: Option<string>,
                        create: Result<string, string>, commit: string -> Result<string, string>)
    : (Result<PushSummary, string>, seq<FileCall>)
  {
    var start := [CreateRepoCall(repoName)];
    match create
    case Err(e) => (Err("Failed to create repo: " + e), start)
    case Ok(url) =>
      var (r, calls) := FilesFrom(files, None, commit);
      (if r.Ok? then Ok(PushSummary(url, r.value, Owner(ownerOverride, login))) else Err(r.error), start + calls)
  }

  /** The file loop of `create_github_repo_and_push`, in the dictionary's
      order, keeping the last sha and stopping at the first failure. */
  method PushFiles(files: Dict, commit: string -> Result<string, string>)
      returns (r: Result<Option<string>, string>, calls: seq<FileCall>)
    ensures r == FilesFrom(files, None, commit).0
    ensures calls == FilesFrom(files, None, commit).1
  {
    var lastSha: Option<string> := None;
    calls := [];
    var i := 0;
    while i < |files|
      invariant 0 <= i <= |files|
      invariant FilesFrom(files, None, commit).0 == FilesFrom(files[i..], lastSha, commit).0
      invariant FilesFrom(files, None, commit).1 == calls + FilesFrom(files[i..], lastSha, commit).1
    {
      var (path, content) := files[i];
      ghost var before := calls;
      calls := calls + [CreateFile(path, "Add " + path, content, "main")];
      var outcome := commit(path);
      if outcome.Err? {
        return Err("Failed to create file " + path + ": " + outcome.error), calls;
      }
      ghost var rest := FilesFrom(files[i + 1..], Some(outcome.value), commit);
      assert files[i..][1..] == files[i + 1..];
      assert FilesFrom(files[i..], lastSha, commit).0 == rest.0;
      assert FilesFrom(files[i..], lastSha, commit).1 == [CreateFileCall(files[i])] + rest.1;
      assert before + ([CreateFileCall(files[i])] + rest.1) == calls + rest.1;
      lastSha := Some(outcome.value);
      i := i + 1;
    }
    assert files[i..] == [];
    r := Ok(lastSha);
  }

  /** `create_github_repo_and_push`, recording every library call. */
  method CreateGithubRepoAndPush(repoName: string, files: Dict, login: string, ownerOverride: Option<string>,
                                 create: Result<string, string>, commit: string -> Result<string, string>)
      returns (r: Result<PushSummary, string>, calls: seq<FileCall>)
    ensures r == RepoPushSpec(repoName, files, login, ownerOverride, create, commit).0
    ensures calls == RepoPushSpec(repoName, files, login, ownerOverride, create, commit).1
  {
    var owner := Owner(ownerOverride, login);
    calls := [CreateRepoCall(repoName)];
    if create.Err? {
      return Err("Failed to create repo: " + create.error), calls;
    }
    var last, pushed := PushFiles(files, commit);
    calls := calls + pushed;
    if last.Err? {
      return Err(last.error), calls;
    }
    r := Ok(PushSummary(create.value, last.value, owner));
  }

  /** The file loop creates the files in order, each with "Add <path>" on
      "main", and every file before the last one attempted succeeded. */
  lemma {:induction false} FilesFromCalls(files: Dict, last: Option<string>, commit: string -> Result<string, string>)
    ensures var calls := FilesFrom(files, last, commit).1;
      |calls| <= |files|
      && (forall j :: 0 <= j < |calls| ==> calls[j] == CreateFileCall(files[j]))
      && (forall j :: 0 <= j < |calls| - 1 ==> commit(files[j].0).Ok?)
  {
    if files != [] && commit(files[0].0).Ok? {
      var sha := commit(files[0].0).value;
      FilesFromCalls(files[1..], Some(sha), commit);
      var rest := FilesFrom(files[1..], Some(sha), commit).1;
      var calls := [CreateFileCall(files[0])] + rest;
      assert FilesFrom(files, last, commit).1 == calls;
      forall j | 0 <= j < |calls| ensures calls[j] == CreateFileCall(files[j]) {
        if j > 0 {
          assert calls[j] == rest[j - 1] && files[1..][j - 1] == files[j];
        }
      }
      forall j | 0 <= j < |calls| - 1 ensures commit(files[j].0).Ok? {
        if j > 0 {
          assert files[1..][j - 1] == files[j];
        }
      }
    }
  }

  /** The file loop succeeds exactly when every file does, after
      attempting every file, with the sha after the last file (or what it
      started with, for no files). */
  lemma {:induction false} FilesFromSucceeds(files: Dict, last: Option<string>, commit: string -> Result<string, string>)
    ensures var (r, calls) := FilesFrom(files, last, commit);
      (r.Ok? <==> forall j :: 0 <= j < |files| ==> commit(files[j].0).Ok?)
      && (r.Ok? ==> |calls| == |files|
                    && r.value == if files == [] then last else Some(commit(files[|files| - 1].0).value))
  {
    if files != [] && commit(files[0].0).Ok? {
      var sha := commit(files[0].0).value;
      FilesFromSucceeds(files[1..], Some(sha), commit);
      var (r, rest) := FilesFrom(files[1..], Some(sha), commit);
      assert FilesFrom(files, last, commit) == (r, [CreateFileCall(files[0])] + rest);
      assert forall j :: 0 <= j < |files[1..]| ==> files[1..][j] == files[j + 1];
      if !(forall j :: 0 <= j < |files| ==> commit(files[j].0).Ok?) {
        var k :| 0 <= k < |files| && !commit(files[k].0).Ok?;
        assert k > 0 && files[1..][k - 1] == files[k];
      }
    }
  }

  /** A failing file loop stops at the first failing path: its creation
      is the last call, and the error names the path and the exception. */
  lemma {:induction false} FilesFromFails(files: Dict, last: Option<string>, commit: string -> Result<string, string>)
    ensures var (r, calls) := FilesFrom(files, last, commit);
      r.Err? ==> 1 <= |calls| <= |files| && commit(files[|calls| - 1].0).Err?
                 && r.error == "Failed to create file " + files[|calls| - 1].0 + ": "
                               + commit(files[|calls| - 1].0).error
  {
    if files != [] && commit(files[0].0).Ok? {
      var sha := commit(files[0].0).value;
      FilesFromFails(files[1..], Some(sha), commit);
      var (r, rest) := FilesFrom(files[1..], Some(sha), commit);
      var calls := [CreateFileCall(files[0])] + rest;
      assert FilesFrom(files, last, commit) == (r, calls);
      if r.Err? {
        assert files[1..][|rest| - 1] == files[|calls| - 1];
      }
    }
  }

  /** A failed creation raises before any file is created; otherwise the
      repository is created first and the files follow; a success reports
      the repository address and the owner, and no sha for no files. */
  lemma RepoPushOutcome(repoName: string, files: Dict, login: string, ownerOverride: Option<string>,
                        create: Result<string, string>, commit: string -> Result<string, string>)
    ensures var (r, calls) := RepoPushSpec(repoName, files, login, ownerOverride, create, commit);
      calls != [] && calls[0] == CreateRepoCall(repoName)
      && (create.Err? ==> r == Err("Failed to create repo: " + create.error) && calls == [CreateRepoCall(repoName)])
      && (create.Ok? ==> calls[1..] == FilesFrom(files, None, commit).1
                         && (r.Ok? <==> FilesFrom(files, None, commit).0.Ok?))
      && (r.Ok? ==> create.Ok? && r.value.repoUrl == create.value
                    && r.value.owner == Owner(ownerOverride, login)
                    && (files == [] ==> r.value.commitSha.None?))
  {
    if create.Ok? {
      var (fr, fcalls) := FilesFrom(files, None, commit);
      assert ([CreateRepoCall(repoName)] + fcalls)[1..] == fcalls;
    }
  }

  /** `enable_github_pages`: only 201 and 204 are accepted; any other
      status raises with the status and the body text. */
  function EnableGithubPages(reply: Reply): (r: Result<(), string>)
    ensures r.Ok? <==> reply.Reply? && (reply.status == 201 || reply.status == 204)
    ensures reply.Reply? && r.Err? ==>
      r.error == "Failed to enable Pages: status=" + NatToString(reply.status) + " body=" + reply.text
    ensures reply.Raised? ==> r == Err(reply.reason)
  {
    match reply
    case Raised(reason) => Err(reason)
    case Reply(status, text) =>
      if status != 201 && status != 204 then
        Err("Failed to enable Pages: status=" + NatToString(status) + " body=" + text)
      else Ok(())
  }
}
