/** The submission store: the endpoint that receives a published
    repository's metadata, checks it and records it under a composite key,
    and the listing of everything recorded so far. */
module EvaluationStore {
  import opened Outcomes
  import opened Strings
  import opened Secrets

  /** The fields a submission must carry, in the order they are checked. */
  const StoreRequired: seq<string> :=
    ["email", "task", "round", "nonce", "repo_url", "commit_sha", "pages_url", "secret"]

  /** What is kept for a submission: the seven metadata fields and the time
      it was received. There is no place for the secret. */
  datatype Submission = Submission(email: string, task: string, round: string, nonce: string,
                                   repoUrl: string, commitSha: string, pagesUrl: string,
                                   timestamp: string)

  /** The body of a reply: the key written, an error message, or the text
      of the exception raised while parsing the body. */
  datatype StoreBody = StoredAt(key: string) | Error(message: string) | ParseFailure

  datatype StoreReply = StoreReply(status: nat, body: StoreBody)

  /** `f"{email}|{task}|{round}|{nonce}"`. */
  function StoreKey(email: string, task: string, round: string, nonce: string): string {
    email + "|" + task + "|" + round + "|" + nonce
  }

  /** The key is the four fields joined with `|`. */
  lemma StoreKeyJoin(email: string, task: string, round: string, nonce: string)
    ensures StoreKey(email, task, round, nonce) == Join([email, task, round, nonce], "|")
  {
    assert [email, task, round, nonce][1..] == [task, round, nonce];
    assert [task, round, nonce][1..] == [round, nonce];
    assert [round, nonce][1..] == [nonce];
    assert Join([round, nonce], "|") == round + "|" + nonce;
    assert Join([task, round, nonce], "|") == task + "|" + (round + "|" + nonce);
  }

  /** The key is not injective: a `|` inside a field lets two different
      submissions share a key, and the second overwrites the first. */
  lemma StoreKeyCollides()
    ensures StoreKey("a|b", "c", "1", "n") == StoreKey("a", "b|c", "1", "n")
  {
  }

  /** Without `|` inside the fields, the key determines the four fields:
      splitting it on `|` gives them back. */
  lemma StoreKeySplits(email: string, task: string, round: string, nonce: string)
    requires '|' !in email && '|' !in task && '|' !in round && '|' !in nonce
    ensures Split(StoreKey(email, task, round, nonce), '|') == [email, task, round, nonce]
  {
    StoreKeyJoin(email, task, round, nonce);
    SplitJoin([email, task, round, nonce], '|');
  }

  /** Every required field is present. */
  predicate Complete(f: map<string, string>) {
    "email" in f && "task" in f && "round" in f && "nonce" in f && "repo_url" in f
    && "commit_sha" in f && "pages_url" in f && "secret" in f
  }

  lemma CompleteIffNoneMissing(f: map<string, string>)
    ensures MissingFields(StoreRequired, f) == [] <==> Complete(f)
  {
    var r := StoreRequired;
    assert r[0] == "email" && r[1] == "task" && r[2] == "round" && r[3] == "nonce";
    assert r[4] == "repo_url" && r[5] == "commit_sha" && r[6] == "pages_url" && r[7] == "secret";
    if Complete(f) {
      assert forall i :: 0 <= i < |r| ==> r[i] in f;
    }
  }

  /** The submission a complete body describes; the secret is not part of it. */
  function RecordOf(f: map<string, string>, timestamp: string): Submission
    requires Complete(f)
  {
    Submission(f["email"], f["task"], f["round"], f["nonce"], f["repo_url"], f["commit_sha"],
               f["pages_url"], timestamp)
  }

  function KeyOf(f: map<string, string>): string
    requires Complete(f)
  {
    StoreKey(f["email"], f["task"], f["round"], f["nonce"])
  }

  /** The decision `receive_evaluation` takes on a body: the reply that
      rejects it, or the key and the record to write. */
  function Admit(body: Body, validSecret: string, timestamp: string): Result<(string, Submission), StoreReply>
  {
    match body
    case Malformed => Err(StoreReply(500, ParseFailure))
    case Object(f) =>
      var missing := MissingFields(StoreRequired, f);
      if missing != [] then Err(StoreReply(400, Error("Missing fields: " + PyListRepr(missing))))
      else
        CompleteIffNoneMissing(f);
        if !ValidSecret(validSecret, f["secret"]) then Err(StoreReply(403, Error("Invalid secret")))
        else Ok((KeyOf(f), RecordOf(f, timestamp)))
  }

  /** Rejections in precedence order: an unparseable body (500), then every
      missing field listed (400) whatever the secret, then a refused secret
      (403); a body is admitted exactly when none of these applies. */
  lemma AdmitRejects(body: Body, validSecret: string, timestamp: string)
    ensures body.Malformed? ==> Admit(body, validSecret, timestamp) == Err(StoreReply(500, ParseFailure))
    ensures body.Object? && MissingFields(StoreRequired, body.fields) != [] ==>
      Admit(body, validSecret, timestamp)
        == Err(StoreReply(400, Error("Missing fields: " + PyListRepr(MissingFields(StoreRequired, body.fields)))))
    ensures body.Object? && MissingFields(StoreRequired, body.fields) == [] ==>
      "secret" in body.fields
      && (Admit(body, validSecret, timestamp).Ok? <==> ValidSecret(validSecret, body.fields["secret"]))
      && (Admit(body, validSecret, timestamp).Err? ==> Admit(body, validSecret, timestamp).error == StoreReply(403, Error("Invalid secret")))
    ensures validSecret == "" ==> Admit(body, validSecret, timestamp).Err?
  {
    if body.Object? {
      CompleteIffNoneMissing(body.fields);
    }
  }

  /** An admitted body is written under `email|task|round|nonce`, with the
      seven metadata fields as sent and the time of receipt. */
  lemma AdmitRecord(body: Body, validSecret: string, timestamp: string)
    requires Admit(body, validSecret, timestamp).Ok?
    ensures body.Object?
    ensures var f := body.fields;
      var (key, rec) := Admit(body, validSecret, timestamp).value;
      Complete(f)
      && key == StoreKey(f["email"], f["task"], f["round"], f["nonce"])
      && rec == Submission(f["email"], f["task"], f["round"], f["nonce"], f["repo_url"],
                           f["commit_sha"], f["pages_url"], timestamp)
      && ValidSecret(validSecret, f["secret"])
  {
    CompleteIffNoneMissing(body.fields);
  }

  /** A complete body with an accepted secret is admitted. */
  lemma AdmitComplete(f: map<string, string>, validSecret: string, timestamp: string)
    requires Complete(f) && ValidSecret(validSecret, f["secret"])
    ensures Admit(Object(f), validSecret, timestamp) == Ok((KeyOf(f), RecordOf(f, timestamp)))
  {
    CompleteIffNoneMissing(f);
  }

  /** Which accepted secret was sent makes no difference to what is
      written: the secret is never stored. */
  lemma AdmitIgnoresSecret(f: map<string, string>, s: string, validSecret: string, timestamp: string)
    requires Admit(Object(f), validSecret, timestamp).Ok?
    requires ValidSecret(validSecret, s)
    ensures Admit(Object(f["secret" := s]), validSecret, timestamp) == Admit(Object(f), validSecret, timestamp)
  {
    var g := f["secret" := s];
    AdmitRecord(Object(f), validSecret, timestamp);
    AdmitComplete(f, validSecret, timestamp);
    SecretUpdateKeeps(f, s, timestamp);
    AdmitComplete(g, validSecret, timestamp);
  }

  /** Replacing the secret keeps the body complete, its key and its record. */
  lemma SecretUpdateKeeps(f: map<string, string>, s: string, timestamp: string)
    requires Complete(f)
    ensures Complete(f["secret" := s]) && f["secret" := s]["secret"] == s
    ensures KeyOf(f["secret" := s]) == KeyOf(f)
    ensures RecordOf(f["secret" := s], timestamp) == RecordOf(f, timestamp)
  {
  }

  /** The store's dictionary from key to record, in insertion order. */
  type Table = seq<(string, Submission)>

  predicate HasKey(t: Table, key: string) {
    exists i :: 0 <= i < |t| && t[i].0 == key
  }

  /** No key appears twice, as in a dictionary. */
  predicate DistinctKeys(t: Table) {
    forall i, j :: 0 <= i < j < |t| ==> t[i].0 != t[j].0
  }

  /** `submissions[key] = rec`: an existing key takes the new record in
      its own place; a new key is appended. */
  function Put(t: Table, key: string, rec: Submission): Table {
    if HasKey(t, key) then seq(|t|, i requires 0 <= i < |t| => if t[i].0 == key then (key, rec) else t[i])
    else t + [(key, rec)]
  }

  /** Writing one entry replaces it at its key and nowhere else: a new key
      goes to the end, so the store grows by one; a key already present
      keeps its first position, so the order of the store is the order in
      which keys were first written. Keys stay distinct, and the key now
      holds exactly the new record. */
  lemma WriteOneEntry(t: Table, key: string, rec: Submission)
    requires DistinctKeys(t)
    ensures var u := Put(t, key, rec);
      DistinctKeys(u)
      && (exists i :: 0 <= i < |u| && u[i] == (key, rec))
      && (forall i :: 0 <= i < |u| && u[i].0 == key ==> u[i].1 == rec)
    ensures forall i :: 0 <= i < |t| && t[i].0 != key ==> Put(t, key, rec)[i] == t[i]
    ensures !HasKey(t, key) ==> Put(t, key, rec) == t + [(key, rec)]
    ensures HasKey(t, key) ==> |Put(t, key, rec)| == |t|
    ensures HasKey(t, key) ==> forall i :: 0 <= i < |t| ==> Put(t, key, rec)[i].0 == t[i].0
  {
    var u := Put(t, key, rec);
    if HasKey(t, key) {
      var k :| 0 <= k < |t| && t[k].0 == key;
      assert u[k] == (key, rec);
    } else {
      assert u[|t|] == (key, rec);
      forall i, j | 0 <= i < j < |u| ensures u[i].0 != u[j].0 {
        if j == |t| {
          assert u[i] == t[i];
        }
      }
    }
  }

  /** The in-memory store of `receive_evaluation` and `list_submissions`:
      the dictionary from key to record, in insertion order, and the
      configured secret list (`""` when it is not set). */
  class SubmissionStore {
    var submissions: Table
    const validSecret: string

    /** The store is a dictionary: its keys are distinct. */
    ghost predicate Valid()
      reads this
    {
      DistinctKeys(submissions)
    }

    constructor(validSecret: string)
      ensures this.validSecret == validSecret
      ensures submissions == []
      ensures Valid()
    {
      this.validSecret := validSecret;
      submissions := [];
    }

    /** `receive_evaluation`: a rejected body leaves the store as it was;
        an admitted one is written at its key (`WriteOneEntry` says where)
        and the reply names the key. */
    method Receive(body: Body, timestamp: string) returns (reply: StoreReply)
      requires Valid()
      modifies this
      ensures Valid()
      ensures Admit(body, validSecret, timestamp).Err? ==>
        reply == Admit(body, validSecret, timestamp).error && submissions == old(submissions)
      ensures Admit(body, validSecret, timestamp).Ok? ==>
        var (key, rec) := Admit(body, validSecret, timestamp).value;
        reply == StoreReply(200, StoredAt(key))
        && submissions == Put(old(submissions), key, rec)
    {
      var d := Admit(body, validSecret, timestamp);
      if d.Err? {
        return d.error;
      }
      var (key, rec) := d.value;
      WriteOneEntry(submissions, key, rec);
      submissions := Put(submissions, key, rec);
      reply := StoreReply(200, StoredAt(key));
    }

    /** `list_submissions`: the whole store, in insertion order, unchanged. */
    method List() returns (all: Table)
      ensures all == submissions
    {
      all := submissions;
    }
  }
}
