/** Option and Result values, and the shapes of the replies that the
    collaborators of the pipeline (repository host, callback receiver,
    generation service) can give. A reply is either an HTTP status with
    its body text, or the exception that the HTTP client raised. */
module Outcomes {

  datatype Option<+T> = None | Some(value: T)

  datatype Result<+T, +E> = Ok(value: T) | Err(error: E)

  /** The outcome of one HTTP request: a response, or a raised transport
      error (connection failure, timeout) with its message. */
  datatype Reply = Reply(status: nat, text: string) | Raised(reason: string)

  /** The repository host's answer to "create repository": the status,
      the body text and the fields of the JSON body that are read. */
  datatype CreateReply =
    | CreateReply(status: nat, text: string, htmlUrl: string, cloneUrl: string, defaultBranch: Option<string>)
    | CreateRaised(reason: string)

  /** An inbound JSON body: unparseable, or an object whose fields are
      given by their string rendering. */
  datatype Body = Malformed | Object(fields: map<string, string>)

  /** `d.get(k)` on a dictionary of strings. */
  function Get(fields: map<string, string>, k: string): (r: Option<string>)
    ensures r.Some? <==> k in fields
    ensures r.Some? ==> r.value == fields[k]
  {
    if k in fields then Some(fields[k]) else None
  }

  /** `[k for k in required if k not in data]`: the required names that
      are absent, in the order they are listed. */
  function MissingFields(required: seq<string>, fields: map<string, string>): (missing: seq<string>)
    ensures |missing| <= |required|
    ensures forall k :: k in missing <==> k in required && k !in fields
    ensures missing == [] <==> forall i :: 0 <= i < |required| ==> required[i] in fields
  {
    if required == [] then []
    else if required[0] in fields then MissingFields(required[1..], fields)
    else [required[0]] + MissingFields(required[1..], fields)
  }

  /** Names that are present are not reported: the missing list depends
      only on the names after a run of present ones. */
  lemma {:induction false} MissingFieldsSkip(required: seq<string>, fields: map<string, string>, k: nat)
    requires k <= |required|
    requires forall i :: 0 <= i < k ==> required[i] in fields
    ensures MissingFields(required, fields) == MissingFields(required[k..], fields)
    decreases k
  {
    if k > 0 {
      assert required[0] in fields;
      MissingFieldsSkip(required[1..], fields, k - 1);
      assert required[1..][k - 1..] == required[k..];
    }
  }
}
