/** The generation helpers of the revision route: the note naming the
    attachments, and the rule that turns the service's reply into the
    generated files (the text from the first `{` to the last `}`, parsed
    as JSON, with no fallback when that fails).

    The service is an outcome passed in: its message content, or the text
    of the exception raised while building the prompt or asking. Parsing
    is a function passed in, since only its success or failure matters. */
module LlmGenerator {
  import opened Outcomes
  import opened Strings

  type Attachment = map<string, string>

  /** The ways generation raises: a `KeyError` for an attachment without
      a name, the service failing, or the `ValueError` for a reply that
      does not parse. */
  datatype GenError = MissingName(key: string) | ServiceFailed(reason: string) | Unparsed(message: string)

  const NotePrefix := "\nAttached files: "

  /** The names of the attachments, in order, or the first without one. */
  function Names(attachments: seq<Attachment>): (r: Result<seq<string>, GenError>)
    ensures r.Ok? <==> forall i :: 0 <= i < |attachments| ==> "name" in attachments[i]
    ensures r.Ok? ==> |r.value| == |attachments|
    ensures r.Ok? ==> forall i :: 0 <= i < |attachments| ==> r.value[i] == attachments[i]["name"]
  {
    if attachments == [] then Ok([])
    else if "name" !in attachments[0] then Err(MissingName("name"))
    else
      match Names(attachments[1..])
      case Err(e) => Err(e)
      case Ok(rest) => Ok([attachments[0]["name"]] + rest)
  }

  /** The attachment note: empty for no attachments (`None` or an empty
      list), otherwise the prefix and the names joined with ", ". */
  function AttachmentNote(attachments: Option<seq<Attachment>>): Result<string, GenError>
  {
    if attachments.None? || attachments.value == [] then Ok("")
    else
      match Names(attachments.value)
      case Err(e) => Err(e)
      case Ok(names) => Ok(NotePrefix + Join(names, ", "))
  }

  /** No attachments give no note; one attachment gives its name after the
      prefix; an attachment without a name raises. */
  lemma AttachmentNoteCases(attachments: Option<seq<Attachment>>)
    ensures attachments.None? || attachments.value == [] ==> AttachmentNote(attachments) == Ok("")
    ensures attachments.Some? && |attachments.value| == 1 && "name" in attachments.value[0] ==>
      AttachmentNote(attachments) == Ok(NotePrefix + attachments.value[0]["name"])
    ensures attachments.Some? && (exists i :: 0 <= i < |attachments.value| && "name" !in attachments.value[i]) ==>
      AttachmentNote(attachments) == Err(MissingName("name"))
  {
    if attachments.Some? && (exists i :: 0 <= i < |attachments.value| && "name" !in attachments.value[i]) {
      NamesMissing(attachments.value);
    }
  }

  lemma {:induction false} NamesMissing(attachments: seq<Attachment>)
    requires exists i :: 0 <= i < |attachments| && "name" !in attachments[i]
    ensures Names(attachments) == Err(MissingName("name"))
  {
    if "name" in attachments[0] {
      var i :| 0 <= i < |attachments| && "name" !in attachments[i];
      assert attachments[1..][i - 1] == attachments[i];
      NamesMissing(attachments[1..]);
    }
  }

  /** Joining keeps the order: one more attachment adds ", " and its name
      at the end of the note. */
  lemma {:induction false} AttachmentNoteAppend(attachments: seq<Attachment>, last: Attachment)
    requires attachments != []
    requires AttachmentNote(Some(attachments)).Ok? && "name" in last
    ensures AttachmentNote(Some(attachments + [last])) == Ok(AttachmentNote(Some(attachments)).value + ", " + last["name"])
  {
    assert Names(attachments).Ok?;
    var names := Names(attachments).value;
    assert forall i :: 0 <= i < |attachments| ==> (attachments + [last])[i] == attachments[i];
    assert (attachments + [last])[|attachments|] == last;
    assert Names(attachments + [last]).Ok?;
    var all := Names(attachments + [last]).value;
    assert all == names + [last["name"]];
    assert AttachmentNote(Some(attachments)).value == NotePrefix + Join(names, ", ");
    JoinAppend(names, last["name"], ", ");
    assert AttachmentNote(Some(attachments + [last])) == Ok(NotePrefix + Join(all, ", "));
    assert NotePrefix + (Join(names, ", ") + ", " + last["name"])
        == (NotePrefix + Join(names, ", ")) + ", " + last["name"];
  }

  lemma {:induction false} JoinAppend(parts: seq<string>, x: string, sep: string)
    requires parts != []
    ensures Join(parts + [x], sep) == Join(parts, sep) + sep + x
  {
    if |parts| == 1 {
      assert (parts + [x])[1..] == [x];
    } else {
      assert (parts + [x])[1..] == parts[1..] + [x];
      JoinAppend(parts[1..], x, sep);
    }
  }

  /** `content[content.find("{"):content.rfind("}") + 1]`. */
  function ExtractJson(content: string): (json: string)
    ensures |json| <= |content|
  {
    PySlice(content, IndexOf(content, '{'), LastIndexOf(content, '}') + 1)
  }

  /** When the first `{` comes before the last `}`, the slice runs from
      that brace through the last `}`, so it opens with `{` and closes
      with `}`. */
  lemma ExtractJsonBraces(content: string)
    requires 0 <= IndexOf(content, '{') < LastIndexOf(content, '}')
    ensures var i, j := IndexOf(content, '{'), LastIndexOf(content, '}');
      ExtractJson(content) == content[i..j + 1]
      && '{' !in content[..i] && '}' !in content[j + 1..]
      && ExtractJson(content)[0] == '{'
      && ExtractJson(content)[|ExtractJson(content)| - 1] == '}'
  {
    var i, j := IndexOf(content, '{'), LastIndexOf(content, '}');
    SliceBetween(content, i, j);
    assert ExtractJson(content) == content[i..j + 1];
  }

  /** The slice from an opening brace through a later closing brace. */
  lemma SliceBetween(content: string, i: int, j: int)
    requires 0 <= i < j < |content| && content[i] == '{' && content[j] == '}'
    ensures PySlice(content, i, j + 1) == content[i..j + 1]
    ensures |content[i..j + 1]| == j - i + 1 && content[i..j + 1][0] == '{' && content[i..j + 1][j - i] == '}'
  {
    assert Clamp(i, |content|) == i && Clamp(j + 1, |content|) == j + 1;
  }

  /** With no `}` at all the end index is 0 and the slice is empty; a `}`
      only before the first `{` gives nothing either. */
  lemma ExtractJsonEmpty(content: string)
    requires '}' !in content || 0 <= LastIndexOf(content, '}') < IndexOf(content, '{')
    ensures ExtractJson(content) == []
  {
    var i, j := IndexOf(content, '{'), LastIndexOf(content, '}');
    if '}' !in content {
      assert Clamp(j + 1, |content|) == 0;
    } else {
      assert Clamp(i, |content|) == i && Clamp(j + 1, |content|) == j + 1;
    }
  }

  /** With no `{` the start index -1 counts from the end: the slice is
      empty, or the single closing brace when the text ends with `}`. */
  lemma ExtractJsonNoOpenBrace(content: string)
    requires '{' !in content
    ensures ExtractJson(content) == (if content != [] && content[|content| - 1] == '}' then "}" else [])
  {
    var j := LastIndexOf(content, '}');
    if content != [] {
      assert Clamp(-1, |content|) == |content| - 1;
      if content[|content| - 1] == '}' {
        assert j == |content| - 1;
      } else {
        assert j < |content| - 1;
      }
    }
  }

  /** The reply's text after the outer whitespace is removed, sliced and
      parsed; a failure raises with the whole stripped text. */
  function ParseReply(reply: string, parse: string -> Body): Result<map<string, string>, GenError>
  {
    var content := Strip(reply);
    match parse(ExtractJson(content))
    case Malformed => Err(Unparsed("LLM output could not be parsed as JSON:\n" + content))
    case Object(fields) => Ok(fields)
  }

  /** `generate_app_code`: the note first (a nameless attachment raises
      before the service is asked), then the service, then the parse. */
  function GenerateAppCode(attachments: Option<seq<Attachment>>, service: Result<string, string>,
                           parse: string -> Body): Result<map<string, string>, GenError>
  {
    match AttachmentNote(attachments)
    case Err(e) => Err(e)
    case Ok(_) =>
      match service
      case Err(reason) => Err(ServiceFailed(reason))
      case Ok(reply) => ParseReply(reply, parse)
  }

  /** `update_app_code`: the service, then the same parse. */
  function UpdateAppCode(service: Result<string, string>, parse: string -> Body): Result<map<string, string>, GenError>
  {
    match service
    case Err(reason) => Err(ServiceFailed(reason))
    case Ok(reply) => ParseReply(reply, parse)
  }

  /** Generation yields a JSON object exactly when the sliced, stripped
      reply parses; otherwise it raises carrying the stripped reply, with
      no fallback; and the update uses the same rule for the same reply. */
  lemma GenerateOutcome(attachments: Option<seq<Attachment>>, reply: string, parse: string -> Body)
    requires AttachmentNote(attachments).Ok?
    ensures GenerateAppCode(attachments, Ok(reply), parse).Ok? <==> parse(ExtractJson(Strip(reply))).Object?
    ensures GenerateAppCode(attachments, Ok(reply), parse).Ok? ==>
      GenerateAppCode(attachments, Ok(reply), parse).value == parse(ExtractJson(Strip(reply))).fields
    ensures GenerateAppCode(attachments, Ok(reply), parse).Err? ==>
      GenerateAppCode(attachments, Ok(reply), parse) == Err(Unparsed("LLM output could not be parsed as JSON:\n" + Strip(reply)))
    ensures UpdateAppCode(Ok(reply), parse) == GenerateAppCode(attachments, Ok(reply), parse)
  {
    var p := ParseReply(reply, parse);
    assert GenerateAppCode(attachments, Ok(reply), parse) == p;
    assert UpdateAppCode(Ok(reply), parse) == p;
  }

  /** A reply with no `}` is always refused when the empty text does not
      parse, whatever else it says. */
  lemma NoCloseBraceRaises(reply: string, parse: string -> Body)
    requires '}' !in Strip(reply) && parse("").Malformed?
    ensures UpdateAppCode(Ok(reply), parse) == Err(Unparsed("LLM output could not be parsed as JSON:\n" + Strip(reply)))
  {
    ExtractJsonEmpty(Strip(reply));
  }
}
