/**
 * The suggestion service (`TurtlAI`, reached as `FrogAI.shared`): the chat
 * request it sends, and how the response it gets back becomes the one value
 * its completion handler receives.
 */
module TurtlAI {
  import opened Wrappers
  import opened Strings
  import opened Tasks

  // ----------------------------------------------------------- request

  datatype ChatMessage = ChatMessage(role: string, content: string)

  /** The JSON body: model id, the two messages and the token cap. */
  datatype ChatPayload = ChatPayload(model: string, messages: seq<ChatMessage>, maxTokens: nat)

  /** The parts of the `URLRequest` the service sets besides its headers. */
  datatype Request = Request(url: string, httpMethod: string, httpBody: Option<ChatPayload>)

  const Endpoint := "https://openrouter.ai/api/v1/chat/completions"
  const ModelId := "mistralai/mistral-7b-instruct:free"
  const MaxTokens := 150

  const SystemPrompt :=
    "You are an AI assistant that helps users schedule their tasks optimally. Based on the task description, "
    + "priority level, and deadline, suggest the best time of day to complete the task.\n"
    + "\n"
    + "Consider these factors:\n"
    + "- High priority tasks should be done earlier in the day\n"
    + "- Creative tasks work better in the morning when the mind is fresh\n"
    + "- Administrative tasks can be done in the afternoon\n"
    + "- Physical tasks might be better in the morning or early afternoon\n"
    + "- Tasks requiring focus should avoid typical break times\n"
    + "\n"
    + "Respond with a concise suggestion like:\n"
    + "- \"Morning (9-11 AM) - Best for creative work and high priority tasks\"\n"
    + "- \"Afternoon (2-4 PM) - Good for administrative tasks\"\n"
    + "- \"Evening (6-8 PM) - Suitable for planning and review tasks\"\n"
    + "- \"Early morning (7-9 AM) - Ideal for important tasks requiring focus\"\n"
    + "\n"
    + "Keep your response under 100 characters and be specific about the time window."

  /** The user message; the deadline arrives already formatted in the medium date style. */
  function UserPrompt(task: string, priority: Priority, deadlineString: string): (u: string)
    ensures Contains(u, task) && Contains(u, priority.RawValue()) && Contains(u, deadlineString)
  {
    var head := "Task: " + task + "\nPriority: ";
    var middle := head + priority.RawValue() + "\nDeadline: ";
    var u := middle + deadlineString + "\n\nWhen is the best time to complete this task?";
    assert u[6..][..|task|] == task;
    assert u[|head|..][..|priority.RawValue()|] == priority.RawValue();
    assert u[|middle|..][..|deadlineString|] == deadlineString;
    u
  }

  /**
   * The payload: exactly two messages, the fixed system instruction and then
   * the user message naming the task, its priority and its deadline; the
   * fixed model id and a cap of 150 tokens.
   */
  function PayloadFor(task: string, priority: Priority, deadlineString: string): (p: ChatPayload)
    ensures p.model == ModelId && p.maxTokens == 150
    ensures |p.messages| == 2
    ensures p.messages[0] == ChatMessage("system", SystemPrompt)
    ensures p.messages[1].role == "user"
    ensures Contains(p.messages[1].content, task)
    ensures Contains(p.messages[1].content, priority.RawValue())
    ensures Contains(p.messages[1].content, deadlineString)
  {
    ChatPayload(ModelId,
      [ChatMessage("system", SystemPrompt), ChatMessage("user", UserPrompt(task, priority, deadlineString))],
      MaxTokens)
  }

  // ---------------------------------------------------------- response

  /** A value `JSONSerialization` can produce; numbers are kept whole. */
  datatype Json =
    | JNull
    | JBool(b: bool)
    | JNumber(n: int)
    | JString(str: string)
    | JArray(items: seq<Json>)
    | JObject(fields: map<string, Json>)

  /** The bytes of a response body, as far as parsing them goes. */
  datatype Body = Unparseable | Parsed(json: Json)

  /** What the data task's callback receives: whether `error` is set, and the data, if any. */
  datatype Response = Response(failed: bool, data: Option<Body>)

  /**
   * `json?["choices"] as? [[String: Any]]`, `.first?["message"] as? [String: Any]`,
   * `["content"] as? String`: every step must have the right shape, and the
   * choices must be an array of objects throughout.
   */
  function Content(json: Json): (r: Option<string>)
    ensures r.Some? <==>
      && json.JObject? && "choices" in json.fields
      && json.fields["choices"].JArray?
      && |json.fields["choices"].items| > 0
      && (forall e :: e in json.fields["choices"].items ==> e.JObject?)
      && "message" in json.fields["choices"].items[0].fields
      && json.fields["choices"].items[0].fields["message"].JObject?
      && "content" in json.fields["choices"].items[0].fields["message"].fields
      && json.fields["choices"].items[0].fields["message"].fields["content"].JString?
    ensures r.Some? ==> r.value == json.fields["choices"].items[0].fields["message"].fields["content"].str
  {
    if !json.JObject? || "choices" !in json.fields then None
    else
      var choices := json.fields["choices"];
      if !choices.JArray? || exists e :: e in choices.items && !e.JObject? then None
      else if |choices.items| == 0 then None
      else
        var first := choices.items[0].fields;
        if "message" !in first || !first["message"].JObject? then None
        else
          var msg := first["message"].fields;
          if "content" in msg && msg["content"].JString? then Some(msg["content"].str) else None
  }

  /** `getDefaultSuggestion(for:)`: a fixed, non-empty, already trimmed text per priority. */
  function DefaultSuggestion(priority: Priority): (s: string)
    ensures |s| > 0 && IsTrimmed(s)
  {
    match priority
    case High => "Morning (9-11 AM) - " + "Best for high priority tasks"
    case Medium => "Afternoon (2-4 PM) - " + "Good for medium priority tasks"
    case Low => "Evening (6-8 PM) - " + "Suitable for low priority tasks"
  }

  /** The three defaults differ from one another. */
  lemma DefaultsDistinct(p: Priority, q: Priority)
    requires p != q
    ensures DefaultSuggestion(p) != DefaultSuggestion(q)
  {
    assert DefaultSuggestion(p)[0] != DefaultSuggestion(q)[0];
  }

  /** The value the completion handler receives for a response. */
  function Outcome(response: Response, priority: Priority): (r: Option<string>)
    ensures r.None? <==> response.failed
    ensures r.Some? ==> IsTrimmed(r.value)
  {
    if response.failed then None
    else match response.data
      case None => Some(DefaultSuggestion(priority))
      case Some(Unparseable) => Some(DefaultSuggestion(priority))
      case Some(Parsed(json)) =>
        match Content(json)
        case Some(content) => Some(Trim(content))
        case None => Some(DefaultSuggestion(priority))
  }

  /**
   * `suggestTime(for:priority:deadline:completion:)`: builds the request one
   * field at a time, then runs the data task's callback on the response.
   * `completions` lists, in order, the values handed to `completion`.
   */
  method SuggestTime(task: string, priority: Priority, deadlineString: string, response: Response)
    returns (request: Request, completions: seq<Option<string>>)
    ensures request == Request(Endpoint, "POST", Some(PayloadFor(task, priority, deadlineString)))
    ensures completions == [Outcome(response, priority)]
  {
    var payload := PayloadFor(task, priority, deadlineString);
    request := Request(Endpoint, "GET", None);
    request := request.(httpMethod := "POST");
    request := request.(httpBody := Some(payload));

    completions := [];
    if response.failed {
      completions := completions + [None];
      return;
    }
    if response.data.Some? {
      match response.data.value {
        case Parsed(json) =>
          var content := Content(json);
          if content.Some? {
            completions := completions + [Some(Trim(content.value))];
          } else {
            completions := completions + [Some(DefaultSuggestion(priority))];
          }
        case Unparseable =>
          completions := completions + [Some(DefaultSuggestion(priority))];
      }
    } else {
      completions := completions + [Some(DefaultSuggestion(priority))];
    }
  }

  // -------------------------------------------------------- properties

  /** A transport error gives nil, whatever data came with it, and never a default. */
  lemma TransportErrorGivesNil(response: Response, priority: Priority)
    requires response.failed
    ensures Outcome(response, priority) == None
    ensures forall p :: Outcome(response, priority) != Some(DefaultSuggestion(p))
  {
  }

  /** No data, data that does not parse, or a parsed body without the content path: the default. */
  lemma MalformedGivesDefault(response: Response, priority: Priority)
    requires !response.failed
    requires || response.data.None?
             || response.data == Some(Unparseable)
             || (response.data.Some? && response.data.value.Parsed? && Content(response.data.value.json).None?)
    ensures Outcome(response, priority) == Some(DefaultSuggestion(priority))
  {
  }

  /** A well-formed answer gives its content trimmed, and nothing else. */
  lemma ContentGivesTrimmed(json: Json, priority: Priority, content: string)
    requires Content(json) == Some(content)
    ensures Outcome(Response(false, Some(Parsed(json))), priority) == Some(Trim(content))
  {
  }

  /**
   * Whatever the response, the completion receives either nil or a text with
   * no surrounding whitespace, which trimming again leaves as it is.
   */
  lemma OutcomeIsTrimmed(response: Response, priority: Priority)
    ensures Outcome(response, priority).Some? ==> IsTrimmed(Outcome(response, priority).value)
    ensures Outcome(response, priority).Some? ==>
      Trim(Outcome(response, priority).value) == Outcome(response, priority).value
  {
    if Outcome(response, priority).Some? {
      TrimTrimmed(Outcome(response, priority).value);
    }
  }

  /** Content that is already trimmed reaches the completion unchanged. */
  lemma TrimmedContentPassesThrough(json: Json, priority: Priority, content: string)
    requires Content(json) == Some(content) && IsTrimmed(content)
    ensures Outcome(Response(false, Some(Parsed(json))), priority) == Some(content)
  {
    TrimTrimmed(content);
  }

  /** A choices array holding anything but objects fails the `[[String: Any]]` cast, so the default is used. */
  lemma NonObjectChoiceGivesDefault(json: Json, priority: Priority, i: nat)
    requires json.JObject? && "choices" in json.fields && json.fields["choices"].JArray?
    requires i < |json.fields["choices"].items| && !json.fields["choices"].items[i].JObject?
    ensures Outcome(Response(false, Some(Parsed(json))), priority) == Some(DefaultSuggestion(priority))
  {
    assert json.fields["choices"].items[i] in json.fields["choices"].items;
  }
}
