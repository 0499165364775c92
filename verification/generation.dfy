/** The body of the background generation task, up to the text it hands to the output field. */
module Generation {
  import opened Results
  import opened Text
  import opened Prompt
  import opened Gemini

  /** Used when the temperature field is blank. */
  const DefaultTemperature := "0.2"

  /** `temp_field.text.strip() or "0.2"`: the stripped field, or the default when it is blank.
      Any other text, numeric or not, is passed on to `float` as it is. */
  function TemperatureArg(field: string): (r: string)
    ensures IsBlank(field) ==> r == DefaultTemperature
    ensures !IsBlank(field) ==> r == Strip(field) && r != "" && !IsSpace(r[0]) && !IsSpace(r[|r| - 1])
  {
    var t := Strip(field);
    if t != "" then t else DefaultTemperature
  }

  /** Everything outside the program the task consults: the staged diff, the API key read at
      start-up, Python's `float`, the endpoint, and the message with which the output field refuses
      a reply that is not a string. */
  datatype Collaborators = Collaborators(
    diff: DiffSource,
    apiKey: string,
    parseFloat: string -> Result<real>,
    endpoint: Request -> Result<Response>,
    nonTextError: string)

  /** One run of the task: the prompt it built, the endpoint call, and what reaches the output
      field (a text, or the message of the exception caught at the task boundary). */
  datatype TaskRun = TaskRun(prompt: string, call: Call, outcome: Result<string>)

  /** Assigning the reply to the output field: a string is taken, anything else is refused. */
  function Delivered(result: Result<Json>, nonTextError: string): (r: Result<string>)
    ensures r.Ok? <==> result.Ok? && result.value.JStr?
    ensures r.Ok? ==> result.value == JStr(r.value)
    ensures result.Err? ==> r == Err(result.msg)
  {
    match result
    case Err(msg) => Err(msg)
    case Ok(JStr(s)) => Ok(s)
    case Ok(_) => Err(nonTextError)
  }

  /** The task: build the prompt from the fields and the diff, call the endpoint with the
      temperature argument and the selected model, and deliver the reply. */
  function Task(template: string, context: string, lang: string, model: ModelId, temperature: string,
                env: Collaborators): (r: TaskRun)
    ensures r.prompt == BuildPrompt(template, context, lang, GitDiff(env.diff))
    ensures env.apiKey == "" ==> r.call.sent == None && r.outcome == Err(MissingKeyMessage)
    ensures r.call.sent.Some? ==>
      r.call.sent.value.prompt == r.prompt &&
      Some(r.call.sent.value.temperature) == match env.parseFloat(TemperatureArg(temperature))
                                             case Ok(t) => Some(t)
                                             case Err(_) => None
    ensures r.outcome.Ok? ==> r.call.sent.Some? && r.call.result == Ok(JStr(r.outcome.value))
    ensures r.call == CallGemini(r.prompt, TemperatureArg(temperature), model, env.apiKey, env.parseFloat, env.endpoint)
    ensures r.outcome == Delivered(r.call.result, env.nonTextError)
  {
    var prompt := BuildPrompt(template, context, lang, GitDiff(env.diff));
    var call := CallGemini(prompt, TemperatureArg(temperature), model, env.apiKey, env.parseFloat, env.endpoint);
    TaskRun(prompt, call, Delivered(call.result, env.nonTextError))
  }

  /** A reply whose candidate text is a non-empty string puts that text, unchanged, in the
      output field. */
  lemma CandidateTextIsDelivered(template: string, context: string, lang: string, model: ModelId,
                                 temperature: string, env: Collaborators, resp: Response, text: string)
    requires text != "" && CandidateText(resp.body) == Some(JStr(text))
    ensures var run := Task(template, context, lang, model, temperature, env);
      run.call.sent.Some? && env.endpoint(run.call.sent.value) == Ok(resp) ==> run.outcome == Ok(text)
  {
    var run := Task(template, context, lang, model, temperature, env);
    if run.call.sent.Some? && env.endpoint(run.call.sent.value) == Ok(resp) {
      ExtractCandidate(resp, text);
      assert run.call.result == Ok(JStr(text));
    }
  }

  /** A temperature that `float` rejects fails the task before any request, with `float`'s
      message. */
  lemma RejectedTemperatureFails(template: string, context: string, lang: string, model: ModelId,
                                 temperature: string, env: Collaborators)
    requires env.apiKey != "" && env.parseFloat(TemperatureArg(temperature)).Err?
    ensures var run := Task(template, context, lang, model, temperature, env);
      run.call.sent == None && run.outcome == Err(env.parseFloat(TemperatureArg(temperature)).msg)
  {
  }

  /** A transport error on the request the task sends fails the task with that error's message. */
  lemma TransportErrorFails(template: string, context: string, lang: string, model: ModelId,
                            temperature: string, env: Collaborators, msg: string)
    ensures var run := Task(template, context, lang, model, temperature, env);
      run.call.sent.Some? && env.endpoint(run.call.sent.value) == Err(msg) ==> run.outcome == Err(msg)
  {
  }
}
