/** The request to the text-generation endpoint and the extraction of the reply text. */
module Gemini {
  import opened Results

  /** A decoded JSON document, as `r.json()` gives it. */
  datatype Json =
    | JNull
    | JBool(b: bool)
    | JNum(n: real)
    | JStr(s: string)
    | JArr(items: seq<Json>)
    | JObj(fields: map<string, Json>)

  /** Python truthiness of a decoded JSON value, as `x or y` tests it. */
  predicate Truthy(v: Json) {
    match v
    case JNull => false
    case JBool(b) => b
    case JNum(n) => n != 0.0
    case JStr(s) => s != ""
    case JArr(items) => items != []
    case JObj(fields) => fields != map[]
  }

  /** A successful reply: its decoded body, and `json.dumps(body, indent=2)`, which the model
      takes as given. */
  datatype Response = Response(body: Json, dumped: string)

  /** The two values of the model selector. */
  datatype ModelId = Pro | Flash

  const FlashUrl := "https://generativelanguage.googleapis.com/v1beta/models/gemini-2.5-flash:generateContent"
  const ProUrl := "https://generativelanguage.googleapis.com/v1beta/models/gemini-2.5-pro:generateContent"

  function ModelUrl(model: ModelId): string {
    match model
    case Pro => ProUrl
    case Flash => FlashUrl
  }

  /** Message of the error raised when the API key is missing. */
  const MissingKeyMessage := "Falta GEMINI_API_KEY en entorno."

  /** The credential check: the key itself, or the configuration error when it is empty. */
  function EnsureKey(apiKey: string): (r: Result<string>)
    ensures r.Ok? <==> apiKey != ""
    ensures r.Ok? ==> r.value == apiKey
    ensures r.Err? ==> r.msg == MissingKeyMessage
  {
    if apiKey == "" then Err(MissingKeyMessage) else Ok(apiKey)
  }

  /** What is posted: the endpoint URL with the key as query, the prompt and the temperature. */
  datatype Request = Request(url: string, prompt: string, temperature: real)

  /** One call to the endpoint: the request it posted, if it got that far, and its result. */
  datatype Call = Call(sent: Option<Request>, result: Result<Json>)

  /** `o.get(key, default)`; None when `o` is not an object (the attribute lookup raises). */
  function Get(o: Json, key: string, default: Json): Option<Json> {
    match o
    case JObj(fields) => Some(if key in fields then fields[key] else default)
    case _ => None
  }

  /** `v[0]`; None where Python raises: an empty array or string, an object (its keys are
      strings, never 0), or a scalar. */
  function First(v: Json): Option<Json> {
    match v
    case JArr(items) => if items != [] then Some(items[0]) else None
    case JStr(s) => if s != "" then Some(JStr([s[0]])) else None
    case _ => None
  }

  /** The chained lookup `j.get("candidates", [{}])[0].get("content", {}).get("parts", [{}])[0]
      .get("text", "")`, with None where one of its steps raises. */
  function Picked(j: Json): Option<Json> {
    var none := JObj(map[]);
    match Get(j, "candidates", JArr([none]))
    case None => None
    case Some(candidates) =>
      match First(candidates)
      case None => None
      case Some(candidate) =>
        match Get(candidate, "content", none)
        case None => None
        case Some(content) =>
          match Get(content, "parts", JArr([none]))
          case None => None
          case Some(parts) =>
            match First(parts)
            case None => None
            case Some(part) => Get(part, "text", JStr(""))
  }

  /** The reply shown to the user: the picked text when the lookup succeeds and gives a truthy
      value, otherwise the dump of the whole body. */
  function Extract(resp: Response): (r: Json)
    ensures r == JStr(resp.dumped) || (Picked(resp.body) == Some(r) && Truthy(r))
  {
    match Picked(resp.body)
    case Some(v) => if Truthy(v) then v else JStr(resp.dumped)
    case None => JStr(resp.dumped)
  }

  /** The reference reading of a reply: `candidates[0].content.parts[0].text` when every step
      of that path is present and of the right kind, with no defaults. */
  function CandidateText(j: Json): Option<Json> {
    if j.JObj? && "candidates" in j.fields && j.fields["candidates"].JArr? && j.fields["candidates"].items != [] then
      var candidate := j.fields["candidates"].items[0];
      if candidate.JObj? && "content" in candidate.fields && candidate.fields["content"].JObj? then
        var content := candidate.fields["content"];
        if "parts" in content.fields && content.fields["parts"].JArr? && content.fields["parts"].items != [] then
          var part := content.fields["parts"].items[0];
          if part.JObj? && "text" in part.fields then Some(part.fields["text"]) else None
        else None
      else None
    else None
  }

  /** The defaults in the chained lookup never produce a text of their own: the reply is the
      value at the full path when that value is truthy, and the dump otherwise. */
  lemma ExtractIsCandidateOrDump(resp: Response)
    ensures var c := CandidateText(resp.body);
      Extract(resp) == if c.Some? && Truthy(c.value) then c.value else JStr(resp.dumped)
  {
    var none := JObj(map[]);
    var j := resp.body;
    if j.JObj? && "candidates" !in j.fields {
      assert Picked(j) == Some(JStr(""));
    } else if j.JObj? {
      var candidates := j.fields["candidates"];
      if candidates.JArr? && candidates.items != [] {
        var candidate := candidates.items[0];
        if candidate.JObj? && "content" !in candidate.fields {
          assert Picked(j) == Some(JStr(""));
        } else if candidate.JObj? && candidate.fields["content"].JObj? {
          var content := candidate.fields["content"];
          if "parts" !in content.fields {
            assert Picked(j) == Some(JStr(""));
          }
        }
      }
    }
  }

  /** A reply whose candidate text is a non-empty string yields exactly that text. */
  lemma ExtractCandidate(resp: Response, text: string)
    requires text != "" && CandidateText(resp.body) == Some(JStr(text))
    ensures Extract(resp) == JStr(text)
  {
    ExtractIsCandidateOrDump(resp);
  }

  /** `call_gemini`: the key check comes first, then `float(temp)`, and only then the post.
      `parseFloat` stands for Python's `float`, `endpoint` for the post, the status check and the
      decoding of the body together. */
  function CallGemini(prompt: string, temp: string, model: ModelId, apiKey: string,
                      parseFloat: string -> Result<real>, endpoint: Request -> Result<Response>): (r: Call)
    ensures apiKey == "" ==> r == Call(None, Err(MissingKeyMessage))
    ensures apiKey != "" && parseFloat(temp).Err? ==> r == Call(None, Err(parseFloat(temp).msg))
    ensures r.sent.Some? <==> apiKey != "" && parseFloat(temp).Ok?
    ensures r.sent.Some? ==>
      r.sent.value == Request(ModelUrl(model) + "?key=" + apiKey, prompt, parseFloat(temp).value) &&
      r.result == match endpoint(r.sent.value)
                  case Ok(resp) => Ok(Extract(resp))
                  case Err(msg) => Err(msg)
  {
    match EnsureKey(apiKey)
    case Err(msg) => Call(None, Err(msg))
    case Ok(key) =>
      match parseFloat(temp)
      case Err(msg) => Call(None, Err(msg))
      case Ok(t) =>
        var request := Request(ModelUrl(model) + "?key=" + key, prompt, t);
        match endpoint(request)
        case Err(msg) => Call(Some(request), Err(msg))
        case Ok(resp) => Call(Some(request), Ok(Extract(resp)))
  }
}
