/**
 * The agent runtime's entrypoint `invoke_agent`: it checks that the payload
 * names the five fields the automation needs, hands a prompt built from them
 * to the agent, and turns the agent's reply text back into a dictionary,
 * first as JSON, then as a Python literal, reporting an error record when
 * neither parser accepts it or when the parsed value is not a dictionary.
 *
 * The agent, the JSON parser and the Python-literal parser are parameters.
 */
module AgentEntrypoint {
  import opened Wrappers
  import opened Strings
  import DownloadDetector

  /** The payload fields the entrypoint requires, in the order it reads them. */
  const RequiredFields: seq<string> := ["weburl", "username", "password", "promptfile", "client_name"]

  /** How much of an unparseable reply is echoed back. */
  const RawEchoLimit: nat := 200

  /** The values a parser can produce. Dictionary keys are strings. */
  datatype PyValue =
    | PyNone
    | PyBool(b: bool)
    | PyInt(i: int)
    | PyFloat(text: string)
    | PyStr(s: string)
    | PyList(items: seq<PyValue>)
    | PyTuple(items: seq<PyValue>)
    | PyDict(entries: map<string, PyValue>)

  /** Python's `type(v).__name__`. */
  function TypeName(v: PyValue): string
  {
    match v
    case PyNone => "NoneType"
    case PyBool(_) => "bool"
    case PyInt(_) => "int"
    case PyFloat(_) => "float"
    case PyStr(_) => "str"
    case PyList(_) => "list"
    case PyTuple(_) => "tuple"
    case PyDict(_) => "dict"
  }

  /** What a parser makes of a text: a value, or the parse error it raises. */
  datatype Parse = Parsed(value: PyValue) | Unparseable

  /** A JSON payload with string-valued fields; `payload.get(k)` is falsy when `k` is missing or empty. */
  type Payload = map<string, string>

  predicate Present(payload: Payload, k: string)
  {
    k in payload && payload[k] != ""
  }

  /** The condition `all([weburl, username, password, promptfile, client_name])`. */
  predicate AllPresent(payload: Payload)
  {
    forall i :: 0 <= i < |RequiredFields| ==> Present(payload, RequiredFields[i])
  }

  function Field(payload: Payload, k: string): string
  {
    if k in payload then payload[k] else ""
  }

  const PromptHeading: string := "Execute web automation with these details:\n"

  /** One labelled line of the prompt. */
  function PromptLine(caption: string, value: string): string
  {
    "- " + caption + ": " + value + "\n"
  }

  /**
   * The instruction handed to the agent: the heading, then every field's
   * value on its own labelled line.
   */
  function Prompt(payload: Payload): (r: string)
    ensures PromptHeading <= r
    ensures Contains(r, PromptLine("Website URL", Field(payload, "weburl")))
    ensures Contains(r, PromptLine("Username", Field(payload, "username")))
    ensures Contains(r, PromptLine("Password", Field(payload, "password")))
    ensures Contains(r, PromptLine("Task", Field(payload, "promptfile")))
    ensures Contains(r, PromptLine("Client", Field(payload, "client_name")))
  {
    ContainsPiece(PromptHeading,
      PromptLine("Website URL", Field(payload, "weburl")),
      PromptLine("Username", Field(payload, "username")),
      PromptLine("Password", Field(payload, "password")),
      PromptLine("Task", Field(payload, "promptfile")),
      PromptLine("Client", Field(payload, "client_name")));
    PromptHeading
    + PromptLine("Website URL", Field(payload, "weburl"))
    + PromptLine("Username", Field(payload, "username"))
    + PromptLine("Password", Field(payload, "password"))
    + PromptLine("Task", Field(payload, "promptfile"))
    + PromptLine("Client", Field(payload, "client_name"))
  }

  /** An error record with a message, as the entrypoint builds it. */
  function ErrorRecord(message: string): map<string, PyValue>
  {
    map["status" := PyStr("error"), "message" := PyStr(message)]
  }

  /** Python's `s[:n]`. */
  function Head(s: string, n: nat): (r: string)
    ensures |r| <= n && r <= s
    ensures |s| <= n ==> r == s
    ensures |s| > n ==> |r| == n
  {
    if |s| <= n then s else s[..n]
  }

  /** `json.loads`, and `ast.literal_eval` only when JSON decoding fails. */
  function ParseReply(raw: string, jsonLoads: string -> Parse, literalEval: string -> Parse): (r: Parse)
    ensures jsonLoads(raw).Parsed? ==> r == jsonLoads(raw)
    ensures jsonLoads(raw).Unparseable? ==> r == literalEval(raw)
  {
    match jsonLoads(raw)
    case Parsed(v) => Parsed(v)
    case Unparseable => literalEval(raw)
  }

  /** What the entrypoint returns for the agent's reply text. */
  function Normalise(raw: string, jsonLoads: string -> Parse, literalEval: string -> Parse): (r: map<string, PyValue>)
    ensures ParseReply(raw, jsonLoads, literalEval).Parsed? && ParseReply(raw, jsonLoads, literalEval).value.PyDict? ==>
      r == ParseReply(raw, jsonLoads, literalEval).value.entries
    ensures ParseReply(raw, jsonLoads, literalEval).Unparseable? ==>
      && r.Keys == {"status", "message", "raw"}
      && r["status"] == PyStr("error") && r["message"] == PyStr("Failed to parse response")
      && r["raw"].PyStr? && r["raw"].s <= raw && |r["raw"].s| <= RawEchoLimit
      && (|raw| <= RawEchoLimit ==> r["raw"].s == raw)
    ensures ParseReply(raw, jsonLoads, literalEval).Parsed? && !ParseReply(raw, jsonLoads, literalEval).value.PyDict? ==>
      && r.Keys == {"status", "message"} && r["status"] == PyStr("error")
      && r["message"] == PyStr("Unexpected type: " + TypeName(ParseReply(raw, jsonLoads, literalEval).value))
  {
    match ParseReply(raw, jsonLoads, literalEval)
    case Unparseable => ErrorRecord("Failed to parse response")["raw" := PyStr(Head(raw, RawEchoLimit))]
    case Parsed(v) =>
      if v.PyDict? then v.entries else ErrorRecord("Unexpected type: " + TypeName(v))
  }

  /** One call: the prompt sent to the agent (None when the agent is not called) and the returned dictionary. */
  datatype Invocation = Invocation(prompt: Option<string>, response: map<string, PyValue>)

  /** `invoke_agent`; `agent` maps a prompt to the text of the first content block of its reply. */
  function InvokeAgent(payload: Payload, agent: string -> string, jsonLoads: string -> Parse, literalEval: string -> Parse): (r: Invocation)
    ensures r.prompt.None? <==> exists i :: 0 <= i < |RequiredFields| && !Present(payload, RequiredFields[i])
    ensures r.prompt.None? ==> r.response == ErrorRecord("Missing required fields")
    ensures r.prompt.Some? ==> r.prompt.value == Prompt(payload)
    ensures r.prompt.Some? ==> r.response == Normalise(agent(r.prompt.value), jsonLoads, literalEval)
  {
    if !AllPresent(payload) then Invocation(None, ErrorRecord("Missing required fields"))
    else
      var prompt := Prompt(payload);
      Invocation(Some(prompt), Normalise(agent(prompt), jsonLoads, literalEval))
  }

  // ---------------------------------------------------------------------
  // The download tool's records

  /** The dictionary the download tool returns for each of its results. */
  function ResultRecord(r: DownloadDetector.ToolResult): (d: map<string, PyValue>)
    ensures "status" in d && d["status"] == PyStr(DownloadDetector.Status(r))
    ensures r.Success? ==> d.Keys == {"status", "s3_key", "s3_url", "file_name", "file_size", "method"}
    ensures !r.Success? ==> d.Keys == {"status", "reason"} && d["reason"] == PyStr(r.reason)
  {
    match r
    case Success(key, url, name, size, via) =>
      map["status" := PyStr("success"), "s3_key" := PyStr(key), "s3_url" := PyStr(url),
          "file_name" := PyStr(name), "file_size" := PyInt(size), "method" := PyStr(via)]
    case Error(reason) => map["status" := PyStr("error"), "reason" := PyStr(reason)]
    case S3Error(reason) => map["status" := PyStr("s3_error"), "reason" := PyStr(reason)]
  }

  /** Different tool results give different records. */
  lemma ResultRecordInjective(r1: DownloadDetector.ToolResult, r2: DownloadDetector.ToolResult)
    requires ResultRecord(r1) == ResultRecord(r2)
    ensures r1 == r2
  {
    var d := ResultRecord(r1);
    assert d["status"] == PyStr(DownloadDetector.Status(r1)) == PyStr(DownloadDetector.Status(r2));
    if r1.Success? {
      assert d["s3_key"] == PyStr(r1.s3Key) == PyStr(r2.s3Key);
      assert d["file_size"] == PyInt(r1.fileSize) == PyInt(r2.fileSize);
    }
  }

  // ---------------------------------------------------------------------
  // Properties

  /** A missing or empty field stops the call before the agent: the result does not depend on it. */
  lemma MissingFieldSkipsAgent(payload: Payload, k: string, agent1: string -> string, agent2: string -> string,
                               jsonLoads: string -> Parse, literalEval: string -> Parse)
    requires k in RequiredFields && !Present(payload, k)
    ensures InvokeAgent(payload, agent1, jsonLoads, literalEval) == InvokeAgent(payload, agent2, jsonLoads, literalEval)
    ensures InvokeAgent(payload, agent1, jsonLoads, literalEval) == Invocation(None, ErrorRecord("Missing required fields"))
  {
    var i :| 0 <= i < |RequiredFields| && RequiredFields[i] == k;
    assert !Present(payload, RequiredFields[i]);
  }

  lemma ContainsPiece(a: string, b: string, c: string, d: string, e: string, f: string)
    ensures Contains(a + b + c + d + e + f, b) && Contains(a + b + c + d + e + f, c)
    ensures Contains(a + b + c + d + e + f, d) && Contains(a + b + c + d + e + f, e)
    ensures Contains(a + b + c + d + e + f, f)
  {
    ContainsInfix(a, b, c + d + e + f);
    assert a + b + (c + d + e + f) == a + b + c + d + e + f;
    ContainsInfix(a + b, c, d + e + f);
    assert a + b + c + (d + e + f) == a + b + c + d + e + f;
    ContainsInfix(a + b + c, d, e + f);
    assert a + b + c + d + (e + f) == a + b + c + d + e + f;
    ContainsInfix(a + b + c + d, e, f);
    ContainsInfix(a + b + c + d + e, f, "");
    assert a + b + c + d + e + f + "" == a + b + c + d + e + f;
  }

  /**
   * When the agent relays the download tool's record, as JSON or as a
   * Python literal, the caller receives that record unchanged with the
   * tool's status.
   */
  lemma ToolRecordReachesCaller(payload: Payload, agent: string -> string, jsonLoads: string -> Parse,
                                literalEval: string -> Parse, result: DownloadDetector.ToolResult)
    requires AllPresent(payload)
    requires var raw := agent(Prompt(payload));
      jsonLoads(raw) == Parsed(PyDict(ResultRecord(result)))
      || (jsonLoads(raw).Unparseable? && literalEval(raw) == Parsed(PyDict(ResultRecord(result))))
    ensures var r := InvokeAgent(payload, agent, jsonLoads, literalEval);
      r == Invocation(Some(Prompt(payload)), ResultRecord(result))
      && r.response["status"] == PyStr(DownloadDetector.Status(result))
  {
  }

  /** A reply either passes through as the parsed dictionary or becomes an error record; never anything else. */
  lemma ReplyIsDictOrError(raw: string, jsonLoads: string -> Parse, literalEval: string -> Parse)
    ensures var r := Normalise(raw, jsonLoads, literalEval);
      var p := ParseReply(raw, jsonLoads, literalEval);
      (p.Parsed? && p.value.PyDict? && r == p.value.entries)
      || ("status" in r && r["status"] == PyStr("error") && "message" in r)
  {
  }

  /** Echo of an unparseable reply: a long reply is cut to its first 200 characters, a short one kept whole. */
  lemma LongReplyEchoCut(raw: string, jsonLoads: string -> Parse, literalEval: string -> Parse)
    requires jsonLoads(raw).Unparseable? && literalEval(raw).Unparseable?
    ensures var r := Normalise(raw, jsonLoads, literalEval);
      r["raw"] == PyStr(if |raw| <= RawEchoLimit then raw else raw[..RawEchoLimit])
  {
  }
}
