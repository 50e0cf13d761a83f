/**
  The JSON chat client (src/chatter_json.rs): field validation and extraction on the
  returned JSON value, and the bounded retry loop around one chat request.

  The chat service is an oracle: `responses[i]` is the answer to the i-th request the
  loop issues. Parsing the answer's text with `serde_json::from_str` is opaque; each
  answer carries the value that parse produces, or `None` when the text is not JSON.
*/
module ChatterJson {
  import opened Wrappers
  import opened Errors
  import opened Json
  import Strings

  const MODEL: string := "gpt-4-1106-preview"
  const MAX_TOKENS: nat := 2048
  const MAX_RETRIES: nat := 5

  /** The finish reasons the service reports; only `Stop` ends the retry loop. */
  datatype FinishReason = Stop | Length | ToolCalls | ContentFilter | FunctionCall

  /** An answer's text and what `serde_json::from_str` makes of it. */
  datatype Content = Content(text: string, parsed: Option<Json>)

  /** The one choice of an answer. */
  datatype ChatChoice = ChatChoice(finishReason: Option<FinishReason>, content: Option<Content>)

  /** One answer from the service: a choice, or the transport/API error instead. */
  datatype ApiResponse = ApiOk(choice: ChatChoice) | ApiErr(message: string)

  /** A message of a request: the agent's instructions, or the user's text. */
  datatype ChatMessage = System(content: string) | User(content: string)

  // ---------------------------------------------------------------------------
  // parse_json

  /** `parse_json`: the JSON value of the choice's text. */
  function ParseJson(choice: ChatChoice): (r: Result<Json, AiCriticError>)
    ensures r == Err(NoTextField) <==> choice.content.None?
    ensures r.Ok? <==> choice.content.Some? && choice.content.value.parsed.Some?
    ensures r.Ok? ==> r.value == choice.content.value.parsed.value
    ensures r.Err? ==> r.error == NoTextField || r.error.JsonParseError?
  {
    match choice.content
    case None => Err(NoTextField)
    case Some(c) =>
      match c.parsed
      case None => Err(JsonParseError("invalid JSON: " + c.text))
      case Some(j) => Ok(j)
  }

  // ---------------------------------------------------------------------------
  // validate_fields

  /**
    `validate_fields`: fails unless `value` is an object holding every key of `fields`;
    on success yields the object's other keys, which callers only warn about.
  */
  function ValidateFields(value: Json, fields: seq<string>): (r: Result<set<string>, AiCriticError>)
    ensures !value.JObj? ==> r == Err(NotJsonObject)
    ensures value.JObj? ==> (r.Ok? <==> forall f :: f in fields ==> f in value.obj)
    ensures value.JObj? && r.Err? ==>
              r.error.MissingJsonFields? &&
              forall f :: f in r.error.fields <==> f in fields && f !in value.obj
    ensures r.Ok? ==> forall k :: k in r.value <==> k in value.obj && k !in fields
  {
    match value
    case JObj(obj) =>
      var required := set f | f in fields;
      var missing := required - obj.Keys;
      if missing != {} then Err(MissingJsonFields(missing))
      else
        assert required <= obj.Keys by {
          forall f | f in required ensures f in obj.Keys {
            assert f !in missing;
          }
        }
        Ok(obj.Keys - required)
    case _ => Err(NotJsonObject)
  }

  // ---------------------------------------------------------------------------
  // get_field_string

  /** `s` has the two characters backslash and `n` at position `i`. */
  predicate EscapeAt(s: string, i: int) {
    0 <= i && i + 1 < |s| && s[i] == '\\' && s[i + 1] == 'n'
  }

  predicate NoEscapes(s: string) {
    forall i :: 0 <= i < |s| ==> !EscapeAt(s, i)
  }

  /** `s.replace("\\n", "\n")`: every backslash-`n` pair, left to right, becomes a newline. */
  function Unescape(s: string): string
  {
    if |s| < 2 then s
    else if s[0] == '\\' && s[1] == 'n' then "\n" + Unescape(s[2..])
    else [s[0]] + Unescape(s[1..])
  }

  /** A string without backslash-`n` pairs is returned unchanged. */
  lemma {:induction false} UnescapeIdentity(s: string)
    requires NoEscapes(s)
    ensures Unescape(s) == s
  {
    if |s| >= 2 {
      assert !EscapeAt(s, 0);
      assert NoEscapes(s[1..]) by {
        forall i | 0 <= i < |s[1..]| ensures !EscapeAt(s[1..], i) {
          assert !EscapeAt(s, i + 1);
        }
      }
      UnescapeIdentity(s[1..]);
      assert [s[0]] + s[1..] == s;
    }
  }

  /** The first character of the unescaped string. */
  lemma UnescapeHead(s: string)
    requires |s| >= 1
    ensures |Unescape(s)| >= 1
    ensures Unescape(s)[0] == if EscapeAt(s, 0) then '\n' else s[0]
  {
  }

  /** No backslash-`n` pair survives the replacement, not even one formed across a replaced pair. */
  lemma {:induction false} UnescapeLeavesNoEscapes(s: string)
    ensures NoEscapes(Unescape(s))
  {
    var u := Unescape(s);
    if |s| < 2 {
    } else if s[0] == '\\' && s[1] == 'n' {
      UnescapeLeavesNoEscapes(s[2..]);
      var t := Unescape(s[2..]);
      assert u == "\n" + t;
      forall i | 0 <= i < |u| ensures !EscapeAt(u, i) {
        if i > 0 {
          assert !EscapeAt(t, i - 1);
        }
      }
    } else {
      UnescapeLeavesNoEscapes(s[1..]);
      var t := Unescape(s[1..]);
      assert u == [s[0]] + t;
      UnescapeHead(s[1..]);
      forall i | 0 <= i < |u| ensures !EscapeAt(u, i) {
        if i > 0 {
          assert !EscapeAt(t, i - 1);
        }
      }
    }
  }

  /** Replacing twice is replacing once. */
  lemma UnescapeIdempotent(s: string)
    ensures Unescape(Unescape(s)) == Unescape(s)
  {
    UnescapeLeavesNoEscapes(s);
    UnescapeIdentity(Unescape(s));
  }

  /** `get_field_string`: the unescaped text of a string value. */
  function GetFieldString(value: Json): (r: Result<string, AiCriticError>)
    ensures !value.JStr? <==> r == Err(NotJsonObject)
    ensures value.JStr? ==> r == Ok(Unescape(value.s))
  {
    match value
    case JStr(s) => Ok(Unescape(s))
    case _ => Err(NotJsonObject)
  }

  // ---------------------------------------------------------------------------
  // get_field_array

  /**
    The `map(as_str).collect::<Result<Vec<_>>>()` of `get_field_array`: the strings of an
    array that holds only strings, in order; `NonStringElement` otherwise.
  */
  function CollectStrings(elems: seq<Json>): (r: Result<seq<string>, AiCriticError>)
    ensures r.Ok? <==> forall i :: 0 <= i < |elems| ==> elems[i].JStr?
    ensures r.Ok? ==> |r.value| == |elems| && forall i :: 0 <= i < |elems| ==> r.value[i] == elems[i].s
    ensures r.Err? ==> r.error == NonStringElement
  {
    if elems == [] then Ok([])
    else if !elems[0].JStr? then Err(NonStringElement)
    else
      match CollectStrings(elems[1..])
      case Err(e) => Err(e)
      case Ok(rest) => Ok([elems[0].s] + rest)
  }

  /**
    `get_field_array`: the strings of an all-string array joined with newlines,
    without unescaping them.
  */
  function GetFieldArray(value: Json): (r: Result<string, AiCriticError>)
    ensures !value.JArr? <==> r == Err(NotArray)
    ensures value.JArr? ==>
              (r == Err(NonStringElement) <==> exists i :: 0 <= i < |value.elems| && !value.elems[i].JStr?)
    ensures r.Ok? ==> r == Ok(Strings.Join(CollectStrings(value.elems).value, "\n"))
  {
    match value
    case JArr(elems) =>
      (match CollectStrings(elems)
       case Err(e) => Err(e)
       case Ok(strs) => Ok(Strings.Join(strs, "\n")))
    case _ => Err(NotArray)
  }

  /**
    The lines of an array come back from its joined text by splitting at newlines,
    as long as no line holds a newline itself.
  */
  lemma GetFieldArrayLines(lines: seq<string>)
    requires |lines| >= 1
    requires forall i :: 0 <= i < |lines| ==> '\n' !in lines[i]
    ensures var v := JArr(seq(|lines|, i requires 0 <= i < |lines| => JStr(lines[i])));
            GetFieldArray(v).Ok? && Strings.Split(GetFieldArray(v).value, '\n') == lines
  {
    var v := JArr(seq(|lines|, i requires 0 <= i < |lines| => JStr(lines[i])));
    var c := CollectStrings(v.elems);
    assert c.value == lines;
    Strings.SplitJoin(lines, '\n');
  }

  // ---------------------------------------------------------------------------
  // get_field

  /**
    `get_field`: the text held under `field`. Strings are unescaped, string arrays joined;
    numbers, objects, booleans and null give the empty text. `Value::get` finds nothing
    in a non-object, so a non-object reports the field as missing.
  */
  function GetField(value: Json, field: string): (r: Result<string, AiCriticError>)
    ensures !(value.JObj? && field in value.obj) ==> r == Err(MissingJsonFields({field}))
    ensures value.JObj? && field in value.obj && value.obj[field].JStr? ==>
              r == Ok(Unescape(value.obj[field].s))
    ensures value.JObj? && field in value.obj && value.obj[field].JArr? ==>
              r == GetFieldArray(value.obj[field])
    ensures value.JObj? && field in value.obj && !value.obj[field].JStr? && !value.obj[field].JArr? ==>
              r == Ok("")
    ensures r.Err? ==> r.error == MissingJsonFields({field}) || r.error == NonStringElement
  {
    if !value.JObj? || field !in value.obj then Err(MissingJsonFields({field}))
    else
      var val := value.obj[field];
      match val
      case JStr(_) => GetFieldString(val)
      case JArr(_) => GetFieldArray(val)
      case JNum(_) => Ok("")
      case JObj(_) => Ok("")
      case JBool(_) => Ok("")
      case JNull => Ok("")
  }

  // ---------------------------------------------------------------------------
  // The `code` field

  /**
    The answer's `code` field, as `CoderAgent::chat` and `FixerAgent::chat` both take it:
    `validate_fields(json, ["code"])`, whose extra keys only produce a warning, then
    `get_field(json, "code")`.
  */
  function ExtractCode(json: Json): (r: Result<string, AiCriticError>)
    ensures !json.JObj? ==> r == Err(NotJsonObject)
    ensures json.JObj? && "code" !in json.obj ==> r == Err(MissingJsonFields({"code"}))
    ensures json.JObj? && "code" in json.obj ==> r == GetField(json, "code")
  {
    match ValidateFields(json, ["code"])
    case Err(e) =>
      assert json.JObj? ==> e.fields == {"code"};
      Err(e)
    case Ok(_) => GetField(json, "code")
  }

  /** Keys beside `code` never change the extracted program. */
  lemma ExtractCodeIgnoresExtraKeys(obj: map<string, Json>, k: string, v: Json)
    requires k != "code"
    ensures ExtractCode(JObj(obj[k := v])) == ExtractCode(JObj(obj))
  {
    var obj' := obj[k := v];
    assert "code" in obj' <==> "code" in obj;
    if "code" in obj {
      assert obj'["code"] == obj["code"];
    }
  }

  /** A string answer is the program with its backslash-`n` pairs turned into newlines. */
  lemma ExtractCodeUnescapes(obj: map<string, Json>, program: string)
    ensures ExtractCode(JObj(obj["code" := JStr(program)])) == Ok(Unescape(program))
    ensures NoEscapes(program) ==> ExtractCode(JObj(obj["code" := JStr(program)])) == Ok(program)
  {
    if NoEscapes(program) {
      UnescapeIdentity(program);
    }
  }

  // ---------------------------------------------------------------------------
  // chat

  /** An answer that ends the retry loop: an error, or a choice that finished with `Stop`. */
  predicate Decisive(resp: ApiResponse) {
    resp.ApiErr? || resp.choice.finishReason == Some(Stop)
  }

  /** What the loop returns for a decisive answer. */
  function Decide(resp: ApiResponse): Result<Json, AiCriticError>
    requires Decisive(resp)
  {
    match resp
    case ApiErr(m) => Err(OpenAI(m))
    case ApiOk(choice) => ParseJson(choice)
  }

  /** The outcome of `chat`, and how many requests it issued. */
  datatype ChatRun = ChatRun(result: Result<Json, AiCriticError>, requests: nat)

  /** The loop from attempt `i` on. */
  function ChatFrom(responses: seq<ApiResponse>, i: nat): ChatRun
    requires |responses| >= MAX_RETRIES
    decreases MAX_RETRIES - i
  {
    if i >= MAX_RETRIES then ChatRun(Err(MaxRetriesExceeded(MAX_RETRIES)), MAX_RETRIES)
    else if Decisive(responses[i]) then ChatRun(Decide(responses[i]), i + 1)
    else ChatFrom(responses, i + 1)
  }

  /** The reference definition of `chat` on the service's successive answers. */
  function ChatOf(responses: seq<ApiResponse>): ChatRun
    requires |responses| >= MAX_RETRIES
  {
    ChatFrom(responses, 0)
  }

  lemma {:induction false} ChatFromCharacterised(responses: seq<ApiResponse>, i: nat)
    requires |responses| >= MAX_RETRIES
    requires i <= MAX_RETRIES
    ensures var run := ChatFrom(responses, i);
            && (i < MAX_RETRIES ==> i < run.requests)
            && run.requests <= MAX_RETRIES
            && (forall j :: i <= j < run.requests - 1 ==> !Decisive(responses[j]))
            && (i < MAX_RETRIES && Decisive(responses[run.requests - 1]) ==>
                  run.result == Decide(responses[run.requests - 1]))
            && (i == MAX_RETRIES || !Decisive(responses[run.requests - 1]) ==>
                  run.requests == MAX_RETRIES && run.result == Err(MaxRetriesExceeded(MAX_RETRIES)) &&
                  forall j :: i <= j < MAX_RETRIES ==> !Decisive(responses[j]))
    decreases MAX_RETRIES - i
  {
    if i < MAX_RETRIES && !Decisive(responses[i]) {
      ChatFromCharacterised(responses, i + 1);
    }
  }

  /**
    `chat` issues between one and `MAX_RETRIES` requests. It stops at the first answer that
    is an error (returned as is) or that finished with `Stop` (its text parsed as JSON);
    answers with another or no finish reason are retried, and when all attempts are spent
    the result is `MaxRetriesExceeded { retries: 5 }`.
  */
  lemma ChatOfCharacterised(responses: seq<ApiResponse>)
    requires |responses| >= MAX_RETRIES
    ensures var run := ChatOf(responses);
            && 1 <= run.requests <= MAX_RETRIES
            && (forall j :: 0 <= j < run.requests - 1 ==> !Decisive(responses[j]))
            && (Decisive(responses[run.requests - 1]) ==> run.result == Decide(responses[run.requests - 1]))
            && (!Decisive(responses[run.requests - 1]) ==>
                  run.requests == MAX_RETRIES && run.result == Err(MaxRetriesExceeded(MAX_RETRIES)))
  {
    ChatFromCharacterised(responses, 0);
  }

  /** An answer that never finishes with `Stop` costs exactly `MAX_RETRIES` requests. */
  lemma ChatExhausts(responses: seq<ApiResponse>)
    requires |responses| >= MAX_RETRIES
    requires forall j :: 0 <= j < MAX_RETRIES ==> !Decisive(responses[j])
    ensures ChatOf(responses) == ChatRun(Err(MaxRetriesExceeded(MAX_RETRIES)), MAX_RETRIES)
  {
    ChatFromCharacterised(responses, 0);
  }

  /**
    `chat`: the `for i in 0..MAX_RETRIES` loop with its early returns. `requests` is the
    number of requests issued.
  */
  method Chat(responses: seq<ApiResponse>) returns (r: Result<Json, AiCriticError>, requests: nat)
    requires |responses| >= MAX_RETRIES
    ensures ChatRun(r, requests) == ChatOf(responses)
  {
    var i := 0;
    while i < MAX_RETRIES
      invariant 0 <= i <= MAX_RETRIES
      invariant ChatFrom(responses, i) == ChatOf(responses)
    {
      var response := responses[i];
      match response {
        case ApiErr(m) =>
          return Err(OpenAI(m)), i + 1;
        case ApiOk(choice) =>
          if choice.finishReason == Some(Stop) {
            r := ParseJson(choice);
            requests := i + 1;
            return;
          }
      }
      i := i + 1;
    }
    r, requests := Err(MaxRetriesExceeded(MAX_RETRIES)), MAX_RETRIES;
  }
}
