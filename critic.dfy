/**
  The critic agents (src/critic.rs): how an agent's name and instructions are chosen by
  its kind, how its JSON verdict is checked and decoded into a `Correction`, and its
  chat call.
*/
module Critic {
  import opened Wrappers
  import opened Errors
  import opened Json
  import Strings
  import ChatterJson

  const BASE_PROMPT: string :=
    "\nHere is a coding problem and proposed solution separated by a line containing '------'.\n"
    + "Evaluate the code based on the criteria below. Make no comments or explanations.\n"
    + "Return JSON with two fields:\n"
    + "1. a field named `correct` with value `true` if the code is correct, else false.\n"
    + "2. a field `corrections` containing list of the errors, if any, else `None`.\n"

  const DESIGN_SYSTEM_PROMPT: string :=
    "\nEvaluation Criteria: Evaluate the _design_ of the solution, considering the following questions: \n"
    + "1. Is this the right the design to solve the problem?\n"
    + "2. Does the method chosen meet the constraints of the problem?\n"
    + "3. Does it use a the correct algorithms and data structures to solve the problem?\n"

  const CORRECTNESS_SYSTEM_PROMPT: string :=
    "\nEvaluation Criteria: Evaluate the _correctness_ of the solution, considering the following questions: \n"
    + "1. Does the code correctly implement the intended solution approach?\n"
    + "2. Does the code generate the expected output?\n"
    + "3. Does the output meet the original problem constraints?\n"
    + "4. Are there enough tests to demonstrate the correctness of the solution?\n"
    + "5. Do the tests correctly capture situations that validate or invalidate the solution?\n"

  const SYNTAX_SYSTEM_PROMPT: string :=
    "\nEvaluation Criteria: Evaluate the _syntax_ of the solution, considering the following questions: \n"
    + "1. Are there any syntactic errors?\n"
    + "2. Will the code and tests compile and run?\n"
    + "3. Are there any language errors such as borrowing violations or lifetime problems?\n"
    + "4. Are there any cleanups needed such as unused variables or imports?\n"

  /** The keys a critic's answer must hold. */
  const REQUIRED_FIELDS: seq<string> := ["correct", "corrections"]

  datatype CriticType = Design | Correctness | Syntax

  /** One critic's verdict: who gave it, whether the code passed, and what to correct. */
  datatype Correction = Correction(name: string, correct: bool, corrections: seq<string>)

  /** An agent: its name, its kind and the system message it sends. */
  datatype CriticAgent = CriticAgent(name: string, criticType: CriticType, systemPrompt: string)

  function NamePrefix(t: CriticType): string
  {
    match t
    case Design => "Design Critic "
    case Correctness => "Correctness Critic "
    case Syntax => "Syntax Critic "
  }

  function TypePrompt(t: CriticType): string
  {
    match t
    case Design => DESIGN_SYSTEM_PROMPT
    case Correctness => CORRECTNESS_SYSTEM_PROMPT
    case Syntax => SYNTAX_SYSTEM_PROMPT
  }

  /** `CriticAgent::new`: the agent of kind `t` numbered `id`. */
  function New(t: CriticType, id: nat): (a: CriticAgent)
    ensures a.criticType == t
  {
    CriticAgent(NamePrefix(t) + Strings.NatToString(id), t, BASE_PROMPT + "\n" + TypePrompt(t))
  }

  /** The name is the kind's prefix (`Design Critic `, `Correctness Critic ` or `Syntax Critic `) followed by the number. */
  lemma NewNames(t: CriticType, id: nat)
    ensures |New(t, id).name| > |NamePrefix(t)|
    ensures New(t, id).name[..|NamePrefix(t)|] == NamePrefix(t)
    ensures Strings.AllDigits(New(t, id).name[|NamePrefix(t)|..])
    ensures Strings.ParseNat(New(t, id).name[|NamePrefix(t)|..]) == id
  {
    assert New(t, id).name[|NamePrefix(t)|..] == Strings.NatToString(id);
    Strings.ParseNatToString(id);
  }

  /** Agents of different kinds, or with different numbers, have different names. */
  lemma NewNamesDistinct(t1: CriticType, id1: nat, t2: CriticType, id2: nat)
    ensures New(t1, id1).name == New(t2, id2).name ==> t1 == t2 && id1 == id2
  {
    var n1, n2 := New(t1, id1).name, New(t2, id2).name;
    if n1 == n2 {
      assert n1[0] == NamePrefix(t1)[0];
      assert n2[0] == NamePrefix(t2)[0];
      assert t1 == t2;
      Strings.FramedNatInjective(NamePrefix(t1), id1, id2, "");
      assert NamePrefix(t1) + Strings.NatToString(id1) + "" == n1;
      assert NamePrefix(t2) + Strings.NatToString(id2) + "" == n2;
    }
  }

  /**
    Every critic's instructions open with the shared base text and a newline, followed by
    the text of its kind; kinds therefore get different instructions.
  */
  lemma NewPrompt(t1: CriticType, t2: CriticType, id1: nat, id2: nat)
    ensures |New(t1, id1).systemPrompt| > |BASE_PROMPT|
    ensures New(t1, id1).systemPrompt[..|BASE_PROMPT| + 1] == BASE_PROMPT + "\n"
    ensures New(t1, id1).systemPrompt[|BASE_PROMPT| + 1..] == TypePrompt(t1)
    ensures New(t1, id1).systemPrompt == New(t2, id2).systemPrompt ==> t1 == t2
  {
    var p1, p2 := New(t1, id1).systemPrompt, New(t2, id2).systemPrompt;
    var k := |BASE_PROMPT| + 1;
    assert p1[k..] == TypePrompt(t1);
    assert p2[k..] == TypePrompt(t2);
  }

  // ---------------------------------------------------------------------------
  // Decoding

  /** `deserialize_corrections`: null is no corrections, an array of strings the list itself. */
  function DeserializeCorrections(v: Json): (r: Result<seq<string>, AiCriticError>)
    ensures v.JNull? ==> r == Ok([])
    ensures v.JArr? ==> (r.Ok? <==> forall i :: 0 <= i < |v.elems| ==> v.elems[i].JStr?)
    ensures v.JArr? && r.Ok? ==>
              |r.value| == |v.elems| && forall i :: 0 <= i < |v.elems| ==> r.value[i] == v.elems[i].s
    ensures !v.JNull? && !v.JArr? ==> r == Err(JsonParseError("Expected array or null"))
  {
    match v
    case JNull => Ok([])
    case JArr(elems) =>
      (match ChatterJson.CollectStrings(elems)
       case Ok(strs) => Ok(strs)
       case Err(_) => Err(JsonParseError("Expected string")))
    case _ => Err(JsonParseError("Expected array or null"))
  }

  /**
    `serde_json::from_value::<Correction>` on an object: `name` is never read (it keeps its
    default, the empty string), a missing `correct` means false, and `corrections` is
    required and decoded by `DeserializeCorrections`. Unknown keys are ignored.
  */
  function DecodeCorrection(obj: map<string, Json>): (r: Result<Correction, AiCriticError>)
    ensures r.Ok? ==> r.value.name == ""
    ensures r.Ok? ==> "corrections" in obj && DeserializeCorrections(obj["corrections"]) == Ok(r.value.corrections)
    ensures r.Ok? ==> r.value.correct == ("correct" in obj && obj["correct"] == JBool(true))
    ensures r.Err? <==>
              || "corrections" !in obj
              || DeserializeCorrections(obj["corrections"]).Err?
              || ("correct" in obj && !obj["correct"].JBool?)
  {
    var correct: Result<bool, AiCriticError> :=
      if "correct" !in obj then Ok(false)
      else if obj["correct"].JBool? then Ok(obj["correct"].b)
      else Err(JsonParseError("invalid type: expected a boolean"));
    if correct.Err? then Err(correct.error)
    else if "corrections" !in obj then Err(JsonParseError("missing field `corrections`"))
    else
      match DeserializeCorrections(obj["corrections"])
      case Err(e) => Err(e)
      case Ok(cs) => Ok(Correction("", correct.value, cs))
  }

  /**
    The work `CriticAgent::chat` does on the answer's JSON: both keys must be present
    (checked before decoding, so the serde default of `correct` never applies), extra keys
    are only warned about, and the decoded verdict is stamped with the agent's name.
  */
  function PostProcess(agent: CriticAgent, json: Json): (r: Result<Correction, AiCriticError>)
    ensures !json.JObj? ==> r == Err(NotJsonObject)
    ensures json.JObj? && ("correct" !in json.obj || "corrections" !in json.obj) ==>
              r.Err? && r.error.MissingJsonFields?
    ensures r.Ok? ==> r.value.name == agent.name
    ensures r.Ok? ==> json.JObj? && "correct" in json.obj && "corrections" in json.obj
    ensures r.Ok? ==> r.value.correct == (json.obj["correct"] == JBool(true))
    ensures r.Ok? ==> DeserializeCorrections(json.obj["corrections"]) == Ok(r.value.corrections)
    ensures r.Ok? <==> && json.JObj? && "correct" in json.obj && "corrections" in json.obj
                       && json.obj["correct"].JBool?
                       && DeserializeCorrections(json.obj["corrections"]).Ok?
  {
    match ChatterJson.ValidateFields(json, REQUIRED_FIELDS)
    case Err(e) => Err(e)
    case Ok(_) =>
      match DecodeCorrection(json.obj)
      case Err(e) => Err(e)
      case Ok(c) => Ok(c.(name := agent.name))
  }

  /** A well-formed verdict decodes to exactly its flag and its list. */
  lemma PostProcessDecodes(agent: CriticAgent, correct: bool, corrections: seq<string>, extra: map<string, Json>)
    requires "correct" !in extra && "corrections" !in extra
    ensures var fields := seq(|corrections|, i requires 0 <= i < |corrections| => JStr(corrections[i]));
            var json := JObj(extra["correct" := JBool(correct)]["corrections" := JArr(fields)]);
            PostProcess(agent, json) == Ok(Correction(agent.name, correct, corrections))
  {
    var fields := seq(|corrections|, i requires 0 <= i < |corrections| => JStr(corrections[i]));
    var json := JObj(extra["correct" := JBool(correct)]["corrections" := JArr(fields)]);
    assert ChatterJson.ValidateFields(json, REQUIRED_FIELDS).Ok?;
    var c := DeserializeCorrections(JArr(fields));
    assert c.value == corrections;
  }

  /** A verdict whose `corrections` is null decodes to its flag and no corrections. */
  lemma PostProcessNullCorrections(agent: CriticAgent, correct: bool, extra: map<string, Json>)
    requires "correct" !in extra && "corrections" !in extra
    ensures var json := JObj(extra["correct" := JBool(correct)]["corrections" := JNull]);
            PostProcess(agent, json) == Ok(Correction(agent.name, correct, []))
  {
    var json := JObj(extra["correct" := JBool(correct)]["corrections" := JNull]);
    assert ChatterJson.ValidateFields(json, REQUIRED_FIELDS).Ok?;
  }

  /** Keys other than the two required ones make no difference to the verdict. */
  lemma PostProcessIgnoresExtraKeys(agent: CriticAgent, obj: map<string, Json>, k: string, v: Json)
    requires k !in REQUIRED_FIELDS
    ensures PostProcess(agent, JObj(obj[k := v])) == PostProcess(agent, JObj(obj))
  {
    var obj' := obj[k := v];
    assert "correct" in obj' <==> "correct" in obj;
    assert "corrections" in obj' <==> "corrections" in obj;
    var a := ChatterJson.ValidateFields(JObj(obj'), REQUIRED_FIELDS);
    var b := ChatterJson.ValidateFields(JObj(obj), REQUIRED_FIELDS);
    assert a.Ok? == b.Ok?;
    if a.Err? {
      assert a.error.fields == b.error.fields;
    } else {
      assert obj'["correct"] == obj["correct"];
      assert obj'["corrections"] == obj["corrections"];
    }
  }

  /**
    `CriticAgent::chat`: one chat call with the agent's system message and the user's text,
    then `PostProcess`; a chat error is returned unchanged.
  */
  method Chat(agent: CriticAgent, msg: string, responses: seq<ChatterJson.ApiResponse>)
    returns (request: seq<ChatterJson.ChatMessage>, r: Result<Correction, AiCriticError>)
    requires |responses| >= ChatterJson.MAX_RETRIES
    ensures request == [ChatterJson.System(agent.systemPrompt), ChatterJson.User(msg)]
    ensures var chat := ChatterJson.ChatOf(responses).result;
            r == if chat.Err? then Err(chat.error) else PostProcess(agent, chat.value)
  {
    request := [ChatterJson.System(agent.systemPrompt), ChatterJson.User(msg)];
    var json, _ := ChatterJson.Chat(responses);
    if json.Err? {
      return request, Err(json.error);
    }
    r := PostProcess(agent, json.value);
  }
}
