/**
  The coder agent (src/coder.rs): one chat call whose JSON answer must hold a `code`
  field; the program text is that field as `get_field` renders it.
*/
module Coder {
  import opened Wrappers
  import opened Errors
  import opened Json
  import Strings
  import ChatterJson

  const CODER_NAME: string := "Coder"
  const SYSTEM_PROMPT: string :=
    "Write the requested program. Add no explanations. Just return the code with complete tests. "
    + "The code will piped directly to the rustc compiler so should be formatted to compile. Do not "
    + "offset the code with ticks or triple ticks. Output plain text. Any clarifying explanations "
    + "should be included in the code as // comments. Be sure that the code includes tests that "
    + "demonstrates that the code solves the requested problem. Return the response as JSON."

  datatype CoderAgent = CoderAgent(name: string, systemPrompt: string)

  /** `CoderAgent::new`: the agent numbered `id`, named `Coder_<id>`. */
  function New(id: nat): (a: CoderAgent)
    ensures a.systemPrompt == SYSTEM_PROMPT
  {
    CoderAgent(CODER_NAME + "_" + Strings.NatToString(id), SYSTEM_PROMPT)
  }

  /** The name is `Coder_` followed by the number, so differently numbered coders differ. */
  lemma NewNames(id1: nat, id2: nat)
    ensures New(id1).name[..6] == "Coder_"
    ensures Strings.ParseNat(New(id1).name[6..]) == id1
    ensures New(id1).name == New(id2).name ==> id1 == id2
  {
    assert New(id1).name[6..] == Strings.NatToString(id1);
    Strings.ParseNatToString(id1);
    Strings.FramedNatInjective("Coder_", id1, id2, "");
    assert CODER_NAME + "_" + Strings.NatToString(id1) + "" == New(id1).name;
    assert CODER_NAME + "_" + Strings.NatToString(id2) + "" == New(id2).name;
  }

  /** `CoderAgent::chat`: the request it sends and the program text it returns. */
  method Chat(agent: CoderAgent, msg: string, responses: seq<ChatterJson.ApiResponse>)
    returns (request: seq<ChatterJson.ChatMessage>, r: Result<string, AiCriticError>)
    requires |responses| >= ChatterJson.MAX_RETRIES
    ensures request == [ChatterJson.System(agent.systemPrompt), ChatterJson.User(msg)]
    ensures var chat := ChatterJson.ChatOf(responses).result;
            r == if chat.Err? then Err(chat.error) else ChatterJson.ExtractCode(chat.value)
  {
    request := [ChatterJson.System(agent.systemPrompt), ChatterJson.User(msg)];
    var json, _ := ChatterJson.Chat(responses);
    if json.Err? {
      return request, Err(json.error);
    }
    r := ChatterJson.ExtractCode(json.value);
  }
}
