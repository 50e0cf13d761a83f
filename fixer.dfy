/**
  The fixer agent (src/fixer.rs): the user message that frames goal, code and criticisms
  with a fixed separator, and the extraction of the corrected program from the answer.
*/
module Fixer {
  import opened Wrappers
  import opened Errors
  import opened Json
  import Strings
  import ChatterJson

  const FIXER_NAME: string := "Fixer"
  const SYSTEM_PROMPT: string :=
    "You will be given a coding goal, then an example program to attempts to solve it, then one or "
    + "more suggested corrections. Each of these is separated by a line of `------`. For each "
    + "suggested correction, first decide if it is a legitimate criticism. For the legitimate "
    + "ones, correct the program according to the suggestion. Add no explanations. Ensure that it "
    + "includes tests demonstrating that the original coding goal is solved. Return the corrected "
    + "code as JSON. "

  /** The separator between the parts of the user message: a line of six dashes between blank lines. */
  const SEP: string := "\n\n------\n\n"

  datatype FixerAgent = FixerAgent(name: string, systemPrompt: string)

  /** `FixerAgent::new`: the agent numbered `id`, named `Fixer_<id>`. */
  function New(id: nat): (a: FixerAgent)
    ensures a.systemPrompt == SYSTEM_PROMPT
  {
    FixerAgent(FIXER_NAME + "_" + Strings.NatToString(id), SYSTEM_PROMPT)
  }

  /** The name is `Fixer_` followed by the number, so differently numbered fixers differ. */
  lemma NewNames(id1: nat, id2: nat)
    ensures New(id1).name[..6] == "Fixer_"
    ensures Strings.ParseNat(New(id1).name[6..]) == id1
    ensures New(id1).name == New(id2).name ==> id1 == id2
  {
    assert New(id1).name[6..] == Strings.NatToString(id1);
    Strings.ParseNatToString(id1);
    Strings.FramedNatInjective("Fixer_", id1, id2, "");
    assert FIXER_NAME + "_" + Strings.NatToString(id1) + "" == New(id1).name;
    assert FIXER_NAME + "_" + Strings.NatToString(id2) + "" == New(id2).name;
  }

  /** The user message `FixerAgent::chat` sends: goal, code and each criticism, separated by `SEP`. */
  function UserMessage(goal: string, code: string, criticisms: seq<string>): string
  {
    goal + SEP + code + SEP + Strings.Join(criticisms, SEP)
  }

  /** With no criticisms the message is the goal and the code, and it ends with a separator. */
  lemma UserMessageNoCriticisms(goal: string, code: string)
    ensures var m := UserMessage(goal, code, []);
            |m| == |goal| + |code| + 2 * |SEP| && m[|m| - |SEP|..] == SEP
  {
  }

  /** `s` holds a separator starting at position `i`. */
  predicate SepAt(s: string, i: int) {
    0 <= i && i + |SEP| <= |s| && s[i..i + |SEP|] == SEP
  }

  /** Where a separator starts in `s`. */
  function SepPositions(s: string): set<int> {
    set i | 0 <= i <= |s| - |SEP| && SepAt(s, i)
  }

  /** The dashes of a separator. */
  const DASHES: string := "------"

  /** `p` holds a run of six dashes starting at position `i`. */
  predicate DashRunAt(p: string, i: int) {
    0 <= i && i + |DASHES| <= |p| && p[i..i + |DASHES|] == DASHES
  }

  /** `p` holds no run of six dashes, so no separator can be read inside it. */
  predicate NoDashRun(p: string) {
    forall i :: 0 <= i <= |p| - |DASHES| ==> !DashRunAt(p, i)
  }

  /**
    A separator found in a one-criticism message is one of the two the message was built
    with, unless one of its parts holds a run of six dashes: the dashes of any separator
    lie between newlines, so they fall either inside one part or on a separator's own dashes.
  */
  lemma SepAtPlacement(goal: string, code: string, criticism: string, i: int)
    requires SepAt(goal + SEP + code + SEP + criticism, i)
    ensures var g := |goal|;
            || i == g || i == g + |SEP| + |code|
            || !NoDashRun(goal) || !NoDashRun(code) || !NoDashRun(criticism)
  {
    var m := goal + SEP + code + SEP + criticism;
    var g := |goal|;
    var second := g + |SEP| + |code|;
    var j := i + 2;
    forall p | j <= p < j + |DASHES| ensures m[p] == '-' {
      assert m[i..i + |SEP|][p - i] == SEP[p - i];
    }
    if j + |DASHES| <= g {
      forall k | 0 <= k < |DASHES| ensures goal[j..j + |DASHES|][k] == DASHES[k] {
        assert m[j + k] == goal[j + k];
      }
      assert goal[j..j + |DASHES|] == DASHES;
      assert DashRunAt(goal, j);
    } else if j < g + |SEP| {
      assert m[g] == '\n' && m[g + 1] == '\n' && m[g + 8] == '\n' && m[g + 9] == '\n';
    } else if j + |DASHES| <= second {
      var k0 := j - g - |SEP|;
      forall k | 0 <= k < |DASHES| ensures code[k0..k0 + |DASHES|][k] == DASHES[k] {
        assert m[j + k] == code[k0 + k];
      }
      assert code[k0..k0 + |DASHES|] == DASHES;
      assert DashRunAt(code, k0);
    } else if j < second + |SEP| {
      assert m[second] == '\n' && m[second + 1] == '\n' && m[second + 8] == '\n' && m[second + 9] == '\n';
    } else {
      var k0 := j - second - |SEP|;
      forall k | 0 <= k < |DASHES| ensures criticism[k0..k0 + |DASHES|][k] == DASHES[k] {
        assert m[j + k] == criticism[k0 + k];
      }
      assert criticism[k0..k0 + |DASHES|] == DASHES;
      assert DashRunAt(criticism, k0);
    }
  }

  /**
    With one criticism, and no run of six dashes in the goal, the code or the criticism,
    the message holds exactly two separators: the one after the goal and the one after the code.
  */
  lemma UserMessageOneCriticism(goal: string, code: string, criticism: string)
    requires NoDashRun(goal) && NoDashRun(code) && NoDashRun(criticism)
    ensures var m := UserMessage(goal, code, [criticism]);
            SepPositions(m) == {|goal|, |goal| + |SEP| + |code|}
  {
    var m := UserMessage(goal, code, [criticism]);
    var g, second := |goal|, |goal| + |SEP| + |code|;
    assert m == goal + SEP + code + SEP + criticism;
    forall i | i in SepPositions(m) ensures i == g || i == second {
      SepAtPlacement(goal, code, criticism, i);
    }
    assert m[g..g + |SEP|] == SEP;
    assert m[second..second + |SEP|] == SEP;
    assert SepAt(m, g) && SepAt(m, second);
  }

  /** `FixerAgent::chat`: the request it sends and the corrected program it returns. */
  method Chat(agent: FixerAgent, goal: string, code: string, criticisms: seq<string>,
              responses: seq<ChatterJson.ApiResponse>)
    returns (request: seq<ChatterJson.ChatMessage>, r: Result<string, AiCriticError>)
    requires |responses| >= ChatterJson.MAX_RETRIES
    ensures request == [ChatterJson.System(agent.systemPrompt),
                        ChatterJson.User(UserMessage(goal, code, criticisms))]
    ensures var chat := ChatterJson.ChatOf(responses).result;
            r == if chat.Err? then Err(chat.error) else ChatterJson.ExtractCode(chat.value)
  {
    var msg := UserMessage(goal, code, criticisms);
    request := [ChatterJson.System(agent.systemPrompt), ChatterJson.User(msg)];
    var json, _ := ChatterJson.Chat(responses);
    if json.Err? {
      return request, Err(json.error);
    }
    r := ChatterJson.ExtractCode(json.value);
  }
}
