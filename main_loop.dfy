/**
  The orchestration loop of src/main.rs: the coder proposes a program; then, round after
  round, `NUM_CRITICS` critics judge the current program, the suggestions of the critics
  that reject it are gathered, and either the fixer rewrites the program from them or,
  when there is nothing to suggest, the program is compiled and the run ends.

  The agents and the compiler are oracles (pure functions of what they are given). The
  critics of one round run concurrently in the source and are all awaited before their
  results are read, so the model evaluates them in order. The source loop has no bound;
  the model runs at most `fuel` rounds and reports `OutOfFuel` after that.
*/
module MainLoop {
  import opened Wrappers
  import opened Errors
  import opened Critic

  const NUM_CRITICS: nat := 3

  /** `CriticAgent::new(i).chat(code)` in round `proposal`: (proposal number, critic number, code) to verdict. */
  type CriticOracle = (nat, nat, string) -> Result<Correction, AiCriticError>
  /** `FixerAgent::new(1).chat(goal, code, suggestions)` in round `proposal`: (proposal number, goal, code, suggestions) to program. */
  type FixerOracle = (nat, string, string, seq<string>) -> Result<string, AiCriticError>
  /** `CompilerAgent::compile(code)`. */
  type CompileOracle = string -> Result<(), AiCriticError>
  /** `CoderAgent::chat(goal)`. */
  type CoderOracle = string -> Result<string, AiCriticError>

  datatype Outcome =
      /** The program was approved by every critic and compiled, after `proposals` proposals. */
    | Converged(proposals: nat, code: string)
      /** An agent or the compiler failed, which ends the run. */
    | Aborted(error: AiCriticError)
      /** The model's round bound ran out; the source would go on. */
    | OutOfFuel(proposals: nat, code: string)

  // ---------------------------------------------------------------------------
  // Gathering the critics' results

  /** The loop over `join_all`'s results: the first error in order wins, otherwise all verdicts in order. */
  function Gathered(results: seq<Result<Correction, AiCriticError>>): (r: Result<seq<Correction>, AiCriticError>)
    ensures r.Ok? <==> forall i :: 0 <= i < |results| ==> results[i].Ok?
    ensures r.Ok? ==> |r.value| == |results| && forall i :: 0 <= i < |results| ==> r.value[i] == results[i].value
    ensures r.Err? ==> exists i :: 0 <= i < |results| && results[i] == Err(r.error) &&
                                  forall j :: 0 <= j < i ==> results[j].Ok?
  {
    if results == [] then Ok([])
    else if results[0].Err? then Err(results[0].error)
    else
      match Gathered(results[1..])
      case Err(e) =>
        var i :| 0 <= i < |results[1..]| && results[1..][i] == Err(e) &&
                 forall j :: 0 <= j < i ==> results[1..][j].Ok?;
        assert results[i + 1] == Err(e);
        Err(e)
      case Ok(rest) => Ok([results[0].value] + rest)
  }

  /** The gathering loop of the source, which pushes each verdict and returns at the first error. */
  method Gather(results: seq<Result<Correction, AiCriticError>>) returns (r: Result<seq<Correction>, AiCriticError>)
    ensures r == Gathered(results)
  {
    var corrections: seq<Correction> := [];
    var i := 0;
    while i < |results|
      invariant 0 <= i <= |results| && |corrections| == i
      invariant forall j :: 0 <= j < i ==> results[j].Ok? && corrections[j] == results[j].value
    {
      match results[i] {
        case Ok(correction) =>
          corrections := corrections + [correction];
        case Err(e) =>
          ghost var k :| 0 <= k < |results| && results[k] == Err(Gathered(results).error) &&
                         forall j :: 0 <= j < k ==> results[j].Ok?;
          assert k == i;
          return Err(e);
      }
      i := i + 1;
    }
    assert corrections == Gathered(results).value;
    r := Ok(corrections);
  }

  // ---------------------------------------------------------------------------
  // Aggregating suggestions

  /** The corrections of the critics that reject the code, in critic order, duplicates kept. */
  function Suggestions(corrections: seq<Correction>): seq<string>
  {
    if corrections == [] then []
    else (if corrections[0].correct then [] else corrections[0].corrections) + Suggestions(corrections[1..])
  }

  /** Aggregation distributes over concatenation, so the order of critics is kept. */
  lemma {:induction false} SuggestionsAppend(a: seq<Correction>, b: seq<Correction>)
    ensures Suggestions(a + b) == Suggestions(a) + Suggestions(b)
  {
    if a != [] {
      assert (a + b)[0] == a[0];
      assert (a + b)[1..] == a[1..] + b;
      SuggestionsAppend(a[1..], b);
    } else {
      assert a + b == b;
    }
  }

  /** A suggestion is exactly a correction listed by some rejecting critic; approving critics contribute nothing. */
  lemma {:induction false} SuggestionsMembers(corrections: seq<Correction>, s: string)
    ensures s in Suggestions(corrections) <==>
            exists i :: 0 <= i < |corrections| && !corrections[i].correct && s in corrections[i].corrections
  {
    if corrections != [] {
      var head := if corrections[0].correct then [] else corrections[0].corrections;
      var tail := corrections[1..];
      assert Suggestions(corrections) == head + Suggestions(tail);
      SuggestionsMembers(tail, s);
      if s in Suggestions(corrections) && s !in head {
        var i :| 0 <= i < |tail| && !tail[i].correct && s in tail[i].corrections;
        assert corrections[i + 1] == tail[i];
      }
      if exists i :: 0 <= i < |corrections| && !corrections[i].correct && s in corrections[i].corrections {
        var i :| 0 <= i < |corrections| && !corrections[i].correct && s in corrections[i].corrections;
        if i > 0 {
          assert tail[i - 1] == corrections[i];
        }
      }
    }
  }

  /** The total number of corrections the rejecting critics list. */
  function RejectedCount(corrections: seq<Correction>): nat
  {
    if corrections == [] then 0
    else RejectedCount(corrections[..|corrections| - 1]) +
         (var c := corrections[|corrections| - 1]; if c.correct then 0 else |c.corrections|)
  }

  /** Nothing is deduplicated: there are as many suggestions as corrections listed by rejecting critics. */
  lemma {:induction false} SuggestionsLength(corrections: seq<Correction>)
    ensures |Suggestions(corrections)| == RejectedCount(corrections)
  {
    if corrections != [] {
      var n := |corrections| - 1;
      var init := corrections[..n];
      assert corrections == init + [corrections[n]];
      SuggestionsAppend(init, [corrections[n]]);
      assert [corrections[n]][1..] == [];
      SuggestionsLength(init);
    }
  }

  /**
    The critics agree exactly when no rejecting critic lists a correction, so a critic that
    rejects the code with an empty list does not block compilation.
  */
  lemma AgreementIff(corrections: seq<Correction>)
    ensures Suggestions(corrections) == [] <==>
            forall i :: 0 <= i < |corrections| && !corrections[i].correct ==> corrections[i].corrections == []
  {
    if Suggestions(corrections) != [] {
      SuggestionsMembers(corrections, Suggestions(corrections)[0]);
    } else {
      forall i | 0 <= i < |corrections| && !corrections[i].correct
        ensures corrections[i].corrections == []
      {
        if corrections[i].corrections != [] {
          SuggestionsMembers(corrections, corrections[i].corrections[0]);
        }
      }
    }
  }

  /** The aggregation loop of the source: each rejecting critic's list is appended in turn. */
  method Aggregate(corrections: seq<Correction>) returns (suggestions: seq<string>)
    ensures suggestions == Suggestions(corrections)
  {
    suggestions := [];
    var i := 0;
    while i < |corrections|
      invariant 0 <= i <= |corrections|
      invariant suggestions == Suggestions(corrections[..i])
    {
      assert corrections[..i + 1] == corrections[..i] + [corrections[i]];
      SuggestionsAppend(corrections[..i], [corrections[i]]);
      assert [corrections[i]][1..] == [];
      if !corrections[i].correct {
        suggestions := suggestions + corrections[i].corrections;
      }
      i := i + 1;
    }
    assert corrections[..i] == corrections;
  }

  // ---------------------------------------------------------------------------
  // The rounds

  /** The verdict requests of one round: critics numbered 1 to `NUM_CRITICS`, all shown the same code. */
  function CriticResults(critic: CriticOracle, proposal: nat, code: string): (rs: seq<Result<Correction, AiCriticError>>)
    ensures |rs| == NUM_CRITICS
    ensures forall i :: 0 <= i < NUM_CRITICS ==> rs[i] == critic(proposal, i + 1, code)
  {
    seq(NUM_CRITICS, i requires 0 <= i < NUM_CRITICS => critic(proposal, i + 1, code))
  }

  /** The reference definition of the loop from round `proposal` with program `code`. */
  function LoopFrom(goal: string, code: string, proposal: nat,
                    critic: CriticOracle, fixer: FixerOracle, compile: CompileOracle, fuel: nat): Outcome
    decreases fuel
  {
    if fuel == 0 then OutOfFuel(proposal, code)
    else
      match Gathered(CriticResults(critic, proposal, code))
      case Err(e) => Aborted(e)
      case Ok(corrections) =>
        var suggestions := Suggestions(corrections);
        if suggestions == [] then
          (match compile(code)
           case Err(e) => Aborted(e)
           case Ok(_) => Converged(proposal, code))
        else
          match fixer(proposal, goal, code, suggestions)
          case Err(e) => Aborted(e)
          case Ok(fixed) => LoopFrom(goal, fixed, proposal + 1, critic, fixer, compile, fuel - 1)
  }

  /** The reference definition of a whole run: the coder's proposal, then the loop from round 1. */
  function RunOf(goal: string, coder: CoderOracle, critic: CriticOracle, fixer: FixerOracle,
                 compile: CompileOracle, fuel: nat): Outcome
  {
    match coder(goal)
    case Err(e) => Aborted(e)
    case Ok(code) => LoopFrom(goal, code, 1, critic, fixer, compile, fuel)
  }

  /** The critics of round `proposal` all returned verdicts and none of the rejecting ones listed anything. */
  predicate Approved(critic: CriticOracle, proposal: nat, code: string) {
    var g := Gathered(CriticResults(critic, proposal, code));
    g.Ok? && Suggestions(g.value) == []
  }

  /**
    Round `proposal` on program `code` stops the run with error `e`: a critic failed with it,
    or the critics agreed and the compiler failed with it, or they did not and the fixer failed with it.
  */
  predicate AbortsRound(goal: string, critic: CriticOracle, fixer: FixerOracle, compile: CompileOracle,
                        proposal: nat, code: string, e: AiCriticError)
  {
    var g := Gathered(CriticResults(critic, proposal, code));
    || g == Err(e)
    || (g.Ok? && Suggestions(g.value) == [] && compile(code) == Err(e))
    || (g.Ok? && Suggestions(g.value) != [] && fixer(proposal, goal, code, Suggestions(g.value)) == Err(e))
  }

  /** The critics of round `proposal` all returned verdicts and at least one rejecting critic listed a correction. */
  predicate Rejected(critic: CriticOracle, proposal: nat, code: string) {
    var g := Gathered(CriticResults(critic, proposal, code));
    g.Ok? && Suggestions(g.value) != []
  }

  /**
    The program the run from round `proposal` on `code` holds `k` rounds later: each round
    in between was rejected and fixed; `None` when the run stopped before.
  */
  function CodeAfter(goal: string, code: string, proposal: nat, critic: CriticOracle, fixer: FixerOracle,
                     k: nat): Option<string>
    decreases k
  {
    if k == 0 then Some(code)
    else
      var g := Gathered(CriticResults(critic, proposal, code));
      if g.Ok? && Suggestions(g.value) != [] then
        match fixer(proposal, goal, code, Suggestions(g.value))
        case Err(_) => None
        case Ok(fixed) => CodeAfter(goal, fixed, proposal + 1, critic, fixer, k - 1)
      else None
  }

  /** Round `k` after a rejected and fixed first round is round `k - 1` of the run from the fixed program. */
  lemma CodeAfterStep(goal: string, code: string, proposal: nat, critic: CriticOracle, fixer: FixerOracle, k: nat)
    requires k >= 1 && Rejected(critic, proposal, code)
    requires fixer(proposal, goal, code, Suggestions(Gathered(CriticResults(critic, proposal, code)).value)).Ok?
    ensures var fixed := fixer(proposal, goal, code, Suggestions(Gathered(CriticResults(critic, proposal, code)).value)).value;
            CodeAfter(goal, code, proposal, critic, fixer, k) == CodeAfter(goal, fixed, proposal + 1, critic, fixer, k - 1)
  {
  }

  /**
    A run that converges ends on the program it holds in its last round, which every critic
    approved and which compiled; a run that runs out of rounds ends on the program its last
    fix produced. The proposal count grows by one per round.
  */
  lemma {:induction false} LoopFromOutcome(goal: string, code: string, proposal: nat,
                                           critic: CriticOracle, fixer: FixerOracle, compile: CompileOracle, fuel: nat)
    ensures var o := LoopFrom(goal, code, proposal, critic, fixer, compile, fuel);
            && (o.Converged? ==> Approved(critic, o.proposals, o.code) && compile(o.code).Ok?)
            && (o.Converged? ==> proposal <= o.proposals < proposal + fuel &&
                                 CodeAfter(goal, code, proposal, critic, fixer, o.proposals - proposal) == Some(o.code))
            && (o.OutOfFuel? ==> o.proposals == proposal + fuel &&
                                 CodeAfter(goal, code, proposal, critic, fixer, fuel) == Some(o.code))
    decreases fuel
  {
    if fuel > 0 && Rejected(critic, proposal, code) {
      var g := Gathered(CriticResults(critic, proposal, code));
      var f := fixer(proposal, goal, code, Suggestions(g.value));
      if f.Ok? {
        LoopFromOutcome(goal, f.value, proposal + 1, critic, fixer, compile, fuel - 1);
        var o := LoopFrom(goal, code, proposal, critic, fixer, compile, fuel);
        if o.Converged? {
          CodeAfterStep(goal, code, proposal, critic, fixer, o.proposals - proposal);
        } else if o.OutOfFuel? {
          CodeAfterStep(goal, code, proposal, critic, fixer, fuel);
        }
      }
    }
  }

  /** A run that runs out of rounds had every one of them rejected, each on the program it then held. */
  lemma {:induction false} OutOfFuelRejected(goal: string, code: string, proposal: nat,
                                             critic: CriticOracle, fixer: FixerOracle, compile: CompileOracle, fuel: nat)
    requires LoopFrom(goal, code, proposal, critic, fixer, compile, fuel).OutOfFuel?
    ensures forall k :: 0 <= k < fuel ==>
              CodeAfter(goal, code, proposal, critic, fixer, k).Some? &&
              Rejected(critic, proposal + k, CodeAfter(goal, code, proposal, critic, fixer, k).value)
    decreases fuel
  {
    if fuel > 0 {
      var g := Gathered(CriticResults(critic, proposal, code));
      var fixed := fixer(proposal, goal, code, Suggestions(g.value)).value;
      OutOfFuelRejected(goal, fixed, proposal + 1, critic, fixer, compile, fuel - 1);
      forall k | 0 <= k < fuel
        ensures CodeAfter(goal, code, proposal, critic, fixer, k).Some? &&
                Rejected(critic, proposal + k, CodeAfter(goal, code, proposal, critic, fixer, k).value)
      {
        if k > 0 {
          CodeAfterStep(goal, code, proposal, critic, fixer, k);
          assert proposal + k == (proposal + 1) + (k - 1);
        }
      }
    }
  }

  /**
    A run that aborts does so with the error of a critic, of the compiler or of the fixer,
    in one of its rounds, on the program it held in that round.
  */
  lemma {:induction false} AbortedInRound(goal: string, code: string, proposal: nat,
                                          critic: CriticOracle, fixer: FixerOracle, compile: CompileOracle, fuel: nat)
    requires LoopFrom(goal, code, proposal, critic, fixer, compile, fuel).Aborted?
    ensures var e := LoopFrom(goal, code, proposal, critic, fixer, compile, fuel).error;
            exists k :: 0 <= k < fuel && CodeAfter(goal, code, proposal, critic, fixer, k).Some? &&
                        AbortsRound(goal, critic, fixer, compile, proposal + k,
                                    CodeAfter(goal, code, proposal, critic, fixer, k).value, e)
    decreases fuel
  {
    var o := LoopFrom(goal, code, proposal, critic, fixer, compile, fuel);
    var g := Gathered(CriticResults(critic, proposal, code));
    if g.Ok? && Suggestions(g.value) != [] && fixer(proposal, goal, code, Suggestions(g.value)).Ok? {
      var fixed := fixer(proposal, goal, code, Suggestions(g.value)).value;
      assert o == LoopFrom(goal, fixed, proposal + 1, critic, fixer, compile, fuel - 1);
      AbortedInRound(goal, fixed, proposal + 1, critic, fixer, compile, fuel - 1);
      var k :| 0 <= k < fuel - 1 && CodeAfter(goal, fixed, proposal + 1, critic, fixer, k).Some? &&
               AbortsRound(goal, critic, fixer, compile, proposal + 1 + k,
                           CodeAfter(goal, fixed, proposal + 1, critic, fixer, k).value, o.error);
      CodeAfterStep(goal, code, proposal, critic, fixer, k + 1);
      assert proposal + (k + 1) == proposal + 1 + k;
      assert CodeAfter(goal, code, proposal, critic, fixer, k + 1).Some? &&
             AbortsRound(goal, critic, fixer, compile, proposal + (k + 1),
                         CodeAfter(goal, code, proposal, critic, fixer, k + 1).value, o.error);
    } else {
      assert AbortsRound(goal, critic, fixer, compile, proposal, code, o.error) by {
        if g.Err? {
          assert o.error == g.error;
        } else if Suggestions(g.value) == [] {
          assert compile(code) == Err(o.error);
        } else {
          assert fixer(proposal, goal, code, Suggestions(g.value)) == Err(o.error);
        }
      }
      assert CodeAfter(goal, code, proposal, critic, fixer, 0) == Some(code);
      assert proposal + 0 == proposal;
    }
  }

  /**
    The compiler is consulted only on programs the critics approved: two compilers that agree
    on those give every run the same outcome.
  */
  lemma {:induction false} CompileOnlyApproved(goal: string, code: string, proposal: nat, critic: CriticOracle,
                                               fixer: FixerOracle, compile1: CompileOracle,
                                               compile2: CompileOracle, fuel: nat)
    requires forall p: nat, c: string :: Approved(critic, p, c) ==> compile1(c) == compile2(c)
    ensures LoopFrom(goal, code, proposal, critic, fixer, compile1, fuel) ==
            LoopFrom(goal, code, proposal, critic, fixer, compile2, fuel)
    decreases fuel
  {
    if fuel > 0 {
      var g := Gathered(CriticResults(critic, proposal, code));
      if g.Ok? && Suggestions(g.value) != [] {
        var f := fixer(proposal, goal, code, Suggestions(g.value));
        if f.Ok? {
          CompileOnlyApproved(goal, f.value, proposal + 1, critic, fixer, compile1, compile2, fuel - 1);
        }
      } else if g.Ok? {
        assert Approved(critic, proposal, code);
      }
    }
  }

  /** Critics that approve the first proposal, and a compile that succeeds, end the run after one proposal. */
  lemma ConvergesAtOnce(goal: string, coder: CoderOracle, critic: CriticOracle, fixer: FixerOracle,
                        compile: CompileOracle, fuel: nat)
    requires fuel >= 1 && coder(goal).Ok?
    requires forall i :: 1 <= i <= NUM_CRITICS ==> critic(1, i, coder(goal).value).Ok? &&
                                                   critic(1, i, coder(goal).value).value.correct
    requires compile(coder(goal).value).Ok?
    ensures RunOf(goal, coder, critic, fixer, compile, fuel) == Converged(1, coder(goal).value)
  {
    var code := coder(goal).value;
    var rs := CriticResults(critic, 1, code);
    assert forall i :: 0 <= i < |rs| ==> rs[i] == critic(1, i + 1, code);
    var cs := Gathered(rs).value;
    AgreementIff(cs);
  }

  /**
    Critics that always reject with something to say, and a fixer that always answers, keep
    the run going: after `fuel` rounds it has made `fuel` more proposals and never compiled.
  */
  lemma {:induction false} NeverApproved(goal: string, code: string, proposal: nat,
                                         critic: CriticOracle, fixer: FixerOracle, compile: CompileOracle, fuel: nat)
    requires forall p, i, c :: critic(p, i, c).Ok? && !critic(p, i, c).value.correct &&
                               critic(p, i, c).value.corrections != []
    requires forall p, g, c, s :: fixer(p, g, c, s).Ok?
    ensures LoopFrom(goal, code, proposal, critic, fixer, compile, fuel).OutOfFuel?
    ensures LoopFrom(goal, code, proposal, critic, fixer, compile, fuel).proposals == proposal + fuel
    decreases fuel
  {
    if fuel > 0 {
      var cs := Gathered(CriticResults(critic, proposal, code)).value;
      assert !cs[0].correct && cs[0].corrections != [];
      AgreementIff(cs);
      var fixed := fixer(proposal, goal, code, Suggestions(cs)).value;
      NeverApproved(goal, fixed, proposal + 1, critic, fixer, compile, fuel - 1);
    }
  }

  /**
    The body of `main` after the coder's first proposal: the `loop` with its mutable `code`
    and `proposal_count`, bounded by `fuel` rounds.
  */
  method Run(goal: string, coder: CoderOracle, critic: CriticOracle, fixer: FixerOracle,
             compile: CompileOracle, fuel: nat) returns (outcome: Outcome)
    ensures outcome == RunOf(goal, coder, critic, fixer, compile, fuel)
  {
    var first := coder(goal);
    if first.Err? {
      return Aborted(first.error);
    }
    var code := first.value;
    var proposalCount := 1;
    var rounds := fuel;
    while rounds > 0
      invariant LoopFrom(goal, code, proposalCount, critic, fixer, compile, rounds) ==
                RunOf(goal, coder, critic, fixer, compile, fuel)
    {
      var results: seq<Result<Correction, AiCriticError>> := [];
      for i := 1 to NUM_CRITICS + 1
        invariant |results| == i - 1
        invariant forall j :: 0 <= j < i - 1 ==> results[j] == critic(proposalCount, j + 1, code)
      {
        results := results + [critic(proposalCount, i, code)];
      }
      assert results == CriticResults(critic, proposalCount, code);
      var corrections := Gather(results);
      if corrections.Err? {
        return Aborted(corrections.error);
      }
      var suggestions := Aggregate(corrections.value);
      if suggestions == [] {
        var compiled := compile(code);
        if compiled.Err? {
          return Aborted(compiled.error);
        }
        return Converged(proposalCount, code);
      }
      var fixed := fixer(proposalCount, goal, code, suggestions);
      if fixed.Err? {
        return Aborted(fixed.error);
      }
      code := fixed.value;
      proposalCount := proposalCount + 1;
      rounds := rounds - 1;
    }
    outcome := OutOfFuel(proposalCount, code);
  }
}
