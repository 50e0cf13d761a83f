/**
  The experiment harness (src/bin/collect_data.rs): for each number of critics, each of
  the eight problems is run three times as a child `cargo run`, each run retried up to
  three times, and the child's exit codes are tallied into one CSV row per problem.

  The child processes are the world outside the model: a `CommandRunner` is a queue of
  what successive runs report (`status.code()`, or an io error from spawning), consumed
  front to back; an exhausted queue reports exit code 0, as the source's mock does.
  The CSV sink is a growing string.
*/
module CollectData {
  import opened Wrappers
  import Strings

  const NUM_PROBLEMS: nat := 8
  const NUM_ITERATIONS: nat := 3
  const NUM_RETRIES: nat := 3
  const PROBLEM_BASE: string := "problems/coding_problem"
  const PROBLEM_SUFFIX: string := ".txt"
  const NUM_CRITICS_VALUES: seq<nat> := [1, 3, 5]
  const GENERAL_CRITIC_ONLY: bool := false
  /** The exit code with which the orchestrator reports that the critics never agreed. */
  const DIVERGED: nat := 255

  /** What one run of the child reports: `Ok(status.code())`, or the io error of spawning it. */
  type Status = Result<Option<int>, string>

  // ---------------------------------------------------------------------------
  // Arguments

  /** Decimal text of an integer as `format!("{}")` writes it. */
  function IntToString(n: int): (s: string)
    ensures n >= 0 ==> s == Strings.NatToString(n)
    ensures n < 0 ==> |s| >= 2 && s[0] == '-' && s[1..] == Strings.NatToString(-n)
  {
    if n < 0 then "-" + Strings.NatToString(-n) else Strings.NatToString(n)
  }

  /** The argument vector of `cargo` for one run. */
  function Args(problem: nat, numCritics: nat, generalCriticOnly: bool): seq<string>
  {
    ["run", "--",
     "--problem-file=" + PROBLEM_BASE + Strings.NatToString(problem) + PROBLEM_SUFFIX,
     "--num-critics=" + Strings.NatToString(numCritics)]
    + (if generalCriticOnly then ["--general-critic-only"] else [])
  }

  /**
    The vector always starts `run --`, has the flag last exactly when it is asked for, and
    different problems, critic counts or flags give different vectors.
  */
  lemma ArgsShape(p1: nat, k1: nat, g1: bool, p2: nat, k2: nat, g2: bool)
    ensures var a := Args(p1, k1, g1);
            && |a| == (if g1 then 5 else 4)
            && a[..2] == ["run", "--"]
            && (g1 <==> a[|a| - 1] == "--general-critic-only")
    ensures Args(p1, k1, g1) == Args(p2, k2, g2) ==> p1 == p2 && k1 == k2 && g1 == g2
  {
    var a, b := Args(p1, k1, g1), Args(p2, k2, g2);
    assert a[3][2] == 'n';
    if a == b {
      Strings.FramedNatInjective("--problem-file=" + PROBLEM_BASE, p1, p2, PROBLEM_SUFFIX);
      assert "--problem-file=" + PROBLEM_BASE + Strings.NatToString(p1) + PROBLEM_SUFFIX == a[2];
      assert "--problem-file=" + PROBLEM_BASE + Strings.NatToString(p2) + PROBLEM_SUFFIX == b[2];
      Strings.FramedNatInjective("--num-critics=", k1, k2, "");
      assert "--num-critics=" + Strings.NatToString(k1) + "" == a[3];
      assert "--num-critics=" + Strings.NatToString(k2) + "" == b[3];
    }
  }

  // ---------------------------------------------------------------------------
  // The runner

  /** What the next run reports: the head of the queue, or exit code 0 once it is empty. */
  function Next(q: seq<Status>): Status {
    if q == [] then Ok(Some(0)) else q[0]
  }

  /** The queue after one run: the head is consumed, an empty queue stays empty. */
  function Rest(q: seq<Status>): (r: seq<Status>)
    ensures |r| == if q == [] then 0 else |q| - 1
  {
    if q == [] then [] else q[1..]
  }

  /**
    The statuses the source's mock yields for exit codes `codes`: `ExitStatus::from_raw(c << 8)`
    is a normal exit whose `code()` is the low eight bits of `c`.
  */
  function MockStatuses(codes: seq<int>): (q: seq<Status>)
    ensures |q| == |codes|
    ensures forall i :: 0 <= i < |codes| ==> q[i] == Ok(Some(codes[i] % 256))
  {
    seq(|codes|, i requires 0 <= i < |codes| => Ok(Some(codes[i] % 256)))
  }

  class CommandRunner {
    /** What the coming runs report, in order. */
    var statuses: seq<Status>
    /** The argument vectors of the runs so far. */
    ghost var invocations: seq<seq<string>>

    constructor (statuses: seq<Status>)
      ensures this.statuses == statuses && invocations == []
    {
      this.statuses := statuses;
      invocations := [];
    }

    /** `MockCommandRunner::new`: the exit codes are popped in the order given. */
    constructor Mock(exitCodes: seq<int>)
      ensures statuses == MockStatuses(exitCodes) && invocations == []
    {
      statuses := MockStatuses(exitCodes);
      invocations := [];
    }

    /** `run`: one child process with arguments `args`. */
    method Run(args: seq<string>) returns (s: Status)
      modifies this
      ensures s == Next(old(statuses)) && statuses == Rest(old(statuses))
      ensures invocations == old(invocations) + [args]
    {
      if statuses == [] {
        s := Ok(Some(0));
      } else {
        s := statuses[0];
        statuses := statuses[1..];
      }
      invocations := invocations + [args];
    }
  }

  // ---------------------------------------------------------------------------
  // Retrying one run

  /** A status that makes `run_command_with_retries` try again: exit code 0, or no exit code. */
  predicate Retryable(s: Status) {
    s.Ok? && (s.value.None? || s.value.value == 0)
  }

  /** The result a status that is not retried ends the retries with. */
  function Verdict(s: Status): (r: Result<nat, string>)
    requires !Retryable(s)
    ensures r.Ok? <==> s.Ok? && s.value.value > 0
    ensures r.Ok? ==> r.value == s.value.value
    ensures s.Ok? && s.value.value < 0 ==>
              r == Err("unexpected error (exit code: " + IntToString(s.value.value) + "); exiting")
    ensures s.Err? ==> r == Err(s.error)
  {
    match s
    case Err(e) => Err(e)
    case Ok(code) =>
      var c := code.value;
      if c < 0 then Err("unexpected error (exit code: " + IntToString(c) + "); exiting")
      else Ok(c)
  }

  /** The result of the retries, the queue they leave, and how many runs they made. */
  datatype Retried = Retried(result: Result<nat, string>, rest: seq<Status>, calls: nat)

  /**
    The retries once `retries` runs have come back retryable: the result, the queue left,
    and the number of runs made in all.
  */
  function RetriesFrom(q: seq<Status>, retries: nat): Retried
    requires retries <= NUM_RETRIES
    decreases NUM_RETRIES - retries
  {
    if retries == NUM_RETRIES then Retried(Ok(0), q, retries)
    else if !Retryable(Next(q)) then Retried(Verdict(Next(q)), Rest(q), retries + 1)
    else RetriesFrom(Rest(q), retries + 1)
  }

  /** The reference definition of `run_command_with_retries` on queue `q`. */
  function Retries(q: seq<Status>): Retried {
    RetriesFrom(q, 0)
  }

  /** What the `k`-th run from now reports. */
  function StatusAt(q: seq<Status>, k: nat): Status {
    if k < |q| then q[k] else Ok(Some(0))
  }

  function Min(a: nat, b: nat): nat { if a <= b then a else b }

  /** At most `NUM_RETRIES` runs are made in all, and at least one more if one is still allowed. */
  lemma {:induction false} RetriesFromCalls(q: seq<Status>, retries: nat)
    requires retries <= NUM_RETRIES
    ensures retries <= RetriesFrom(q, retries).calls <= NUM_RETRIES
    ensures retries < NUM_RETRIES ==> RetriesFrom(q, retries).calls > retries
    decreases NUM_RETRIES - retries
  {
    if retries < NUM_RETRIES && Retryable(Next(q)) {
      RetriesFromCalls(Rest(q), retries + 1);
    }
  }

  /** The runs are taken from the front of the queue. */
  lemma {:induction false} RetriesFromRest(q: seq<Status>, retries: nat)
    requires retries <= NUM_RETRIES
    ensures var r := RetriesFrom(q, retries);
            r.calls >= retries && r.rest == q[Min(r.calls - retries, |q|)..]
    decreases NUM_RETRIES - retries
  {
    RetriesFromCalls(q, retries);
    if retries < NUM_RETRIES && Retryable(Next(q)) {
      RetriesFromRest(Rest(q), retries + 1);
      var r := RetriesFrom(Rest(q), retries + 1);
      if q != [] {
        assert q[1..][Min(r.calls - retries - 1, |q| - 1)..] == q[Min(r.calls - retries, |q|)..];
      }
    }
  }

  /**
    Every run made here but the last was retryable; the last decides, or the allowance
    ran out on retryable runs alone.
  */
  lemma {:induction false} RetriesFromResult(q: seq<Status>, retries: nat)
    requires retries <= NUM_RETRIES
    ensures var r := RetriesFrom(q, retries);
            var made := r.calls - retries;
            && r.calls >= retries
            && (forall k :: 0 <= k < made - 1 ==> Retryable(StatusAt(q, k)))
            && (made >= 1 && !Retryable(StatusAt(q, made - 1)) ==> r.result == Verdict(StatusAt(q, made - 1)))
            && (made == 0 || Retryable(StatusAt(q, made - 1)) ==> r.result == Ok(0) && r.calls == NUM_RETRIES)
    decreases NUM_RETRIES - retries
  {
    RetriesFromCalls(q, retries);
    if retries < NUM_RETRIES && Retryable(Next(q)) {
      RetriesFromResult(Rest(q), retries + 1);
      var r := RetriesFrom(Rest(q), retries + 1);
      var made := r.calls - retries - 1;
      forall k | 0 <= k < made ensures Retryable(StatusAt(q, k)) {
        if k > 0 {
          assert StatusAt(q, k) == StatusAt(Rest(q), k - 1);
        }
      }
      if made >= 1 {
        assert StatusAt(q, made) == StatusAt(Rest(q), made - 1);
      }
    }
  }

  /**
    `run_command_with_retries` makes between one and `NUM_RETRIES` runs, consuming them from
    the front of the queue; every run but the last was retryable; the last one decides the
    result, unless it was retryable too, in which case all three were and the result is 0.
  */
  lemma RetriesCharacterised(q: seq<Status>)
    ensures var r := Retries(q);
            && 1 <= r.calls <= NUM_RETRIES
            && r.rest == q[Min(r.calls, |q|)..]
            && (forall k :: 0 <= k < r.calls - 1 ==> Retryable(StatusAt(q, k)))
            && (!Retryable(StatusAt(q, r.calls - 1)) ==> r.result == Verdict(StatusAt(q, r.calls - 1)))
            && (Retryable(StatusAt(q, r.calls - 1)) ==> r.result == Ok(0) && r.calls == NUM_RETRIES)
  {
    RetriesFromCalls(q, 0);
    RetriesFromRest(q, 0);
    RetriesFromResult(q, 0);
  }

  /** The result is 0 exactly when all three runs were retryable; a positive code passes through unchanged. */
  lemma RetriesZeroIff(q: seq<Status>)
    ensures Retries(q).result == Ok(0) <==> forall k :: 0 <= k < NUM_RETRIES ==> Retryable(StatusAt(q, k))
    ensures forall c: nat :: c > 0 && Retries(q).result == Ok(c) ==>
              exists k :: 0 <= k < NUM_RETRIES && StatusAt(q, k) == Ok(Some(c))
  {
    RetriesCharacterised(q);
    var r := Retries(q);
    if r.result == Ok(0) {
      assert Retryable(StatusAt(q, r.calls - 1));
    } else if r.result.Ok? {
      var last := StatusAt(q, r.calls - 1);
      assert !Retryable(last);
      assert r.result == Verdict(last);
      assert last.Ok? && last.value.Some?;
      assert last == Ok(Some(r.result.value));
    }
    if forall k :: 0 <= k < NUM_RETRIES ==> Retryable(StatusAt(q, k)) {
      assert Retryable(StatusAt(q, r.calls - 1));
    }
  }

  // ---------------------------------------------------------------------------
  // Tallying the iterations of one problem

  datatype Outcome = Outcome(successCount: nat, failureCount: nat, divergenceCount: nat, successIterations: nat)

  const NO_OUTCOME := Outcome(0, 0, 0, 0)

  /** One iteration's code counted: 0 is a failure, `DIVERGED` a divergence, any other code a success. */
  function Tally(o: Outcome, iterations: nat): Outcome {
    var failed := iterations == 0;
    var diverged := iterations == DIVERGED;
    var succeeded := !failed && !diverged;
    Outcome(o.successCount + (if succeeded then 1 else 0),
            o.failureCount + (if failed then 1 else 0),
            o.divergenceCount + (if diverged then 1 else 0),
            o.successIterations + (if succeeded then iterations else 0))
  }

  function Sum(codes: seq<nat>): nat {
    if codes == [] then 0 else Sum(codes[..|codes| - 1]) + codes[|codes| - 1]
  }

  /** The counters after tallying `codes` in order from zero. */
  function Counted(codes: seq<nat>): Outcome
  {
    if codes == [] then NO_OUTCOME
    else Tally(Counted(codes[..|codes| - 1]), codes[|codes| - 1])
  }

  /**
    Every code is classified once: failures are the zeros, divergences the `DIVERGED` codes,
    the three counts add up to the number of codes, and the iteration total is the sum of
    the codes that are neither.
  */
  lemma {:induction false} CountedMeaning(codes: seq<nat>)
    ensures var o := Counted(codes);
            && o.failureCount == multiset(codes)[0]
            && o.divergenceCount == multiset(codes)[DIVERGED]
            && o.successCount + o.failureCount + o.divergenceCount == |codes|
            && o.successIterations + DIVERGED * o.divergenceCount == Sum(codes)
  {
    if codes != [] {
      var init := codes[..|codes| - 1];
      assert codes == init + [codes[|codes| - 1]];
      CountedMeaning(init);
    }
  }

  /**
    The codes of the iterations after those whose codes are `acc`, up to `NUM_ITERATIONS`,
    and the queue left; the first io error ends them.
  */
  function AttemptedFrom(q: seq<Status>, acc: seq<nat>): (r: Result<(seq<nat>, seq<Status>), string>)
    requires |acc| <= NUM_ITERATIONS
    ensures r.Ok? ==> |r.value.0| == NUM_ITERATIONS && r.value.0[..|acc|] == acc
    decreases NUM_ITERATIONS - |acc|
  {
    if |acc| == NUM_ITERATIONS then Ok((acc, q))
    else
      var a := Retries(q);
      match a.result
      case Err(e) => Err(e)
      case Ok(c) =>
        var r := AttemptedFrom(a.rest, acc + [c]);
        assert r.Ok? ==> r.value.0[..|acc|] == (r.value.0[..|acc| + 1])[..|acc|];
        r
  }

  /** One more iteration: its retries decide whether the rest follow. */
  lemma AttemptedFromStep(q: seq<Status>, acc: seq<nat>)
    requires |acc| < NUM_ITERATIONS
    ensures var a := Retries(q);
            AttemptedFrom(q, acc) ==
              if a.result.Err? then Err(a.result.error) else AttemptedFrom(a.rest, acc + [a.result.value])
  {
  }

  /** Tallying one more code extends the count. */
  lemma CountedSnoc(codes: seq<nat>, c: nat)
    ensures Counted(codes + [c]) == Tally(Counted(codes), c)
  {
    assert (codes + [c])[..|codes|] == codes;
  }

  /** The reference definition of `run_iterations_for_problem` on queue `q`, with the queue it leaves. */
  function IterationsOf(q: seq<Status>): Result<(Outcome, seq<Status>), string> {
    var a := AttemptedFrom(q, []);
    if a.Err? then Err(a.error) else Ok((Counted(a.value.0), a.value.1))
  }

  /**
    Every iteration is classified once: the three counts add up to `NUM_ITERATIONS`, and the
    iteration total is the sum of the codes that were neither 0 nor `DIVERGED`.
  */
  lemma IterationsCount(q: seq<Status>)
    ensures var r := IterationsOf(q);
            r.Ok? ==> var o := r.value.0;
                      o.successCount + o.failureCount + o.divergenceCount == NUM_ITERATIONS
  {
    var a := AttemptedFrom(q, []);
    if a.Ok? {
      CountedMeaning(a.value.0);
    }
  }

  // ---------------------------------------------------------------------------
  // Rows

  /** The CSV line `writeln!` writes for problem `i`, without its newline. */
  function Row(i: nat, numCritics: nat, o: Outcome): string {
    Strings.Join(RowFields(i, numCritics, o), ",")
  }

  function RowFields(i: nat, numCritics: nat, o: Outcome): seq<string> {
    [Strings.NatToString(i), Strings.NatToString(numCritics),
     Strings.NatToString(o.successCount), Strings.NatToString(o.failureCount),
     Strings.NatToString(o.divergenceCount), Strings.NatToString(o.successIterations)]
  }

  /** A row reads back: cut at its commas, its six fields parse to the problem, the critic count and the counters. */
  lemma RowReadsBack(i: nat, numCritics: nat, o: Outcome)
    ensures var fields := Strings.Split(Row(i, numCritics, o), ',');
               && |fields| == 6
               && (forall j :: 0 <= j < 6 ==> Strings.AllDigits(fields[j]))
               && Strings.ParseNat(fields[0]) == i
               && Strings.ParseNat(fields[1]) == numCritics
               && Strings.ParseNat(fields[2]) == o.successCount
               && Strings.ParseNat(fields[3]) == o.failureCount
               && Strings.ParseNat(fields[4]) == o.divergenceCount
               && Strings.ParseNat(fields[5]) == o.successIterations
  {
    var xs := RowFields(i, numCritics, o);
    forall j | 0 <= j < |xs| ensures ',' !in xs[j] {
      assert Strings.AllDigits(xs[j]);
    }
    Strings.SplitJoin(xs, ',');
    Strings.ParseNatToString(i);
    Strings.ParseNatToString(numCritics);
    Strings.ParseNatToString(o.successCount);
    Strings.ParseNatToString(o.failureCount);
    Strings.ParseNatToString(o.divergenceCount);
    Strings.ParseNatToString(o.successIterations);
  }

  /** The rows `process_problems_for_num_critics` writes for the outcomes of problems 1, 2, ... in order. */
  function ProblemRows(numCritics: nat, outcomes: seq<Outcome>): seq<string>
  {
    if outcomes == [] then []
    else ProblemRows(numCritics, outcomes[..|outcomes| - 1]) + [Row(|outcomes|, numCritics, outcomes[|outcomes| - 1])]
  }

  /** The `k`-th row written is problem `k + 1`'s, and there is one row per problem. */
  lemma {:induction false} ProblemRowsAt(numCritics: nat, outcomes: seq<Outcome>)
    ensures |ProblemRows(numCritics, outcomes)| == |outcomes|
    ensures forall k :: 0 <= k < |outcomes| ==> ProblemRows(numCritics, outcomes)[k] == Row(k + 1, numCritics, outcomes[k])
    decreases |outcomes|
  {
    if outcomes != [] {
      var init := outcomes[..|outcomes| - 1];
      ProblemRowsAt(numCritics, init);
      var rows := ProblemRows(numCritics, init);
      assert ProblemRows(numCritics, outcomes) == rows + [Row(|outcomes|, numCritics, outcomes[|outcomes| - 1])];
      forall k | 0 <= k < |outcomes|
        ensures ProblemRows(numCritics, outcomes)[k] == Row(k + 1, numCritics, outcomes[k])
      {
        if k < |init| {
          assert init[k] == outcomes[k];
        }
      }
    }
  }

  /** One more problem's row, written after the rows before it, extends them. */
  lemma ProblemRowsSnoc(out0: seq<string>, before: seq<string>, numCritics: nat, outcomes: seq<Outcome>, o: Outcome)
    requires before == out0 + ProblemRows(numCritics, outcomes)
    ensures before + [Row(|outcomes| + 1, numCritics, o)] == out0 + ProblemRows(numCritics, outcomes + [o])
  {
    var os := outcomes + [o];
    assert os[..|outcomes|] == outcomes && os[|outcomes|] == o;
    var rows, row := ProblemRows(numCritics, outcomes), Row(|outcomes| + 1, numCritics, o);
    assert ProblemRows(numCritics, os) == rows + [row];
    Strings.SeqAssoc(out0, rows, [row]);
  }

  /**
    The rows `collect_data` writes for the outcomes of the problems, one block of outcomes
    per critic count of `NUM_CRITICS_VALUES`, in order.
  */
  function CollectRows(blocks: seq<seq<Outcome>>): seq<string>
    requires |blocks| <= |NUM_CRITICS_VALUES|
  {
    if blocks == [] then []
    else
      var j := |blocks| - 1;
      CollectRows(blocks[..j]) + ProblemRows(NUM_CRITICS_VALUES[j], blocks[j])
  }

  /** The rows of one more block follow those of the blocks before it. */
  lemma CollectRowsSnoc(out0: seq<string>, before: seq<string>, blocks: seq<seq<Outcome>>, block: seq<Outcome>)
    requires |blocks| < |NUM_CRITICS_VALUES| && before == out0 + CollectRows(blocks)
    ensures before + ProblemRows(NUM_CRITICS_VALUES[|blocks|], block) == out0 + CollectRows(blocks + [block])
  {
    var bs, j := blocks + [block], |blocks|;
    assert bs[..j] == blocks && bs[j] == block;
    var rows, more := CollectRows(blocks), ProblemRows(NUM_CRITICS_VALUES[j], block);
    assert CollectRows(bs) == rows + more;
    Strings.SeqAssoc(out0, rows, more);
  }

  /**
    The outcomes of the problems run so far, how the run ended, and the queue before the
    problem that comes next (or that failed).
  */
  datatype Run = Run(outcomes: seq<Outcome>, result: Result<(), string>, rest: seq<Status>)

  /** How one problem is run on a queue: its outcome and the queue it leaves, or an io error. */
  type Step = seq<Status> -> Result<(Outcome, seq<Status>), string>

  /**
    The problems after those whose outcomes are `acc`, up to `NUM_PROBLEMS`, each run by
    `step` on the queue the previous one left; the first io error ends the run.
  */
  function ProblemsFrom(step: Step, q: seq<Status>, acc: seq<Outcome>): (r: Run)
    requires |acc| <= NUM_PROBLEMS
    ensures r.result.Ok? ==> |r.outcomes| == NUM_PROBLEMS
    ensures r.result.Err? ==> |acc| <= |r.outcomes| < NUM_PROBLEMS
    decreases NUM_PROBLEMS - |acc|
  {
    if |acc| == NUM_PROBLEMS then Run(acc, Ok(()), q)
    else
      match step(q)
      case Err(e) => Run(acc, Err(e), q)
      case Ok((o, q')) => ProblemsFrom(step, q', acc + [o])
  }

  /** A problem whose iterations fail ends the run with that error, keeping the outcomes before it. */
  lemma ProblemsFromFails(step: Step, q: seq<Status>, acc: seq<Outcome>, e: string)
    requires |acc| < NUM_PROBLEMS && step(q) == Err(e)
    ensures ProblemsFrom(step, q, acc) == Run(acc, Err(e), q)
  {
  }

  /**
    A problem whose iterations succeed adds its outcome, and its row after the rows
    already written, and the run goes on from the queue it leaves.
  */
  lemma ProblemsFromAdvances(step: Step, q: seq<Status>, acc: seq<Outcome>, o: Outcome, q': seq<Status>,
                             numCritics: nat, out0: seq<string>, before: seq<string>)
    requires |acc| < NUM_PROBLEMS && step(q) == Ok((o, q'))
    requires before == out0 + ProblemRows(numCritics, acc)
    ensures ProblemsFrom(step, q', acc + [o]) == ProblemsFrom(step, q, acc)
    ensures before + [Row(|acc| + 1, numCritics, o)] == out0 + ProblemRows(numCritics, acc + [o])
  {
    ProblemRowsSnoc(out0, before, numCritics, acc, o);
  }

  /** The reference definition of `process_problems_for_num_critics` on queue `q`: problems 1 to 8. */
  function Problems(q: seq<Status>): Run {
    ProblemsFrom(IterationsOf, q, [])
  }

  /** The outcomes already gathered are kept, in front. */
  lemma {:induction false} ProblemsFromKeeps(step: Step, q: seq<Status>, acc: seq<Outcome>)
    requires |acc| <= NUM_PROBLEMS
    ensures var r := ProblemsFrom(step, q, acc); |acc| <= |r.outcomes| && r.outcomes[..|acc|] == acc
    decreases NUM_PROBLEMS - |acc|
  {
    if |acc| < NUM_PROBLEMS && step(q).Ok? {
      var it := step(q).value;
      ProblemsFromKeeps(step, it.1, acc + [it.0]);
      var r := ProblemsFrom(step, it.1, acc + [it.0]);
      assert r.outcomes[..|acc|] == (r.outcomes[..|acc| + 1])[..|acc|];
    }
  }

  /**
    The problems run one after another from the same queue: the outcome of the next
    problem is that of its iterations on the queue the problems before it left.
  */
  lemma ProblemsFromNext(step: Step, q: seq<Status>, acc: seq<Outcome>)
    requires |acc| < NUM_PROBLEMS && step(q).Ok?
    ensures var r := ProblemsFrom(step, q, acc);
            |r.outcomes| > |acc| && r.outcomes[|acc|] == step(q).value.0
  {
    var it := step(q).value;
    ProblemsFromKeeps(step, it.1, acc + [it.0]);
    var r := ProblemsFrom(step, it.1, acc + [it.0]);
    assert r.outcomes[|acc|] == r.outcomes[..|acc| + 1][|acc|];
  }

  /**
    The outcomes of the problems, one block per critic count run so far, how the run
    ended, and the queue before the block that comes next (or that failed).
  */
  datatype Collected = Collected(blocks: seq<seq<Outcome>>, result: Result<(), string>, rest: seq<Status>)

  /**
    The blocks of problems for the critic counts of `NUM_CRITICS_VALUES` after the blocks
    `acc` of the counts before them; a failed block ends the run.
  */
  function BlocksFrom(step: Step, q: seq<Status>, acc: seq<seq<Outcome>>): (r: Collected)
    requires |acc| <= |NUM_CRITICS_VALUES|
    ensures |r.blocks| <= |NUM_CRITICS_VALUES|
    decreases |NUM_CRITICS_VALUES| - |acc|
  {
    if |acc| == |NUM_CRITICS_VALUES| then Collected(acc, Ok(()), q)
    else
      var b := ProblemsFrom(step, q, []);
      if b.result.Err? then Collected(acc + [b.outcomes], b.result, b.rest)
      else BlocksFrom(step, b.rest, acc + [b.outcomes])
  }

  /** A block whose run fails ends the run with its error, after the blocks before it. */
  lemma BlocksFromFails(step: Step, q: seq<Status>, acc: seq<seq<Outcome>>)
    requires |acc| < |NUM_CRITICS_VALUES| && ProblemsFrom(step, q, []).result.Err?
    ensures var b := ProblemsFrom(step, q, []);
            BlocksFrom(step, q, acc) == Collected(acc + [b.outcomes], b.result, b.rest)
  {
  }

  /** A block whose run succeeds is added, and the run goes on from the queue it leaves. */
  lemma BlocksFromAdvances(step: Step, q: seq<Status>, acc: seq<seq<Outcome>>)
    requires |acc| < |NUM_CRITICS_VALUES| && ProblemsFrom(step, q, []).result.Ok?
    ensures var b := ProblemsFrom(step, q, []);
            BlocksFrom(step, b.rest, acc + [b.outcomes]) == BlocksFrom(step, q, acc)
  {
  }

  /** The reference definition of `collect_data` on queue `q`. */
  function Blocks(q: seq<Status>): Collected {
    BlocksFrom(IterationsOf, q, [])
  }

  /**
    Every block but the last holds all eight problems; the run succeeds exactly when there
    is a full block for every critic count, and a failed run's last block falls short.
  */
  lemma BlocksShape(step: Step, q: seq<Status>)
    ensures var r := BlocksFrom(step, q, []);
            && |r.blocks| >= 1
            && (forall k :: 0 <= k < |r.blocks| - 1 ==> |r.blocks[k]| == NUM_PROBLEMS)
            && (r.result.Ok? <==> |r.blocks| == |NUM_CRITICS_VALUES| && |r.blocks[|r.blocks| - 1]| == NUM_PROBLEMS)
  {
    BlocksFromShape(step, q, []);
  }

  lemma {:induction false} BlocksFromShape(step: Step, q: seq<Status>, acc: seq<seq<Outcome>>)
    requires |acc| <= |NUM_CRITICS_VALUES|
    requires forall k :: 0 <= k < |acc| ==> |acc[k]| == NUM_PROBLEMS
    ensures var r := BlocksFrom(step, q, acc);
            && |r.blocks| >= |acc| && r.blocks[..|acc|] == acc
            && (forall k :: 0 <= k < |r.blocks| - 1 ==> |r.blocks[k]| == NUM_PROBLEMS)
            && (r.result.Ok? ==> |r.blocks| == |NUM_CRITICS_VALUES|
                                 && (|acc| < |NUM_CRITICS_VALUES| ==> |r.blocks[|r.blocks| - 1]| == NUM_PROBLEMS))
            && (r.result.Err? ==> |r.blocks| > |acc| && |r.blocks[|r.blocks| - 1]| < NUM_PROBLEMS)
    decreases |NUM_CRITICS_VALUES| - |acc|
  {
    var j := |acc|;
    if j < |NUM_CRITICS_VALUES| {
      var b := ProblemsFrom(step, q, []);
      var acc' := acc + [b.outcomes];
      if b.result.Ok? {
        BlocksFromShape(step, b.rest, acc');
        var r := BlocksFrom(step, b.rest, acc');
        assert r.blocks[..j] == r.blocks[..j + 1][..j];
      } else {
        assert acc'[..j] == acc;
      }
    }
  }

  /** The text of a file of lines: each line followed by a newline. */
  function Text(lines: seq<string>): string {
    if lines == [] then "" else Text(lines[..|lines| - 1]) + lines[|lines| - 1] + "\n"
  }

  /** The file the rows are written to: the lines `writeln!` has written so far. */
  class Sink {
    var lines: seq<string>

    constructor ()
      ensures lines == []
    {
      lines := [];
    }

    /** `writeln!`: one more line. */
    method WriteLine(line: string)
      modifies this
      ensures lines == old(lines) + [line]
      ensures Text(lines) == Text(old(lines)) + line + "\n"
    {
      lines := lines + [line];
      assert lines[..|lines| - 1] == old(lines);
    }
  }

  /** The runs `now` begin with the runs `before`. */
  ghost predicate Extends(now: seq<seq<string>>, before: seq<seq<string>>) {
    |before| <= |now| && now[..|before|] == before
  }

  lemma ExtendsTrans(a: seq<seq<string>>, b: seq<seq<string>>, c: seq<seq<string>>)
    requires Extends(b, a) && Extends(c, b)
    ensures Extends(c, a)
  {
    assert c[..|a|] == c[..|b|][..|a|];
  }

  /** Every run from position `n0` on was made with `args`. */
  ghost predicate RunsSince(now: seq<seq<string>>, n0: nat, args: seq<string>) {
    n0 <= |now| && forall k :: n0 <= k < |now| ==> now[k] == args
  }

  /** Runs made with `args` after runs that all were, from `n0` on, keep them all made with `args`. */
  lemma RunsSinceJoin(before: seq<seq<string>>, now: seq<seq<string>>, n0: nat, args: seq<string>)
    requires RunsSince(before, n0, args) && Extends(now, before) && RunsSince(now, |before|, args)
    ensures RunsSince(now, n0, args)
  {
    forall k | n0 <= k < |before| ensures now[k] == args {
      assert now[k] == now[..|before|][k];
    }
  }

  /** The problem numbers `problems` never go back: the runs of one problem come before those of the next. */
  ghost predicate Ascending(problems: seq<nat>) {
    forall k, l :: 0 <= k <= l < |problems| ==> problems[k] <= problems[l]
  }

  /** `m` runs of problem `p`. */
  function Repeat(p: nat, m: nat): seq<nat> {
    seq(m, _ => p)
  }

  /** The runs from position `n0` on are those of `problems`, in order, with `numCritics` critics. */
  ghost predicate ProblemRunsFrom(now: seq<seq<string>>, n0: nat, problems: seq<nat>,
                                  numCritics: nat, generalCriticOnly: bool)
  {
    && |now| == n0 + |problems|
    && forall k :: 0 <= k < |problems| ==> now[n0 + k] == Args(problems[k], numCritics, generalCriticOnly)
  }

  /** The problems run are problems 1 to `last`, each at least once, in ascending order. */
  ghost predicate CoversProblems(problems: seq<nat>, last: nat) {
    && Ascending(problems)
    && (forall k :: 0 <= k < |problems| ==> 1 <= problems[k] <= last)
    && (forall p :: 1 <= p <= last ==> p in problems)
  }

  /** `counts[0]` runs of problem 1, then `counts[1]` runs of problem 2, and so on. */
  function Flatten(counts: seq<nat>): seq<nat>
    decreases |counts|
  {
    if counts == [] then []
    else Flatten(counts[..|counts| - 1]) + Repeat(|counts|, counts[|counts| - 1])
  }

  lemma FlattenSnoc(counts: seq<nat>, m: nat)
    ensures Flatten(counts + [m]) == Flatten(counts) + Repeat(|counts| + 1, m)
  {
    assert (counts + [m])[..|counts|] == counts;
  }

  /** When every problem ran at least once, the runs cover problems 1 to `|counts|`, in ascending order. */
  lemma {:induction false} FlattenCovers(counts: seq<nat>)
    requires forall k :: 0 <= k < |counts| ==> counts[k] >= 1
    ensures CoversProblems(Flatten(counts), |counts|)
    decreases |counts|
  {
    if counts != [] {
      var init := counts[..|counts| - 1];
      FlattenCovers(init);
      CoversProblemsStep(Flatten(init), |counts|, counts[|counts| - 1]);
    }
  }

  /**
    The runs `now` are the runs `base` followed by, from position `n0` on, `counts[0]` runs
    of problem 1, `counts[1]` runs of problem 2, and so on, every problem run at least once,
    all with `numCritics` critics.
  */
  ghost predicate RecordedProblems(now: seq<seq<string>>, base: seq<seq<string>>, n0: nat, counts: seq<nat>,
                                   numCritics: nat, generalCriticOnly: bool)
  {
    && Extends(now, base)
    && ProblemRunsFrom(now, n0, Flatten(counts), numCritics, generalCriticOnly)
    && forall k :: 0 <= k < |counts| ==> counts[k] >= 1
  }

  /** At least one run of the next problem, after those recorded, is recorded in turn. */
  lemma RecordedProblemsStep(before: seq<seq<string>>, now: seq<seq<string>>, base: seq<seq<string>>, n0: nat,
                             counts: seq<nat>, numCritics: nat, generalCriticOnly: bool)
    requires RecordedProblems(before, base, n0, counts, numCritics, generalCriticOnly)
    requires Extends(now, before) && |now| > |before|
    requires RunsSince(now, |before|, Args(|counts| + 1, numCritics, generalCriticOnly))
    ensures RecordedProblems(now, base, n0, counts + [|now| - |before|], numCritics, generalCriticOnly)
  {
    ExtendsTrans(base, before, now);
    ProblemRunsStep(before, now, n0, Flatten(counts), |counts| + 1, numCritics, generalCriticOnly);
    FlattenSnoc(counts, |now| - |before|);
  }

  /** Runs of problem `p` after those of earlier problems extend the record of runs. */
  lemma ProblemRunsStep(before: seq<seq<string>>, now: seq<seq<string>>, n0: nat, problems: seq<nat>,
                        p: nat, numCritics: nat, generalCriticOnly: bool)
    requires ProblemRunsFrom(before, n0, problems, numCritics, generalCriticOnly)
    requires Extends(now, before) && RunsSince(now, |before|, Args(p, numCritics, generalCriticOnly))
    ensures ProblemRunsFrom(now, n0, problems + Repeat(p, |now| - |before|), numCritics, generalCriticOnly)
  {
    var ps := problems + Repeat(p, |now| - |before|);
    forall k | 0 <= k < |ps| ensures now[n0 + k] == Args(ps[k], numCritics, generalCriticOnly) {
      if k < |problems| {
        assert now[n0 + k] == now[..|before|][n0 + k];
      }
    }
  }

  /** At least one run of problem `p` after runs covering the problems before it covers problems 1 to `p`. */
  lemma CoversProblemsStep(problems: seq<nat>, p: nat, m: nat)
    requires p >= 1 && m >= 1 && CoversProblems(problems, p - 1)
    ensures CoversProblems(problems + Repeat(p, m), p)
  {
    var ps := problems + Repeat(p, m);
    assert ps[|problems|] == p;
    forall q | 1 <= q <= p ensures q in ps {
      if q < p {
        assert q in problems;
        var k :| 0 <= k < |problems| && problems[k] == q;
        assert ps[k] == q;
      }
    }
  }

  /** Some run was made for problem `p` with the `j`-th critic count; `runs` pairs a critic-count index with a problem. */
  ghost predicate Ran(runs: seq<(nat, nat)>, j: nat, p: nat) {
    (j, p) in runs
  }

  /** The pairs `runs` are in order: by critic count first, then by problem. */
  ghost predicate InBlockOrder(runs: seq<(nat, nat)>) {
    forall k, l :: 0 <= k <= l < |runs| ==>
      runs[k].0 < runs[l].0 || (runs[k].0 == runs[l].0 && runs[k].1 <= runs[l].1)
  }

  /** The problems of a block's runs, tagged with the index `j` of its critic count. */
  function Tag(j: nat, problems: seq<nat>): seq<(nat, nat)> {
    seq(|problems|, k requires 0 <= k < |problems| => (j, problems[k]))
  }

  /** The runs from position `n0` on are those of `runs`, in order: problem and critic count as tagged. */
  ghost predicate BlockRunsFrom(now: seq<seq<string>>, n0: nat, runs: seq<(nat, nat)>) {
    && |now| == n0 + |runs|
    && forall k :: 0 <= k < |runs| ==>
         runs[k].0 < |NUM_CRITICS_VALUES| &&
         now[n0 + k] == Args(runs[k].1, NUM_CRITICS_VALUES[runs[k].0], GENERAL_CRITIC_ONLY)
  }

  /**
    The runs belong to the blocks of `blocks`, in block order, and every problem whose
    outcome a block holds was run with that block's critic count.
  */
  ghost predicate CoversBlocks(runs: seq<(nat, nat)>, blocks: seq<seq<Outcome>>) {
    && InBlockOrder(runs)
    && (forall k :: 0 <= k < |runs| ==> runs[k].0 < |blocks| && 1 <= runs[k].1 <= NUM_PROBLEMS)
    && (forall j, p :: 0 <= j < |blocks| && 1 <= p <= |blocks[j]| ==> Ran(runs, j, p))
  }

  /** The runs of the next critic count's problems extend the record of runs. */
  lemma BlockRunsStep(before: seq<seq<string>>, now: seq<seq<string>>, n0: nat, runs: seq<(nat, nat)>,
                      j: nat, problems: seq<nat>)
    requires BlockRunsFrom(before, n0, runs) && j < |NUM_CRITICS_VALUES|
    requires Extends(now, before)
    requires ProblemRunsFrom(now, |before|, problems, NUM_CRITICS_VALUES[j], GENERAL_CRITIC_ONLY)
    ensures BlockRunsFrom(now, n0, runs + Tag(j, problems))
  {
    var rs := runs + Tag(j, problems);
    forall k | 0 <= k < |rs|
      ensures now[n0 + k] == Args(rs[k].1, NUM_CRITICS_VALUES[rs[k].0], GENERAL_CRITIC_ONLY)
    {
      if k < |runs| {
        assert now[n0 + k] == now[..|before|][n0 + k];
      } else {
        assert rs[k] == (j, problems[k - |runs|]);
      }
    }
  }

  /** A block that ran problems 1 to `last` and holds at most `last` outcomes extends the coverage. */
  lemma CoversBlocksStep(runs: seq<(nat, nat)>, blocks: seq<seq<Outcome>>, problems: seq<nat>,
                         last: nat, block: seq<Outcome>)
    requires CoversBlocks(runs, blocks) && CoversProblems(problems, last)
    requires |block| <= last <= NUM_PROBLEMS
    ensures CoversBlocks(runs + Tag(|blocks|, problems), blocks + [block])
  {
    var rs := runs + Tag(|blocks|, problems);
    var bs := blocks + [block];
    forall k, l | 0 <= k <= l < |rs|
      ensures rs[k].0 < rs[l].0 || (rs[k].0 == rs[l].0 && rs[k].1 <= rs[l].1)
    {
      if k >= |runs| {
        assert rs[k] == (|blocks|, problems[k - |runs|]) && rs[l] == (|blocks|, problems[l - |runs|]);
      } else if l >= |runs| {
        assert rs[l] == (|blocks|, problems[l - |runs|]);
      }
    }
    forall k | 0 <= k < |rs| ensures rs[k].0 < |bs| && 1 <= rs[k].1 <= NUM_PROBLEMS {
      if k >= |runs| {
        assert rs[k] == (|blocks|, problems[k - |runs|]);
      }
    }
    forall j, p | 0 <= j < |bs| && 1 <= p <= |bs[j]| ensures Ran(rs, j, p) {
      if j < |blocks| {
        assert bs[j] == blocks[j];
        assert Ran(runs, j, p);
        var k :| 0 <= k < |runs| && runs[k] == (j, p);
        assert rs[k] == (j, p);
      } else {
        assert p in problems;
        var k :| 0 <= k < |problems| && problems[k] == p;
        assert rs[|runs| + k] == (j, p);
      }
    }
  }

  class DataCollector {
    const runner: CommandRunner

    constructor (runner: CommandRunner)
      ensures this.runner == runner
    {
      this.runner := runner;
    }

    /** `run_command_with_retries`: every run is made with the same arguments. */
    method RunCommandWithRetries(problemNumber: nat, numCritics: nat, generalCriticOnly: bool)
      returns (r: Result<nat, string>)
      modifies runner
      ensures var spec := Retries(old(runner.statuses));
              r == spec.result && runner.statuses == spec.rest
      ensures |runner.invocations| == |old(runner.invocations)| + Retries(old(runner.statuses)).calls
      ensures Extends(runner.invocations, old(runner.invocations))
      ensures RunsSince(runner.invocations, |old(runner.invocations)|, Args(problemNumber, numCritics, generalCriticOnly))
    {
      var retries := 0;
      var args := ["run", "--",
                   "--problem-file=" + PROBLEM_BASE + Strings.NatToString(problemNumber) + PROBLEM_SUFFIX,
                   "--num-critics=" + Strings.NatToString(numCritics)];
      if generalCriticOnly {
        args := args + ["--general-critic-only"];
      }
      ghost var q0 := runner.statuses;
      ghost var n0 := |runner.invocations|;
      while retries < NUM_RETRIES
        invariant 0 <= retries <= NUM_RETRIES
        invariant RetriesFrom(runner.statuses, retries) == Retries(q0)
        invariant |runner.invocations| == n0 + retries
        invariant runner.invocations[..n0] == old(runner.invocations)
        invariant forall k :: n0 <= k < |runner.invocations| ==> runner.invocations[k] == args
      {
        var status := runner.Run(args);
        match status {
          case Err(e) =>
            return Err(e);
          case Ok(code) =>
            if code.Some? && code.value < 0 {
              return Err("unexpected error (exit code: " + IntToString(code.value) + "); exiting");
            } else if code.Some? && code.value > 0 {
              return Ok(code.value);
            }
        }
        retries := retries + 1;
      }
      r := Ok(0);
    }

    /** `run_iterations_for_problem`: `NUM_ITERATIONS` retried runs, each result tallied. */
    method RunIterationsForProblem(problemNumber: nat, numCritics: nat, generalCriticOnly: bool)
      returns (r: Result<Outcome, string>)
      modifies runner
      ensures r.Err? ==> IterationsOf(old(runner.statuses)) == Err(r.error)
      ensures r.Ok? ==> IterationsOf(old(runner.statuses)) == Ok((r.value, runner.statuses))
      ensures Extends(runner.invocations, old(runner.invocations))
      ensures |runner.invocations| > |old(runner.invocations)|
      ensures RunsSince(runner.invocations, |old(runner.invocations)|, Args(problemNumber, numCritics, generalCriticOnly))
    {
      var successCount, failureCount, divergenceCount, successIterations := 0, 0, 0, 0;
      ghost var codes: seq<nat> := [];
      ghost var q0 := runner.statuses;
      ghost var n0 := |runner.invocations|;
      for i := 1 to NUM_ITERATIONS + 1
        invariant |codes| == i - 1
        invariant |runner.invocations| >= n0 + i - 1
        invariant Extends(runner.invocations, old(runner.invocations))
        invariant RunsSince(runner.invocations, n0, Args(problemNumber, numCritics, generalCriticOnly))
        invariant AttemptedFrom(runner.statuses, codes) == AttemptedFrom(q0, [])
        invariant Outcome(successCount, failureCount, divergenceCount, successIterations) == Counted(codes)
      {
        AttemptedFromStep(runner.statuses, codes);
        RetriesFromCalls(runner.statuses, 0);
        ghost var before := runner.invocations;
        var iterations := RunCommandWithRetries(problemNumber, numCritics, generalCriticOnly);
        ExtendsTrans(old(runner.invocations), before, runner.invocations);
        RunsSinceJoin(before, runner.invocations, n0, Args(problemNumber, numCritics, generalCriticOnly));
        if iterations.Err? {
          return Err(iterations.error);
        }
        var c := iterations.value;
        CountedSnoc(codes, c);
        if c == 0 {
          failureCount := failureCount + 1;
        } else if c == DIVERGED {
          divergenceCount := divergenceCount + 1;
        } else {
          successCount := successCount + 1;
          successIterations := successIterations + c;
        }
        codes := codes + [c];
      }
      r := Ok(Outcome(successCount, failureCount, divergenceCount, successIterations));
    }

    /** `process_problems_for_num_critics`: one row per problem, in order, until an io error. */
    method ProcessProblemsForNumCritics(numCritics: nat, file: Sink, generalCriticOnly: bool)
      returns (r: Result<(), string>, ghost counts: seq<nat>)
      modifies runner, file
      ensures var spec := Problems(old(runner.statuses));
              && r == spec.result
              && (r.Ok? ==> runner.statuses == spec.rest)
              && file.lines == old(file.lines) + ProblemRows(numCritics, spec.outcomes)
      ensures RecordedProblems(runner.invocations, old(runner.invocations), |old(runner.invocations)|, counts,
                               numCritics, generalCriticOnly)
      ensures var n := |Problems(old(runner.statuses)).outcomes|;
              |counts| == if r.Ok? then n else n + 1
    {
      ghost var outcomes: seq<Outcome> := [];
      ghost var spec := Problems(runner.statuses);
      ghost var out0 := file.lines;
      ghost var base := runner.invocations;
      counts := [];
      for i := 1 to NUM_PROBLEMS + 1
        invariant |outcomes| == i - 1
        invariant ProblemsFrom(IterationsOf, runner.statuses, outcomes) == spec
        invariant file.lines == out0 + ProblemRows(numCritics, outcomes)
        invariant RecordedProblems(runner.invocations, base, |base|, counts, numCritics, generalCriticOnly)
        invariant |counts| == i - 1
      {
        ghost var q := runner.statuses;
        ghost var before := runner.invocations;
        var outcome := RunIterationsForProblem(i, numCritics, generalCriticOnly);
        ghost var now := runner.invocations;
        RecordedProblemsStep(before, now, base, |base|, counts, numCritics, generalCriticOnly);
        counts := counts + [|now| - |before|];
        if outcome.Err? {
          ProblemsFromFails(IterationsOf, q, outcomes, outcome.error);
          r := Err(outcome.error);
          return;
        }
        var o := outcome.value;
        ProblemsFromAdvances(IterationsOf, q, outcomes, o, runner.statuses, numCritics, out0, file.lines);
        file.WriteLine(Row(i, numCritics, o));
        outcomes := outcomes + [o];
      }
      r := Ok(());
    }

    /** `collect_data`: the problems for each critic count in `NUM_CRITICS_VALUES`, in order, until an io error. */
    method CollectData(file: Sink) returns (r: Result<(), string>, ghost runs: seq<(nat, nat)>)
      modifies runner, file
      ensures var spec := Blocks(old(runner.statuses));
              && r == spec.result
              && (r.Ok? ==> runner.statuses == spec.rest)
              && file.lines == old(file.lines) + CollectRows(spec.blocks)
      ensures Extends(runner.invocations, old(runner.invocations))
      ensures BlockRunsFrom(runner.invocations, |old(runner.invocations)|, runs)
      ensures CoversBlocks(runs, Blocks(old(runner.statuses)).blocks)
    {
      ghost var blocks: seq<seq<Outcome>> := [];
      ghost var spec := Blocks(runner.statuses);
      ghost var out0 := file.lines;
      ghost var n0 := |runner.invocations|;
      runs := [];
      for j := 0 to |NUM_CRITICS_VALUES|
        invariant |blocks| == j
        invariant BlocksFrom(IterationsOf, runner.statuses, blocks) == spec
        invariant file.lines == out0 + CollectRows(blocks)
        invariant Extends(runner.invocations, old(runner.invocations))
        invariant BlockRunsFrom(runner.invocations, n0, runs)
        invariant CoversBlocks(runs, blocks)
      {
        ghost var q := runner.statuses;
        ghost var block := Problems(q);
        ghost var before := runner.invocations;
        CollectRowsSnoc(out0, file.lines, blocks, block.outcomes);
        ghost var counts;
        r, counts := ProcessProblemsForNumCritics(NUM_CRITICS_VALUES[j], file, GENERAL_CRITIC_ONLY);
        ExtendsTrans(old(runner.invocations), before, runner.invocations);
        BlockRunsStep(before, runner.invocations, n0, runs, j, Flatten(counts));
        FlattenCovers(counts);
        CoversBlocksStep(runs, blocks, Flatten(counts), |counts|, block.outcomes);
        runs := runs + Tag(j, Flatten(counts));
        if r.Err? {
          BlocksFromFails(IterationsOf, q, blocks);
          return;
        }
        BlocksFromAdvances(IterationsOf, q, blocks);
        blocks := blocks + [block.outcomes];
      }
      r := Ok(());
    }
  }

  // ---------------------------------------------------------------------------
  // The source's unit tests, on the mock runner

  /** The retry tests: two zeros then 2 give 2; six zeros give 0; 4 and 255 are passed through as they are. */
  lemma RetriesMockExamples()
    ensures Retries(MockStatuses([0, 0, 2])).result == Ok(2)
    ensures Retries(MockStatuses([0, 0, 0, 0, 0, 0])) == Retried(Ok(0), MockStatuses([0, 0, 0]), 3)
    ensures Retries(MockStatuses([4])).result == Ok(4)
    ensures Retries(MockStatuses([255])).result == Ok(255)
  {
    assert MockStatuses([0, 0, 2]) == [Ok(Some(0)), Ok(Some(0)), Ok(Some(2))];
    var zeros := MockStatuses([0, 0, 0, 0, 0, 0]);
    assert zeros == [Ok(Some(0)), Ok(Some(0)), Ok(Some(0)), Ok(Some(0)), Ok(Some(0)), Ok(Some(0))];
    assert MockStatuses([0, 0, 0]) == [Ok(Some(0)), Ok(Some(0)), Ok(Some(0))];
    assert MockStatuses([4]) == [Ok(Some(4))];
    assert MockStatuses([255]) == [Ok(Some(255))];
  }

  /** A run that is not retried ends the retries at once, consuming one status. */
  lemma RetriesDecisiveHead(q: seq<Status>)
    requires q != [] && !Retryable(q[0])
    ensures Retries(q) == Retried(Verdict(q[0]), q[1..], 1)
  {
  }

  /** A zero followed by a run that is not retried ends the retries after two runs. */
  lemma RetriesZeroThenHead(q: seq<Status>)
    requires |q| >= 2 && q[0] == Ok(Some(0)) && !Retryable(q[1])
    ensures Retries(q) == Retried(Verdict(q[1]), q[2..], 2)
  {
    assert q[1..][0] == q[1] && q[1..][1..] == q[2..];
    assert RetriesFrom(q[1..], 1) == Retried(Verdict(q[1]), q[2..], 2);
  }

  /** Three retried runs that each end in a code make one problem's three iterations. */
  lemma IterationsOfThree(q: seq<Status>, c1: nat, q1: seq<Status>, c2: nat, q2: seq<Status>, c3: nat, q3: seq<Status>)
    requires Retries(q).result == Ok(c1) && Retries(q).rest == q1
    requires Retries(q1).result == Ok(c2) && Retries(q1).rest == q2
    requires Retries(q2).result == Ok(c3) && Retries(q2).rest == q3
    ensures IterationsOf(q) == Ok((Tally(Tally(Tally(NO_OUTCOME, c1), c2), c3), q3))
  {
    AttemptedFromStep(q, []);
    AttemptedFromStep(q1, [c1]);
    AttemptedFromStep(q2, [c1, c2]);
    assert [] + [c1] == [c1] && [c1] + [c2] == [c1, c2] && [c1, c2] + [c3] == [c1, c2, c3];
    assert AttemptedFrom(q, []) == Ok(([c1, c2, c3], q3));
    CountedSnoc([], c1);
    CountedSnoc([c1], c2);
    CountedSnoc([c1, c2], c3);
  }

  /** Three runs reporting 1, 2 and 3 at the head of the queue are decisive at once: three successes worth six iterations. */
  lemma IterationsOneTwoThree(q: seq<Status>)
    requires |q| >= 3 && q[0] == Ok(Some(1)) && q[1] == Ok(Some(2)) && q[2] == Ok(Some(3))
    ensures IterationsOf(q) == Ok((Outcome(3, 0, 0, 6), q[3..]))
  {
    assert q[1..][0] == q[1] && q[1..][1..] == q[2..];
    assert q[2..][0] == q[2] && q[2..][1..] == q[3..];
    RetriesDecisiveHead(q);
    RetriesDecisiveHead(q[1..]);
    RetriesDecisiveHead(q[2..]);
    TallyOneTwoThree();
    IterationsOfThree(q, 1, q[1..], 2, q[2..], 3, q[3..]);
  }

  /** Codes 1, 2 and 3 tallied from zero. */
  lemma TallyOneTwoThree()
    ensures Tally(Tally(Tally(NO_OUTCOME, 1), 2), 3) == Outcome(3, 0, 0, 6)
  {
  }

  /** `test_run_iterations_for_problem_success`: codes 1, 2, 3 are three successes worth six iterations. */
  lemma IterationsAllSuccess()
    ensures IterationsOf(MockStatuses([1, 2, 3])) == Ok((Outcome(3, 0, 0, 6), []))
  {
    var q := MockStatuses([1, 2, 3]);
    assert q[3..] == [];
    IterationsOneTwoThree(q);
  }

  /** The last two retried runs on a queue of two zeros: the first takes both, the second finds the queue dry. */
  lemma AttemptedTwoZeros()
    ensures AttemptedFrom([Ok(Some(0)), Ok(Some(0))], [0]) == Ok(([0, 0, 0], []))
  {
    assert Retries([]) == Retried(Ok(0), [], 3);
    assert [0, 0] + [0] == [0, 0, 0];
    assert AttemptedFrom([], [0, 0]) == Ok(([0, 0, 0], []));
    assert Retries([Ok(Some(0)), Ok(Some(0))]) == Retried(Ok(0), [], 3);
    assert [0] + [0] == [0, 0];
  }

  /** Three retried runs on the mock with five zeros: the first two each take three zeros, the queue running dry in the second. */
  lemma AttemptedFiveZeros()
    ensures AttemptedFrom(MockStatuses([0, 0, 0, 0, 0]), []) == Ok(([0, 0, 0], []))
  {
    var zeros: seq<Status> := [Ok(Some(0)), Ok(Some(0)), Ok(Some(0)), Ok(Some(0)), Ok(Some(0))];
    assert MockStatuses([0, 0, 0, 0, 0]) == zeros;
    AttemptedTwoZeros();
    assert zeros[3..] == [Ok(Some(0)), Ok(Some(0))];
    assert Retries(zeros) == Retried(Ok(0), zeros[3..], 3);
    assert [] + [0] == [0];
  }

  /** `test_run_iterations_for_problem_failure`: five zeros make three failures. */
  lemma IterationsAllFailure()
    ensures IterationsOf(MockStatuses([0, 0, 0, 0, 0])) == Ok((Outcome(0, 3, 0, 0), []))
  {
    AttemptedFiveZeros();
    assert [0, 0, 0][..2] == [0, 0] && [0, 0][..1] == [0] && [0][..0] == [];
    assert Counted([0]) == Outcome(0, 1, 0, 0);
    assert Counted([0, 0]) == Outcome(0, 2, 0, 0);
  }

  /** Three runs on the mock with three 255s. */
  lemma AttemptedThreeDivergences()
    ensures AttemptedFrom(MockStatuses([255, 255, 255]), []) == Ok(([255, 255, 255], []))
  {
    var q: seq<Status> := [Ok(Some(255)), Ok(Some(255)), Ok(Some(255))];
    assert MockStatuses([255, 255, 255]) == q;
    assert Retries(q[2..]) == Retried(Ok(255), [], 1);
    assert [255, 255] + [255] == [255, 255, 255];
    assert AttemptedFrom(q[2..], [255, 255]) == Ok(([255, 255, 255], []));
    assert Retries(q[1..]) == Retried(Ok(255), q[2..], 1);
    assert [255] + [255] == [255, 255];
    assert AttemptedFrom(q[1..], [255]) == Ok(([255, 255, 255], []));
    assert Retries(q) == Retried(Ok(255), q[1..], 1);
    assert [] + [255] == [255];
  }

  /** `test_run_iterations_for_problem_divergence`: three 255s make three divergences. */
  lemma IterationsAllDivergence()
    ensures IterationsOf(MockStatuses([255, 255, 255])) == Ok((Outcome(0, 0, 3, 0), []))
  {
    AttemptedThreeDivergences();
    assert [255, 255, 255][..2] == [255, 255] && [255, 255][..1] == [255] && [255][..0] == [];
    assert Counted([255]) == Outcome(0, 0, 1, 0);
    assert Counted([255, 255]) == Outcome(0, 0, 2, 0);
  }

  /** The outcome of a problem whose nine runs all report 0: three failures. */
  const ALL_FAILED := Outcome(0, 3, 0, 0)

  /** Once the mock's queue is empty every run reports 0, so every problem fails all three iterations. */
  lemma IterationsOnEmpty()
    ensures IterationsOf([]) == Ok((ALL_FAILED, []))
  {
    assert Retries([]) == Retried(Ok(0), [], 3);
    TallyThreeZeros();
    IterationsOfThree([], 0, [], 0, [], 0, []);
  }

  /** Three zeros tallied from zero. */
  lemma TallyThreeZeros()
    ensures Tally(Tally(Tally(NO_OUTCOME, 0), 0), 0) == ALL_FAILED
  {
  }

  /** On the empty queue the remaining problems all fail, and the run ends normally. */
  lemma {:induction false} ProblemsOnEmpty(acc: seq<Outcome>)
    requires |acc| <= NUM_PROBLEMS
    ensures var r := ProblemsFrom(IterationsOf, [], acc);
            && r.result == Ok(()) && r.rest == [] && |r.outcomes| == NUM_PROBLEMS
            && (forall k :: 0 <= k < |acc| ==> r.outcomes[k] == acc[k])
            && (forall k :: |acc| <= k < NUM_PROBLEMS ==> r.outcomes[k] == ALL_FAILED)
    decreases NUM_PROBLEMS - |acc|
  {
    if |acc| < NUM_PROBLEMS {
      IterationsOnEmpty();
      var acc' := acc + [ALL_FAILED];
      ProblemsOnEmpty(acc');
      var r := ProblemsFrom(IterationsOf, [], acc');
      assert ProblemsFrom(IterationsOf, [], acc) == r;
      assert forall k :: 0 <= k < |acc| ==> acc'[k] == acc[k];
    }
  }

  /** A problem whose iterations succeed is recorded and the next starts on the rest of the queue. */
  lemma ProblemsFromIterated(q: seq<Status>, acc: seq<Outcome>, o: Outcome, q': seq<Status>)
    requires |acc| < NUM_PROBLEMS && IterationsOf(q) == Ok((o, q'))
    ensures ProblemsFrom(IterationsOf, q, acc) == ProblemsFrom(IterationsOf, q', acc + [o])
  {
  }

  /** A queue of 1, 2, 3 three times over: three problems of three successes worth six, then five that fail. */
  lemma ProblemsOneTwoThreeThrice(q: seq<Status>)
    requires |q| == 9 && q[0] == q[3] == q[6] == Ok(Some(1)) && q[1] == q[4] == q[7] == Ok(Some(2))
    requires q[2] == q[5] == q[8] == Ok(Some(3))
    ensures var run := Problems(q);
            && run.result == Ok(()) && run.rest == [] && |run.outcomes| == 8
            && (forall k :: 0 <= k < 3 ==> run.outcomes[k] == Outcome(3, 0, 0, 6))
            && (forall k :: 3 <= k < 8 ==> run.outcomes[k] == ALL_FAILED)
  {
    var o := Outcome(3, 0, 0, 6);
    assert q[3..][0] == q[3] && q[3..][1] == q[4] && q[3..][2] == q[5] && q[3..][3..] == q[6..];
    assert q[6..][0] == q[6] && q[6..][1] == q[7] && q[6..][2] == q[8] && q[6..][3..] == [];
    IterationsOneTwoThree(q);
    IterationsOneTwoThree(q[3..]);
    IterationsOneTwoThree(q[6..]);
    var a1 := [] + [o];
    var a2 := a1 + [o];
    var a3 := a2 + [o];
    ProblemsFromIterated(q, [], o, q[3..]);
    ProblemsFromIterated(q[3..], a1, o, q[6..]);
    ProblemsFromIterated(q[6..], a2, o, []);
    ProblemsOnEmpty(a3);
    assert a3[0] == o && a3[1] == o && a3[2] == o;
  }

  /** `test_process_problems_for_num_critics_all_success`: three problems of codes 1, 2, 3, then five that fail. */
  lemma ProblemsAllSuccess()
    ensures var run := Problems(MockStatuses([1, 2, 3, 1, 2, 3, 1, 2, 3]));
            && run.result == Ok(()) && run.rest == [] && |run.outcomes| == 8
            && (forall k :: 0 <= k < 3 ==> run.outcomes[k] == Outcome(3, 0, 0, 6))
            && (forall k :: 3 <= k < 8 ==> run.outcomes[k] == ALL_FAILED)
  {
    ProblemsOneTwoThreeThrice(MockStatuses([1, 2, 3, 1, 2, 3, 1, 2, 3]));
  }

  /** Problem 1 of the mixed test: 1 succeeds, 0 then 255 diverges, 2 succeeds. */
  lemma IterationsMixedFirst(q: seq<Status>)
    requires |q| >= 4 && q[0] == Ok(Some(1)) && q[1] == Ok(Some(0)) && q[2] == Ok(Some(255)) && q[3] == Ok(Some(2))
    ensures IterationsOf(q) == Ok((Outcome(2, 0, 1, 3), q[4..]))
  {
    assert q[1..][0] == q[1] && q[1..][1] == q[2] && q[1..][2..] == q[3..];
    assert q[3..][0] == q[3] && q[3..][1..] == q[4..];
    RetriesDecisiveHead(q);
    RetriesZeroThenHead(q[1..]);
    RetriesDecisiveHead(q[3..]);
    TallyMixedFirst();
    IterationsOfThree(q, 1, q[1..], 255, q[3..], 2, q[4..]);
  }

  /** Codes 1, 255 and 2 tallied from zero. */
  lemma TallyMixedFirst()
    ensures Tally(Tally(Tally(NO_OUTCOME, 1), 255), 2) == Outcome(2, 0, 1, 3)
  {
  }

  /** Problem 2 of the mixed test: 0 then 255 diverges, 3 succeeds, 0 then 255 diverges. */
  lemma IterationsMixedSecond(q: seq<Status>)
    requires |q| == 5 && q[0] == Ok(Some(0)) && q[1] == Ok(Some(255)) && q[2] == Ok(Some(3))
    requires q[3] == Ok(Some(0)) && q[4] == Ok(Some(255))
    ensures IterationsOf(q) == Ok((Outcome(1, 0, 2, 3), []))
  {
    assert q[2..][0] == q[2] && q[2..][1..] == q[3..];
    assert q[3..][0] == q[3] && q[3..][1] == q[4] && q[3..][2..] == [];
    RetriesZeroThenHead(q);
    RetriesDecisiveHead(q[2..]);
    RetriesZeroThenHead(q[3..]);
    TallyMixedSecond();
    IterationsOfThree(q, 255, q[2..], 3, q[3..], 255, []);
  }

  /** Codes 255, 3 and 255 tallied from zero. */
  lemma TallyMixedSecond()
    ensures Tally(Tally(Tally(NO_OUTCOME, 255), 3), 255) == Outcome(1, 0, 2, 3)
  {
  }

  /** The mixed test's queue: two problems of mixed outcomes, then six that fail. */
  lemma ProblemsMixedQueue(q: seq<Status>)
    requires |q| == 9 && q[0] == Ok(Some(1)) && q[1] == Ok(Some(0)) && q[2] == Ok(Some(255))
    requires q[3] == Ok(Some(2)) && q[4] == Ok(Some(0)) && q[5] == Ok(Some(255))
    requires q[6] == Ok(Some(3)) && q[7] == Ok(Some(0)) && q[8] == Ok(Some(255))
    ensures var run := Problems(q);
            && run.result == Ok(()) && run.rest == [] && |run.outcomes| == 8
            && run.outcomes[0] == Outcome(2, 0, 1, 3) && run.outcomes[1] == Outcome(1, 0, 2, 3)
            && (forall k :: 2 <= k < 8 ==> run.outcomes[k] == ALL_FAILED)
  {
    var o1, o2 := Outcome(2, 0, 1, 3), Outcome(1, 0, 2, 3);
    assert q[4..][0] == q[4] && q[4..][1] == q[5] && q[4..][2] == q[6] && q[4..][3] == q[7] && q[4..][4] == q[8];
    IterationsMixedFirst(q);
    IterationsMixedSecond(q[4..]);
    assert [] + [o1] == [o1] && [o1] + [o2] == [o1, o2];
    ProblemsFromIterated(q, [], o1, q[4..]);
    ProblemsFromIterated(q[4..], [o1], o2, []);
    ProblemsOnEmpty([o1, o2]);
  }

  /** `test_process_problems_for_num_critics_mixed_outcomes`: two mixed problems, then six that fail. */
  lemma ProblemsMixed()
    ensures var run := Problems(MockStatuses([1, 0, 255, 2, 0, 255, 3, 0, 255]));
            && run.result == Ok(()) && run.rest == [] && |run.outcomes| == 8
            && run.outcomes[0] == Outcome(2, 0, 1, 3) && run.outcomes[1] == Outcome(1, 0, 2, 3)
            && (forall k :: 2 <= k < 8 ==> run.outcomes[k] == ALL_FAILED)
  {
    ProblemsMixedQueue(MockStatuses([1, 0, 255, 2, 0, 255, 3, 0, 255]));
  }

  /** Row 1 of the mixed test. */
  lemma MixedFirstRow()
    ensures Row(1, 1, Outcome(2, 0, 1, 3)) == "1,1,2,0,1,3"
  {
  }

  /** Row 2 of the mixed test. */
  lemma MixedSecondRow()
    ensures Row(2, 1, Outcome(1, 0, 2, 3)) == "2,1,1,0,2,3"
  {
  }

  /** Row 3 of the mixed test, the first problem to find the queue empty. */
  lemma FailedThirdRow()
    ensures Row(3, 1, ALL_FAILED) == "3,1,0,3,0,0"
  {
  }

  /** Row 1 of the all-success test. */
  lemma SucceededFirstRow()
    ensures Row(1, 1, Outcome(3, 0, 0, 6)) == "1,1,3,0,0,6"
  {
  }

  /** The rows of the mixed test with one critic: two mixed problems, then the six that failed. */
  lemma MixedRows(os: seq<Outcome>)
    requires |os| == 8 && os[0] == Outcome(2, 0, 1, 3) && os[1] == Outcome(1, 0, 2, 3)
    requires forall k :: 2 <= k < 8 ==> os[k] == ALL_FAILED
    ensures var rows := ProblemRows(1, os);
            && |rows| == 8 && rows[0] == "1,1,2,0,1,3" && rows[1] == "2,1,1,0,2,3" && rows[2] == "3,1,0,3,0,0"
            && forall k :: 2 <= k < 8 ==> rows[k] == Row(k + 1, 1, Outcome(0, 3, 0, 0))
  {
    ProblemRowsAt(1, os);
    MixedFirstRow();
    MixedSecondRow();
    FailedThirdRow();
  }

  /** The rows of the all-success test with one critic: three successful problems, then five that failed. */
  lemma AllSuccessRows(os: seq<Outcome>)
    requires |os| == 8 && forall k :: 0 <= k < 3 ==> os[k] == Outcome(3, 0, 0, 6)
    requires forall k :: 3 <= k < 8 ==> os[k] == ALL_FAILED
    ensures var rows := ProblemRows(1, os);
            && |rows| == 8 && rows[0] == "1,1,3,0,0,6"
            && (forall k :: 0 <= k < 3 ==> rows[k] == Row(k + 1, 1, Outcome(3, 0, 0, 6)))
            && (forall k :: 3 <= k < 8 ==> rows[k] == Row(k + 1, 1, Outcome(0, 3, 0, 0)))
  {
    ProblemRowsAt(1, os);
    SucceededFirstRow();
  }

  /** `test_process_problems_for_num_critics_mixed_outcomes`: the rows written for the mock's queue. */
  lemma MixedOutcomesRows()
    ensures var run := Problems(MockStatuses([1, 0, 255, 2, 0, 255, 3, 0, 255]));
            var rows := ProblemRows(1, run.outcomes);
            && run.result == Ok(())
            && |rows| == 8 && rows[0] == "1,1,2,0,1,3" && rows[1] == "2,1,1,0,2,3" && rows[2] == "3,1,0,3,0,0"
            && forall k :: 2 <= k < 8 ==> rows[k] == Row(k + 1, 1, Outcome(0, 3, 0, 0))
  {
    ProblemsMixed();
    MixedRows(Problems(MockStatuses([1, 0, 255, 2, 0, 255, 3, 0, 255])).outcomes);
  }

  /** `test_process_problems_for_num_critics_all_success`: the rows written for the mock's queue. */
  lemma AllSuccessRowsOfMock()
    ensures var run := Problems(MockStatuses([1, 2, 3, 1, 2, 3, 1, 2, 3]));
            var rows := ProblemRows(1, run.outcomes);
            && run.result == Ok(())
            && |rows| == 8 && rows[0] == "1,1,3,0,0,6"
            && (forall k :: 0 <= k < 3 ==> rows[k] == Row(k + 1, 1, Outcome(3, 0, 0, 6)))
            && (forall k :: 3 <= k < 8 ==> rows[k] == Row(k + 1, 1, Outcome(0, 3, 0, 0)))
  {
    ProblemsAllSuccess();
    AllSuccessRows(Problems(MockStatuses([1, 2, 3, 1, 2, 3, 1, 2, 3])).outcomes);
  }

  /**
    `test_process_problems_for_num_critics_mixed_outcomes`, run on a mock runner and an
    in-memory writer: the run succeeds and writes one row per problem.
  */
  method MixedOutcomesScenario() returns (r: Result<(), string>, lines: seq<string>)
    ensures r == Ok(())
    ensures |lines| == 8 && lines[0] == "1,1,2,0,1,3" && lines[1] == "2,1,1,0,2,3" && lines[2] == "3,1,0,3,0,0"
    ensures forall k :: 2 <= k < 8 ==> lines[k] == Row(k + 1, 1, Outcome(0, 3, 0, 0))
  {
    var runner := new CommandRunner.Mock([1, 0, 255, 2, 0, 255, 3, 0, 255]);
    var collector := new DataCollector(runner);
    var file := new Sink();
    MixedOutcomesRows();
    ghost var counts;
    r, counts := collector.ProcessProblemsForNumCritics(1, file, false);
    lines := file.lines;
    assert lines == ProblemRows(1, Problems(MockStatuses([1, 0, 255, 2, 0, 255, 3, 0, 255])).outcomes);
  }

  /**
    `test_process_problems_for_num_critics_all_success`, run on a mock runner and an
    in-memory writer: the run succeeds and writes one row per problem.
  */
  method AllSuccessScenario() returns (r: Result<(), string>, lines: seq<string>)
    ensures r == Ok(())
    ensures |lines| == 8 && lines[0] == "1,1,3,0,0,6"
    ensures forall k :: 0 <= k < 3 ==> lines[k] == Row(k + 1, 1, Outcome(3, 0, 0, 6))
    ensures forall k :: 3 <= k < 8 ==> lines[k] == Row(k + 1, 1, Outcome(0, 3, 0, 0))
  {
    var runner := new CommandRunner.Mock([1, 2, 3, 1, 2, 3, 1, 2, 3]);
    var collector := new DataCollector(runner);
    var file := new Sink();
    AllSuccessRowsOfMock();
    ghost var counts;
    r, counts := collector.ProcessProblemsForNumCritics(1, file, false);
    lines := file.lines;
    assert lines == ProblemRows(1, Problems(MockStatuses([1, 2, 3, 1, 2, 3, 1, 2, 3])).outcomes);
  }
}
