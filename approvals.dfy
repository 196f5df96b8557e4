/** The command-line approval gate: a thesis is shown, the operator is asked
    until the answer is y, n or s, and the decision is written to the trade
    log. The operator's typed lines are the gate's input stream; the shown
    tables are output only and are not part of this model. */
module Approvals {
  import opened Common
  import opened Text
  import opened DecisionModels
  import DecisionLog

  /** The gate's reply: the thesis it was asked about, whether it was
      approved, and the decision label. */
  datatype ApprovalResult = ApprovalResult(thesis: Thesis, approved: bool, decision: string)

  /** What `input()` raises once the operator's lines have run out. */
  const NoInput: string := "EOFError: EOF when reading a line"

  /** A typed line as the gate reads it: trimmed and lower-cased. */
  function Cleaned(line: string): string {
    Lower(Strip(line))
  }

  predicate IsAnswer(answer: string) {
    answer == "y" || answer == "n" || answer == "s"
  }

  /** Every typed line as the gate reads it. */
  function CleanedAll(lines: seq<string>): (r: seq<string>)
    ensures |r| == |lines| && forall i :: 0 <= i < |lines| ==> r[i] == Cleaned(lines[i])
  {
    seq(|lines|, i requires 0 <= i < |lines| => Cleaned(lines[i]))
  }

  /** The position of the first answer among the read lines, if any. */
  function FirstAnswer(answers: seq<string>): (k: Option<nat>)
    ensures k.Some? ==> k.value < |answers| && IsAnswer(answers[k.value])
                        && forall j :: 0 <= j < k.value ==> !IsAnswer(answers[j])
    ensures k.None? ==> forall j :: 0 <= j < |answers| ==> !IsAnswer(answers[j])
  {
    if answers == [] then None
    else if IsAnswer(answers[0]) then Some(0)
    else
      assert forall j :: 1 <= j < |answers| ==> answers[j] == answers[1..][j - 1];
      match FirstAnswer(answers[1..])
      case None => None
      case Some(k) => Some(k + 1)
  }

  /** Where the gate finds its answer among the operator's lines: the first
      line that reads as y, n or s, if any. */
  function AnswerAt(lines: seq<string>): (k: Option<nat>)
    ensures k.Some? ==> k.value < |lines| && IsAnswer(Cleaned(lines[k.value]))
                        && forall j :: 0 <= j < k.value ==> !IsAnswer(Cleaned(lines[j]))
    ensures k.None? ==> forall j :: 0 <= j < |lines| ==> !IsAnswer(Cleaned(lines[j]))
  {
    FirstAnswer(CleanedAll(lines))
  }

  /** y is approved, n rejected and s skipped. */
  function DecisionLabel(answer: string): (decision: string)
    requires IsAnswer(answer)
    ensures decision == "approved" <==> answer == "y"
    ensures decision in {"approved", "rejected", "skipped"}
  {
    if answer == "y" then "approved" else if answer == "n" then "rejected" else "skipped"
  }

  /** The record written to the trade log for one decision. */
  function DecisionRecord(thesis: Thesis, decision: string, proposedOrder: Json): (r: seq<(string, Json)>)
    ensures UniqueKeys(r)
    ensures Get(r, "decision") == Some(JStr(decision)) && Get(r, "ticker") == Some(JStr(thesis.ticker))
  {
    var r := [("ticker", JStr(thesis.ticker)), ("recommendation", JStr(thesis.recommendation.Value())),
              ("conviction", JNum(thesis.conviction)), ("decision", JStr(decision)), ("proposed_order", proposedOrder)];
    assert forall i :: 0 <= i < |r| ==> r[i].0[0] == ['t', 'r', 'c', 'd', 'p'][i];
    assert Get(r, "decision") == Some(JStr(decision)) by {
      assert r[4].0 != "decision" by { assert r[4].0[0] == 'p'; }
      assert r[..4][3].0 == "decision";
    }
    assert Get(r, "ticker") == Some(JStr(thesis.ticker)) by {
      GetUnique(r, 0);
    }
    r
  }

  /** The gate: the lines the operator will type, in order, and the trade log. */
  class CliApprovalGateway {
    var input: seq<string>
    const logger: DecisionLog.JsonlLogger

    constructor (input: seq<string>, logger: DecisionLog.JsonlLogger)
      ensures this.input == input && this.logger == logger
    {
      this.input := input;
      this.logger := logger;
    }

    /** `request`: reads lines until one is an answer, then logs the decision
        once and returns it; the thesis is returned as given. When the input
        ends first, reading fails and nothing is logged. */
    method Request(thesis: Thesis, proposedOrder: Json, now: Instant, rt: Runtime) returns (r: Result<ApprovalResult>)
      modifies this, logger.file
      ensures match AnswerAt(old(input))
              case None =>
                r == Err(NoInput) && input == [] && unchanged(logger.file)
              case Some(k) =>
                var answer := Cleaned(old(input)[k]);
                r == Ok(ApprovalResult(thesis, answer == "y", DecisionLabel(answer)))
                && input == old(input)[k + 1..]
                && logger.file.present
                && logger.file.lines == old(logger.file.lines)
                     + [DecisionLog.Record(JObj(DecisionLog.Stamped(DecisionRecord(thesis, DecisionLabel(answer), proposedOrder),
                                                                    rt.toIso(now))))]
    {
      var answer := ReadAnswer();
      if answer.None? {
        return Err(NoInput);
      }
      var response := answer.value;
      var approved := response == "y";
      var decision := if response == "y" then "approved" else if response == "n" then "rejected" else "skipped";
      assert decision == DecisionLabel(response);
      logger.Append(DecisionRecord(thesis, decision, proposedOrder), now, rt);
      return Ok(ApprovalResult(thesis, approved, decision));
    }

    /** The prompt loop of `request`: reads lines until one is y, n or s and
        returns it cleaned; when the input ends first, reading fails. */
    method ReadAnswer() returns (answer: Option<string>)
      modifies this
      ensures match AnswerAt(old(input))
              case None => answer.None? && input == []
              case Some(k) => answer == Some(Cleaned(old(input)[k])) && input == old(input)[k + 1..]
      ensures answer.Some? ==> IsAnswer(answer.value)
    {
      ghost var lines := input;
      ghost var answers := CleanedAll(lines);
      ghost var read := 0;
      while true
        invariant 0 <= read <= |lines| && input == lines[read..]
        invariant forall j :: 0 <= j < read ==> !IsAnswer(answers[j])
        decreases |input|
      {
        if input == [] {
          assert read == |lines|;
          assert AnswerAt(lines).None?;
          return None;
        }
        var response := Lower(Strip(input[0]));
        assert response == answers[read];
        input := input[1..];
        read := read + 1;
        if !(response == "y" || response == "n" || response == "s") {
          continue;
        }
        assert FirstAnswer(answers) == Some(read - 1) by {
          FirstAnswerAt(answers, read - 1);
        }
        assert AnswerAt(lines) == Some(read - 1) && Cleaned(lines[read - 1]) == response;
        return Some(response);
      }
    }
  }

  /** The first answer is at `k` when the line at `k` is one and none before is. */
  lemma FirstAnswerAt(answers: seq<string>, k: nat)
    requires k < |answers| && IsAnswer(answers[k])
    requires forall j :: 0 <= j < k ==> !IsAnswer(answers[j])
    ensures FirstAnswer(answers) == Some(k)
  {
    var f := FirstAnswer(answers);
    assert f.Some?;
  }

  /** Blank or unrecognised lines before an answer only delay it: the answer
      is the same wherever the first recognised line stands. */
  lemma {:induction false} SkipsUnrecognised(junk: seq<string>, rest: seq<string>)
    requires forall j :: 0 <= j < |junk| ==> !IsAnswer(junk[j])
    ensures FirstAnswer(junk + rest) ==
              match FirstAnswer(rest)
              case None => None
              case Some(k) => Some(|junk| + k)
  {
    if junk == [] {
      assert junk + rest == rest;
    } else {
      assert (junk + rest)[1..] == junk[1..] + rest;
      assert (junk + rest)[0] == junk[0];
      assert !IsAnswer(junk[0]);
      SkipsUnrecognised(junk[1..], rest);
    }
  }
}
