/**
 * The base class of the graders (core/graph/nodes/base_grader.py) and its one
 * subclass, the answer grader (core/graph/nodes/answer_grader.py).
 */
module AnswerGrader {
  import opened Wrappers
  import opened GraphUtils
  import Text

  /** The grading chain `prompt | llm`, known by the prompt and model it pipes together. */
  datatype Chain = Chain(prompt: string, model: string)

  /** What the answer grader is asked: the current question and the generation. */
  datatype Input = Input(question: string, generation: string)

  /** `prepare_input`: the (possibly rewritten) `question`, not `original_question`. */
  function PrepareInput(s: State): (i: Input)
    ensures i.question == s.question && i.generation == s.generation
  {
    Input(s.question, s.generation)
  }

  /** `process_result`: `addresses_question` is the case-insensitive "yes". */
  function ProcessResult(binaryScore: string): bool
  {
    Text.Lower(binaryScore) == "yes"
  }

  /** The verdict holds exactly for the three letters y, e, s in either case. */
  lemma ProcessResultLetters(binaryScore: string)
    ensures ProcessResult(binaryScore) <==>
              |binaryScore| == 3 && Text.LowerChar(binaryScore[0]) == 'y'
              && Text.LowerChar(binaryScore[1]) == 'e' && Text.LowerChar(binaryScore[2]) == 's'
  {
    var l := Text.Lower(binaryScore);
    if |binaryScore| == 3 {
      assert l[0] == Text.LowerChar(binaryScore[0]);
      assert l[1] == Text.LowerChar(binaryScore[1]);
      assert l[2] == Text.LowerChar(binaryScore[2]);
      assert l == [l[0], l[1], l[2]];
    }
  }

  /** What `grade` yields: the processed verdict, or the model call's error. */
  function Expected(c: Chain, s: State, invoke: (Chain, Input) -> Result<string>): Result<bool>
  {
    match invoke(c, PrepareInput(s))
    case Ok(score) => Ok(ProcessResult(score))
    case Err(e) => Err(e)
  }

  /** Lower-casing is idempotent, so the verdict does not depend on the case of the reply. */
  lemma LowerIdempotent(s: string)
    ensures Text.Lower(Text.Lower(s)) == Text.Lower(s)
  {
    assert forall i :: 0 <= i < |s| ==> Text.LowerChar(Text.LowerChar(s[i])) == Text.LowerChar(s[i]);
  }

  lemma VerdictIgnoresCase(binaryScore: string)
    ensures ProcessResult(Text.Lower(binaryScore)) == ProcessResult(binaryScore)
    ensures ProcessResult("YES") && ProcessResult("Yes") && !ProcessResult("no") && !ProcessResult(" yes")
  {
    LowerIdempotent(binaryScore);
  }

  /**
   * `BaseGrader` instantiated with the answer grader: the chain is built on
   * first use from the answer grader's prompt and model, cached in `grader`, and
   * reused afterwards. `builds` counts the constructions.
   */
  class Grader {
    const prompt: string
    const model: string
    var grader: Option<Chain>
    var builds: nat

    constructor(prompt: string, model: string)
      ensures this.prompt == prompt && this.model == model
      ensures grader == None && builds == 0
    {
      this.prompt := prompt;
      this.model := model;
      grader := None;
      builds := 0;
    }

    /** The cache holds nothing but the chain this grader builds. */
    predicate Valid()
      reads this
    {
      && (grader.Some? ==> grader.value == Chain(prompt, model) && builds == 1)
      && (grader.None? ==> builds == 0)
    }

    /** `_get_grader`: builds the chain only when none is cached. */
    method GetGrader() returns (c: Chain)
      requires Valid()
      modifies this
      ensures Valid()
      ensures c == Chain(prompt, model) && grader == Some(c)
      ensures builds == (if old(grader).None? then old(builds) + 1 else old(builds))
      ensures builds == 1
    {
      if grader.None? {
        grader := Some(Chain(prompt, model));
        builds := builds + 1;
      }
      c := grader.value;
    }

    /**
     * `grade`: `process_result(invoke(prepare_input(state)))`. `invoke` is the
     * model call; its error, when it raises, propagates.
     */
    method Grade(s: State, invoke: (Chain, Input) -> Result<string>) returns (r: Result<bool>)
      requires Valid()
      modifies this
      ensures Valid() && builds == 1
      ensures r.Ok? <==> invoke(Chain(prompt, model), PrepareInput(s)).Ok?
      ensures r.Ok? ==> r.value == ProcessResult(invoke(Chain(prompt, model), PrepareInput(s)).value)
      ensures r.Err? ==> r.error == invoke(Chain(prompt, model), PrepareInput(s)).error
    {
      var c := GetGrader();
      var input := PrepareInput(s);
      match invoke(c, input) {
        case Ok(score) => r := Ok(ProcessResult(score));
        case Err(e) => r := Err(e);
      }
    }
  }

  /** `create_grader_node`: one fresh grader, whose `Grade` is the node. */
  method CreateGraderNode(prompt: string, model: string) returns (g: Grader)
    ensures fresh(g) && g.Valid()
    ensures g.prompt == prompt && g.model == model && g.grader == None && g.builds == 0
  {
    g := new Grader(prompt, model);
  }

  /** However many states it grades, the node builds its chain once. */
  method GradeTwice(g: Grader, s1: State, s2: State, invoke: (Chain, Input) -> Result<string>)
    returns (r1: Result<bool>, r2: Result<bool>)
    requires g.Valid()
    modifies g
    ensures g.builds == 1 && g.Valid()
    ensures r1 == Expected(Chain(g.prompt, g.model), s1, invoke)
    ensures r2 == Expected(Chain(g.prompt, g.model), s2, invoke)
  {
    r1 := g.Grade(s1, invoke);
    r2 := g.Grade(s2, invoke);
  }
}
