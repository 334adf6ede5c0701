/** The integer skeleton of `evaluate` in rand-brain-evo.

    The floating-point parts (drawing a question from the task, the 40 think
    steps of the brain, comparing the brain's output with the target) are not
    modelled; whether the answer to question `q` matched its target is given
    by the oracle `correct(q)`. What remains is the question counter `age`,
    the think-step counter and the energy that gains 1 for a right answer and
    loses 1 for a wrong one. */
module Evaluation {
  const STEPS: int := 500
  const STEPS_TO_ANSWER: int := 40

  /** The energy after the first n questions: +1 per right answer, -1 per wrong one. */
  function Energy(correct: nat -> bool, n: nat): (e: int)
    ensures -(n as int) <= e <= n
  {
    if n == 0 then 0 else Energy(correct, n - 1) + (if correct(n - 1) then 1 else -1)
  }

  /** How many of the first n questions were answered right. */
  function Right(correct: nat -> bool, n: nat): (r: nat)
    ensures r <= n
  {
    if n == 0 then 0 else Right(correct, n - 1) + (if correct(n - 1) then 1 else 0)
  }

  /** The energy is the right answers minus the wrong ones, so it lies in
      [-n, n]. */
  lemma {:induction false} EnergyCountsAnswers(correct: nat -> bool, n: nat)
    ensures Energy(correct, n) == Right(correct, n) - (n - Right(correct, n))
    ensures -(n as int) <= Energy(correct, n) <= n
  {
    if n > 0 {
      EnergyCountsAnswers(correct, n - 1);
    }
  }

  /** Each answer moves the energy by one, so its parity is that of the
      number of questions. */
  lemma {:induction false} EnergyParity(correct: nat -> bool, n: nat)
    ensures Energy(correct, n) % 2 == n % 2
  {
    if n > 0 {
      EnergyParity(correct, n - 1);
    }
  }

  /** After the STEPS + 1 questions of one evaluation the energy is odd and
      bounded by the number of questions. */
  lemma {:induction false} FullRunIsOdd(correct: nat -> bool)
    ensures -(STEPS + 1) <= Energy(correct, STEPS + 1) <= STEPS + 1
    ensures Energy(correct, STEPS + 1) % 2 == 1
  {
    OddRunIsOdd(correct, STEPS + 1);
  }

  /** After an odd number of questions the energy is odd. */
  lemma {:induction false} OddRunIsOdd(correct: nat -> bool, n: nat)
    requires n % 2 == 1
    ensures Energy(correct, n) % 2 == 1
  {
    EnergyParity(correct, n);
  }

  /** evaluate: the loop increments `age` before testing `age > STEPS`, so it
      asks STEPS + 1 = 501 questions, each after STEPS_TO_ANSWER think steps.
      The energy returned is therefore odd and within [-501, 501]. */
  method Evaluate(correct: nat -> bool) returns (energy: int, questions: nat, thinkSteps: nat)
    ensures questions == STEPS + 1
    ensures thinkSteps == questions * STEPS_TO_ANSWER
    ensures energy == Energy(correct, questions)
    ensures -(STEPS + 1) <= energy <= STEPS + 1 && energy % 2 == 1
  {
    var age := 0;
    energy := 0;
    thinkSteps := 0;
    while true
      invariant 0 <= age <= STEPS
      invariant energy == Energy(correct, age)
      invariant thinkSteps == age * STEPS_TO_ANSWER
      decreases STEPS - age
    {
      // task_get_question: the question and its target are in `correct`
      var think := 0;
      while think < STEPS_TO_ANSWER
        invariant 0 <= think <= STEPS_TO_ANSWER
        invariant thinkSteps == age * STEPS_TO_ANSWER + think
      {
        // brain_play_step
        thinkSteps := thinkSteps + 1;
        think := think + 1;
      }
      if correct(age) {
        energy := energy + 1;
      } else {
        energy := energy - 1;
      }
      age := age + 1;
      if age > STEPS {
        break;
      }
    }
    questions := age;
    FullRunIsOdd(correct);
  }
}
