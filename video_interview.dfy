/**
 * The applicant's AI video interview: camera and microphone switches, and a
 * walk through a fixed list of questions that ends the interview after the
 * last one. The camera stream itself is outside the model.
 */
module VideoInterview {

  const Questions: seq<string> := [
    "Tell me about yourself and your background in software development.",
    "Describe a challenging project you've worked on recently.",
    "How do you stay updated with the latest technology trends?",
    "What interests you most about this position?",
    "How do you handle tight deadlines and pressure?"
  ]

  /** The button under a question: "Next Question" before the last one, "Complete Interview" on it. */
  datatype QuestionButton = NextQuestionButton | CompleteButton

  function ButtonFor(currentQuestion: nat): (b: QuestionButton)
    ensures b == CompleteButton <==> currentQuestion >= |Questions| - 1
  {
    if currentQuestion < |Questions| - 1 then NextQuestionButton else CompleteButton
  }

  /** The question `nextQuestion` moves to from `i`: the next one, or the last one kept. */
  function NextIndex(i: nat): (j: nat)
    ensures i < |Questions| ==> j < |Questions|
    ensures i < |Questions| - 1 ==> j == i + 1
    ensures i >= |Questions| - 1 ==> j == i
  {
    if i < |Questions| - 1 then i + 1 else i
  }

  /** From the first question, k presses of "Next Question" reach question min(k, last). */
  lemma {:induction false} NextIndexIterated(k: nat)
    ensures Iterate(0, k) == if k < |Questions| then k else |Questions| - 1
  {
    if k > 0 {
      NextIndexIterated(k - 1);
    }
  }

  /** `i` after k moves. */
  function Iterate(i: nat, k: nat): nat
    decreases k
  {
    if k == 0 then i else NextIndex(Iterate(i, k - 1))
  }

  class Interview {
    var isVideoOn: bool
    var isAudioOn: bool
    var interviewStarted: bool
    var currentQuestion: nat

    /** The current question is one of the questions. */
    ghost predicate Valid()
      reads this
    {
      currentQuestion < |Questions|
    }

    constructor ()
      ensures Valid()
      ensures isVideoOn && isAudioOn && !interviewStarted && currentQuestion == 0
    {
      isVideoOn, isAudioOn, interviewStarted, currentQuestion := true, true, false, 0;
    }

    method ToggleVideo()
      modifies this`isVideoOn
      ensures isVideoOn == !old(isVideoOn)
    {
      isVideoOn := !isVideoOn;
    }

    method ToggleAudio()
      modifies this`isAudioOn
      ensures isAudioOn == !old(isAudioOn)
    {
      isAudioOn := !isAudioOn;
    }

    method StartInterview()
      modifies this`interviewStarted
      ensures interviewStarted
    {
      interviewStarted := true;
    }

    /** `nextQuestion`: one question on, never past the last. */
    method NextQuestion()
      requires Valid()
      modifies this`currentQuestion
      ensures Valid()
      ensures currentQuestion == NextIndex(old(currentQuestion))
    {
      if currentQuestion < |Questions| - 1 {
        currentQuestion := currentQuestion + 1;
      }
    }

    /** `endInterview`: back to the start screen with the first question. */
    method EndInterview()
      modifies this`interviewStarted, this`currentQuestion
      ensures Valid()
      ensures !interviewStarted && currentQuestion == 0
    {
      interviewStarted, currentQuestion := false, 0;
    }
  }
}
