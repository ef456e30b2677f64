/** The per-user session of the tutor: the selected level and topic, the
    quiz state and the cached lesson and dialogue, and the updates one render
    of the page makes to them. */
module TutorSession {
  import opened Optional
  import opened Sampling
  import opened Templating
  import opened Catalog
  import opened Quizzes
  import opened Generators
  import opened Scripts
  import opened Dialogues
  import opened Grading

  /** One chosen option index per question, each in range. */
  predicate ValidChoices(items: seq<Question>, choices: seq<nat>) {
    && |choices| == |items|
    && forall i :: 0 <= i < |items| ==> choices[i] < |items[i].options|
  }

  /** The answers recorded for the first `n` questions: question `j`
      (1-based) maps to the option chosen for it. */
  function Recorded(items: seq<Question>, choices: seq<nat>, n: nat): map<nat, string>
    requires ValidChoices(items, choices) && n <= |items|
  {
    if n == 0 then map[]
    else Recorded(items, choices, n - 1)[n := items[n - 1].options[choices[n - 1]]]
  }

  /** The recorded answers are exactly the numbers 1..n, each with its choice. */
  lemma {:induction false} RecordedLookup(items: seq<Question>, choices: seq<nat>, n: nat)
    requires ValidChoices(items, choices) && n <= |items|
    ensures forall j: nat :: j in Recorded(items, choices, n) <==> 1 <= j <= n
    ensures forall j: nat :: 1 <= j <= n ==> Recorded(items, choices, n)[j] == items[j - 1].options[choices[j - 1]]
  {
    if n > 0 {
      RecordedLookup(items, choices, n - 1);
    }
  }

  /** Once every question's choice is recorded, question `i` counts as
      correct exactly when the option chosen for it is its key, whatever
      was recorded before. */
  lemma GradeRecorded(items: seq<Question>, choices: seq<nat>, earlier: map<nat, string>)
    requires ValidChoices(items, choices)
    ensures forall i :: 0 <= i < |items| ==>
      (IsCorrect(items, earlier + Recorded(items, choices, |items|), i) <==> items[i].options[choices[i]] == items[i].answer)
  {
    RecordedLookup(items, choices, |items|);
  }

  class Session {
    var level: Level
    var topic: Topic
    var quizScore: nat
    var quizTotal: nat
    var quizFeedback: string
    var quizAnswers: map<nat, string>
    var lesson: Option<Lesson>
    var dialogue: Option<string>

    /** The score never exceeds the number of questions graded. */
    predicate Valid()
      reads this
    {
      quizScore <= quizTotal
    }

    /** Score, total and feedback are the result of grading `items` against
        the recorded answers. */
    predicate GradedWith(items: seq<Question>)
      reads this
    {
      && quizTotal == |items|
      && quizScore == CorrectIn(items, quizAnswers, |items|)
      && quizFeedback == Feedback(quizScore, quizTotal)
    }

    /** A new session: level B1, the first topic, an empty quiz, and no
        lesson or dialogue yet. */
    constructor ()
      ensures level == Intermediate && topic == GreetingsIntroductions
      ensures quizScore == 0 && quizTotal == 0 && quizFeedback == "" && quizAnswers == map[]
      ensures lesson == None && dialogue == None
      ensures Valid()
    {
      level := Intermediate;
      topic := GreetingsIntroductions;
      quizScore := 0;
      quizTotal := 0;
      quizFeedback := "";
      quizAnswers := map[];
      lesson := None;
      dialogue := None;
    }

    /** Starting a new quiz clears score, total, feedback and answers, and
        leaves level, topic, lesson and dialogue as they were. */
    method ResetQuiz()
      modifies this`quizScore, this`quizTotal, this`quizFeedback, this`quizAnswers
      ensures quizScore == 0 && quizTotal == 0 && quizFeedback == "" && quizAnswers == map[]
      ensures level == old(level) && topic == old(topic)
      ensures lesson == old(lesson) && dialogue == old(dialogue)
      ensures Valid()
    {
      quizScore := 0;
      quizTotal := 0;
      quizFeedback := "";
      quizAnswers := map[];
    }

    /** Records the option chosen for each question under its 1-based number,
        overwriting any earlier answer under that number. */
    method RecordAnswers(items: seq<Question>, choices: seq<nat>)
      requires ValidChoices(items, choices)
      modifies this`quizAnswers
      ensures quizAnswers == old(quizAnswers) + Recorded(items, choices, |items|)
    {
      var i := 0;
      while i < |items|
        invariant 0 <= i <= |items|
        invariant quizAnswers == old(quizAnswers) + Recorded(items, choices, i)
      {
        quizAnswers := quizAnswers[i + 1 := items[i].options[choices[i]]];
        i := i + 1;
      }
    }

    /** Grades the quiz: the score is the number of questions whose recorded
        answer is the key, the total the number of questions, and the
        feedback is chosen by the score. Submitting again with the same
        answers changes nothing. */
    method Submit(items: seq<Question>)
      modifies this`quizScore, this`quizTotal, this`quizFeedback
      ensures GradedWith(items)
      ensures quizScore == |CorrectSet(items, quizAnswers, |items|)|
      ensures Valid()
      ensures old(GradedWith(items)) ==> unchanged(this)
    {
      var score := 0;
      var i := 0;
      while i < |items|
        invariant 0 <= i <= |items|
        invariant score == CorrectIn(items, quizAnswers, i)
      {
        if i + 1 in quizAnswers && quizAnswers[i + 1] == items[i].answer {
          score := score + 1;
        }
        i := i + 1;
      }
      CorrectInCounts(items, quizAnswers, |items|);
      quizScore := score;
      quizTotal := |items|;
      quizFeedback := Feedback(score, |items|);
    }

    /** The quiz part of one render: optionally start a new quiz, draw the
        questions, record the chosen options, and optionally grade them. */
    method QuizRound(newQuiz: bool, picks: seq<nat>, choices: seq<nat>, submit: bool) returns (items: seq<Question>)
      requires Valid()
      requires ValidPicks(picks, |QuizBank(level)|, 3)
      requires ValidChoices(GetQuiz(level, picks), choices)
      modifies this`quizScore, this`quizTotal, this`quizFeedback, this`quizAnswers
      ensures items == GetQuiz(level, picks)
      ensures quizAnswers == (if newQuiz then map[] else old(quizAnswers)) + Recorded(items, choices, |items|)
      ensures submit ==> GradedWith(items)
      ensures !submit && newQuiz ==> quizScore == 0 && quizTotal == 0 && quizFeedback == ""
      ensures !submit && !newQuiz ==> quizScore == old(quizScore) && quizTotal == old(quizTotal) && quizFeedback == old(quizFeedback)
      ensures Valid()
    {
      if newQuiz {
        ResetQuiz();
      }
      items := GetQuiz(level, picks);
      RecordAnswers(items, choices);
      if submit {
        Submit(items);
      }
    }

    /** The lesson is generated for the current level and topic when asked
        for or when there is none yet; otherwise the cached one stays. */
    method RefreshLesson(regenerate: bool, grammarPicks: seq<nat>, vocabPicks: seq<nat>)
      requires ValidPicks(grammarPicks, |GrammarPoints(level)|, 2)
      requires ValidPicks(vocabPicks, |VocabSet(topic)|, 8)
      modifies this`lesson
      ensures lesson != None
      ensures regenerate || old(lesson) == None ==> lesson == Some(GenerateLesson(level, topic, grammarPicks, vocabPicks))
      ensures !regenerate && old(lesson) != None ==> lesson == old(lesson)
    {
      if regenerate || lesson == None {
        lesson := Some(GenerateLesson(level, topic, grammarPicks, vocabPicks));
      }
    }

    /** The dialogue is generated for the current topic when asked for or
        when there is none yet; otherwise the cached one stays. */
    method RefreshDialogue(regenerate: bool, template: Entry, fillPicks: seq<nat>)
      requires template in TemplatePool(topic)
      requires ValidFillPicks(fillPicks)
      modifies this`dialogue
      ensures dialogue != None
      ensures regenerate || old(dialogue) == None ==>
        dialogue == Some(FillAll(template.Script(), Fill(fillPicks)))
      ensures !regenerate && old(dialogue) != None ==> dialogue == old(dialogue)
      ensures old(dialogue) == None || '{' !in old(dialogue).value ==> '{' !in dialogue.value
    {
      if regenerate || dialogue == None {
        var script := GenerateDialogue(topic, template, fillPicks);
        dialogue := Some(script);
      }
    }
  }
}
