/** The quiz bank: three questions per level. */
module Quizzes {
  import opened Sampling
  import opened Catalog

  /** One entry of a quiz bank: the question text, its options in display
      order, and the correct answer. */
  datatype Question = Question(q: string, options: seq<string>, answer: string)

  /** The answer key of a question is one of its options. */
  predicate AnswerAmongOptions(item: Question) {
    item.answer in item.options
  }

  /** A bank is never empty, lists no question twice, and every answer is
      among its question's options. */
  predicate WellFormedBank(bank: seq<Question>) {
    && bank != []
    && Distinct(bank)
    && forall q :: q in bank ==> AnswerAmongOptions(q)
  }

  /** `QUIZ_BANK[level.Name()]`. */
  function QuizBank(level: Level): (r: seq<Question>)
    ensures WellFormedBank(r)
  {
    match level
    case Beginner => BeginnerBank()
    case Elementary => ElementaryBank()
    case Intermediate => IntermediateBank()
    case UpperIntermediate => UpperIntermediateBank()
    case Advanced => AdvancedBank()
  }

  function BeginnerBank(): (r: seq<Question>)
    ensures WellFormedBank(r)
  {
    [
      Question("Choose the correct " + "article: ___ apple", ["a", "an", "the"], "an"),
      Question("Pick the correct " + "verb: She ___ to " + "school.", ["go", "goes", "going"], "goes"),
      Question("Select the pronoun: " + "___ am happy.", ["I", "Me", "My"], "I")
    ]
  }

  function ElementaryBank(): (r: seq<Question>)
    ensures WellFormedBank(r)
  {
    [
      Question("Past Simple: They " + "___ dinner at 7.", ["eat", "ate", "eaten"], "ate"),
      Question("Preposition: The " + "book is ___ the " + "table.", ["on", "in", "at"], "on"),
      Question("Comparative: This " + "car is ___ than " + "that one.", ["fast", "faster", "fastest"], "faster")
    ]
  }

  function IntermediateBank(): (r: seq<Question>)
    ensures WellFormedBank(r)
  {
    [
      Question("Present Perfect: I " + "___ my homework.", ["did", "have done", "do"], "have done"),
      Question("Modal: You ___ see " + "a doctor.", ["should", "must", "can"], "should"),
      Question("Reported Speech: He " + "said he ___ tired.", ["is", "was", "were"], "was")
    ]
  }

  function UpperIntermediateBank(): (r: seq<Question>)
    ensures WellFormedBank(r)
  {
    [
      Question("Conditional: If I " + "___ time, I would " + "help.", ["have", "had", "has"], "had"),
      Question("Passive: The letter " + "___ yesterday.", ["was sent", "sent", "is send"], "was sent"),
      Question("Phrasal Verb: " + "Please ___ the " + "lights.", ["turn on", "turns on", "turn onning"], "turn on")
    ]
  }

  function AdvancedBank(): (r: seq<Question>)
    ensures WellFormedBank(r)
  {
    [
      Question("Inversion: Rarely " + "___ such talent.", ["I have seen", "have I seen", "I seen"], "have I seen"),
      Question("Mixed Conditional: " + "If he ___ earlier, " + "he would be here now.", ["left", "had left", "has left"], "had left"),
      Question("Subjunctive: It is " + "essential that he " + "___ present.", ["is", "be", "was"], "be")
    ]
  }
}
