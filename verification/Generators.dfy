/** The lesson and quiz generators of the tutor. Every random draw is an
    argument: the positions `random.sample` drew. */
module Generators {
  import opened Sampling
  import opened Templating
  import opened Catalog
  import opened Quizzes

  /** `str.lower()` on one character, for the ASCII letters the tables use. */
  function LowerChar(c: char): char {
    if 'A' <= c <= 'Z' then (c as int + 32) as char else c
  }

  /** `str.lower()`, character by character: no capital is left, each
      capital becomes its small letter, and every other character stays. */
  function Lower(s: string): (r: string)
    ensures |r| == |s|
    ensures forall i :: 0 <= i < |r| ==> !('A' <= r[i] <= 'Z')
    ensures forall i :: 0 <= i < |s| && 'A' <= s[i] <= 'Z' ==> r[i] as int == s[i] as int - 'A' as int + 'a' as int
    ensures forall i :: 0 <= i < |s| && !('A' <= s[i] <= 'Z') ==> r[i] == s[i]
  {
    seq(|s|, i requires 0 <= i < |s| => LowerChar(s[i]))
  }

  /** Lower-casing twice is lower-casing once. */
  lemma LowerIdempotent(s: string)
    ensures Lower(Lower(s)) == Lower(s)
  {
  }

  /** What `generate_lesson` returns. */
  datatype Lesson = Lesson(grammar: seq<string>, vocab: seq<string>, tips: seq<string>)

  /** The first tip: it names the given grammar point, lower-cased. */
  function FocusTip(point: string): (r: string)
    ensures Occurs(r, Lower(point))
  {
    var before, after := "Focus on ", " with short, " + "clear sentences.";
    OccursWithin(before, Lower(point), after);
    before + Lower(point) + after
  }

  /** The second tip: it names the topic, lower-cased. */
  function TopicTip(topic: Topic): (r: string)
    ensures Occurs(r, Lower(topic.Name()))
  {
    var before, after := "Use the vocabulary " + "in context—write 3 " + "sentences about ", ".";
    OccursWithin(before, Lower(topic.Name()), after);
    before + Lower(topic.Name()) + after
  }

  /** The four practice tips of a lesson. */
  function Tips(focus: string, topic: Topic): (r: seq<string>)
    ensures |r| == 4
    ensures Occurs(r[0], Lower(focus)) && Occurs(r[1], Lower(topic.Name()))
  {
    [
      FocusTip(focus),
      TopicTip(topic),
      "Record yourself " + "speaking and compare " + "with sample dialogues.",
      "Review mistakes and " + "rewrite with correct " + "grammar."
    ]
  }

  /** `generate_lesson(level, topic)`, given the positions drawn from the
      grammar points (`min(2, n)` of them) and from the vocabulary
      (`min(8, n)`). */
  function GenerateLesson(level: Level, topic: Topic, grammarPicks: seq<nat>, vocabPicks: seq<nat>): (r: Lesson)
    requires ValidPicks(grammarPicks, |GrammarPoints(level)|, 2)
    requires ValidPicks(vocabPicks, |VocabSet(topic)|, 8)
    ensures |r.grammar| == Min(2, |GrammarPoints(level)|)
    ensures forall g :: g in r.grammar ==> g in GrammarPoints(level)
    ensures Distinct(r.grammar)
    ensures |r.vocab| == Min(8, |VocabSet(topic)|)
    ensures forall w :: w in r.vocab ==> w in VocabSet(topic)
    ensures Distinct(r.vocab)
    ensures |r.tips| == 4
    ensures Occurs(r.tips[0], Lower(r.grammar[0]))
    ensures Occurs(r.tips[1], Lower(topic.Name()))
  {
    GrammarDistinct(level);
    VocabDistinct(topic);
    var grammar := Sample(GrammarPoints(level), grammarPicks);
    Lesson(grammar, Sample(VocabSet(topic), vocabPicks), Tips(grammar[0], topic))
  }

  /** `get_quiz(level)`, given the positions drawn from the level's bank. */
  function GetQuiz(level: Level, picks: seq<nat>): (r: seq<Question>)
    requires ValidPicks(picks, |QuizBank(level)|, 3)
    ensures |r| == Min(3, |QuizBank(level)|)
    ensures forall q :: q in r ==> q in QuizBank(level) && AnswerAmongOptions(q)
    ensures Distinct(r)
  {
    Sample(QuizBank(level), picks)
  }
}
