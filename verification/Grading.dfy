/** Grading a submitted quiz: the count of correct answers, the feedback
    message and its tier, and the percentage and display tier. */
module Grading {
  import opened Optional
  import opened Quizzes

  /** The answer recorded for question `i` (0-based, shown as `q_{i+1}`)
      equals its key. Answers are keyed by the 1-based question number. */
  predicate IsCorrect(items: seq<Question>, answers: map<nat, string>, i: nat)
    requires i < |items|
  {
    i + 1 in answers && answers[i + 1] == items[i].answer
  }

  /** The number of correctly answered questions among the first `n`. */
  function CorrectIn(items: seq<Question>, answers: map<nat, string>, n: nat): nat
    requires n <= |items|
  {
    if n == 0 then 0
    else CorrectIn(items, answers, n - 1) + (if IsCorrect(items, answers, n - 1) then 1 else 0)
  }

  /** The positions of the correctly answered questions among the first `n`. */
  function CorrectSet(items: seq<Question>, answers: map<nat, string>, n: nat): set<nat>
    requires n <= |items|
  {
    set i | 0 <= i < n && IsCorrect(items, answers, i)
  }

  /** The count is the size of the set of correct positions, so it never
      exceeds the number of questions. */
  lemma {:induction false} CorrectInCounts(items: seq<Question>, answers: map<nat, string>, n: nat)
    requires n <= |items|
    ensures CorrectIn(items, answers, n) == |CorrectSet(items, answers, n)|
    ensures CorrectIn(items, answers, n) <= n
  {
    if n > 0 {
      CorrectInCounts(items, answers, n - 1);
      var before := CorrectSet(items, answers, n - 1);
      if IsCorrect(items, answers, n - 1) {
        assert CorrectSet(items, answers, n) == before + {n - 1};
      } else {
        assert CorrectSet(items, answers, n) == before;
      }
      assert n - 1 !in before;
    }
  }

  /** Every question is answered correctly exactly when the count is the
      number of questions. */
  lemma {:induction false} AllCorrectIff(items: seq<Question>, answers: map<nat, string>, n: nat)
    requires n <= |items|
    ensures CorrectIn(items, answers, n) == n <==> forall i :: 0 <= i < n ==> IsCorrect(items, answers, i)
  {
    if n > 0 {
      AllCorrectIff(items, answers, n - 1);
      CorrectInCounts(items, answers, n - 1);
    }
  }

  /** The three feedback messages. */
  datatype Tier = Perfect | GreatJob | KeepPracticing

  /** The message tier: all correct, else at most one wrong, else the rest.
      For a score out of a total, exactly one tier holds, decided by the
      number of mistakes. */
  function MessageTier(score: int, total: int): (t: Tier)
    ensures 0 <= score <= total ==> (t == Perfect <==> total - score == 0)
    ensures 0 <= score <= total ==> (t == GreatJob <==> total - score == 1)
    ensures 0 <= score <= total ==> (t == KeepPracticing <==> total - score >= 2)
  {
    if score == total then Perfect
    else if score >= total - 1 then GreatJob
    else KeepPracticing
  }

  /** The decimal digits of `n`, as `str(n)` writes them. */
  function Decimal(n: nat): (r: string)
    ensures r != []
    ensures forall i :: 0 <= i < |r| ==> '0' <= r[i] <= '9'
  {
    if n < 10 then [(48 + n) as char]
    else Decimal(n / 10) + [(48 + n % 10) as char]
  }

  /** The number a string of decimal digits denotes. */
  function DecimalValue(s: string): nat
    requires forall i :: 0 <= i < |s| ==> '0' <= s[i] <= '9'
  {
    if s == [] then 0
    else 10 * DecimalValue(s[..|s| - 1]) + (s[|s| - 1] as int - 48)
  }

  /** Reading back the digits gives the number. */
  lemma {:induction false} DecimalRoundTrip(n: nat)
    ensures DecimalValue(Decimal(n)) == n
  {
    if n >= 10 {
      var d := Decimal(n);
      assert d[..|d| - 1] == Decimal(n / 10);
      DecimalRoundTrip(n / 10);
    }
  }

  /** The feedback text: the tier's banner, then `score/total`. Its first
      character tells the three tiers apart. */
  function Feedback(score: nat, total: nat): (r: string)
    ensures r != []
    ensures r[0] == '🎉' <==> MessageTier(score, total) == Perfect
    ensures r[0] == '👍' <==> MessageTier(score, total) == GreatJob
    ensures r[0] == '💡' <==> MessageTier(score, total) == KeepPracticing
  {
    var banner := match MessageTier(score, total)
      case Perfect => "🎉 Perfect! "
      case GreatJob => "👍 Great job! "
      case KeepPracticing => "💡 Keep practicing: ";
    banner + Decimal(score) + "/" + Decimal(total)
  }

  /** `int(100 * score / total)`: the percentage, rounded down. */
  function Percent(score: nat, total: nat): (pct: nat)
    requires total > 0
    ensures pct * total <= 100 * score < (pct + 1) * total
    ensures score <= total ==> pct <= 100
  {
    100 * score / total
  }

  /** Comparing the rounded-down percentage with a whole threshold `c` is
      comparing the exact fraction with `c/100`. */
  lemma PercentThreshold(score: nat, total: nat, c: nat)
    requires total > 0
    ensures Percent(score, total) >= c <==> 100 * score >= c * total
  {
  }

  /** How the feedback is shown. */
  datatype Styling = Success | Warning | Error

  /** Nothing is shown before a quiz is graded (total 0); then 80% and more
      is a success, 50% and more a warning, anything less an error. The
      thresholds are the fractions 4/5 and 1/2 of the total. */
  function Display(score: nat, total: nat): (r: Option<Styling>)
    ensures r == None <==> total == 0
    ensures r == Some(Success) <==> total > 0 && 5 * score >= 4 * total
    ensures r == Some(Warning) <==> total > 0 && 2 * score >= total && 5 * score < 4 * total
    ensures r == Some(Error) <==> total > 0 && 2 * score < total
  {
    if total == 0 then None
    else
      var pct := Percent(score, total);
      PercentThreshold(score, total, 80);
      PercentThreshold(score, total, 50);
      if pct >= 80 then Some(Success)
      else if pct >= 50 then Some(Warning)
      else Some(Error)
  }

  /** Two of three correct: "Great job", 66%, shown as a warning. */
  lemma TwoOfThree()
    ensures MessageTier(2, 3) == GreatJob
    ensures Percent(2, 3) == 66
    ensures Display(2, 3) == Some(Warning)
  {
  }
}
