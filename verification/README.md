# Language tutor: a verified model of its core

The tutor is a single Streamlit script, `app.py`. A learner picks a level
(A1 to C1) and a topic. The script then generates three things from fixed
tables:
- a lesson, made of grammar points, vocabulary and four tips;
- a quiz of up to three multiple-choice questions;
- a short dialogue whose placeholders (`{name_a}`, `{place}`, ...) are
  filled with randomly drawn values.

Quiz answers are recorded in the session. Submitting grades them, and the
result is shown with a message and a colour tier.

This project models that core in Dafny:

| module | contents |
|---|---|
| `Sampling` | `random.sample`, with the draw passed in as positions |
| `Catalog` | the level and topic lists, `GRAMMAR_POINTS` and `VOCAB_SETS` |
| `Quizzes` | `QUIZ_BANK` |
| `Scripts` | `DIALOGUE_TEMPLATES` and the candidate values of each placeholder |
| `Templating` | `str.replace` and the replacement loop of `generate_dialogue`; each script is viewed as literal text and placeholders |
| `Generators` | `generate_lesson` and `get_quiz` |
| `Dialogues` | the template pool and `generate_dialogue` |
| `Grading` | the score count, the feedback message, the percentage and its display tier |
| `TutorSession` | the session state as a class; its methods are the updates one page render makes: reset, record answers, submit, and refresh the lesson and dialogue |

What is proved:
- Every table entry is well formed, the level and topic names are distinct,
  and no template text or candidate value contains a stray brace.
- Each generator returns the right number of distinct elements, all drawn
  from the right table.
- After the replacement loop, no placeholder token of the fill map is left.
- Grading counts exactly the questions answered with their key, so
  0 ≤ score ≤ total.
- Exactly one message tier holds, and it is decided by the number of
  mistakes.
- The display tier compares the exact fraction with 4/5 and 1/2.
- Starting a new quiz clears the quiz and nothing else.
- Submitting again with the same answers changes nothing.

## Model

| member | source | states |
|---|---|---|
| Sampling.Sample | app.py:179-180 | a sample has one element per drawn position, every element is in the population, and distinct positions of a duplicate-free population give distinct elements |
| Catalog.LevelNamesDistinct | app.py:98 | distinct levels have distinct display strings, so the string keys of the tables and `LEVELS.index` identify a level |
| Catalog.TopicNamesDistinct | app.py:99-110 | distinct topics have distinct display strings, so the string keys of the tables and `TOPICS.index` identify a topic |
| Catalog.GrammarPoints | app.py:112-118 | every level has four grammar points, so the list is never empty |
| Catalog.VocabSet | app.py:120-131 | every topic has eight words, so the list is never empty |
| Catalog.GrammarDistinct | app.py:112-118 | no level lists a grammar point twice |
| Catalog.VocabDistinct | app.py:120-131 | no topic lists a word twice |
| Quizzes.QuizBank | app.py:144-170 | every level's bank is non-empty and has no repeated question, and every answer key is one of its question's options |
| Scripts.Templates | app.py:133-142 | the template list holds every template, each exactly once |
| Scripts.TagsDistinct | app.py:133-142 | no two templates share a topic tag |
| Scripts.EntryNames | app.py:133-142 | every placeholder of every script is one of the ten keys of the fill map |
| Scripts.EntryWellFormed | app.py:133-142 | every script's fixed text contains no `{`, and every placeholder name is free of braces |
| Scripts.CandidatesPlain | app.py:192-203 | every fill key is free of braces and no candidate value contains `{` |
| Scripts.Candidates | app.py:192-203 | the fill map has ten keys, each with a non-empty candidate list, and its keys are exactly the placeholder names |
| Generators.Lower | app.py:182-183 | lower-casing keeps the length and leaves no capital letter; each capital becomes its small letter and every other character is unchanged |
| Generators.LowerIdempotent | app.py:182-183 | lower-casing twice is the same as lower-casing once |
| Generators.FocusTip | app.py:182 | the first tip contains the lower-cased grammar point |
| Generators.TopicTip | app.py:183 | the second tip contains the lower-cased topic |
| Generators.Tips | app.py:181-186 | there are exactly four tips; the first contains the focus point and the second the topic |
| Generators.GenerateLesson | app.py:178-187 | the lesson has min(2, n) distinct grammar points of the level and min(8, m) distinct words of the topic; it has four tips, the first naming `grammar[0]` and the second the topic |
| Generators.GetQuiz | app.py:208-210 | the quiz has min(3, n) distinct questions of the level's bank, and each one's answer key is among its options |
| Templating.ReplaceAll | app.py:205 | `str.replace`, scanning left to right without overlaps; text that does not contain the pattern's first character comes back unchanged (the cases of an absent token and of a replaced token follow in ReplaceAllAbsent and ReplaceRendered) |
| Templating.FillAll | app.py:204-205 | the loop over `fill.items()` as a fold of `str.replace`; a script without `{` passes through unchanged (what it does to placeholders follows in FillRendered and FillRemovesKeys) |
| Templating.FillIn | app.py:204-205 | the loop that rebinds `script` once per key computes the fold of `str.replace` over the fill map, in map order |
| Templating.ReplaceAllAbsent | app.py:205 | replacing a pattern that does not occur leaves the text unchanged |
| Templating.ReplaceRendered | app.py:205 | replacing one placeholder's token in a rendered script renders the script with that placeholder turned into its value; no other placeholder is affected |
| Templating.TokenAbsent | app.py:205 | a script with no placeholder of a given name does not contain that name's token |
| Templating.NoPlaceholderNoBrace | app.py:133-142 | a script without placeholders contains no `{` |
| Templating.FillRendered | app.py:204-205 | the whole loop substitutes every key of the fill map; the placeholders left are exactly those whose names are not keys |
| Templating.FillRemovesKeys | app.py:204-206 | after the loop no token of any fill key remains, and if every placeholder name is a key then no `{` remains |
| Dialogues.WithTag | app.py:190 | the filtered list holds exactly the templates whose tag is the topic |
| Dialogues.TemplatePool | app.py:190 | the pool is never empty and lies within the template list: it is the topic's tagged templates if there are any, otherwise all templates |
| Dialogues.PoolOfTopic | app.py:190 | the four tagged topics each get exactly their own template; every other topic gets all four |
| Dialogues.Fill | app.py:192-203 | the drawn fill map has the placeholder names in source order, each with a value from its own candidate list |
| Dialogues.FillKeys | app.py:192-203 | the keys of the drawn fill map are exactly the placeholder names |
| Dialogues.GenerateDialogue | app.py:189-206 | the dialogue is the drawn template with the fill map's values replaced in, one key at a time; it contains no token of any fill key and no `{` |
| Dialogues.FillPlain | app.py:192-203 | every drawn fill map has brace-free keys and values without `{` |
| Dialogues.DialogueComplete | app.py:189-206 | for every template and every draw, the dialogue contains no placeholder token of any fill key and no `{` at all |
| Grading.CorrectInCounts | app.py:330-334 | the score is the number of positions whose recorded answer equals the key, so it never exceeds the number of questions |
| Grading.AllCorrectIff | app.py:331-337 | the score equals the number of questions exactly when every question is answered with its key |
| Grading.MessageTier | app.py:337-342 | for 0 ≤ score ≤ total, "Perfect" holds exactly at 0 mistakes, "Great job" exactly at 1 and "Keep practicing" exactly at 2 or more |
| Grading.Feedback | app.py:337-342 | the message is the tier's banner followed by `score/total`; its first character (🎉, 👍 or 💡) tells exactly which tier holds |
| Grading.Decimal | app.py:338-342 | `str(n)` is a non-empty string of decimal digits |
| Grading.DecimalRoundTrip | app.py:338-342 | reading the digits of `str(n)` back gives `n` |
| Grading.Percent | app.py:345 | pct is ⌊100·score/total⌋, meaning pct·total ≤ 100·score < (pct+1)·total, and pct ≤ 100 when score ≤ total |
| Grading.PercentThreshold | app.py:345-352 | pct ≥ c holds exactly when 100·score ≥ c·total |
| Grading.Display | app.py:344-352 | nothing is shown while total is 0; otherwise exactly one of success (score/total ≥ 4/5), warning (1/2 ≤ score/total < 4/5) or error (< 1/2) holds |
| Grading.TwoOfThree | app.py:337-352 | 2 correct out of 3 gives "Great job", pct 66 and a warning |
| TutorSession.RecordedLookup | app.py:323-326 | the recorded answers cover exactly questions 1..n, each holding the option chosen for it |
| TutorSession.GradeRecorded | app.py:323-334 | once every question's choice is recorded, a question counts as correct exactly when its chosen option is its key, whatever was recorded earlier |
| TutorSession.Session.constructor | app.py:212-225 | a new session has level B1, the first topic, score 0, total 0, empty feedback, no answers, and no lesson or dialogue |
| TutorSession.Session.ResetQuiz | app.py:306-310 | score, total and feedback are cleared and the answers emptied; level, topic, lesson and dialogue are unchanged |
| TutorSession.Session.RecordAnswers | app.py:323-326 | the answers become the earlier answers overwritten, at numbers 1..n, by the chosen options |
| TutorSession.Session.Submit | app.py:328-342 | the score is the number of correct answers, the total is the number of questions, and the feedback is the tier message with `score/total`; score ≤ total; and submitting again when the state already holds this grading changes nothing |
| TutorSession.Session.QuizRound | app.py:306-342 | one render of the quiz: an optional reset, then the drawn questions, then the recorded answers, then an optional grading; without a submit the score, total and feedback stay as they were, or stay cleared after a reset |
| TutorSession.Session.RefreshLesson | app.py:269-270 | a lesson is generated for the current level and topic when asked for or when none exists; otherwise the cached lesson is kept |
| TutorSession.Session.RefreshDialogue | app.py:359-360 | a dialogue is generated for the current topic when asked for or when none exists; otherwise the cached dialogue is kept; a session whose dialogue has no `{` keeps that property |

## Left out

- The Streamlit page is not modelled: styling, HTML cards, columns and
  widgets (app.py:9-93, app.py:232-403, except the state updates above).
  It has no behaviour to state.
- `wrap` (app.py:175-176) is not modelled. It is a thin wrapper over
  `textwrap.fill`, which is not part of this model.
- The probability distributions of `random` are not modelled. Each draw is
  an argument with its precondition:
  - `random.sample`: distinct positions, exactly min(k, n) of them;
  - `random.choice` of a template: an element of the pool;
  - `random.choice` of a placeholder value: an index into its list.
- The progress bar value `pct / 100` (app.py:346) is a float and is not
  modelled.
- Grading.Percent: `int(100 * score / total)` uses float division followed
  by truncation. It is modelled as integer floor division. The two agree for
  non-negative operands of this size.
- Generators.Lower: `str.lower()` is modelled for ASCII letters only, which
  covers every table string. Unicode case mapping is not modelled.
- Streamlit reruns the script on every interaction, and widget values persist
  under their keys (app.py:312, app.py:325). Neither is modelled. One render is
  a sequence of method calls on `TutorSession.Session`:
  - the drawn quiz positions are an argument of every `QuizRound`;
  - the option chosen on each radio button is an argument too.
- The level and topic selectboxes (app.py:254, app.py:257) have no method;
  the caller assigns `level` and `topic` directly.
- Dialogues.GenerateDialogue: the `level` parameter of `generate_dialogue` is
  left out because the function never reads it.
- Scripts.Templates: each template's tag is held as the `Topic` whose display
  name is the tag string (`Scripts.Entry.Tag`). The pool filter therefore
  compares topics rather than strings. Catalog.TopicNamesDistinct shows that
  the two comparisons agree.
- Scripts.EntryNames: each script is written as literal text and placeholder
  segments, and `Scripts.Entry.Script` renders them. Long literals are split
  into concatenated pieces; the concatenation is the source text.
- Quiz answers are keyed by the string `q_{i}` in the source. The model keys
  them by the number `i`, which determines the string and is determined by
  it.
