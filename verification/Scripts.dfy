/** The dialogue templates and the candidate values of their placeholders. */
module Scripts {
  import opened Sampling
  import opened Templating
  import opened Catalog

  /** The entries of `DIALOGUE_TEMPLATES`. Each entry's tag is the display
      string of a topic, so the model records the topic itself; its script is
      kept as segments (plain text and `{name}` placeholders), and `Script()`
      is the text. */
  datatype Entry = GreetingsEntry | FoodEntry | TravelEntry | WorkEntry
  {
    function Tag(): Topic {
      match this
      case GreetingsEntry => GreetingsIntroductions
      case FoodEntry => FoodRestaurants
      case TravelEntry => TravelDirections
      case WorkEntry => WorkMeetings
    }

    function Layout(): seq<Segment> {
      match this
      case GreetingsEntry => GreetingsLayout()
      case FoodEntry => FoodLayout()
      case TravelEntry => TravelLayout()
      case WorkEntry => WorkLayout()
    }

    function Script(): string {
      Render(Layout())
    }
  }

  /** `DIALOGUE_TEMPLATES` in its order: every entry, each once. */
  function Templates(): (r: seq<Entry>)
    ensures forall e: Entry :: e in r
    ensures Distinct(r)
  {
    var r := [GreetingsEntry, FoodEntry, TravelEntry, WorkEntry];
    assert forall e: Entry :: e in r by {
      forall e: Entry ensures e in r {
        assert e == r[if e.GreetingsEntry? then 0 else if e.FoodEntry? then 1 else if e.TravelEntry? then 2 else 3];
      }
    }
    r
  }

  /** No two entries share a tag. */
  lemma TagsDistinct(a: Entry, b: Entry)
    ensures a.Tag() == b.Tag() ==> a == b
  {
  }

  /** The placeholder names the fill map of the dialogue generator defines. */
  function FillNames(): set<string> {
    {"name_a", "name_b", "job", "diet", "dish", "place", "landmark", "minutes", "time", "topic"}
  }

  /** Every placeholder of every script is a key of the fill map. */
  lemma EntryNames(e: Entry)
    ensures Names(e.Layout()) <= FillNames()
  {
    match e
    case GreetingsEntry => GreetingsNames();
    case FoodEntry => FoodNames();
    case TravelEntry => TravelNames();
    case WorkEntry => WorkNames();
  }


  lemma GreetingsNames()
    ensures Names(GreetingsLayout()) <= FillNames()
  {
    NamesAppend(GreetingsLine1(), GreetingsLine2());
    NamesAppend(GreetingsLine1() + GreetingsLine2(), GreetingsLine3());
    NamesAppend(GreetingsLine1() + GreetingsLine2() + GreetingsLine3(), GreetingsLine4());
  }

  lemma FoodNames()
    ensures Names(FoodLayout()) <= FillNames()
  {
    NamesAppend(FoodLine1(), FoodLine2());
    NamesAppend(FoodLine1() + FoodLine2(), FoodLine3());
    NamesAppend(FoodLine1() + FoodLine2() + FoodLine3(), FoodLine4());
  }

  lemma TravelNames()
    ensures Names(TravelLayout()) <= FillNames()
  {
    NamesAppend(TravelLine1(), TravelLine2());
    NamesAppend(TravelLine1() + TravelLine2(), TravelLine3());
    NamesAppend(TravelLine1() + TravelLine2() + TravelLine3(), TravelLine4());
  }

  lemma WorkNames()
    ensures Names(WorkLayout()) <= FillNames()
  {
    NamesAppend(WorkLine1(), WorkLine2());
    NamesAppend(WorkLine1() + WorkLine2(), WorkLine3());
    NamesAppend(WorkLine1() + WorkLine2() + WorkLine3(), WorkLine4());
  }

  /** Every script is well formed: its plain text never opens a placeholder
      and its placeholder names are brace-free. */
  lemma EntryWellFormed(e: Entry)
    ensures WellFormed(e.Layout())
  {
    match e
    case GreetingsEntry => GreetingsWellFormed();
    case FoodEntry => FoodWellFormed();
    case TravelEntry => TravelWellFormed();
    case WorkEntry => WorkWellFormed();
  }

  lemma GreetingsWellFormed()
    ensures WellFormed(GreetingsLayout())
  {
    GreetingsLine1WellFormed();
    GreetingsLine2WellFormed();
    GreetingsLine3WellFormed();
    GreetingsLine4WellFormed();
    WellFormedAppend(GreetingsLine1(), GreetingsLine2());
    WellFormedAppend(GreetingsLine1() + GreetingsLine2(), GreetingsLine3());
    WellFormedAppend(GreetingsLine1() + GreetingsLine2() + GreetingsLine3(), GreetingsLine4());
  }

  lemma FoodWellFormed()
    ensures WellFormed(FoodLayout())
  {
    FoodLine1WellFormed();
    FoodLine2WellFormed();
    FoodLine3WellFormed();
    FoodLine4WellFormed();
    WellFormedAppend(FoodLine1(), FoodLine2());
    WellFormedAppend(FoodLine1() + FoodLine2(), FoodLine3());
    WellFormedAppend(FoodLine1() + FoodLine2() + FoodLine3(), FoodLine4());
  }

  lemma TravelWellFormed()
    ensures WellFormed(TravelLayout())
  {
    TravelLine1WellFormed();
    TravelLine2WellFormed();
    TravelLine3WellFormed();
    TravelLine4WellFormed();
    WellFormedAppend(TravelLine1(), TravelLine2());
    WellFormedAppend(TravelLine1() + TravelLine2(), TravelLine3());
    WellFormedAppend(TravelLine1() + TravelLine2() + TravelLine3(), TravelLine4());
  }

  lemma WorkWellFormed()
    ensures WellFormed(WorkLayout())
  {
    WorkLine1WellFormed();
    WorkLine2WellFormed();
    WorkLine3WellFormed();
    WorkLine4WellFormed();
    WellFormedAppend(WorkLine1(), WorkLine2());
    WellFormedAppend(WorkLine1() + WorkLine2(), WorkLine3());
    WellFormedAppend(WorkLine1() + WorkLine2() + WorkLine3(), WorkLine4());
  }

  /* One lemma per line of dialogue, with the facts about its text kept
     apart from the facts about its segments: the solver handles each of
     these quickly on its own. */

  lemma GreetingsLine1WellFormed()
    ensures WellFormed(GreetingsLine1())
  {
    GreetingsLine1Plain();
  }

  lemma GreetingsLine1Plain()
    ensures Plain("A: Hi! I'm ") && Plain(". Nice to meet you.")
  {
  }

  lemma GreetingsLine2WellFormed()
    ensures WellFormed(GreetingsLine2())
  {
    GreetingsLine2Plain();
  }

  lemma GreetingsLine2Plain()
    ensures Plain("\nB: Hi ") && Plain(", I'm ") && Plain(". How are you?")
  {
  }

  lemma GreetingsLine3WellFormed()
    ensures WellFormed(GreetingsLine3())
  {
    GreetingsLine3Plain();
  }

  lemma GreetingsLine3Plain()
    ensures Plain("\nA: I'm good, " + "thanks! What do you do?")
  {
  }

  lemma GreetingsLine4WellFormed()
    ensures WellFormed(GreetingsLine4())
  {
    GreetingsLine4Plain();
  }

  lemma GreetingsLine4Plain()
    ensures Plain("\nB: I'm a ") && Plain(".")
  {
  }

  lemma FoodLine1WellFormed()
    ensures WellFormed(FoodLine1())
  {
    FoodLine1Plain();
  }

  lemma FoodLine1Plain()
    ensures Plain("A: Could I see the " + "menu, please?")
  {
  }

  lemma FoodLine2WellFormed()
    ensures WellFormed(FoodLine2())
  {
    FoodLine2Plain();
  }

  lemma FoodLine2Plain()
    ensures Plain("\nB: Of course. Do " + "you have any " + "dietary preferences?")
  {
  }

  lemma FoodLine3WellFormed()
    ensures WellFormed(FoodLine3())
  {
    FoodLine3Plain();
  }

  lemma FoodLine3Plain()
    ensures Plain("\nA: Yes, I'm ") && Plain(". What's your " + "recommendation?")
  {
  }

  lemma FoodLine4WellFormed()
    ensures WellFormed(FoodLine4())
  {
    FoodLine4Plain();
  }

  lemma FoodLine4Plain()
    ensures Plain("\nB: The ") && Plain(" is very popular.")
  {
  }

  lemma TravelLine1WellFormed()
    ensures WellFormed(TravelLine1())
  {
    TravelLine1Plain();
  }

  lemma TravelLine1Plain()
    ensures Plain("A: Excuse me, how " + "do I get to the ") && Plain("?")
  {
  }

  lemma TravelLine2WellFormed()
    ensures WellFormed(TravelLine2())
  {
    TravelLine2Plain();
  }

  lemma TravelLine2Plain()
    ensures Plain("\nB: Go straight, " + "then turn left at the ") && Plain(".")
  {
  }

  lemma TravelLine3WellFormed()
    ensures WellFormed(TravelLine3())
  {
    TravelLine3Plain();
  }

  lemma TravelLine3Plain()
    ensures Plain("\nA: Thank you! Is " + "it far?")
  {
  }

  lemma TravelLine4WellFormed()
    ensures WellFormed(TravelLine4())
  {
    TravelLine4Plain();
  }

  lemma TravelLine4Plain()
    ensures Plain("\nB: About ") && Plain(" minutes on foot.")
  {
  }

  lemma WorkLine1WellFormed()
    ensures WellFormed(WorkLine1())
  {
    WorkLine1Plain();
  }

  lemma WorkLine1Plain()
    ensures Plain("A: Can we move the " + "meeting to ") && Plain("?")
  {
  }

  lemma WorkLine2WellFormed()
    ensures WellFormed(WorkLine2())
  {
    WorkLine2Plain();
  }

  lemma WorkLine2Plain()
    ensures Plain("\nB: Sure. What's " + "the agenda?")
  {
  }

  lemma WorkLine3WellFormed()
    ensures WellFormed(WorkLine3())
  {
    WorkLine3Plain();
  }

  lemma WorkLine3Plain()
    ensures Plain("\nA: We'll discuss the ") && Plain(" and next steps.")
  {
  }

  lemma WorkLine4WellFormed()
    ensures WellFormed(WorkLine4())
  {
    WorkLine4Plain();
  }

  lemma WorkLine4Plain()
    ensures Plain("\nB: Great, I'll " + "prepare the report.")
  {
  }

  /* The four scripts, one function per line of dialogue. */

  /** The "Greetings & Introductions" script. */
  function GreetingsLayout(): seq<Segment> {
    GreetingsLine1() + GreetingsLine2() + GreetingsLine3() + GreetingsLine4()
  }

  function GreetingsLine1(): seq<Segment> {
    [Literal("A: Hi! I'm "), Placeholder("name_a"), Literal(". Nice to meet you.")]
  }

  function GreetingsLine2(): seq<Segment> {
    [Literal("\nB: Hi "), Placeholder("name_a"), Literal(", I'm "), Placeholder("name_b"), Literal(". How are you?")]
  }

  function GreetingsLine3(): seq<Segment> {
    [Literal("\nA: I'm good, " + "thanks! What do you do?")]
  }

  function GreetingsLine4(): seq<Segment> {
    [Literal("\nB: I'm a "), Placeholder("job"), Literal(".")]
  }

  /** The "Food & Restaurants" script. */
  function FoodLayout(): seq<Segment> {
    FoodLine1() + FoodLine2() + FoodLine3() + FoodLine4()
  }

  function FoodLine1(): seq<Segment> {
    [Literal("A: Could I see the " + "menu, please?")]
  }

  function FoodLine2(): seq<Segment> {
    [Literal("\nB: Of course. Do " + "you have any " + "dietary preferences?")]
  }

  function FoodLine3(): seq<Segment> {
    [Literal("\nA: Yes, I'm "), Placeholder("diet"), Literal(". What's your " + "recommendation?")]
  }

  function FoodLine4(): seq<Segment> {
    [Literal("\nB: The "), Placeholder("dish"), Literal(" is very popular.")]
  }

  /** The "Travel & Directions" script. */
  function TravelLayout(): seq<Segment> {
    TravelLine1() + TravelLine2() + TravelLine3() + TravelLine4()
  }

  function TravelLine1(): seq<Segment> {
    [Literal("A: Excuse me, how " + "do I get to the "), Placeholder("place"), Literal("?")]
  }

  function TravelLine2(): seq<Segment> {
    [Literal("\nB: Go straight, " + "then turn left at the "), Placeholder("landmark"), Literal(".")]
  }

  function TravelLine3(): seq<Segment> {
    [Literal("\nA: Thank you! Is " + "it far?")]
  }

  function TravelLine4(): seq<Segment> {
    [Literal("\nB: About "), Placeholder("minutes"), Literal(" minutes on foot.")]
  }

  /** The "Work & Meetings" script. */
  function WorkLayout(): seq<Segment> {
    WorkLine1() + WorkLine2() + WorkLine3() + WorkLine4()
  }

  function WorkLine1(): seq<Segment> {
    [Literal("A: Can we move the " + "meeting to "), Placeholder("time"), Literal("?")]
  }

  function WorkLine2(): seq<Segment> {
    [Literal("\nB: Sure. What's " + "the agenda?")]
  }

  function WorkLine3(): seq<Segment> {
    [Literal("\nA: We'll discuss the "), Placeholder("topic"), Literal(" and next steps.")]
  }

  function WorkLine4(): seq<Segment> {
    [Literal("\nB: Great, I'll " + "prepare the report.")]
  }

  /** The fill map of the dialogue generator before the draws: each
      placeholder name, in insertion order, with the list its value is drawn
      from. Its names are exactly `FillNames()`. */
  function Candidates(): (r: seq<(string, seq<string>)>)
    ensures |r| == 10
    ensures forall i :: 0 <= i < |r| ==> r[i].1 != []
    ensures forall i :: 0 <= i < |r| ==> r[i].0 in FillNames()
    ensures forall k :: k in FillNames() ==> exists i :: 0 <= i < |r| && r[i].0 == k
  {
    var r := [
      ("name_a", ["Ali", "Sara", "John", "Mina", "Waqas"]),
      ("name_b", ["Aisha", "David", "Noor", "Leo", "Fatima"]),
      ("job", ["software engineer", "designer", "teacher", "doctor", "student"]),
      ("diet", ["vegetarian", "vegan", "gluten-free", "halal"]),
      ("dish", ["grilled salmon", "paneer tikka", "chicken biryani", "veggie pasta"]),
      ("place", ["museum", "city center", "train station", "library"]),
      ("landmark", ["fountain", "statue", "bridge", "square"]),
      ("minutes", ["5", "10", "15"]),
      ("time", ["10 AM", "2 PM", "4:30 PM"]),
      ("topic", ["roadmap", "budget", "timeline", "deliverables"])
    ];
    assert r[0].0 == "name_a" && r[1].0 == "name_b" && r[2].0 == "job" && r[3].0 == "diet" && r[4].0 == "dish";
    assert r[5].0 == "place" && r[6].0 == "landmark" && r[7].0 == "minutes" && r[8].0 == "time" && r[9].0 == "topic";
    r
  }

  /** Every name of the fill map is brace-free and no candidate value opens
      a placeholder. */
  lemma CandidatesPlain()
    ensures forall i :: 0 <= i < |Candidates()| ==>
      BraceFree(Candidates()[i].0) && forall v :: v in Candidates()[i].1 ==> Plain(v)
  {
    CandidateNameAPlain();
    CandidateNameBPlain();
    CandidateJobPlain();
    CandidateDietPlain();
    CandidateDishPlain();
    CandidatePlacePlain();
    CandidateLandmarkPlain();
    CandidateMinutesPlain();
    CandidateTimePlain();
    CandidateTopicPlain();
  }

  /* One lemma per name of the fill map. */

  lemma CandidateNameAPlain()
    ensures BraceFree(Candidates()[0].0) && forall v :: v in Candidates()[0].1 ==> Plain(v)
  {
  }

  lemma CandidateNameBPlain()
    ensures BraceFree(Candidates()[1].0) && forall v :: v in Candidates()[1].1 ==> Plain(v)
  {
  }

  lemma CandidateJobPlain()
    ensures BraceFree(Candidates()[2].0) && forall v :: v in Candidates()[2].1 ==> Plain(v)
  {
  }

  lemma CandidateDietPlain()
    ensures BraceFree(Candidates()[3].0) && forall v :: v in Candidates()[3].1 ==> Plain(v)
  {
  }

  lemma CandidateDishPlain()
    ensures BraceFree(Candidates()[4].0) && forall v :: v in Candidates()[4].1 ==> Plain(v)
  {
  }

  lemma CandidatePlacePlain()
    ensures BraceFree(Candidates()[5].0) && forall v :: v in Candidates()[5].1 ==> Plain(v)
  {
  }

  lemma CandidateLandmarkPlain()
    ensures BraceFree(Candidates()[6].0) && forall v :: v in Candidates()[6].1 ==> Plain(v)
  {
  }

  lemma CandidateMinutesPlain()
    ensures BraceFree(Candidates()[7].0) && forall v :: v in Candidates()[7].1 ==> Plain(v)
  {
  }

  lemma CandidateTimePlain()
    ensures BraceFree(Candidates()[8].0) && forall v :: v in Candidates()[8].1 ==> Plain(v)
  {
  }

  lemma CandidateTopicPlain()
    ensures BraceFree(Candidates()[9].0) && forall v :: v in Candidates()[9].1 ==> Plain(v)
  {
  }
}
