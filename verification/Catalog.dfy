/** The lesson catalogue: levels, topics, grammar points per level and
    vocabulary per topic. Text longer than a couple of dozen characters is
    written as a concatenation of shorter literals throughout the content
    modules; the value is the same string. */
module Catalog {
  import opened Sampling

  /** The five proficiency tiers (the `LEVELS` list). */
  datatype Level = Beginner | Elementary | Intermediate | UpperIntermediate | Advanced
  {
    /** The display string, which is also the key of the level's table entries. */
    function Name(): string {
      match this
      case Beginner => "Beginner (A1)"
      case Elementary => "Elementary (A2)"
      case Intermediate => "Intermediate (B1)"
      case UpperIntermediate => "Upper-Intermediate (B2)"
      case Advanced => "Advanced (C1)"
    }
  }

  /** The ten topics (the `TOPICS` list). */
  datatype Topic =
    | GreetingsIntroductions | DailyRoutine | FoodRestaurants | TravelDirections
    | ShoppingMoney | WorkMeetings | HealthAppointments | TechnologyGadgets
    | EnvironmentSustainability | CultureHobbies
  {
    function Name(): string {
      match this
      case GreetingsIntroductions => "Greetings & " + "Introductions"
      case DailyRoutine => "Daily Routine"
      case FoodRestaurants => "Food & Restaurants"
      case TravelDirections => "Travel & Directions"
      case ShoppingMoney => "Shopping & Money"
      case WorkMeetings => "Work & Meetings"
      case HealthAppointments => "Health & Appointments"
      case TechnologyGadgets => "Technology & Gadgets"
      case EnvironmentSustainability => "Environment & " + "Sustainability"
      case CultureHobbies => "Culture & Hobbies"
    }
  }

  /** Distinct levels have distinct display strings, so a level is known by
      its string, as the table lookups and `LEVELS.index` take it to be. */
  lemma LevelNamesDistinct(a: Level, b: Level)
    ensures a.Name() == b.Name() ==> a == b
  {
    if a.Name() == b.Name() {
      assert a.Name()[0] == b.Name()[0];
    }
  }

  /** Distinct topics have distinct display strings, so a topic is known by
      its string, as the table lookups and `TOPICS.index` take it to be. */
  lemma TopicNamesDistinct(a: Topic, b: Topic)
    ensures a.Name() == b.Name() ==> a == b
  {
    if a.Name() == b.Name() {
      assert |a.Name()| == |b.Name()| && a.Name()[0] == b.Name()[0];
    }
  }

  /** `GRAMMAR_POINTS[level.Name()]`: four points for every level. */
  function GrammarPoints(level: Level): (r: seq<string>)
    ensures |r| == 4
  {
    match level
    case Beginner =>
      ["Present Simple", "Subject Pronouns", "Basic Question Forms", "Articles (a/an/the)"]
    case Elementary =>
      ["Past Simple", "Countable/Uncountable " + "Nouns", "Prepositions of " + "Time/Place", "Comparatives"]
    case Intermediate =>
      ["Present Perfect", "Modal Verbs " + "(should/must/can)", "Reported Speech (intro)", "Relative Clauses"]
    case UpperIntermediate =>
      ["Conditionals (1st/2nd)", "Passive Voice", "Phrasal Verbs", "Linking Words"]
    case Advanced =>
      ["Mixed Conditionals", "Advanced Modals", "Inversion", "Subjunctive & " + "Formal Structures"]
  }

  /** `VOCAB_SETS[topic.Name()]`: eight words for every topic. */
  function VocabSet(topic: Topic): (r: seq<string>)
    ensures |r| == 8
  {
    match topic
    case GreetingsIntroductions =>
      ["hello", "nice to meet you", "how are you", "introduce", "name", "friend", "colleague", "welcome"]
    case DailyRoutine =>
      ["wake up", "breakfast", "commute", "work", "exercise", "dinner", "sleep", "schedule"]
    case FoodRestaurants =>
      ["menu", "order", "bill", "reservation", "delicious", "spicy", "vegetarian", "dessert"]
    case TravelDirections =>
      ["ticket", "station", "map", "left", "right", "straight", "hotel", "passport"]
    case ShoppingMoney =>
      ["discount", "receipt", "cash", "card", "price", "refund", "exchange", "bargain"]
    case WorkMeetings =>
      ["agenda", "deadline", "presentation", "feedback", "team", "project", "report", "client"]
    case HealthAppointments =>
      ["doctor", "clinic", "symptom", "medicine", "appointment", "checkup", "prescription", "recovery"]
    case TechnologyGadgets =>
      ["software", "update", "battery", "screen", "keyboard", "network", "download", "cloud"]
    case EnvironmentSustainability =>
      ["recycle", "pollution", "renewable", "conservation", "climate", "ecosystem", "waste", "green"]
    case CultureHobbies =>
      ["music", "festival", "painting", "reading", "sports", "photography", "dance", "travel"]
  }

  /** No level lists a grammar point twice. */
  lemma GrammarDistinct(level: Level)
    ensures Distinct(GrammarPoints(level))
  {
  }

  /** No topic lists a word twice. */
  lemma VocabDistinct(topic: Topic)
    ensures Distinct(VocabSet(topic))
  {
    match topic
    case GreetingsIntroductions => VocabDistinctGreetingsIntroductions();
    case DailyRoutine => VocabDistinctDailyRoutine();
    case FoodRestaurants => VocabDistinctFoodRestaurants();
    case TravelDirections => VocabDistinctTravelDirections();
    case ShoppingMoney => VocabDistinctShoppingMoney();
    case WorkMeetings => VocabDistinctWorkMeetings();
    case HealthAppointments => VocabDistinctHealthAppointments();
    case TechnologyGadgets => VocabDistinctTechnologyGadgets();
    case EnvironmentSustainability => VocabDistinctEnvironmentSustainability();
    case CultureHobbies => VocabDistinctCultureHobbies();
  }

  lemma VocabDistinctGreetingsIntroductions()
    ensures Distinct(VocabSet(GreetingsIntroductions))
  {
  }

  lemma VocabDistinctDailyRoutine()
    ensures Distinct(VocabSet(DailyRoutine))
  {
  }

  lemma VocabDistinctFoodRestaurants()
    ensures Distinct(VocabSet(FoodRestaurants))
  {
  }

  lemma VocabDistinctTravelDirections()
    ensures Distinct(VocabSet(TravelDirections))
  {
  }

  lemma VocabDistinctShoppingMoney()
    ensures Distinct(VocabSet(ShoppingMoney))
  {
  }

  lemma VocabDistinctWorkMeetings()
    ensures Distinct(VocabSet(WorkMeetings))
  {
  }

  lemma VocabDistinctHealthAppointments()
    ensures Distinct(VocabSet(HealthAppointments))
  {
  }

  lemma VocabDistinctTechnologyGadgets()
    ensures Distinct(VocabSet(TechnologyGadgets))
  {
  }

  lemma VocabDistinctEnvironmentSustainability()
    ensures Distinct(VocabSet(EnvironmentSustainability))
  {
  }

  lemma VocabDistinctCultureHobbies()
    ensures Distinct(VocabSet(CultureHobbies))
  {
  }
}
