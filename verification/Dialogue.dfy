/** `generate_dialogue`: pick a template for the topic, then replace each
    placeholder token by a value drawn for it. The draws are arguments: the
    template chosen from the topic's pool, and for each placeholder name the
    index chosen from its candidate list. */
module Dialogues {
  import opened Sampling
  import opened Templating
  import opened Catalog
  import opened Scripts

  /** The entries of `ts` tagged with `topic`, in order. */
  function WithTag(ts: seq<Entry>, topic: Topic): (r: seq<Entry>)
    ensures forall e :: e in r <==> e in ts && e.Tag() == topic
  {
    if ts == [] then []
    else (if ts[0].Tag() == topic then [ts[0]] else []) + WithTag(ts[1..], topic)
  }

  /** The pool a template is chosen from: the templates tagged with the topic,
      or all templates when none is. */
  function TemplatePool(topic: Topic): (r: seq<Entry>)
    ensures r != []
    ensures forall e :: e in r ==> e in Templates()
    ensures (exists e: Entry :: e.Tag() == topic) ==> forall e :: e in r <==> e.Tag() == topic
    ensures (forall e: Entry :: e.Tag() != topic) ==> r == Templates()
  {
    var tagged := WithTag(Templates(), topic);
    if tagged != [] then tagged else Templates()
  }

  /** A topic that tags a template gets exactly that template; any other
      topic gets all four. */
  lemma PoolOfTopic(topic: Topic)
    ensures topic == GreetingsIntroductions ==> TemplatePool(topic) == [GreetingsEntry]
    ensures topic == FoodRestaurants ==> TemplatePool(topic) == [FoodEntry]
    ensures topic == TravelDirections ==> TemplatePool(topic) == [TravelEntry]
    ensures topic == WorkMeetings ==> TemplatePool(topic) == [WorkEntry]
    ensures topic !in {GreetingsIntroductions, FoodRestaurants, TravelDirections, WorkMeetings} ==>
      TemplatePool(topic) == Templates()
  {
    var ts := Templates();
    assert ts == [GreetingsEntry, FoodEntry, TravelEntry, WorkEntry];
    assert ts[1..] == [FoodEntry, TravelEntry, WorkEntry];
    assert ts[1..][1..] == [TravelEntry, WorkEntry];
    assert ts[1..][1..][1..] == [WorkEntry];
    assert ts[1..][1..][1..][1..] == [];
  }

  /** Each draw is an index into its placeholder's candidate list. */
  predicate ValidFillPicks(picks: seq<nat>) {
    && |picks| == |Candidates()|
    && forall i :: 0 <= i < |picks| ==> picks[i] < |Candidates()[i].1|
  }

  /** The fill map: each placeholder name, in order, with its drawn value. */
  function Fill(picks: seq<nat>): (r: seq<(string, string)>)
    requires ValidFillPicks(picks)
    ensures |r| == |Candidates()|
    ensures forall i :: 0 <= i < |r| ==> r[i].0 == Candidates()[i].0 && r[i].1 in Candidates()[i].1
  {
    var c := Candidates();
    seq(|c|, i requires 0 <= i < |c| => (c[i].0, c[i].1[picks[i]]))
  }

  /** The keys of the fill map are exactly the placeholder names. */
  lemma FillKeys(picks: seq<nat>)
    requires ValidFillPicks(picks)
    ensures Keys(Fill(picks)) == FillNames()
  {
    var c, r := Candidates(), Fill(picks);
    forall k | k in FillNames() ensures k in Keys(r) {
      var i :| 0 <= i < |c| && c[i].0 == k;
      assert r[i].0 == k;
    }
  }

  /** The drawn fill map has brace-free keys and values without `{`. */
  lemma FillPlain(picks: seq<nat>)
    requires ValidFillPicks(picks)
    ensures PlainFill(Fill(picks))
  {
    CandidatesPlain();
  }

  /** `generate_dialogue(level, topic)`: the template drawn from the topic's
      pool, with the fill map's values put in one key at a time. */
  method GenerateDialogue(topic: Topic, template: Entry, fillPicks: seq<nat>) returns (script: string)
    requires template in TemplatePool(topic)
    requires ValidFillPicks(fillPicks)
    ensures script == FillAll(template.Script(), Fill(fillPicks))
    ensures forall k :: k in FillNames() ==> !Occurs(script, Token(k))
    ensures '{' !in script
  {
    DialogueComplete(template, fillPicks);
    script := FillIn(template.Script(), Fill(fillPicks));
  }

  /** Whatever template and values are drawn, no placeholder token of the fill
      map is left in the dialogue, and no `{` at all: every placeholder of
      every script is a key of the fill map, and neither the fixed text of a
      script nor any candidate value contains `{`. */
  lemma DialogueComplete(e: Entry, fillPicks: seq<nat>)
    requires ValidFillPicks(fillPicks)
    ensures forall k :: k in FillNames() ==> !Occurs(FillAll(e.Script(), Fill(fillPicks)), Token(k))
    ensures '{' !in FillAll(e.Script(), Fill(fillPicks))
  {
    EntryNames(e);
    EntryWellFormed(e);
    FillKeys(fillPicks);
    FillPlain(fillPicks);
    FillRemovesKeys(e.Layout(), Fill(fillPicks));
  }
}
