/**
 * The chat front-end's session state (API/chatbot.py): the transcript and the
 * conversation context (topics discussed, last question, follow-up
 * suggestions) that every answered turn updates.
 *
 * The HTTP call to /chat/invoke is a foreign call; its result is the
 * parameter `reply` of Session.ProcessInput.
 */
module Chatbot {
  import opened Options
  import opened Strings

  datatype Role = User | Assistant

  datatype Message = Message(role: Role, content: string)

  /**
   * The "output" of a decoded status-200 body: absent (the body did not decode
   * or had no "output"), a string, or some other JSON value, kept in its
   * rendered form.
   */
  datatype Output = Absent | Text(text: string) | Other(rendered: string)

  /** What the request to /chat/invoke gave back: the exception it raised, or a status code and the body's "output". */
  datatype Reply = RequestFailed(reason: string) | Received(status: int, output: Output)

  /** What is appended to the transcript as the assistant's message: any "output" of a status-200 reply. */
  function Shown(reply: Reply): Option<string> {
    if reply.Received? && reply.status == 200 then
      match reply.output
      case Absent => None
      case Text(text) => Some(text)
      case Other(rendered) => Some(rendered)
    else None
  }

  /**
   * The answer the context is updated from: a string "output" of a status-200
   * reply. A non-string output is shown, but its `lower` raises before the
   * context changes.
   */
  function Answer(reply: Reply): Option<string> {
    if reply.Received? && reply.status == 200 && reply.output.Text? then Some(reply.output.text) else None
  }

  /** The topics looked for in each answer, in the order they are reported. */
  const Topics: seq<string> := [
    "soil", "crop", "irrigation", "fertilizer", "pest",
    "organic", "sustainable", "livestock", "harvest", "seed"
  ]

  const SoilFollowUp := "How can I improve soil fertility naturally?"
  const CropFollowUp := "What crop rotation practices do you recommend?"
  const IrrigationFollowUp := "What are the most water-efficient irrigation systems?"
  const FertilizerFollowUp := "Can you compare organic and synthetic fertilizers?"

  /** Follow-up questions in their fixed priority order. */
  const FollowUpTable: seq<(string, string)> := [
    ("soil", SoilFollowUp),
    ("crop", CropFollowUp),
    ("irrigation", IrrigationFollowUp),
    ("fertilizer", FertilizerFollowUp)
  ]

  const MaxFollowUps := 3

  predicate NoDups(s: seq<string>) {
    forall i, j :: 0 <= i < j < |s| ==> s[i] != s[j]
  }

  /** `[topic for topic in topics if topic in response.lower()]`. */
  function FoundTopics(response: string): seq<string> {
    SelectMatching(Topics, Lower(response))
  }

  /** Append `topic` unless it is already there. */
  function Record(discussed: seq<string>, topic: string): seq<string> {
    if topic in discussed then discussed else discussed + [topic]
  }

  /** The effect of the loop over `found` on topics_discussed: Record each topic in turn. */
  function RecordAll(discussed: seq<string>, found: seq<string>): seq<string>
    decreases |found|
  {
    if found == [] then discussed
    else Record(RecordAll(discussed, found[..|found| - 1]), found[|found| - 1])
  }

  /** The elements of `found` that are not in `discussed`, in order. */
  function Unseen(found: seq<string>, discussed: seq<string>): seq<string>
    decreases |found|
  {
    if found == [] then []
    else Unseen(found[..|found| - 1], discussed)
         + (if found[|found| - 1] in discussed then [] else [found[|found| - 1]])
  }

  /** The follow-up of every table entry whose topic was found, in table order. */
  function FollowUpsFor(table: seq<(string, string)>, found: seq<string>): seq<string> {
    if table == [] then []
    else (if table[0].0 in found then [table[0].1] else []) + FollowUpsFor(table[1..], found)
  }

  /** Python's `s[:n]`. */
  function Take(s: seq<string>, n: nat): (r: seq<string>)
    ensures |r| <= n && r <= s
    ensures |s| <= n ==> r == s
    ensures |s| > n ==> |r| == n
  {
    if |s| <= n then s else s[..n]
  }

  /** follow_up_suggestions after an answer whose found topics are `found`. */
  function Suggestions(found: seq<string>): seq<string> {
    Take(FollowUpsFor(FollowUpTable, found), MaxFollowUps)
  }

  class Session {
    var messages: seq<Message>
    var topicsDiscussed: seq<string>
    var lastQuestion: string
    var followUpSuggestions: seq<string>

    /** The context's invariant: topics are distinct known topics, and there are at most three suggestions. */
    ghost predicate Valid()
      reads this
    {
      NoDups(topicsDiscussed)
      && (forall t :: t in topicsDiscussed ==> t in Topics)
      && |followUpSuggestions| <= MaxFollowUps
    }

    /** The state at session start and after "Clear Conversation". */
    ghost predicate Cleared()
      reads this
    {
      messages == [] && topicsDiscussed == [] && lastQuestion == "" && followUpSuggestions == []
    }

    constructor ()
      ensures Valid() && Cleared()
    {
      messages := [];
      topicsDiscussed := [];
      lastQuestion := "";
      followUpSuggestions := [];
    }

    /** The "Clear Conversation" button: empty transcript and fresh context. */
    method Clear()
      modifies this
      ensures Valid() && Cleared()
    {
      messages := [];
      topicsDiscussed := [];
      lastQuestion := "";
      followUpSuggestions := [];
    }

    /**
     * extract_topics_and_suggest_followups: record the topics found in the
     * response (the question plays no part) and rebuild the suggestions.
     */
    method ExtractTopicsAndSuggestFollowUps(question: string, response: string)
      requires Valid()
      modifies this
      ensures Valid()
      ensures topicsDiscussed == RecordAll(old(topicsDiscussed), FoundTopics(response))
      ensures followUpSuggestions == Suggestions(FoundTopics(response))
      ensures messages == old(messages) && lastQuestion == old(lastQuestion)
    {
      var found := FoundTopics(response);
      SelectMatchingSound(Topics, Lower(response));
      RecordTopics(found);
      var followUps := BuildFollowUps(found);
      followUpSuggestions := Take(followUps, MaxFollowUps);
    }

    /** The loop `for topic in found_topics`: append each topic not yet discussed. */
    method RecordTopics(found: seq<string>)
      requires Valid()
      requires forall t :: t in found ==> t in Topics
      modifies this
      ensures Valid()
      ensures topicsDiscussed == RecordAll(old(topicsDiscussed), found)
      ensures messages == old(messages) && lastQuestion == old(lastQuestion)
      ensures followUpSuggestions == old(followUpSuggestions)
    {
      RecordAllKeepsOld(topicsDiscussed, found);
      RecordAllNoDups(topicsDiscussed, found);
      for i := 0 to |found|
        invariant topicsDiscussed == RecordAll(old(topicsDiscussed), found[..i])
        invariant messages == old(messages) && lastQuestion == old(lastQuestion)
        invariant followUpSuggestions == old(followUpSuggestions)
      {
        assert found[..i + 1][..i] == found[..i];
        if found[i] !in topicsDiscussed {
          topicsDiscussed := topicsDiscussed + [found[i]];
        }
      }
      assert found[..|found|] == found;
    }

    /**
     * process_input: the user's message is always appended and becomes the
     * last question. Any "output" of a status-200 reply is appended as the
     * assistant's message; the context is updated from it only when it is a
     * string, since for any other value the update raises at its first step.
     */
    method ProcessInput(userInput: string, reply: Reply)
      requires Valid()
      modifies this
      ensures Valid()
      ensures lastQuestion == userInput
      ensures Shown(reply).None? ==> messages == old(messages) + [Message(User, userInput)]
      ensures Shown(reply).Some? ==>
        messages == old(messages) + [Message(User, userInput), Message(Assistant, Shown(reply).value)]
      ensures Answer(reply).None? ==>
        topicsDiscussed == old(topicsDiscussed) && followUpSuggestions == old(followUpSuggestions)
      ensures Answer(reply).Some? ==>
        var answer := Answer(reply).value;
        topicsDiscussed == RecordAll(old(topicsDiscussed), FoundTopics(answer))
        && followUpSuggestions == Suggestions(FoundTopics(answer))
    {
      messages := messages + [Message(User, userInput)];
      lastQuestion := userInput;
      match reply
      case RequestFailed(_) =>
      case Received(status, output) =>
        if status == 200 {
          match output
          case Absent =>
          case Text(text) =>
            messages := messages + [Message(Assistant, text)];
            ExtractTopicsAndSuggestFollowUps(userInput, text);
          case Other(rendered) =>
            messages := messages + [Message(Assistant, rendered)];
        }
    }
  }

  /**
   * The conditional appends of extract_topics_and_suggest_followups: the
   * follow-up of soil, crop, irrigation and fertilizer, in that order, for
   * each of them that was found.
   */
  method BuildFollowUps(found: seq<string>) returns (followUps: seq<string>)
    ensures followUps == FollowUpsFor(FollowUpTable, found)
  {
    ghost var soil := if "soil" in found then [SoilFollowUp] else [];
    ghost var crop := if "crop" in found then [CropFollowUp] else [];
    ghost var irrigation := if "irrigation" in found then [IrrigationFollowUp] else [];
    ghost var fertilizer := if "fertilizer" in found then [FertilizerFollowUp] else [];
    followUps := [];
    if "soil" in found {
      followUps := followUps + [SoilFollowUp];
    }
    assert followUps == soil;
    if "crop" in found {
      followUps := followUps + [CropFollowUp];
    }
    assert followUps == soil + crop;
    if "irrigation" in found {
      followUps := followUps + [IrrigationFollowUp];
    }
    assert followUps == soil + crop + irrigation;
    if "fertilizer" in found {
      followUps := followUps + [FertilizerFollowUp];
    }
    assert followUps == soil + crop + irrigation + fertilizer;
    FollowUpsForTable(found);
  }

  // ---------------------------------------------------------------------------
  // Properties of the context update
  // ---------------------------------------------------------------------------

  lemma TopicsDistinct()
    ensures NoDups(Topics)
  {
  }

  /**
   * The found topics are exactly the listed topics that occur in the
   * lower-cased response, each once.
   */
  lemma FoundTopicsExact(response: string)
    ensures forall t :: t in FoundTopics(response) <==> t in Topics && Contains(Lower(response), t)
    ensures NoDups(FoundTopics(response))
  {
    var found := FoundTopics(response);
    var idx := SelectMatchingPositions(Topics, Lower(response));
    SelectMatchingSound(Topics, Lower(response));
    forall t | t in Topics && Contains(Lower(response), t)
      ensures t in found
    {
      var i :| 0 <= i < |Topics| && Topics[i] == t;
      var m :| 0 <= m < |idx| && idx[m] == i;
    }
    TopicsDistinct();
    forall m, n | 0 <= m < n < |found|
      ensures found[m] != found[n]
    {
      assert idx[m] < idx[n];
    }
  }

  /** Recording keeps the earlier topics as a prefix and adds exactly the found ones. */
  lemma {:induction false} RecordAllKeepsOld(discussed: seq<string>, found: seq<string>)
    ensures discussed <= RecordAll(discussed, found)
    ensures forall t :: t in RecordAll(discussed, found) <==> t in discussed || t in found
    decreases |found|
  {
    if found != [] {
      var front := found[..|found| - 1];
      RecordAllKeepsOld(discussed, front);
      assert found == front + [found[|found| - 1]];
    }
  }

  /** Recording never introduces a duplicate. */
  lemma {:induction false} RecordAllNoDups(discussed: seq<string>, found: seq<string>)
    requires NoDups(discussed)
    ensures NoDups(RecordAll(discussed, found))
    decreases |found|
  {
    if found != [] {
      RecordAllNoDups(discussed, found[..|found| - 1]);
    }
  }

  /**
   * With distinct found topics, recording appends exactly those not already
   * discussed, in the order they were found.
   */
  lemma {:induction false} RecordAllAppendsUnseen(discussed: seq<string>, found: seq<string>)
    requires NoDups(found)
    ensures RecordAll(discussed, found) == discussed + Unseen(found, discussed)
    decreases |found|
  {
    if found != [] {
      var front, last := found[..|found| - 1], found[|found| - 1];
      RecordAllAppendsUnseen(discussed, front);
      UnseenFrom(front, discussed);
      assert last !in front;
    }
  }

  lemma {:induction false} UnseenFrom(found: seq<string>, discussed: seq<string>)
    ensures forall t :: t in Unseen(found, discussed) ==> t in found && t !in discussed
    decreases |found|
  {
    if found != [] {
      UnseenFrom(found[..|found| - 1], discussed);
    }
  }

  /** Recording topics that are all present already changes nothing. */
  lemma {:induction false} RecordAllAbsorbed(discussed: seq<string>, found: seq<string>)
    requires forall t :: t in found ==> t in discussed
    ensures RecordAll(discussed, found) == discussed
    decreases |found|
  {
    if found != [] {
      RecordAllAbsorbed(discussed, found[..|found| - 1]);
      assert found[|found| - 1] in found;
    }
  }

  /** Updating twice with the same found topics is the same as updating once. */
  lemma RecordAllIdempotent(discussed: seq<string>, found: seq<string>)
    ensures RecordAll(RecordAll(discussed, found), found) == RecordAll(discussed, found)
  {
    RecordAllKeepsOld(discussed, found);
    RecordAllAbsorbed(RecordAll(discussed, found), found);
  }

  /** The suggestions depend only on which topics were found, not on their order or repetitions. */
  lemma {:induction false} FollowUpsForMembership(table: seq<(string, string)>, found1: seq<string>, found2: seq<string>)
    requires forall t :: t in found1 <==> t in found2
    ensures FollowUpsFor(table, found1) == FollowUpsFor(table, found2)
  {
    if table != [] {
      FollowUpsForMembership(table[1..], found1, found2);
    }
  }

  /** Every suggestion is the follow-up of a found topic, and there are at most three. */
  lemma {:induction false} FollowUpsForSound(table: seq<(string, string)>, found: seq<string>)
    ensures |FollowUpsFor(table, found)| <= |table|
    ensures forall s :: s in FollowUpsFor(table, found) ==> exists e :: e in table && e.0 in found && e.1 == s
  {
    if table != [] {
      FollowUpsForSound(table[1..], found);
      forall s | s in FollowUpsFor(table, found)
        ensures exists e :: e in table && e.0 in found && e.1 == s
      {
        if s in FollowUpsFor(table[1..], found) {
          var e :| e in table[1..] && e.0 in found && e.1 == s;
          assert e in table;
        } else {
          assert table[0] in table;
        }
      }
    }
  }

  lemma SuggestionsBounded(found: seq<string>)
    ensures |Suggestions(found)| <= MaxFollowUps
    ensures forall s :: s in Suggestions(found) ==> exists e :: e in FollowUpTable && e.0 in found && e.1 == s
  {
    FollowUpsForSound(FollowUpTable, found);
    var all := FollowUpsFor(FollowUpTable, found);
    assert forall s :: s in Suggestions(found) ==> s in all;
  }

  /** FollowUpsFor over a four-entry table, spelled out entry by entry. */
  lemma FollowUpsForFour(a: (string, string), b: (string, string), c: (string, string), d: (string, string),
                         found: seq<string>)
    ensures FollowUpsFor([a, b, c, d], found) ==
      (if a.0 in found then [a.1] else []) + (if b.0 in found then [b.1] else [])
      + (if c.0 in found then [c.1] else []) + (if d.0 in found then [d.1] else [])
  {
    assert [a, b, c, d][1..] == [b, c, d];
    assert [b, c, d][1..] == [c, d];
    assert [c, d][1..] == [d];
    assert [d][1..] == [];
    assert FollowUpsFor([d], found) == (if d.0 in found then [d.1] else []);
    assert FollowUpsFor([c, d], found) == (if c.0 in found then [c.1] else []) + FollowUpsFor([d], found);
    assert FollowUpsFor([b, c, d], found) == (if b.0 in found then [b.1] else []) + FollowUpsFor([c, d], found);
  }

  /** The four conditional appends build FollowUpsFor over the priority table. */
  lemma FollowUpsForTable(found: seq<string>)
    ensures FollowUpsFor(FollowUpTable, found) ==
      (if "soil" in found then [SoilFollowUp] else [])
      + (if "crop" in found then [CropFollowUp] else [])
      + (if "irrigation" in found then [IrrigationFollowUp] else [])
      + (if "fertilizer" in found then [FertilizerFollowUp] else [])
  {
    FollowUpsForFour(FollowUpTable[0], FollowUpTable[1], FollowUpTable[2], FollowUpTable[3], found);
  }

  /**
   * Whenever soil, crop and irrigation are all found, in whatever order and
   * whatever else is found, the suggestions are theirs; in particular
   * fertilizer's is the one cut off when all four are found.
   */
  lemma FirstThreeWin(found: seq<string>)
    requires "soil" in found && "crop" in found && "irrigation" in found
    ensures Suggestions(found) == [SoilFollowUp, CropFollowUp, IrrigationFollowUp]
  {
    FollowUpsForTable(found);
  }
}
