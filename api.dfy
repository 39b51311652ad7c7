/**
 * The HTTP façade (API/app.py): three POST handlers that forward a prompt to
 * a local language model and substitute deterministic text when the model
 * is unavailable.
 *
 * The model call itself is a foreign call; it is modelled by `invoke`, a
 * function from a model name and a prompt to the outcome of that one call.
 * Each handler returns, beside its response, the list of model names it
 * invoked, in order, so that "which candidates were tried" is observable.
 */
module Api {
  import opened Options
  import opened Strings

  /** The outcome of one model call: its text, or the message of the exception it raised. */
  datatype Outcome = Success(text: string) | Failure(reason: string)

  /**
   * The value found under "topic" (or "question") in the parsed body's "input" object.
   * `NonText` is any JSON value that is not a string (number, boolean, null, list, object):
   * `typeName` is its Python type name and `repr` what an f-string renders it as.
   */
  datatype Field = Missing | Str(s: string) | NonText(typeName: string, repr: string)

  /**
   * The request body. `Unparsable` covers every exception raised while reading it:
   * a body that is not JSON, or a body or "input" value that is not an object.
   */
  datatype Body = Unparsable(message: string) | Parsed(field: Field)

  /** A JSON response: `{output: ...}` with status 200 or `{error: ...}` with status 500. */
  datatype Response = Ok(output: string) | ServerError(message: string) {
    function Status(): int {
      if Ok? then 200 else 500
    }
  }

  const Models: seq<string> := ["llama3.2", "llama3", "llama2", "mistral"]
  const ChatModel := "llama3.2"
  const DefaultTopic := "general topic"
  const DefaultQuestion := "Tell me something about agriculture"

  /** The text an f-string substitutes for the field, with `default` when the key is absent. */
  function FieldText(f: Field, default: string): string {
    match f
    case Missing => default
    case Str(s) => s
    case NonText(_, repr) => repr
  }

  /** The message of the AttributeError raised when a string method is called on a non-string. */
  function NoAttribute(typeName: string, attribute: string): string {
    "'" + typeName + "' object has no attribute '" + attribute + "'"
  }

  // ---------------------------------------------------------------------------
  // Ordered model fallback
  // ---------------------------------------------------------------------------

  /** Reference definition of the fallback policy: the text of the first candidate that succeeds. */
  function FirstSuccess(candidates: seq<string>, prompt: string, invoke: (string, string) -> Outcome): Option<string> {
    if candidates == [] then None
    else match invoke(candidates[0], prompt)
      case Success(text) => Some(text)
      case Failure(_) => FirstSuccess(candidates[1..], prompt, invoke)
  }

  /**
   * FirstSuccess picks candidate `k`, where every candidate before `k` fails and `k`
   * succeeds; `k == |candidates|` when they all fail.
   */
  lemma {:induction false} FirstSuccessIndex(candidates: seq<string>, prompt: string, invoke: (string, string) -> Outcome)
    returns (k: nat)
    ensures k <= |candidates|
    ensures forall j :: 0 <= j < k ==> invoke(candidates[j], prompt).Failure?
    ensures k < |candidates| ==> invoke(candidates[k], prompt).Success?
                                 && FirstSuccess(candidates, prompt, invoke) == Some(invoke(candidates[k], prompt).text)
    ensures k == |candidates| ==> FirstSuccess(candidates, prompt, invoke) == None
  {
    if candidates == [] {
      k := 0;
    } else if invoke(candidates[0], prompt).Success? {
      k := 0;
    } else {
      var k' := FirstSuccessIndex(candidates[1..], prompt, invoke);
      k := k' + 1;
      forall j | 0 <= j < k
        ensures invoke(candidates[j], prompt).Failure?
      {
        if j > 0 {
          assert candidates[j] == candidates[1..][j - 1];
        }
      }
    }
  }

  /**
   * The `for model in models_to_try` loop: try each candidate in order, return the
   * first success at once, record each failure's message in `lastError` and go on.
   */
  method Resolve(candidates: seq<string>, prompt: string, invoke: (string, string) -> Outcome)
    returns (answer: Option<string>, lastError: Option<string>, invoked: seq<string>)
    ensures invoked <= candidates
    ensures forall i :: 0 <= i < |invoked| - 1 ==> invoke(invoked[i], prompt).Failure?
    ensures answer == FirstSuccess(candidates, prompt, invoke)
    ensures answer.Some? ==> invoked != [] && invoke(invoked[|invoked| - 1], prompt) == Success(answer.value)
    ensures answer.None? ==> invoked == candidates
                             && forall i :: 0 <= i < |candidates| ==> invoke(candidates[i], prompt).Failure?
    ensures answer.None? && candidates != [] ==> lastError == Some(invoke(candidates[|candidates| - 1], prompt).reason)
    ensures candidates == [] ==> lastError == None
  {
    lastError := None;
    invoked := [];
    for i := 0 to |candidates|
      invariant invoked == candidates[..i]
      invariant forall j :: 0 <= j < i ==> invoke(candidates[j], prompt).Failure?
      invariant FirstSuccess(candidates, prompt, invoke) == FirstSuccess(candidates[i..], prompt, invoke)
      invariant i == 0 ==> lastError == None
      invariant i > 0 ==> lastError == Some(invoke(candidates[i - 1], prompt).reason)
    {
      var model := candidates[i];
      invoked := invoked + [model];
      assert candidates[i..][1..] == candidates[i + 1..];
      match invoke(model, prompt)
      case Success(text) =>
        return Some(text), lastError, invoked;
      case Failure(reason) =>
        lastError := Some(reason);
    }
    assert candidates[..|candidates|] == candidates;
    answer := None;
  }

  // ---------------------------------------------------------------------------
  // Prompts and fallback templates
  // ---------------------------------------------------------------------------

  function EssayPrompt(topic: string): string {
    "Write me an essay about " + topic + " with 100 words."
  }

  function TestCasePrompt(topic: string): string {
    "Write me test case scenarios for " + topic + " with 20 steps."
  }

  const ChatPromptHead :=
    "You are an agricultural expert assistant with deep knowledge of farming, crops, soil science, irrigation, livestock, and sustainable agriculture practices. \n\n"
    + "Provide a helpful, informative, and detailed response to the following question about agriculture. Use markdown formatting where appropriate to make your answer more readable.\n\n"
    + "Question: "
  const ChatPromptTail :=
    "\n\nAnswer (be concise but thorough, and format your response with markdown where appropriate):"

  function ChatPrompt(question: string): string {
    ChatPromptHead + question + ChatPromptTail
  }

  /** Every fallback text opens with this notice, which is how a client can tell it from a model answer. */
  const FallbackNotice := "This is a fallback response since no Ollama models are available. "

  function EssayFallback(topic: string): string {
    FallbackNotice + "Here's a brief essay about " + topic + EssayAfterTopic(topic)
  }

  function EssayAfterTopic(topic: string): string {
    ":\n\n"
    + Capitalize(topic) + " is a fascinating subject that has captured the interest of many people around the world. "
    + "When exploring " + topic + ", it's important to consider various perspectives and approaches. "
    + "Many experts have studied " + topic + " extensively and have developed theories and methodologies to better understand it. "
    + "In conclusion, " + topic + " remains an important area for further research and discussion."
  }

  const BasicFunctionalityHeading := "Test Case 1: Basic Functionality\n"
  const EdgeCasesHeading := "Test Case 2: Edge Cases\n"
  const PerformanceHeading := "Test Case 3: Performance\n"

  function TestCaseFallback(topic: string): string {
    FallbackNotice + "Here are some test case scenarios for " + topic + TestCaseSections(topic)
  }

  /** The three sections, each a heading and its steps, after the intro's colon. */
  function TestCaseSections(topic: string): string {
    ":\n\n"
    + BasicFunctionalityHeading + BasicFunctionalitySteps(topic)
    + EdgeCasesHeading + EdgeCaseSteps(topic)
    + PerformanceHeading + PerformanceSteps(topic)
  }

  function BasicFunctionalitySteps(topic: string): string {
    "1. Initialize " + topic + " with default parameters\n"
    + "2. Verify that " + topic + " loads correctly\n"
    + "3. Test basic operations with " + topic + "\n"
    + "4. Validate output formats\n\n"
  }

  function EdgeCaseSteps(topic: string): string {
    "1. Test " + topic + " with minimum input values\n"
    + "2. Test " + topic + " with maximum input values\n"
    + "3. Test " + topic + " with invalid inputs\n"
    + "4. Verify error handling\n\n"
  }

  function PerformanceSteps(topic: string): string {
    "1. Measure response time of " + topic + "\n"
    + "2. Test " + topic + " under load\n"
    + "3. Verify resource usage\n"
  }

  /** The essay fallback is marked as a fallback and names the topic. */
  lemma EssayFallbackMentionsTopic(topic: string)
    ensures StartsWith(EssayFallback(topic), FallbackNotice)
    ensures Contains(EssayFallback(topic), topic)
  {
    PrefixAndInfix(FallbackNotice, "Here's a brief essay about ", topic, EssayAfterTopic(topic));
  }

  /** The test-case fallback is marked as a fallback and names the topic. */
  lemma TestCaseFallbackMentionsTopic(topic: string)
    ensures StartsWith(TestCaseFallback(topic), FallbackNotice)
    ensures Contains(TestCaseFallback(topic), topic)
  {
    PrefixAndInfix(FallbackNotice, "Here are some test case scenarios for ", topic, TestCaseSections(topic));
  }

  /**
   * The test-case fallback holds the three section headings in the order
   * Basic Functionality, Edge Cases, Performance, returned as their offsets.
   */
  lemma TestCaseFallbackSections(topic: string) returns (basic: nat, edge: nat, performance: nat)
    ensures basic < edge < performance
    ensures OccursAt(TestCaseFallback(topic), BasicFunctionalityHeading, basic)
    ensures OccursAt(TestCaseFallback(topic), EdgeCasesHeading, edge)
    ensures OccursAt(TestCaseFallback(topic), PerformanceHeading, performance)
  {
    basic, edge, performance := ThreeHeadings(
      FallbackNotice + "Here are some test case scenarios for " + topic, ":\n\n",
      BasicFunctionalityHeading, BasicFunctionalitySteps(topic),
      EdgeCasesHeading, EdgeCaseSteps(topic),
      PerformanceHeading, PerformanceSteps(topic));
  }

  // ---------------------------------------------------------------------------
  // Generation handlers
  // ---------------------------------------------------------------------------

  /**
   * POST /essay/invoke. A malformed body is a 500. Otherwise the candidates are
   * tried in order; the first success is the output. When all fail, the essay
   * template is the output, except that a non-string topic makes the template's
   * `capitalize` call raise, which is a 500.
   */
  method GenerateEssay(body: Body, invoke: (string, string) -> Outcome) returns (resp: Response, invoked: seq<string>)
    ensures resp.Status() == 500 <==>
      body.Unparsable? ||
      (body.field.NonText? && FirstSuccess(Models, EssayPrompt(FieldText(body.field, DefaultTopic)), invoke).None?)
    ensures body.Unparsable? ==> resp == ServerError(body.message) && invoked == []
    ensures body.Parsed? ==> invoked != [] && invoked <= Models
    ensures body.Parsed? ==>
      var prompt := EssayPrompt(FieldText(body.field, DefaultTopic));
      forall i :: 0 <= i < |invoked| - 1 ==> invoke(invoked[i], prompt).Failure?
    ensures body.Parsed? && !body.field.NonText? ==> resp.Ok?
    ensures body.Parsed? ==>
      var topic := FieldText(body.field, DefaultTopic);
      match FirstSuccess(Models, EssayPrompt(topic), invoke)
      case Some(text) => resp == Ok(text) && invoke(invoked[|invoked| - 1], EssayPrompt(topic)) == Success(text)
      case None =>
        invoked == Models &&
        resp == if body.field.NonText? then ServerError(NoAttribute(body.field.typeName, "capitalize"))
                else Ok(EssayFallback(topic))
  {
    if body.Unparsable? {
      return ServerError(body.message), [];
    }
    var topic := FieldText(body.field, DefaultTopic);
    var answer, lastError;
    answer, lastError, invoked := Resolve(Models, EssayPrompt(topic), invoke);
    if answer.Some? {
      return Ok(answer.value), invoked;
    }
    if body.field.NonText? {
      resp := ServerError(NoAttribute(body.field.typeName, "capitalize"));
    } else {
      resp := Ok(EssayFallback(topic));
    }
  }

  /**
   * POST /poem/invoke (generates test-case scenarios). Same fallback policy as
   * GenerateEssay; its template calls no string method, so only a malformed
   * body is a 500.
   */
  method GenerateTestCases(body: Body, invoke: (string, string) -> Outcome) returns (resp: Response, invoked: seq<string>)
    ensures resp.Status() == (if body.Unparsable? then 500 else 200)
    ensures body.Unparsable? ==> resp == ServerError(body.message) && invoked == []
    ensures body.Parsed? ==> resp.Ok? && invoked != [] && invoked <= Models
    ensures body.Parsed? ==>
      var prompt := TestCasePrompt(FieldText(body.field, DefaultTopic));
      forall i :: 0 <= i < |invoked| - 1 ==> invoke(invoked[i], prompt).Failure?
    ensures body.Parsed? ==>
      var topic := FieldText(body.field, DefaultTopic);
      match FirstSuccess(Models, TestCasePrompt(topic), invoke)
      case Some(text) => resp == Ok(text) && invoke(invoked[|invoked| - 1], TestCasePrompt(topic)) == Success(text)
      case None => invoked == Models && resp == Ok(TestCaseFallback(topic))
  {
    if body.Unparsable? {
      return ServerError(body.message), [];
    }
    var topic := FieldText(body.field, DefaultTopic);
    var answer, lastError;
    answer, lastError, invoked := Resolve(Models, TestCasePrompt(topic), invoke);
    if answer.Some? {
      return Ok(answer.value), invoked;
    }
    resp := Ok(TestCaseFallback(topic));
  }

  // ---------------------------------------------------------------------------
  // Chat: keyword gate and canned answers
  // ---------------------------------------------------------------------------

  const AgricultureKeywords: seq<string> := [
    "agriculture", "farming", "crop", "harvest", "soil", "plant", "seed", "fertilizer",
    "irrigation", "pesticide", "farm", "farmer", "cultivation", "livestock", "organic",
    "sustainable", "yield", "grain", "vegetable", "fruit", "dairy", "cattle", "poultry",
    "greenhouse", "compost", "hydroponics", "agroforestry", "permaculture", "tractor"
  ]

  const Refusal := "I'm an agriculture specialist chatbot. Please ask me questions related to farming, crops, soil, irrigation, or other agricultural topics."

  /** The gate: some agriculture keyword occurs in the lower-cased question. */
  predicate OnTopic(question: string) {
    exists k :: k in AgricultureKeywords && Contains(Lower(question), k)
  }

  /** Canned answers, in table order; the first key found in the question wins. */
  const FallbackTable: seq<(string, string)> := [
    ("soil", "Soil health is fundamental to successful farming. Good soil contains a balance of minerals, organic matter, air, water, and microorganisms. Regular soil testing is recommended to monitor pH levels and nutrient content."),
    ("crop", "Crop selection should be based on your local climate, soil conditions, and market demand. Crop rotation is an important practice to maintain soil health and reduce pest problems."),
    ("irrigation", "Efficient irrigation is crucial for water conservation. Drip irrigation and precision sprinklers can reduce water usage while ensuring crops receive adequate moisture."),
    ("fertilizer", "Balanced fertilization is key to crop health. Organic fertilizers improve soil structure while providing nutrients, while synthetic fertilizers offer precise nutrient control."),
    ("pest", "Integrated Pest Management (IPM) combines biological controls, habitat manipulation, and resistant crop varieties with judicious pesticide use for effective and environmentally sensitive pest control."),
    ("organic", "Organic farming avoids synthetic fertilizers and pesticides, focusing instead on crop rotation, green manure, compost, and biological pest control to maintain soil productivity and control pests."),
    ("sustainable", "Sustainable agriculture aims to meet society's food needs while preserving the environment through practices like conservation tillage, water management, and diverse crop rotations."),
    ("livestock", "Livestock management involves proper housing, nutrition, health care, and breeding practices to ensure animal welfare and productive farming operations."),
    ("harvest", "Proper harvest timing is critical for crop quality. Most crops have optimal harvest windows based on maturity indicators specific to each plant type."),
    ("seed", "Seed selection is a crucial decision for farmers. Consider factors like yield potential, disease resistance, and adaptability to local conditions when choosing seeds.")
  ]

  const GeneralAnswer := "Agriculture is the science and art of cultivating plants and livestock. Modern agriculture includes aspects of environmental conservation, soil management, crop rotation, and technological innovation. Sustainable farming practices aim to meet current food needs while ensuring resources for future generations."

  function Keys(table: seq<(string, string)>): seq<string> {
    seq(|table|, i requires 0 <= i < |table| => table[i].0)
  }

  /** Dictionary lookup: the entry of the first pair whose key is `key`. */
  function Lookup(table: seq<(string, string)>, key: string): string
    requires key in Keys(table)
  {
    KeysTail(table, key);
    if table[0].0 == key then table[0].1 else Lookup(table[1..], key)
  }

  /** A listed key is either the first key or listed in the rest of the table. */
  lemma KeysTail(table: seq<(string, string)>, key: string)
    requires key in Keys(table)
    ensures table != [] && (table[0].0 == key || key in Keys(table[1..]))
  {
    var i :| 0 <= i < |Keys(table)| && Keys(table)[i] == key;
    if i > 0 {
      assert Keys(table[1..])[i - 1] == key;
    }
  }

  /** The fallback answer: the entry of the first matched key, or the general text. */
  function CannedAnswer(question: string): string {
    var matched := SelectMatching(Keys(FallbackTable), Lower(question));
    SelectMatchingSound(Keys(FallbackTable), Lower(question));
    if matched != [] then Lookup(FallbackTable, matched[0]) else GeneralAnswer
  }

  /**
   * POST /chat/invoke. A malformed body, or a non-string question (whose `lower`
   * raises), is a 500. An off-topic question gets the refusal and no model call.
   * Otherwise exactly one call to llama3.2 is made; its text is the answer, and
   * on failure the canned answer for the question is.
   */
  method Chat(body: Body, invoke: (string, string) -> Outcome) returns (resp: Response, invoked: seq<string>)
    ensures resp.Status() == 500 <==> body.Unparsable? || body.field.NonText?
    ensures |invoked| <= 1 && forall m :: m in invoked ==> m == ChatModel
    ensures body.Unparsable? ==> resp == ServerError(body.message) && invoked == []
    ensures body.Parsed? && body.field.NonText? ==>
      resp == ServerError(NoAttribute(body.field.typeName, "lower")) && invoked == []
    ensures body.Parsed? && !body.field.NonText? ==>
      var question := FieldText(body.field, DefaultQuestion);
      resp.Ok? &&
      (!OnTopic(question) ==> resp.output == Refusal && invoked == []) &&
      (OnTopic(question) ==>
        invoked == [ChatModel] &&
        match invoke(ChatModel, ChatPrompt(question))
        case Success(text) => resp.output == text
        case Failure(_) => resp.output == CannedAnswer(question))
  {
    if body.Unparsable? {
      return ServerError(body.message), [];
    }
    if body.field.NonText? {
      return ServerError(NoAttribute(body.field.typeName, "lower")), [];
    }
    var question := FieldText(body.field, DefaultQuestion);
    if !OnTopic(question) {
      return Ok(Refusal), [];
    }
    invoked := [ChatModel];
    match invoke(ChatModel, ChatPrompt(question))
    case Success(text) =>
      resp := Ok(text);
    case Failure(_) =>
      resp := Ok(CannedAnswer(question));
  }

  // ---------------------------------------------------------------------------
  // Properties of the gate and of the canned-answer choice
  // ---------------------------------------------------------------------------

  /** The gate ignores case: a question and its lower-cased form are treated alike. */
  lemma OnTopicIgnoresCase(question: string)
    ensures OnTopic(question) == OnTopic(Lower(question))
  {
    LowerIdempotent(question);
  }

  lemma {:induction false} LookupFirst(table: seq<(string, string)>, i: nat)
    requires i < |table|
    requires forall j :: 0 <= j < i ==> table[j].0 != table[i].0
    ensures table[i].0 in Keys(table) && Lookup(table, table[i].0) == table[i].1
  {
    assert Keys(table)[i] == table[i].0;
    if i > 0 {
      assert table[i].0 == table[1..][i - 1].0;
      LookupFirst(table[1..], i - 1);
    }
  }

  /** The canned-answer table has no repeated key, so first-match lookup agrees with the dict literal. */
  lemma FallbackKeysDistinct()
    ensures forall i, j :: 0 <= i < j < |FallbackTable| ==> FallbackTable[i].0 != FallbackTable[j].0
  {
  }

  /**
   * The canned answer is the entry of the earliest table key (soil, crop,
   * irrigation, fertilizer, pest, organic, sustainable, livestock, harvest,
   * seed) that occurs in the lower-cased question, and the general text
   * exactly when none does.
   */
  lemma CannedAnswerChoice(question: string) returns (i: nat)
    ensures i <= |FallbackTable|
    ensures forall j :: 0 <= j < i ==> !Contains(Lower(question), FallbackTable[j].0)
    ensures i < |FallbackTable| ==> Contains(Lower(question), FallbackTable[i].0)
                                    && CannedAnswer(question) == FallbackTable[i].1
    ensures i == |FallbackTable| ==> CannedAnswer(question) == GeneralAnswer
  {
    var keys, text := Keys(FallbackTable), Lower(question);
    SelectMatchingEmpty(keys, text);
    var matched := SelectMatching(keys, text);
    if matched != [] {
      FirstMatchIsEarliest(keys, text);
      i :| 0 <= i < |keys| && keys[i] == matched[0] && Contains(text, keys[i])
           && forall j :: 0 <= j < i ==> !Contains(text, keys[j]);
      forall j | 0 <= j < i
        ensures !Contains(text, FallbackTable[j].0)
      {
        assert keys[j] == FallbackTable[j].0;
      }
      assert keys[i] == FallbackTable[i].0;
      LookupFirst(FallbackTable, i);
    } else {
      i := |FallbackTable|;
      forall j | 0 <= j < i
        ensures !Contains(text, FallbackTable[j].0)
      {
        assert keys[j] == FallbackTable[j].0 && keys[j] in keys;
      }
    }
  }
}
