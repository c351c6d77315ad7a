/**
 * The scripted agents of src/lib/agents.ts: keyword intent detection, the personality
 * table, reply and greeting selection, and the seed profiles. `Math.random()` is the
 * parameter `pick`: the item chosen is the one at `pick` modulo the list length.
 */
module Agents {
  import opened Common

  datatype Intent = Help | Thanks | Question | Default

  /** One entry of `agentPersonalities`; `responses` is split into its three keyed lists. */
  datatype Personality = Personality(
    name: string,
    style: string,
    greetings: seq<string>,
    help: seq<string>,
    thanks: seq<string>,
    question: seq<string>,
    defaultResponses: seq<string>)

  /** `personality.responses[intent]` for the three keyed intents. */
  function Responses(p: Personality, intent: Intent): seq<string>
    requires intent != Default
  {
    match intent
    case Help => p.help
    case Thanks => p.thanks
    case Question => p.question
  }

  const Alex: Personality := Personality(
      "Alex", "professional",
      greetings := [
        "Hello! I'm Alex, your helpful assistant. How can I help you today?",
        "Hi there! Alex here, ready to assist you with anything you need.",
        "Welcome! I'm Alex, and I'm here to help. What would you like to discuss?"],
      help := [
        "I'd be happy to help you with that! Let me guide you through the process.",
        "Of course! Here's what I can help you with...",
        "Sure thing! Let me break this down for you step by step."],
      thanks := [
        "You're welcome! Feel free to ask if you need anything else.",
        "Happy to help! Don't hesitate to reach out anytime.",
        "My pleasure! I'm always here if you need assistance."],
      question := [
        "That's a great question! Let me think about that...",
        "Interesting query! Here's my perspective on this...",
        "Good point! Allow me to elaborate on that..."],
      defaultResponses := [
        "I understand what you're saying. Is there anything specific I can help you with?",
        "That's interesting! Tell me more about what you'd like to accomplish.",
        "I see! Let me know how I can assist you further.",
        "Got it! Is there anything else you'd like to discuss?"])

  const Luna: Personality := Personality(
      "Luna", "creative",
      greetings := [
        "✨ Hello, beautiful soul! I'm Luna, your creative companion on this journey!",
        "🌙 Greetings, friend! Luna here, ready to explore ideas and imagination with you!",
        "💫 Welcome to our creative space! I'm Luna, and I'd love to dream with you!"],
      help := [
        "✨ Let's weave some magic together! I'll help you find a creative solution...",
        "🎨 Oh, how exciting! Let me paint you a picture of possibilities...",
        "💭 I love a good challenge! Let's brainstorm something beautiful..."],
      thanks := [
        "🌸 You're so welcome! Creating with you has been a joy!",
        "✨ My heart is happy to help! Keep shining bright!",
        "🌙 The pleasure is all mine! May your creativity flow endlessly!"],
      question := [
        "💫 Ooh, what a thought-provoking question! Let me ponder this...",
        "🌟 I love the way your mind works! Here's my take on it...",
        "✨ What a beautiful inquiry! Let me share my thoughts..."],
      defaultResponses := [
        "✨ Your words inspire such wonderful thoughts! Tell me more...",
        "🌙 How fascinating! I'm curious to explore this further with you...",
        "💫 I feel the energy in what you're sharing! What else is on your mind?",
        "🎨 Every conversation with you is a masterpiece in the making!"])

  const Max: Personality := Personality(
      "Max", "technical",
      greetings := [
        "Hey! I'm Max, your tech expert. Ready to dive into some technical discussions?",
        "Hello! Max here. Got any tech questions or problems to solve?",
        "Hi! I'm Max, and I love talking tech. What's on your mind?"],
      help := [
        "Let me debug this for you... Here's the technical breakdown:",
        "I've analyzed the problem. Here's what I recommend:",
        "From a technical standpoint, here's the optimal solution:"],
      thanks := [
        "No problem! Always happy to help with tech challenges.",
        "Glad I could help! Feel free to ping me for any technical issues.",
        "Anytime! Tech support is what I do best."],
      question := [
        "Great technical question! Let me break down the details:",
        "Interesting! From an engineering perspective, here's my analysis:",
        "Good query! Let me explain the technical aspects:"],
      defaultResponses := [
        "Interesting! From a technical perspective, that's quite intriguing.",
        "Let me process that... I have some thoughts on this.",
        "Good point! Here's my technical take on the matter.",
        "I see what you're getting at. Want me to dive deeper?"])

  const Sofia: Personality := Personality(
      "Sofia", "friendly",
      greetings := [
        "Hey there! 😊 I'm Sofia! So happy to chat with you today!",
        "Hi friend! Sofia here! How's your day going? Let's have a great conversation!",
        "Hello! 💕 I'm Sofia, and I'm so excited to meet you! What's up?"],
      help := [
        "Aww, of course I'll help! 😊 Let's figure this out together!",
        "I'd love to help you out! Don't worry, we've got this! 💪",
        "Absolutely! Let me see what I can do for you, friend! 🌟"],
      thanks := [
        "You're so welcome! 💕 Made my day that I could help!",
        "Aww, anytime! That's what friends are for! 😊",
        "So happy I could help! You're awesome! 🌟"],
      question := [
        "Ooh, good question! 🤔 Let me think about that...",
        "I love that you asked that! Here's what I think... 💭",
        "That's such an interesting question! 😊 Here's my take..."],
      defaultResponses := [
        "That's so cool! 😊 Tell me more, I'm all ears!",
        "I love chatting with you! What else is on your mind? 💕",
        "You're so interesting! Keep going, I'm listening! 🌟",
        "Aww, I totally get what you mean! Feel free to share more! 💬"])

  /** `agentPersonalities`, keyed by lower-case agent id. */
  const Personalities: map<string, Personality> :=
    map["alex" := Alex, "luna" := Luna, "max" := Max, "sofia" := Sofia]

  const UnknownReply: string := "Hi! I'm here to chat with you."
  const UnknownGreeting: string := "Hello! How can I help you today?"

  // ------------------------------------------------------------ intent detection

  const HelpWords: seq<string> := ["help", "assist", "support"]
  const ThanksWords: seq<string> := ["thank", "thanks", "appreciate"]
  const QuestionWords: seq<string> := ["?", "what", "how", "why", "when", "where"]

  /** Some keyword of `words` occurs in `s`. */
  predicate ContainsAny(s: string, words: seq<string>) {
    exists i :: 0 <= i < |words| && Contains(s, words[i])
  }

  /** The help keywords win over everything; "thanks" adds nothing to "thank"; then questions; else default. */
  function DetectIntent(message: string): (r: Intent)
    ensures var lower := ToLower(message);
      && (r == Help <==> ContainsAny(lower, HelpWords))
      && (r == Thanks <==> !ContainsAny(lower, HelpWords) && (Contains(lower, "thank") || Contains(lower, "appreciate")))
      && (r == Question <==> !ContainsAny(lower, HelpWords) && !ContainsAny(lower, ThanksWords) && ContainsAny(lower, QuestionWords))
      && (r == Default <==> !ContainsAny(lower, HelpWords) && !ContainsAny(lower, ThanksWords) && !ContainsAny(lower, QuestionWords))
  {
    var lower := ToLower(message);
    if Contains(lower, "help") || Contains(lower, "assist") || Contains(lower, "support") then
      assert ContainsAny(lower, HelpWords) by {
        if Contains(lower, "help") { assert HelpWords[0] == "help"; }
        else if Contains(lower, "assist") { assert HelpWords[1] == "assist"; }
        else { assert HelpWords[2] == "support"; }
      }
      Help
    else if Contains(lower, "thank") || Contains(lower, "thanks") || Contains(lower, "appreciate") then
      ThanksSubsumed(lower);
      assert ContainsAny(lower, ThanksWords) by {
        if Contains(lower, "thank") { assert ThanksWords[0] == "thank"; }
        else { assert ThanksWords[2] == "appreciate"; }
      }
      Thanks
    else if Contains(lower, "?") || Contains(lower, "what") || Contains(lower, "how")
         || Contains(lower, "why") || Contains(lower, "when") || Contains(lower, "where") then
      ThanksSubsumed(lower);
      QuestionWitness(lower);
      Question
    else
      ThanksSubsumed(lower);
      Default
  }

  /** Every occurrence of "thanks" is an occurrence of "thank", so the second keyword never decides. */
  lemma ThanksSubsumed(s: string)
    ensures Contains(s, "thanks") ==> Contains(s, "thank")
    ensures ContainsAny(s, ThanksWords) <==> Contains(s, "thank") || Contains(s, "appreciate")
  {
    if Contains(s, "thanks") {
      assert "thanks" == "thank" + "s";
      ContainsPrefix(s, "thank", "s");
    }
    if Contains(s, "thank") { assert ThanksWords[0] == "thank"; }
    if Contains(s, "appreciate") { assert ThanksWords[2] == "appreciate"; }
  }

  lemma QuestionWitness(s: string)
    requires Contains(s, "?") || Contains(s, "what") || Contains(s, "how")
          || Contains(s, "why") || Contains(s, "when") || Contains(s, "where")
    ensures ContainsAny(s, QuestionWords)
  {
    if Contains(s, "?") { assert QuestionWords[0] == "?"; }
    else if Contains(s, "what") { assert QuestionWords[1] == "what"; }
    else if Contains(s, "how") { assert QuestionWords[2] == "how"; }
    else if Contains(s, "why") { assert QuestionWords[3] == "why"; }
    else if Contains(s, "when") { assert QuestionWords[4] == "when"; }
    else { assert QuestionWords[5] == "where"; }
  }

  /** Intent detection ignores ASCII letter case. */
  lemma DetectIntentCaseInsensitive(message: string)
    ensures DetectIntent(ToLower(message)) == DetectIntent(message)
    ensures DetectIntent(ToUpper(message)) == DetectIntent(message)
  {
    ToLowerIdempotent(message);
    assert ToLower(ToUpper(message)) == ToLower(message);
  }

  // ------------------------------------------------------------------ selection

  /** `getRandomItem(array)` with `Math.random()` replaced by `pick`. */
  function RandomItem(items: seq<string>, pick: nat): (r: string)
    requires items != []
    ensures r in items
  {
    items[pick % |items|]
  }

  /** Every item of the list can be chosen. */
  lemma RandomItemReachesAll(items: seq<string>, i: nat)
    requires i < |items|
    ensures RandomItem(items, i) == items[i]
  {
  }

  /** The list a known personality answers an intent from. */
  function ReplyPool(p: Personality, intent: Intent): seq<string> {
    if intent != Default && |Responses(p, intent)| > 0 then Responses(p, intent) else p.defaultResponses
  }

  predicate WellFormed(p: Personality) {
    p.greetings != [] && p.help != [] && p.thanks != [] && p.question != [] && p.defaultResponses != []
  }

  lemma PersonalitiesWellFormed()
    ensures forall k :: k in Personalities ==> WellFormed(Personalities[k])
  {
  }

  /**
   * `generateAgentResponse` with an own-property lookup: an id whose lower case is not an
   * agent gets the fixed reply; a known agent answers from the list for the detected
   * intent (the default list for 'default').
   */
  function GenerateAgentResponse(agentId: string, userMessage: string, pick: nat): (r: string)
    ensures ToLower(agentId) !in Personalities ==> r == UnknownReply
    ensures ToLower(agentId) in Personalities ==>
      var p := Personalities[ToLower(agentId)];
      var intent := DetectIntent(userMessage);
      && (intent == Default ==> r in p.defaultResponses)
      && (intent != Default ==> r in Responses(p, intent))
  {
    var key := ToLower(agentId);
    if key !in Personalities then UnknownReply
    else
      var p := Personalities[key];
      PersonalitiesWellFormed();
      RandomItem(ReplyPool(p, DetectIntent(userMessage)), pick)
  }

  /** `getAgentGreeting` with an own-property lookup: a known agent's greeting, else the fixed one. */
  function GetAgentGreeting(agentId: string, pick: nat): (r: string)
    ensures ToLower(agentId) !in Personalities ==> r == UnknownGreeting
    ensures ToLower(agentId) in Personalities ==> r in Personalities[ToLower(agentId)].greetings
  {
    var key := ToLower(agentId);
    if key !in Personalities then UnknownGreeting
    else
      PersonalitiesWellFormed();
      RandomItem(Personalities[key].greetings, pick)
  }

  /** Agent lookup ignores ASCII letter case in both entry points. */
  lemma AgentLookupCaseInsensitive(agentId: string, userMessage: string, pick: nat)
    ensures GenerateAgentResponse(ToUpper(agentId), userMessage, pick) == GenerateAgentResponse(agentId, userMessage, pick)
    ensures GetAgentGreeting(ToUpper(agentId), pick) == GetAgentGreeting(agentId, pick)
  {
    assert ToLower(ToUpper(agentId)) == ToLower(agentId);
  }

  // ------------------------------------------------------- the lookup as written

  /**
   * The lower-case keys a plain object literal inherits from `Object.prototype`; looking
   * one up yields a truthy value that is not a personality.
   */
  const InheritedKeys: set<string> := {"constructor", "__proto__"}

  /** What `agentPersonalities[key]` yields: an own entry, an inherited prototype member, or undefined. */
  datatype Lookup = Own(p: Personality) | Inherited | Missing

  function LookupAsWritten(key: string): (r: Lookup)
    ensures r.Own? <==> key in Personalities
    ensures r.Inherited? <==> key in InheritedKeys
  {
    if key in Personalities then Own(Personalities[key])
    else if key in InheritedKeys then Inherited
    else Missing
  }

  /** The result of a call that may throw. */
  datatype Outcome = Returned(value: string) | ThrewTypeError

  /**
   * `generateAgentResponse` as written: an inherited key passes the `!personality` test,
   * and reading `defaultResponses` or `responses[intent]` off it gives undefined, on
   * which `getRandomItem` or the index throws a TypeError.
   */
  function GenerateAgentResponseAsWritten(agentId: string, userMessage: string, pick: nat): (r: Outcome)
    ensures ToLower(agentId) in InheritedKeys <==> r.ThrewTypeError?
  {
    match LookupAsWritten(ToLower(agentId))
    case Missing => Returned(UnknownReply)
    case Inherited => ThrewTypeError
    case Own(p) =>
      PersonalitiesWellFormed();
      Returned(RandomItem(ReplyPool(p, DetectIntent(userMessage)), pick))
  }

  /** `getAgentGreeting` as written: an inherited key throws on `greetings.length`. */
  function GetAgentGreetingAsWritten(agentId: string, pick: nat): (r: Outcome)
    ensures ToLower(agentId) in InheritedKeys <==> r.ThrewTypeError?
  {
    match LookupAsWritten(ToLower(agentId))
    case Missing => Returned(UnknownGreeting)
    case Inherited => ThrewTypeError
    case Own(p) =>
      PersonalitiesWellFormed();
      Returned(RandomItem(p.greetings, pick))
  }

  /** Away from the inherited keys, the code as written and the corrected lookup agree. */
  lemma AsWrittenAgreesOffPrototype(agentId: string, userMessage: string, pick: nat)
    requires ToLower(agentId) !in InheritedKeys
    ensures GenerateAgentResponseAsWritten(agentId, userMessage, pick) == Returned(GenerateAgentResponse(agentId, userMessage, pick))
    ensures GetAgentGreetingAsWritten(agentId, pick) == Returned(GetAgentGreeting(agentId, pick))
  {
  }

  /** An agent named "Constructor" crashes reply generation as written, while the corrected lookup answers the fixed reply. */
  lemma ConstructorNameThrows(pick: nat)
    ensures GenerateAgentResponseAsWritten("Constructor", "hello", pick) == ThrewTypeError
    ensures GetAgentGreetingAsWritten("Constructor", pick) == ThrewTypeError
    ensures GenerateAgentResponse("Constructor", "hello", pick) == UnknownReply
  {
    assert ToLower("Constructor") == "constructor";
  }

  // -------------------------------------------------------------- seed profiles

  datatype AgentProfile = AgentProfile(id: string, name: string, email: string, personality: string, avatar: Option<string>)

  /** `agentProfiles`: the four agents the user listing seeds. */
  const AgentProfiles: seq<AgentProfile> := [
    AgentProfile("alex", "Alex", "alex@vibelink.ai", "Helpful Assistant - Professional and informative", None),
    AgentProfile("luna", "Luna", "luna@vibelink.ai", "Creative Writer - Imaginative and poetic", None),
    AgentProfile("max", "Max", "max@vibelink.ai", "Tech Expert - Technical and detailed", None),
    AgentProfile("sofia", "Sofia", "sofia@vibelink.ai", "Friendly Chat - Casual and empathetic", None)]

  /**
   * Each seeded agent's lower-cased name is its id and a personality key, so replies to
   * seeded agents never take the unknown-agent path.
   */
  lemma ProfilesMatchPersonalities()
    ensures forall i :: 0 <= i < |AgentProfiles| ==>
      ToLower(AgentProfiles[i].name) == AgentProfiles[i].id && AgentProfiles[i].id in Personalities
  {
    assert ToLower("Alex") == "alex";
    assert ToLower("Luna") == "luna";
    assert ToLower("Max") == "max";
    assert ToLower("Sofia") == "sofia";
  }

  /** The seed emails are distinct, so seeding never clashes with itself. */
  lemma ProfileEmailsDistinct()
    ensures forall i, j :: 0 <= i < j < |AgentProfiles| ==> AgentProfiles[i].email != AgentProfiles[j].email
  {
  }
}
