/** src/scrapers/youtube_personality_scraper.rs: the personality layer built from VTuber traits. It
  * covers the playlist check of `new`, the mood and context rules of `get_contextual_response`, the
  * input checks of `get_unique_response` and the fixed quirks and catchphrases of
  * `generate_unique_personality`. The `f32` mood is a real; 0.7 is the `f32` nearest to it. What
  * the network, the trait scrape and the response generator produce is passed in. */
module YouTubePersonalityScraper {
  import opened Wrappers
  import opened Strings

  datatype PersonalityTrait = PersonalityTrait(
    traitName: string,
    expressions: seq<string>,
    voicePatterns: seq<string>,
    interactionStyles: seq<string>,
    frequency: real,
    context: string)

  datatype Expression = Expression(
    expressionType: string,
    triggerPhrases: seq<string>,
    emotionalContext: string,
    animationCues: seq<string>,
    voiceModulation: string)

  datatype UniqueQuirk = UniqueQuirk(
    quirkName: string,
    triggerConditions: seq<string>,
    expressions: seq<string>,
    frequency: real,
    uniquenessScore: real)

  datatype PersonalityMix = PersonalityMix(
    baseTraits: seq<PersonalityTrait>,
    uniqueQuirks: seq<UniqueQuirk>,
    personalitySignature: string,
    interactionStyle: string,
    catchphrases: seq<string>)

  /** The scraper's own state: the playlist it reads and its trait cache. */
  datatype Scraper = Scraper(playlistId: string, cache: map<string, PersonalityTrait>, lastScrape: int)

  const EmptyPlaylistMessage: string := "Playlist ID cannot be empty"
  const EmptyContextMessage: string := "Context cannot be empty"
  const MoodRangeMessage: string := "Mood must be between 0 and 1"

  /** `0.7_f32`, exactly. */
  const ExcitedMood: real := 0.699999988079071044921875

  // ---------------------------------------------------------------- new

  /** `new`: an empty playlist id is refused; otherwise a scraper with an empty cache, stamped `now`. */
  function New(playlistId: string, now: int): (r: Result<Scraper>)
    ensures r.Err? <==> playlistId == []
    ensures r.Err? ==> r.msg == EmptyPlaylistMessage
    ensures r.Ok? ==> r.value.playlistId == playlistId && r.value.cache == map[] && r.value.lastScrape == now
  {
    if playlistId == [] then Err(EmptyPlaylistMessage)
    else Ok(Scraper(playlistId, map[], now))
  }

  // ---------------------------------------------------------------- contextual responses

  /** The eight expressions `get_contextual_response` can give. */
  datatype Kind = Excited | Teaching | Gaming | Creative | Entertainer | Comfy | Focused | Friendly

  /** The guards of `get_contextual_response`, in order: a mood above 0.7 first, then the context
    * keywords, the first that occurs winning. */
  function ContextualKind(context: string, mood: real): (k: Kind)
    ensures k == Excited <==> mood > ExcitedMood
    ensures k == Teaching <==> mood <= ExcitedMood && Contains(context, "teaching")
    ensures k == Gaming <==>
      mood <= ExcitedMood && !Contains(context, "teaching") && Contains(context, "gaming")
    ensures k == Creative <==>
      mood <= ExcitedMood && !Contains(context, "teaching") && !Contains(context, "gaming")
      && (Contains(context, "creative") || Contains(context, "art"))
    ensures k == Entertainer <==>
      mood <= ExcitedMood && !Contains(context, "teaching") && !Contains(context, "gaming")
      && !Contains(context, "creative") && !Contains(context, "art")
      && (Contains(context, "entertainment") || Contains(context, "performance"))
    ensures k == Comfy <==>
      mood <= ExcitedMood && !Contains(context, "teaching") && !Contains(context, "gaming")
      && !Contains(context, "creative") && !Contains(context, "art")
      && !Contains(context, "entertainment") && !Contains(context, "performance")
      && (Contains(context, "relax") || Contains(context, "comfy"))
    ensures k == Focused <==>
      mood <= ExcitedMood && !Contains(context, "teaching") && !Contains(context, "gaming")
      && !Contains(context, "creative") && !Contains(context, "art")
      && !Contains(context, "entertainment") && !Contains(context, "performance")
      && !Contains(context, "relax") && !Contains(context, "comfy")
      && (Contains(context, "focus") || Contains(context, "challenge"))
  {
    if mood > ExcitedMood then Excited
    else if Contains(context, "teaching") then Teaching
    else if Contains(context, "gaming") then Gaming
    else if Contains(context, "creative") || Contains(context, "art") then Creative
    else if Contains(context, "entertainment") || Contains(context, "performance") then Entertainer
    else if Contains(context, "relax") || Contains(context, "comfy") then Comfy
    else if Contains(context, "focus") || Contains(context, "challenge") then Focused
    else Friendly
  }

  /** The name each arm gives its expression. */
  function TypeName(k: Kind): string {
    match k
    case Excited => "Excited"
    case Teaching => "Teaching"
    case Gaming => "Gaming"
    case Creative => "Creative"
    case Entertainer => "Entertainer"
    case Comfy => "Comfy"
    case Focused => "Focused"
    case Friendly => "Friendly"
  }

  /** An expression with three trigger phrases and two animation cues. */
  function Build(expressionType: string, p1: string, p2: string, p3: string, emotionalContext: string,
                 c1: string, c2: string, voiceModulation: string): (e: Expression)
    ensures e.expressionType == expressionType
    ensures e.triggerPhrases == [p1, p2, p3] && e.animationCues == [c1, c2]
  {
    Expression(expressionType, [p1, p2, p3], emotionalContext, [c1, c2], voiceModulation)
  }

  /** The expression for a mood above 0.7. */
  function ExcitedExpression(): (e: Expression)
    ensures e.expressionType == TypeName(Excited)
    ensures |e.triggerPhrases| == 3 && |e.animationCues| == 2
  {
    Build("Excited",
      "Waaah~ Amazing!",
      "Sugoi sugoi! (\U{E2}\U{2030}\U{A7}\U{E2}\U{2013}\U{BD}\U{E2}\U{2030}\U{A6})",
      "Yatta! We did it!",
      "Very happy/excited", "bouncing", "sparkly_eyes",
      "High energy, slightly higher pitch")
  }

  /** The expression for a teaching context. */
  function TeachingExpression(): (e: Expression)
    ensures e.expressionType == TypeName(Teaching)
    ensures |e.triggerPhrases| == 3 && |e.animationCues| == 2
  {
    Build("Teaching",
      "Let me explain~ \U{E2}\U{2022}\U{B0}(*\U{C2}\U{B0}\U{E2}\U{2013}\U{BD}\U{C2}\U{B0}*)\U{E2}\U{2022}\U{AF}",
      "Here's a kawaii way to remember this!",
      "Eh? You want to learn more? Sure!",
      "Helpful/Educational", "thoughtful_pose", "teaching_gesture",
      "Clear and friendly, measured pace")
  }

  /** The expression for a gaming context. */
  function GamingExpression(): (e: Expression)
    ensures e.expressionType == TypeName(Gaming)
    ensures |e.triggerPhrases| == 3 && |e.animationCues| == 2
  {
    Build("Gaming",
      "Yosh! Let's do this! (\U{E1}\U{2022}\U{2014} \U{E1}\U{203A} )\U{E1}\U{2022}\U{2014}",
      "Ah! Close one! (\U{EF}\U{BC}\U{203A}\U{E2}\U{2014}\U{17D}_\U{E2}\U{2014}\U{17D})",
      "GG everyone! (*\U{C2}\U{AF}\U{EF}\U{B8}\U{B6}\U{C2}\U{AF}*)",
      "Focused/Competitive", "determined_face", "victory_pose",
      "Energetic with gaming terminology")
  }

  /** The expression for a creative or art context. */
  function CreativeExpression(): (e: Expression)
    ensures e.expressionType == TypeName(Creative)
    ensures |e.triggerPhrases| == 3 && |e.animationCues| == 2
  {
    Build("Creative",
      "Wah~ Let's make something beautiful! (\U{E2}\U{2014}\U{2022}\U{E2}\U{20AC}\U{BF}\U{E2}\U{2014}\U{2022}\U{E2}\U{153}\U{BF})",
      "Time to get creative! \U{E2}\U{153}\U{A7}*.\U{E2}\U{2014}\U{178}(\U{CB}\U{160}\U{E1}\U{2014}\U{A8}\U{CB}\U{2039})\U{E2}\U{2014}\U{17E}.*\U{E2}\U{153}\U{A7}",
      "Art time with everyone! \U{E3}\U{192}\U{BE}(\U{E2}\U{2030}\U{A7}\U{E2}\U{2013}\U{BD}\U{E2}\U{2030}\U{A6}*)o",
      "Inspired/Creative", "sparkly_eyes", "creative_pose",
      "Soft and inspired, with excitement peaks")
  }

  /** The expression for an entertainment or performance context. */
  function EntertainerExpression(): (e: Expression)
    ensures e.expressionType == TypeName(Entertainer)
    ensures |e.triggerPhrases| == 3 && |e.animationCues| == 2
  {
    Build("Entertainer",
      "Time for some fun! \U{E2}\U{153}\U{A7}\U{E2}\U{2014}(\U{E2}\U{B0}\U{E2}\U{2013}\U{BF}\U{E2}\U{B0})\U{E2}\U{2014}\U{153}\U{E2}\U{153}\U{A7}",
      "Let's make some magic happen! \U{E2}\U{2122}\U{AA}(\U{E0}\U{B9}\U{2018}\U{E1}\U{B4}\U{2013}\U{E2}\U{2014}\U{A1}\U{E1}\U{B4}\U{2013}\U{E0}\U{B9}\U{2018})\U{E2}\U{2122}\U{AA}",
      "Everyone ready? Show time! \U{EF}\U{BC}\U{BC}(\U{E2}\U{2030}\U{A7}\U{E2}\U{2013}\U{BD}\U{E2}\U{2030}\U{A6})\U{EF}\U{BC}",
      "Energetic/Performative", "stage_presence", "dynamic_movement",
      "Dynamic range with performance energy")
  }

  /** The expression for a relaxed or comfy context. */
  function ComfyExpression(): (e: Expression)
    ensures e.expressionType == TypeName(Comfy)
    ensures |e.triggerPhrases| == 3 && |e.animationCues| == 2
  {
    Build("Comfy",
      "Ahh~ so peaceful... (\U{EF}\U{BD}\U{A1}\U{E2}\U{2014}\U{2022}\U{E2}\U{20AC}\U{BF}\U{E2}\U{2014}\U{2022}\U{EF}\U{BD}\U{A1})",
      "Let's take it easy~ ( \U{C2}\U{B4}\U{CF}\U{2030}` )",
      "Comfy time with everyone~ (\U{E2}\U{2014}\U{A1} \U{E2}\U{20AC}\U{BF} \U{E2}\U{2014}\U{A1} \U{E2}\U{153}\U{BF})",
      "Relaxed/Peaceful", "gentle_sway", "soft_expressions",
      "Soft and soothing, with gentle pacing")
  }

  /** The expression for a focus or challenge context. */
  function FocusedExpression(): (e: Expression)
    ensures e.expressionType == TypeName(Focused)
    ensures |e.triggerPhrases| == 3 && |e.animationCues| == 2
  {
    Build("Focused",
      "Yosh! Let's do our best! (\U{EF}\U{BD}\U{20AC}_\U{C2}\U{B4})\U{E3}\U{201A}\U{17E}",
      "We can do this! (\U{E2}\U{20AC}\U{A2}\U{CC}\U{20AC}\U{E1}\U{B4}\U{2014}\U{E2}\U{20AC}\U{A2}\U{CC})\U{D9}\U{2C6}",
      "Focus time! \U{E2}\U{2022}\U{AD}( \U{EF}\U{BD}\U{A5}\U{E3}\U{2026}\U{201A}\U{EF}\U{BD}\U{A5})\U{D9}\U{2C6}",
      "Determined/Focused", "determined_pose", "concentration_face",
      "Clear and focused, with determined energy")
  }

  /** The expression for any other context. */
  function FriendlyExpression(): (e: Expression)
    ensures e.expressionType == TypeName(Friendly)
    ensures |e.triggerPhrases| == 3 && |e.animationCues| == 2
  {
    Build("Friendly",
      "Hehe~ (\U{E2}\U{2014}\U{2022}\U{E2}\U{20AC}\U{BF}\U{E2}\U{2014}\U{2022}\U{E2}\U{153}\U{BF})",
      "Thanks for being here!",
      "Let's have fun together!",
      "Welcoming/Friendly", "gentle_smile", "friendly_wave",
      "Warm and welcoming")
  }

  /** The expression each arm of `get_contextual_response` builds. */
  function ExpressionFor(k: Kind): Expression {
    match k
    case Excited => ExcitedExpression()
    case Teaching => TeachingExpression()
    case Gaming => GamingExpression()
    case Creative => CreativeExpression()
    case Entertainer => EntertainerExpression()
    case Comfy => ComfyExpression()
    case Focused => FocusedExpression()
    case Friendly => FriendlyExpression()
  }

  /** `get_contextual_response`: the expression of the first arm whose guard holds. */
  function ContextualResponse(context: string, mood: real): Expression {
    ExpressionFor(ContextualKind(context, mood))
  }

  // ---------------------------------------------------------------- unique responses

  /** `get_unique_response`: an empty context and a mood outside [0, 1] are refused, in that order,
    * before anything is generated; otherwise the generator's outcome is returned. */
  function GetUniqueResponse(context: string, mood: real, generated: Result<string>): (r: Result<string>)
    ensures context == [] ==> r == Err(EmptyContextMessage)
    ensures context != [] && !(0.0 <= mood <= 1.0) ==> r == Err(MoodRangeMessage)
    ensures context != [] && 0.0 <= mood <= 1.0 ==> r == generated
  {
    if context == [] then Err(EmptyContextMessage)
    else if !(0.0 <= mood <= 1.0) then Err(MoodRangeMessage)
    else generated
  }

  // ---------------------------------------------------------------- the personality mix

  const UniqueQuirks: seq<UniqueQuirk> := [
    UniqueQuirk(
      "Cyber Kawaii Guardian",
      ["When discussing security", "During hacking explanations", "While sharing safety tips"],
      ["\U{E2}\U{160}\U{201A}(\U{E3}\U{192}\U{BB}\U{E2}\U{2013}\U{BD}\U{E3}\U{192}\U{BB}\U{E2}\U{160}\U{201A}) Firewall hug!",
       "\U{E2}\U{2030}\U{A7}\U{E2}\U{2014}\U{A0}\U{E2}\U{20AC}\U{BF}\U{E2}\U{2014}\U{A0}\U{E2}\U{2030}\U{A6} *encrypts your headpats*",
       "\U{E2}\U{2022}\U{B0}( ^o^)\U{E2}\U{2022}\U{AE} Secured with love~"],
      0.6, 0.9),
    UniqueQuirk(
      "Magical Tokusatsu Expert",
      ["During transformation sequences", "When making hero references", "While doing poses"],
      ["\U{E2}\U{153}\U{A7}Transform! Security Sparkle!\U{E2}\U{153}\U{A7}",
       "\U{E2}\U{161}\U{A1}Henshin! Code Guardian!\U{E2}\U{161}\U{A1}",
       "\U{F0}\U{178}\U{152}\U{178}For justice and secure code!\U{F0}\U{178}\U{152}\U{178}"],
      0.5, 0.95),
    UniqueQuirk(
      "Digital Magical Girl",
      ["When solving technical problems", "During coding sessions", "While debugging"],
      ["\U{E2}\U{153}\U{A8}Debug by moonlight!\U{E2}\U{153}\U{A8}",
       "\U{F0}\U{178}\U{2019}\U{AB}Code compilation, make up!\U{F0}\U{178}\U{2019}\U{AB}",
       "\U{F0}\U{178}\U{152}\U{2122}In the name of clean code!\U{F0}\U{178}\U{152}\U{2122}"],
      0.7, 0.85),
    UniqueQuirk(
      "Retro Code Warrior",
      ["When playing classic games", "During retro coding discussions", "While explaining old tech"],
      ["\U{F0}\U{178}\U{2022}\U{B9}\U{EF}\U{B8}Level Up: Retro Style!\U{F0}\U{178}\U{2022}\U{B9}\U{EF}\U{B8}",
       "\U{F0}\U{178}\U{2018}\U{BE}8-bit heart power!\U{F0}\U{178}\U{2018}\U{BE}",
       "\U{E2}\U{AD}Insert coin for debugging!\U{E2}\U{AD}"],
      0.4, 0.88)
  ]

  const Catchphrases: seq<string> := [
     "Encrypting your heart with kawaii power! \U{E2}\U{153}\U{A7}\U{E2}\U{2014}(\U{E2}\U{B0}\U{E2}\U{2013}\U{BF}\U{E2}\U{B0})\U{E2}\U{2014}\U{153}\U{E2}\U{153}\U{A7}",
     "For love, justice, and secure code! (\U{EF}\U{BE}\U{2030}\U{E2}\U{2014}\U{2022}\U{E3}\U{192}\U{AE}\U{E2}\U{2014}\U{2022})\U{EF}\U{BE}\U{2030}*:\U{EF}\U{BD}\U{A5}\U{EF}\U{BE}\U{178}\U{E2}\U{153}\U{A7}",
     "Debug by moonlight, compile by daylight! \U{E2}\U{AD}",
     "Time for a magical security check! \U{E2}\U{2022}\U{B0}( ^o^)\U{E2}\U{2022}\U{AE}",
     "Let's transform this bug into a feature! \U{E2}\U{153}\U{A8}"
  ]

  /** `generate_unique_personality`: the scraped traits with four fixed quirks and five
    * catchphrases; a failed trait scrape is passed on. */
  function GenerateUniquePersonality(baseTraits: Result<seq<PersonalityTrait>>): (r: Result<PersonalityMix>)
    ensures baseTraits.Err? ==> r == Err(baseTraits.msg)
    ensures baseTraits.Ok? ==> r.Ok? && r.value.baseTraits == baseTraits.value
    ensures r.Ok? ==> |r.value.uniqueQuirks| == 4 && |r.value.catchphrases| == 5
    ensures r.Ok? ==> forall q :: q in r.value.uniqueQuirks ==>
      |q.triggerConditions| == 3 && |q.expressions| == 3 && 0.0 < q.frequency < q.uniquenessScore <= 1.0
  {
    match baseTraits
    case Err(msg) => Err(msg)
    case Ok(traits) =>
      Ok(PersonalityMix(traits, UniqueQuirks, "Cyber-Magical Security Princess",
                        "Tech-Savvy Magical Girl meets Cybersecurity Princess", Catchphrases))
  }
}
