/** src/safety/tos_compliance.rs: the ordered chain of substring rules that spots requests
  * against the streaming platform's terms, and the friendly reply chosen for each. */
module TosCompliance {
  import opened Wrappers
  import opened Strings

  datatype ViolationType = SelfPromotion | PersonalInfo | Harassment | NSFW | Spoilers
                         | UnsolicitedAdvice | BackseatingGaming

  datatype Severity = Low | Medium | High

  /** `init_triggers`; the source never consults this set. */
  const TosTriggers: set<string> := {"show face", "real age", "real name", "where live", "personal info",
                                     "check my channel", "watch my stream", "follow me"}

  const PromoReply1: string :=
    "Aww, sorry bestie! Self-promotion isn't allowed here! Let's keep the chat fun for everyone! (｡•́︿•̀｡)"
  const PromoReply2: string :=
    "Oopsie! We can't do self-promo here! It's against TOS! Let's chat about something else! ✨"
  const PersonalReply1: string :=
    "Hehe, nice try! But I have to keep some mysteries! It's for everyone's safety! (◕‿◕✿)"
  const PersonalReply2: string :=
    "Sorry! Can't share personal info - Twitch rules! Let's talk about games instead! 🎮"
  const BackseatReply1: string := "Let me figure this out myself! No backseat gaming please! (｡♥‿♥｡)"
  const BackseatReply2: string :=
    "I appreciate the help, but let's avoid backseat gaming! Part of the fun is learning! ✨"
  const NsfwReply1: string := "Yikes! Let's keep it family friendly here! (｡•́︿•̀｡)"
  const NsfwReply2: string := "This is a kawaii stream! We keep things PG! 🌸"

  /** `init_responses`: the canned replies per violation type. */
  function FriendlyResponses(v: ViolationType): seq<string> {
    match v
    case SelfPromotion => [PromoReply1, PromoReply2]
    case PersonalInfo => [PersonalReply1, PersonalReply2]
    case BackseatingGaming => [BackseatReply1, BackseatReply2]
    case NSFW => [NsfwReply1, NsfwReply2]
    case _ => []
  }

  const FallbackResponse: string := "Sorry! Can't do that - it's against TOS! Let's keep things fun and safe! ✨"

  /** The self-promotion rule: "follow" together with "my" or "me". */
  predicate PromoRule(message: string) {
    Contains(message, "follow") && (Contains(message, "my") || Contains(message, "me"))
  }

  /** The personal-information rule: "face", "real name" or "where". */
  predicate PersonalRule(message: string) {
    Contains(message, "face") || Contains(message, "real name") || Contains(message, "where")
  }

  /** The backseating rule: "you should" together with "play" or "do". */
  predicate BackseatRule(message: string) {
    Contains(message, "you should") && (Contains(message, "play") || Contains(message, "do"))
  }

  /** `detect_violation` on an already lowercased message: the first rule that fires. Each
    * verdict holds exactly when its own rule fires and no earlier rule does. */
  function DetectViolation(message: string): (r: Option<ViolationType>)
    ensures r == Some(SelfPromotion) <==> PromoRule(message)
    ensures r == Some(PersonalInfo) <==> !PromoRule(message) && PersonalRule(message)
    ensures r == Some(BackseatingGaming) <==> !PromoRule(message) && !PersonalRule(message) && BackseatRule(message)
    ensures r == None <==> !PromoRule(message) && !PersonalRule(message) && !BackseatRule(message)
  {
    if Contains(message, "follow") && (Contains(message, "my") || Contains(message, "me")) then Some(SelfPromotion)
    else if Contains(message, "face") || Contains(message, "real name") || Contains(message, "where") then
      Some(PersonalInfo)
    else if Contains(message, "you should") && (Contains(message, "play") || Contains(message, "do")) then
      Some(BackseatingGaming)
    else None
  }

  /** Harassment, NSFW, Spoilers and UnsolicitedAdvice are never detected. */
  lemma OnlyThreeVerdicts(message: string)
    ensures DetectViolation(message) in {None, Some(SelfPromotion), Some(PersonalInfo), Some(BackseatingGaming)}
  {
  }

  /** `get_friendly_response`: one of the type's replies, picked by the injected random `choice`,
    * or the fallback when the type has none. */
  function FriendlyResponse(v: ViolationType, choice: nat): (r: string)
    ensures |FriendlyResponses(v)| > 0 ==> r in FriendlyResponses(v)
    ensures |FriendlyResponses(v)| == 0 ==> r == FallbackResponse
  {
    var responses := FriendlyResponses(v);
    if |responses| > 0 then responses[choice % |responses|] else FallbackResponse
  }

  /** Every type that can be detected has two replies of its own. */
  lemma DetectedHaveReplies(v: ViolationType)
    requires v in {SelfPromotion, PersonalInfo, BackseatingGaming}
    ensures |FriendlyResponses(v)| == 2
  {
  }

  /** `check_message`: a reply iff the lowercased message breaks a rule, and then one of that
    * rule's own replies. */
  function CheckMessage(message: string, choice: nat): (r: Option<string>)
    ensures r.Some? <==> DetectViolation(Lower(message)).Some?
    ensures r.Some? ==> r.value in FriendlyResponses(DetectViolation(Lower(message)).value)
  {
    var d := DetectViolation(Lower(message));
    if d.Some? then
      OnlyThreeVerdicts(Lower(message));
      DetectedHaveReplies(d.value);
      Some(FriendlyResponse(d.value, choice))
    else None
  }

  /** Detection ignores case: two messages with the same lowercase form get the same verdict. */
  lemma CaseInsensitive(a: string, b: string, choice: nat)
    requires Lower(a) == Lower(b)
    ensures CheckMessage(a, choice) == CheckMessage(b, choice)
  {
  }

  /** Matching is by substring: "follow the meta" counts as self-promotion ("me" in "meta"). */
  lemma SubstringExample()
    ensures DetectViolation("follow the meta") == Some(SelfPromotion)
  {
    FollowTheMeta();
  }

  /** "follow" starts "follow the meta" and "me" starts its last word. */
  lemma FollowTheMeta()
    ensures Contains("follow the meta", "follow") && Contains("follow the meta", "me")
  {
    var s := "follow the meta";
    assert s[0..6] == "follow";
    ContainsAt(s, "follow", 0);
    assert s[11..13] == "me";
    ContainsAt(s, "me", 11);
  }
}
