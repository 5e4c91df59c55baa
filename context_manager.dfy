/** src/memory/context_manager.rs: what the assistant remembers of its chat users: every
  * interaction, each user's recent conversation, and a long-term profile. Times are an injected
  * clock. */
module ContextManager {
  import opened Strings

  datatype Interaction = Interaction(user: string, message: string, timestamp: nat)

  /** A long-term profile. `UserProfile::new` is not part of this model; a new profile is taken to
    * start with no interactions and no preferences. */
  datatype UserProfile = UserProfile(interactionCount: nat, lastSeen: nat, preferences: seq<string>)

  /** The longest conversation kept per user. */
  const ConversationLimit: nat := 10

  /** A conversation after one more message: the oldest one is dropped once there are more than
    * ten. A kept list stays within ten, ends with the new message, and is a suffix of the old
    * list followed by it. */
  function Extended(topics: seq<string>, message: string): (r: seq<string>)
    ensures |topics| <= ConversationLimit ==> |r| == if |topics| < ConversationLimit then |topics| + 1 else ConversationLimit
    ensures |r| > 0 && r[|r| - 1] == message
    ensures exists k :: 0 <= k <= |topics| + 1 && r == (topics + [message])[k..]
  {
    var pushed := topics + [message];
    if |pushed| > ConversationLimit then pushed[1..] else assert pushed[0..] == pushed; pushed
  }

  /** The profile after a message at `now`: one more interaction; the message is kept as a
    * preference exactly when it mentions "favorite". */
  function UpdatedProfile(p: UserProfile, message: string, now: nat): (q: UserProfile)
    ensures q.interactionCount == p.interactionCount + 1 && q.lastSeen == now
    ensures Contains(message, "favorite") ==> q.preferences == p.preferences + [message]
    ensures !Contains(message, "favorite") ==> q.preferences == p.preferences
  {
    UserProfile(p.interactionCount + 1, now,
                if Contains(message, "favorite") then p.preferences + [message] else p.preferences)
  }

  const NewProfile: UserProfile := UserProfile(0, 0, [])

  class ContextManager {
    var shortTermMemory: seq<Interaction>
    var longTermMemory: map<string, UserProfile>
    var conversationContext: map<string, seq<string>>
    var recentTopics: seq<string>

    /** No kept conversation is longer than ten messages. */
    predicate Valid()
      reads this
    {
      forall u :: u in conversationContext ==> |conversationContext[u]| <= ConversationLimit
    }

    constructor ()
      ensures Valid()
      ensures shortTermMemory == [] && longTermMemory == map[] && conversationContext == map[] && recentTopics == []
    {
      shortTermMemory := [];
      longTermMemory := map[];
      conversationContext := map[];
      recentTopics := [];
    }

    /** `remember_interaction` at `now`: the interaction is appended to the unbounded short-term
      * memory; a user who already has a conversation gets the message appended there (only
      * those users: none is ever created); the profile is created if missing and updated. */
    method RememberInteraction(user: string, message: string, now: nat)
      requires Valid()
      modifies this`shortTermMemory, this`conversationContext, this`longTermMemory
      ensures Valid()
      ensures shortTermMemory == old(shortTermMemory) + [Interaction(user, message, now)]
      ensures user in old(conversationContext) ==>
                conversationContext == old(conversationContext)[user := Extended(old(conversationContext)[user], message)]
      ensures user !in old(conversationContext) ==> conversationContext == old(conversationContext)
      ensures longTermMemory == old(longTermMemory)[user := UpdatedProfile(
                if user in old(longTermMemory) then old(longTermMemory)[user] else NewProfile, message, now)]
    {
      shortTermMemory := shortTermMemory + [Interaction(user, message, now)];
      if user in conversationContext {
        var topics := conversationContext[user] + [message];
        if |topics| > ConversationLimit {
          topics := topics[1..];
        }
        conversationContext := conversationContext[user := topics];
      }
      UpdateUserProfile(user, message, now);
    }

    /** `update_user_profile` at `now`. */
    method UpdateUserProfile(user: string, message: string, now: nat)
      modifies this`longTermMemory
      ensures longTermMemory == old(longTermMemory)[user := UpdatedProfile(
                if user in old(longTermMemory) then old(longTermMemory)[user] else NewProfile, message, now)]
    {
      var profile := if user in longTermMemory then longTermMemory[user] else NewProfile;
      profile := profile.(interactionCount := profile.interactionCount + 1, lastSeen := now);
      if Contains(message, "favorite") {
        profile := profile.(preferences := profile.preferences + [message]);
      }
      longTermMemory := longTermMemory[user := profile];
    }
  }

  /** Eleven messages to a full conversation keep only the last ten. */
  lemma ConversationSlides(topics: seq<string>, message: string)
    requires |topics| == ConversationLimit
    ensures Extended(topics, message) == topics[1..] + [message]
  {
  }

  /** "favorite" is too long to occur in "hello", and occurs in "my favorite anime". */
  lemma FavoriteMentioned()
    ensures !Contains("hello", "favorite") && Contains("my favorite anime", "favorite")
  {
    assert "my favorite anime"[3..11] == "favorite";
    ContainsAt("my favorite anime", "favorite", 3);
  }

  /** A first message creates a profile with one interaction but no conversation; a message
    * about a favourite is kept as a preference. */
  method FirstContact(user: string, now: nat) returns (count: nat, prefs: seq<string>, hasConversation: bool)
    ensures count == 2 && prefs == ["my favorite anime"] && !hasConversation
  {
    var c := new ContextManager();
    c.RememberInteraction(user, "hello", now);
    FavoriteMentioned();
    c.RememberInteraction(user, "my favorite anime", now);
    count := c.longTermMemory[user].interactionCount;
    prefs := c.longTermMemory[user].preferences;
    hasConversation := user in c.conversationContext;
  }
}
