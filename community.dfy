/** sparkle/src/community/manager.rs: greeting chat users and keeping a record of community
  * members. Times are an injected clock. */
module Community {
  /** A member; `isSubscriber` is recorded but nothing in this manager ever sets it. */
  datatype CommunityMember = CommunityMember(username: string, firstSeen: nat, lastSeen: nat,
                                             interactionCount: nat, favoriteTopics: seq<string>,
                                             isSubscriber: bool)

  const SubscriberPrefix: string := "Welcome back to the Kawaii Hackers, "
  const SubscriberSuffix: string := "! ðŸ’• It's always great to see our amazing subscribers! (ï¾‰â—•ãƒ®â—•)ï¾‰*:ï½¥ï¾Ÿâœ§"
  const ReturningPrefix: string := "Welcome back, "
  const ReturningSuffix: string := "! Ready for more cyber adventures? (â—•â€¿â—•âœ¿)"
  const NewcomerPrefix: string := "Welcome to the Kawaii Hackers, "
  const NewcomerSuffix: string := "! I'm Kamen-Sparkle! (ï½¡â™¥â€¿â™¥ï½¡)"

  function SubscriberGreeting(username: string): string {
    SubscriberPrefix + username + SubscriberSuffix
  }

  function ReturningGreeting(username: string): string {
    ReturningPrefix + username + ReturningSuffix
  }

  function NewcomerGreeting(username: string): string {
    NewcomerPrefix + username + NewcomerSuffix
  }

  /** The three greetings of one user are told apart by their opening words. */
  lemma GreetingsDistinct(username: string)
    ensures SubscriberGreeting(username) != ReturningGreeting(username)
    ensures ReturningGreeting(username) != NewcomerGreeting(username)
    ensures NewcomerGreeting(username) != SubscriberGreeting(username)
  {
    assert SubscriberGreeting(username)[12] != ReturningGreeting(username)[12];
    assert ReturningGreeting(username)[8] != NewcomerGreeting(username)[8];
    assert NewcomerGreeting(username)[8] != SubscriberGreeting(username)[8];
  }

  /** `add_new_member`'s record, first and last seen at `now`. */
  function NewMember(username: string, now: nat): (m: CommunityMember)
    ensures m.username == username && m.interactionCount == 1 && !m.isSubscriber
    ensures m.firstSeen == m.lastSeen == now && m.favoriteTopics == []
  {
    CommunityMember(username, now, now, 1, [], false)
  }

  class CommunityManager {
    var members: map<string, CommunityMember>
    var greetingCache: seq<string>

    /** Every member is filed under its own name, and none is a subscriber. */
    predicate Valid()
      reads this
    {
      forall u :: u in members ==> members[u].username == u && !members[u].isSubscriber
    }

    /** `new`: no members. */
    constructor ()
      ensures Valid() && members == map[] && greetingCache == []
    {
      members := map[];
      greetingCache := [];
    }

    /** `generate_greeting` at `now`: a subscriber or a returning member is greeted and nothing
      * changes; an unknown user is welcomed and added as a new member. Afterwards the user is a
      * member. */
    method GenerateGreeting(username: string, now: nat) returns (greeting: string)
      requires Valid()
      modifies this`members
      ensures Valid()
      ensures username in members
      ensures username in old(members) && old(members)[username].isSubscriber ==>
                greeting == SubscriberGreeting(username) && members == old(members)
      ensures username in old(members) && !old(members)[username].isSubscriber ==>
                greeting == ReturningGreeting(username) && members == old(members)
      ensures username !in old(members) ==>
                greeting == NewcomerGreeting(username) && members == old(members)[username := NewMember(username, now)]
    {
      if username in members {
        if members[username].isSubscriber {
          return SubscriberGreeting(username);
        }
        return ReturningGreeting(username);
      }
      greeting := NewcomerGreeting(username);
      AddNewMember(username, now);
    }

    /** `add_new_member` at `now`: a fresh record, replacing any existing one. */
    method AddNewMember(username: string, now: nat)
      requires Valid()
      modifies this`members
      ensures Valid()
      ensures members == old(members)[username := NewMember(username, now)]
    {
      members := members[username := NewMember(username, now)];
    }

    /** `update_member_activity` at `now`: a member's count goes up by one and its last-seen
      * time is `now`; an unknown user changes nothing. */
    method UpdateMemberActivity(username: string, now: nat)
      requires Valid()
      modifies this`members
      ensures Valid()
      ensures username !in old(members) ==> members == old(members)
      ensures username in old(members) ==>
                var m := old(members)[username];
                members == old(members)[username := m.(lastSeen := now, interactionCount := m.interactionCount + 1)]
    {
      if username in members {
        var m := members[username];
        members := members[username := m.(lastSeen := now, interactionCount := m.interactionCount + 1)];
      }
    }
  }

  /** A valid manager never gives the subscriber greeting. */
  method NeverSubscriberGreeting(c: CommunityManager, username: string, now: nat) returns (greeting: string)
    requires c.Valid()
    modifies c
    ensures username in old(c.members) ==> greeting == ReturningGreeting(username)
    ensures greeting != SubscriberGreeting(username)
  {
    greeting := c.GenerateGreeting(username, now);
    GreetingsDistinct(username);
  }

  /** A newcomer is welcomed once, then greeted as returning, with one interaction recorded by
    * the first greeting and one more by an activity update. */
  method GreetTwice(username: string) returns (first: string, second: string, count: nat)
    ensures first == NewcomerGreeting(username) && second == ReturningGreeting(username) && count == 2
  {
    var c := new CommunityManager();
    first := c.GenerateGreeting(username, 10);
    second := c.GenerateGreeting(username, 20);
    c.UpdateMemberActivity(username, 30);
    count := c.members[username].interactionCount;
  }
}
