/** src/reactions/manager.rs: viewer-triggered reactions with per-trigger cooldowns, and
  * engagement phrases at most once every five minutes. Times are milliseconds on an injected
  * clock. */
module Reactions {
  import opened Wrappers

  /** A reaction; `cooldown` is in milliseconds. */
  datatype Reaction = Reaction(trigger: string, audioFile: Option<string>, animationName: Option<string>,
                               cooldown: nat)

  /** `init_reactions`: only the head pat, keyed without its "!". */
  function InitialReactions(): map<string, Reaction> {
    map["headpat" := Reaction("!headpat", Some("sounds/happy_giggle.wav"), Some("blush"), 30000)]
  }

  const HydratePhrase: string := "Remember to stay hydrated, Kawaii Hackers! ðŸ’¦"
  const AmazingPhrase: string := "You're all amazing! Thanks for hanging out! âœ¨"
  const StretchPhrase: string := "Don't forget to stretch! Healthy hackers are happy hackers! ðŸŒŸ"

  /** `init_engagement_phrases`. */
  const EngagementPhrases: seq<string> := [HydratePhrase, AmazingPhrase, StretchPhrase]

  /** Five minutes between engagement phrases. */
  const EngagementGap: nat := 300000

  /** `Instant::duration_since`, which saturates at zero. */
  function Elapsed(since: nat, now: nat): (d: nat)
    ensures now >= since ==> d + since == now
    ensures now < since ==> d == 0
  {
    if now >= since then now - since else 0
  }

  /** Whether a time recorded at `last` is still within `window` of `now`. */
  predicate Within(last: nat, window: nat, now: nat) {
    Elapsed(last, now) < window
  }

  /** For a clock that does not run backwards, "within" means "less than `window` later". */
  lemma WithinMeaning(last: nat, window: nat, now: nat)
    requires last <= now
    ensures Within(last, window, now) <==> now < last + window
  {
  }

  class ReactionManager {
    var reactions: map<string, Reaction>
    var lastUsed: map<string, nat>
    var engagementPhrases: seq<string>
    var lastEngagement: nat

    /** `new` at the injected time `now`, which starts the engagement gap. */
    constructor (now: nat)
      ensures reactions == InitialReactions() && lastUsed == map[]
      ensures engagementPhrases == EngagementPhrases && lastEngagement == now
    {
      reactions := InitialReactions();
      lastUsed := map[];
      engagementPhrases := EngagementPhrases;
      lastEngagement := now;
    }

    /** `try_reaction` at `now`: an unknown trigger or one still cooling down gives None and
      * changes nothing; otherwise the time is recorded and the reaction returned. */
    method TryReaction(trigger: string, now: nat) returns (r: Option<Reaction>)
      modifies this`lastUsed
      ensures trigger !in reactions ==> r == None && lastUsed == old(lastUsed)
      ensures trigger in reactions && trigger in old(lastUsed)
              && Within(old(lastUsed)[trigger], reactions[trigger].cooldown, now) ==>
                r == None && lastUsed == old(lastUsed)
      ensures trigger in reactions && !(trigger in old(lastUsed)
              && Within(old(lastUsed)[trigger], reactions[trigger].cooldown, now)) ==>
                r == Some(reactions[trigger]) && lastUsed == old(lastUsed)[trigger := now]
    {
      if trigger !in reactions {
        return None;
      }
      var reaction := reactions[trigger];
      if trigger in lastUsed && Elapsed(lastUsed[trigger], now) < reaction.cooldown {
        return None;
      }
      lastUsed := lastUsed[trigger := now];
      r := Some(reaction);
    }

    /** `get_random_engagement` at `now`: None within five minutes of the last phrase (or of
      * construction); otherwise a phrase picked by the injected random `choice`, and the gap
      * restarts. */
    method GetRandomEngagement(now: nat, choice: nat) returns (r: Option<string>)
      requires |engagementPhrases| > 0
      modifies this`lastEngagement
      ensures Within(old(lastEngagement), EngagementGap, now) ==> r == None && lastEngagement == old(lastEngagement)
      ensures !Within(old(lastEngagement), EngagementGap, now) ==>
                r == Some(engagementPhrases[choice % |engagementPhrases|]) && lastEngagement == now
    {
      if Elapsed(lastEngagement, now) < EngagementGap {
        return None;
      }
      lastEngagement := now;
      r := Some(engagementPhrases[choice % |engagementPhrases|]);
    }
  }

  /** "!headpat" is not a trigger; "headpat" fires, is refused 10 s later, and fires again after
    * its 30 s cooldown. */
  method HeadpatScenario() returns (bang: Option<Reaction>, first: Option<Reaction>, soon: Option<Reaction>,
                                    later: Option<Reaction>)
    ensures bang == None
    ensures first == Some(InitialReactions()["headpat"])
    ensures soon == None
    ensures later == first
  {
    var m := new ReactionManager(0);
    assert "!headpat" !in InitialReactions() by {
      assert "!headpat"[0] != "headpat"[0];
    }
    bang := m.TryReaction("!headpat", 0);
    first := m.TryReaction("headpat", 1000);
    soon := m.TryReaction("headpat", 11000);
    later := m.TryReaction("headpat", 31000);
  }

  /** No engagement phrase in the first five minutes; one right at five minutes; then none again
    * for another five. */
  method EngagementScenario(start: nat, choice: nat) returns (early: Option<string>, due: Option<string>,
                                                               after: Option<string>)
    ensures early == None
    ensures due.Some? && due.value in EngagementPhrases
    ensures after == None
  {
    var m := new ReactionManager(start);
    early := m.GetRandomEngagement(start + 299999, choice);
    due := m.GetRandomEngagement(start + 300000, choice);
    after := m.GetRandomEngagement(start + 300001, choice);
  }
}
