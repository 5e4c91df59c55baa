/** src/game/state_manager.rs: the current score, unlocked achievements and the game events
  * broadcast to the overlay. */
module GameState {
  import opened Strings

  datatype GameEventType = LevelUp | Achievement | Death | HighScore | BossFight

  /** A broadcast event; the wall-clock timestamp is not modelled. */
  datatype GameEvent = GameEvent(eventType: GameEventType, data: string)

  const HighScoreSuffix: string := "! ✨"
  const DeathMessage: string := "Oops! Let's try again! (｡•́︿•̀｡)"
  const AchievementSuffix: string := "! 🏆"

  /** No name occurs twice. */
  predicate Distinct(names: seq<string>) {
    forall i, j :: 0 <= i < j < |names| ==> names[i] != names[j]
  }

  class GameStateManager {
    var currentScore: nat
    var highScores: map<string, nat>
    var achievements: seq<string>
    /** Everything sent on the event channel, in order. */
    var events: seq<GameEvent>

    predicate Valid()
      reads this
    {
      Distinct(achievements)
    }

    /** `new`: score 0, no high scores, no achievements. */
    constructor ()
      ensures Valid()
      ensures currentScore == 0 && highScores == map[] && achievements == [] && events == []
    {
      currentScore := 0;
      highScores := map[];
      achievements := [];
      events := [];
    }

    /** `is_high_score`: strictly above every stored high score. */
    predicate IsHighScore(score: nat)
      reads this
    {
      forall k :: k in highScores ==> score > highScores[k]
    }

    /** With no stored high scores every score counts as one. */
    lemma NoRecordsEverythingIsHigh(score: nat)
      requires highScores == map[]
      ensures IsHighScore(score)
    {
    }

    /** A score equal to a stored one is not a new high score. */
    lemma TieIsNotHigh(name: string)
      requires name in highScores
      ensures !IsHighScore(highScores[name])
    {
    }

    /** `update_score`: set the score, and announce it when it is a high score. */
    method UpdateScore(newScore: nat)
      modifies this`currentScore, this`events
      ensures currentScore == newScore
      ensures IsHighScore(newScore) ==>
                events == old(events) + [GameEvent(HighScore, "New high score: " + NatToString(newScore) + HighScoreSuffix)]
      ensures !IsHighScore(newScore) ==> events == old(events)
    {
      currentScore := newScore;
      if IsHighScore(newScore) {
        events := events + [GameEvent(HighScore, "New high score: " + NatToString(newScore) + HighScoreSuffix)];
      }
    }

    /** `handle_death`: announce the death and reset the score. */
    method HandleDeath()
      modifies this`currentScore, this`events
      ensures currentScore == 0
      ensures events == old(events) + [GameEvent(Death, DeathMessage)]
    {
      events := events + [GameEvent(Death, DeathMessage)];
      currentScore := 0;
    }

    /** `unlock_achievement`: a new name is appended and announced; a known one changes nothing. */
    method UnlockAchievement(achievement: string)
      requires Valid()
      modifies this`achievements, this`events
      ensures Valid()
      ensures achievement in old(achievements) ==> achievements == old(achievements) && events == old(events)
      ensures achievement !in old(achievements) ==>
                achievements == old(achievements) + [achievement]
                && events == old(events) + [GameEvent(Achievement, "Achievement unlocked: " + achievement + AchievementSuffix)]
    {
      if achievement !in achievements {
        achievements := achievements + [achievement];
        events := events + [GameEvent(Achievement, "Achievement unlocked: " + achievement + AchievementSuffix)];
      }
    }

    /** `get_current_score`. */
    function GetCurrentScore(): (s: nat)
      reads this
      ensures s == currentScore
    {
      currentScore
    }
  }

  /** Nothing writes the high-score table, so every score update is announced as a high score,
    * even a lower one; unlocking the same achievement twice records it once; a death resets the
    * score. */
  method ScenarioScoresAndAchievements(a: string) returns (events: seq<GameEvent>, achievements: seq<string>, score: nat)
    ensures |events| == 4
    ensures events[0].eventType == HighScore && events[1].eventType == HighScore
    ensures events[2].eventType == Achievement && events[3].eventType == Death
    ensures achievements == [a] && score == 0
  {
    var m := new GameStateManager();
    m.UpdateScore(100);
    m.UpdateScore(5);
    m.UnlockAchievement(a);
    m.UnlockAchievement(a);
    m.HandleDeath();
    events := m.events;
    achievements := m.achievements;
    score := m.GetCurrentScore();
  }
}
