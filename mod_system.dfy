/** src/safety/mod_system.rs: escalation from warnings to timeouts to bans, with an action
  * history and a broadcast channel for moderators. */
module ModSystem {
  import opened Wrappers

  datatype ModActionType = Delete | Timeout | Ban | Warning | ModCall

  /** A moderation action; `duration` is in minutes and `timestamp` is the injected clock. */
  datatype ModAction = ModAction(actionType: ModActionType, user: string, reason: string,
                                 duration: Option<nat>, timestamp: nat, modName: string)

  const BotName: string := "Kamen-Sparkle"

  /** The escalation rule of `handle_violation`. */
  function ActionFor(severity: nat, warnings: nat): (a: ModActionType)
    ensures a in {Ban, Timeout, Warning}
  {
    if severity >= 8 then Ban
    else if severity >= 5 || warnings >= 3 then Timeout
    else Warning
  }

  /** Ban exactly at severity 8 or more; a warning exactly when both severity and warnings are low. */
  lemma ActionForCases(severity: nat, warnings: nat)
    ensures ActionFor(severity, warnings) == Ban <==> severity >= 8
    ensures ActionFor(severity, warnings) == Warning <==> severity < 5 && warnings < 3
    ensures ActionFor(severity, warnings) == Timeout <==> 5 <= severity < 8 || (severity < 8 && warnings >= 3)
  {
  }

  /** A user already at three warnings is never warned again, only timed out or banned. */
  lemma NoFourthWarning(severity: nat, warnings: nat)
    requires warnings >= 3
    ensures ActionFor(severity, warnings) != Warning
  {
  }

  /** The timeout length: ten minutes for a timeout, none otherwise. */
  function DurationFor(a: ModActionType): (d: Option<nat>)
    ensures d.Some? <==> a == Timeout
    ensures d.Some? ==> d.value == 10
  {
    if a == Timeout then Some(10) else None
  }

  class ModSystem {
    var moderators: set<string>
    var actionHistory: seq<ModAction>
    var warningCounts: map<string, nat>
    var bannedUsers: set<string>
    /** Everything sent on the broadcast channel, in order. */
    var broadcasts: seq<ModAction>

    /** Warning counts only come from `handle_violation`, which never warns past three. */
    predicate Valid()
      reads this
    {
      forall u :: u in warningCounts ==> warningCounts[u] <= 3
    }

    /** `get_warning_count`: zero for a user never warned. */
    function GetWarningCount(user: string): (n: nat)
      reads this
      ensures user !in warningCounts ==> n == 0
      ensures Valid() ==> n <= 3
    {
      if user in warningCounts then warningCounts[user] else 0
    }

    /** `new`: everything empty. */
    constructor ()
      ensures Valid()
      ensures moderators == {} && actionHistory == [] && warningCounts == map[] && bannedUsers == {}
      ensures broadcasts == []
    {
      moderators := {};
      actionHistory := [];
      warningCounts := map[];
      bannedUsers := {};
      broadcasts := [];
    }

    /** `add_moderator`. */
    method AddModerator(username: string)
      modifies this`moderators
      ensures moderators == old(moderators) + {username}
    {
      moderators := moderators + {username};
    }

    /** `handle_violation`: choose the action from severity and prior warnings, then execute it. */
    method HandleViolation(user: string, violationType: string, severity: nat, now: nat) returns (r: Result<()>)
      requires Valid()
      modifies this
      ensures Valid()
      ensures r == Ok(())
      ensures var a := ActionFor(severity, old(GetWarningCount(user)));
              actionHistory == old(actionHistory) + [ModAction(a, user, violationType, DurationFor(a), now, BotName)]
              && broadcasts == old(broadcasts) + [actionHistory[|actionHistory| - 1]]
              && warningCounts == (if a == Warning then old(warningCounts)[user := old(GetWarningCount(user)) + 1]
                                   else old(warningCounts))
              && bannedUsers == (if a == Ban then old(bannedUsers) + {user} else old(bannedUsers))
      ensures moderators == old(moderators)
    {
      var a := ActionFor(severity, GetWarningCount(user));
      r := ExecuteModAction(a, user, violationType, now);
    }

    /** `execute_mod_action`: a warning counts, a ban bans, and every action is recorded and sent. */
    method ExecuteModAction(actionType: ModActionType, user: string, reason: string, now: nat)
      returns (r: Result<()>)
      modifies this`warningCounts, this`bannedUsers, this`actionHistory, this`broadcasts
      ensures r == Ok(())
      ensures var act := ModAction(actionType, user, reason, DurationFor(actionType), now, BotName);
              actionHistory == old(actionHistory) + [act] && broadcasts == old(broadcasts) + [act]
      ensures warningCounts == (if actionType == Warning then old(warningCounts)[user := old(GetWarningCount(user)) + 1]
                                else old(warningCounts))
      ensures bannedUsers == (if actionType == Ban then old(bannedUsers) + {user} else old(bannedUsers))
    {
      var action := ModAction(actionType, user, reason, DurationFor(actionType), now, BotName);
      if actionType == Warning {
        var prior := if user in warningCounts then warningCounts[user] else 0;
        warningCounts := warningCounts[user := prior + 1];
      } else if actionType == Ban {
        bannedUsers := bannedUsers + {user};
      }
      actionHistory := actionHistory + [action];
      broadcasts := broadcasts + [action];
      r := Ok(());
    }

    /** `call_mods`: broadcast a mod call from "System"; the history is not touched. */
    method CallMods(reason: string, now: nat) returns (r: Result<()>)
      modifies this`broadcasts
      ensures r == Ok(())
      ensures broadcasts == old(broadcasts) + [ModAction(ModCall, "System", reason, None, now, BotName)]
    {
      broadcasts := broadcasts + [ModAction(ModCall, "System", reason, None, now, BotName)];
      r := Ok(());
    }

    /** `is_banned`. */
    function IsBanned(user: string): (b: bool)
      reads this
      ensures b <==> user in bannedUsers
    {
      user in bannedUsers
    }

    /** `is_moderator`. */
    function IsModerator(user: string): (b: bool)
      reads this
      ensures b <==> user in moderators
    {
      user in moderators
    }
  }

  /** A first violation of severity 8 bans the user outright. */
  method SevereFirstViolationBans(user: string, now: nat) returns (banned: bool, warnings: nat)
    ensures banned && warnings == 0
  {
    var m := new ModSystem();
    var _ := m.HandleViolation(user, "spam", 8, now);
    banned := m.IsBanned(user);
    warnings := m.GetWarningCount(user);
  }

  /** Three mild violations give three warnings; the fourth is a timeout and the count stays 3. */
  method MildViolationsEscalate(user: string, now: nat) returns (last: ModActionType, warnings: nat)
    ensures last == Timeout && warnings == 3
  {
    var m := new ModSystem();
    var _ := m.HandleViolation(user, "spam", 1, now);
    var _ := m.HandleViolation(user, "spam", 1, now);
    var _ := m.HandleViolation(user, "spam", 1, now);
    var _ := m.HandleViolation(user, "spam", 1, now);
    last := m.actionHistory[|m.actionHistory| - 1].actionType;
    warnings := m.GetWarningCount(user);
  }
}
