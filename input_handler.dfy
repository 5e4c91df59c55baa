/** src/game/input_handler.rs: chat commands that drive the game, each with a per-user cooldown
  * window. Times are milliseconds on an injected clock. */
module InputHandler {
  import opened Wrappers
  import opened Strings

  /** A game command: the button sequence, the time it takes, and its description. */
  datatype GameCommand = GameCommand(command: string, cooldown: nat, description: string)

  const JumpDescription: string := "Make Kamen-Sparkle jump! 🦘"
  const AttackDescription: string := "Execute an attack move! ⚔️"
  const SpecialDescription: string := "Unleash a special move! ✨"
  const CooldownMessage: string := "Command is on cooldown! Please wait a moment! (｡•́︿•̀｡)"
  const UnknownMessage: string := "Unknown command! Try !help for available commands! (◕‿◕✿)"

  /** `init_commands`. */
  function InitialCommands(): map<string, GameCommand> {
    map["jump" := GameCommand("B", 500, JumpDescription),
        "attack" := GameCommand("Y", 1000, AttackDescription),
        "special" := GameCommand("X+A", 5000, SpecialDescription)]
  }

  /** `init_rate_limits`: (max uses, window). Only the window is ever consulted. */
  function InitialRateLimits(): map<string, (nat, nat)> {
    map["jump" := (3, 5000), "attack" := (2, 3000), "special" := (1, 30000)]
  }

  /** The `last_used` key of a command and a user. */
  function Key(command: string, user: string): string {
    command + ":" + user
  }

  /** No command name contains ':'. */
  predicate NoColon(s: string) {
    forall i :: 0 <= i < |s| ==> s[i] != ':'
  }

  /** Keys of colon-free command names are unambiguous, so cooldowns of different commands or
    * different users never share an entry. */
  lemma KeyInjective(c1: string, u1: string, c2: string, u2: string)
    requires NoColon(c1) && NoColon(c2)
    requires Key(c1, u1) == Key(c2, u2)
    ensures c1 == c2 && u1 == u2
  {
    var k := Key(c1, u1);
    assert |c1| == |c2| by {
      assert k[|c1|] == ':' && k[|c2|] == ':';
    }
    assert c1 == k[..|c1|] == c2;
    assert u1 == k[|c1| + 1..] == u2;
  }

  /** `check_rate_limit` at time `now`: refused iff the user's last use of the command is less
    * than the command's window ago. */
  function Allowed(lastUsed: map<string, nat>, rateLimits: map<string, (nat, nat)>,
                   command: string, user: string, now: nat): (ok: bool)
    ensures !ok <==> Key(command, user) in lastUsed && command in rateLimits
                     && now < lastUsed[Key(command, user)] + rateLimits[command].1 && rateLimits[command].1 > 0
  {
    var k := Key(command, user);
    if k in lastUsed && command in rateLimits then
      var elapsed := if now >= lastUsed[k] then now - lastUsed[k] else 0;
      !(elapsed < rateLimits[command].1)
    else true
  }

  /** A command the user has never run successfully is always allowed. */
  lemma FirstUseAllowed(lastUsed: map<string, nat>, rateLimits: map<string, (nat, nat)>,
                        command: string, user: string, now: nat)
    requires Key(command, user) !in lastUsed
    ensures Allowed(lastUsed, rateLimits, command, user, now)
  {
  }

  /** Recording a use of one command by one user leaves every other pair's verdict as it was. */
  lemma OthersUnaffected(lastUsed: map<string, nat>, rateLimits: map<string, (nat, nat)>,
                         c: string, u: string, t: nat, c2: string, u2: string, now: nat)
    requires NoColon(c) && NoColon(c2) && (c, u) != (c2, u2)
    ensures Allowed(lastUsed[Key(c, u) := t], rateLimits, c2, u2, now)
            == Allowed(lastUsed, rateLimits, c2, u2, now)
  {
    if Key(c, u) == Key(c2, u2) {
      KeyInjective(c, u, c2, u2);
    }
  }

  /** The windows: a jump may repeat after 5 s, an attack after 3 s, a special after 30 s. */
  lemma Windows(lastUsed: map<string, nat>, user: string, t: nat, now: nat)
    requires lastUsed == map[Key("jump", user) := t, Key("attack", user) := t, Key("special", user) := t]
    ensures Allowed(lastUsed, InitialRateLimits(), "jump", user, now) <==> now >= t + 5000
    ensures Allowed(lastUsed, InitialRateLimits(), "attack", user, now) <==> now >= t + 3000
    ensures Allowed(lastUsed, InitialRateLimits(), "special", user, now) <==> now >= t + 30000
  {
  }

  class InputHandler {
    var commands: map<string, GameCommand>
    var lastUsed: map<string, nat>
    var rateLimits: map<string, (nat, nat)>

    /** `new`. */
    constructor ()
      ensures commands == InitialCommands() && lastUsed == map[] && rateLimits == InitialRateLimits()
    {
      commands := InitialCommands();
      lastUsed := map[];
      rateLimits := InitialRateLimits();
    }

    /** `handle_command` received at `now`. The command is lowercased; an unknown one or one on
      * cooldown is refused with nothing changed. Otherwise it runs, which takes its own cooldown
      * time, and the finishing time is recorded for this command and user. */
    method HandleCommand(command: string, user: string, now: nat) returns (r: Result<string>)
      modifies this`lastUsed
      ensures var c := Lower(command);
              (c !in commands ==> r == Err(UnknownMessage) && lastUsed == old(lastUsed))
              && (c in commands && !Allowed(old(lastUsed), rateLimits, c, user, now) ==>
                    r == Err(CooldownMessage) && lastUsed == old(lastUsed))
              && (c in commands && Allowed(old(lastUsed), rateLimits, c, user, now) ==>
                    r == Ok("Executed " + c + " command! " + commands[c].description)
                    && lastUsed == old(lastUsed)[Key(c, user) := now + commands[c].cooldown])
    {
      var c := Lower(command);
      if c !in commands {
        return Err(UnknownMessage);
      }
      var gameCommand := commands[c];
      if !Allowed(lastUsed, rateLimits, c, user, now) {
        return Err(CooldownMessage);
      }
      var finished := now + gameCommand.cooldown;
      lastUsed := lastUsed[Key(c, user) := finished];
      r := Ok("Executed " + c + " command! " + gameCommand.description);
    }
  }

  /** "JUMP" is the jump command; a second jump one second later is refused, another user's is
    * not, and the first user may jump again once the window has passed. */
  method JumpScenario() returns (first: Result<string>, again: Result<string>, other: Result<string>,
                                 later: Result<string>)
    ensures first == Ok("Executed jump command! " + JumpDescription)
    ensures again == Err(CooldownMessage)
    ensures other.Ok?
    ensures later.Ok?
  {
    var h := new InputHandler();
    assert Lower("JUMP") == "jump";
    assert Lower("jump") == "jump";
    first := h.HandleCommand("JUMP", "alice", 0);
    assert "Executed " + "jump" + " command! " + JumpDescription == "Executed jump command! " + JumpDescription;
    again := h.HandleCommand("jump", "alice", 1000);
    assert Key("jump", "bob") != Key("jump", "alice") by {
      assert Key("jump", "bob")[5] != Key("jump", "alice")[5];
    }
    other := h.HandleCommand("jump", "bob", 1000);
    later := h.HandleCommand("jump", "alice", 5500);
  }
}
