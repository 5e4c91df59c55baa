/** src/games/input_system.rs: per-game key bindings and the key presses that perform an action,
  * plus the push-to-talk toggle. */
module GameInput {
  import opened Wrappers

  /** The keys the bindings use. */
  datatype Key = Layout(c: char) | Space | Shift | Control | Alt | Enter | Tab | Forward

  /** A binding; `holdDuration` is in milliseconds. */
  datatype KeyBinding = KeyBinding(game: string, action: string, key: Key, modifiers: seq<Key>,
                                   holdDuration: Option<nat>)

  /** What is sent on the input channel. */
  datatype GameInputEvent = KeyPress(key: Key) | KeyRelease(key: Key) | MouseMove(x: int, y: int)
                          | MouseClick | PushToTalk(active: bool)

  /** The text of a send on a channel whose receiver is gone. */
  const ChannelClosed: string := "channel closed"

  /** What the keyboard driver is told, in order; `Wait` is the hold between press and release. */
  datatype KeyEvent = Down(key: Key) | Up(key: Key) | Wait(ms: nat) | MoveTo(x: int, y: int)

  /** The map key of a binding. */
  function BindingKey(game: string, action: string): string {
    game + ":" + action
  }

  /** A binding without modifiers or hold. */
  function Bind(game: string, action: string, key: Key): KeyBinding {
    KeyBinding(game, action, key, [], None)
  }

  /** `add_overwatch_bindings`. */
  const OverwatchBindings: seq<KeyBinding> := [
    Bind("overwatch", "move_forward", Layout('w')),
    Bind("overwatch", "move_back", Layout('s')),
    Bind("overwatch", "move_left", Layout('a')),
    Bind("overwatch", "move_right", Layout('d')),
    Bind("overwatch", "jump", Space),
    Bind("overwatch", "crouch", Layout('c')),
    Bind("overwatch", "primary_fire", Layout('1')),
    Bind("overwatch", "secondary_fire", Layout('2')),
    Bind("overwatch", "ability_1", Layout('e')),
    Bind("overwatch", "ability_2", Layout('q')),
    Bind("overwatch", "ultimate", Layout('y')),
    Bind("overwatch", "melee", Layout('v')),
    Bind("overwatch", "voice_chat", Layout('v')),
    Bind("overwatch", "team_chat", Enter),
    Bind("overwatch", "quick_melee", Layout('v')),
    KeyBinding("overwatch", "emote_wheel", Layout('c'), [Control], None)
  ]

  /** `add_valorant_bindings`. */
  const ValorantBindings: seq<KeyBinding> := [
    Bind("valorant", "move_forward", Layout('w')),
    Bind("valorant", "move_back", Layout('s')),
    Bind("valorant", "move_left", Layout('a')),
    Bind("valorant", "move_right", Layout('d')),
    Bind("valorant", "jump", Space),
    Bind("valorant", "walk", Shift),
    Bind("valorant", "crouch", Control),
    Bind("valorant", "primary_weapon", Layout('1')),
    Bind("valorant", "secondary_weapon", Layout('2')),
    Bind("valorant", "ability_1", Layout('c')),
    Bind("valorant", "ability_2", Layout('q')),
    Bind("valorant", "signature_ability", Layout('e')),
    Bind("valorant", "ultimate", Layout('x')),
    Bind("valorant", "voice_chat", Layout('v')),
    Bind("valorant", "team_chat", Enter),
    Bind("valorant", "ping", Layout('z')),
    Bind("valorant", "radio_wheel", Layout('y'))
  ]

  /** `add_apex_bindings`. */
  const ApexBindings: seq<KeyBinding> := [
    Bind("apex", "move_forward", Layout('w')),
    Bind("apex", "move_back", Layout('s')),
    Bind("apex", "move_left", Layout('a')),
    Bind("apex", "move_right", Layout('d')),
    Bind("apex", "jump", Space),
    Bind("apex", "sprint", Shift),
    Bind("apex", "crouch", Control),
    KeyBinding("apex", "slide", Control, [], Some(300)),
    Bind("apex", "primary_weapon", Layout('1')),
    Bind("apex", "secondary_weapon", Layout('2')),
    Bind("apex", "tactical_ability", Layout('q')),
    Bind("apex", "ultimate_ability", Layout('z')),
    Bind("apex", "melee", Layout('v')),
    Bind("apex", "grenade", Layout('g')),
    Bind("apex", "interact", Layout('e')),
    Bind("apex", "reload", Layout('r')),
    Bind("apex", "inventory", Tab),
    Bind("apex", "map", Layout('m')),
    Bind("apex", "voice_chat", Layout('v')),
    Bind("apex", "ping", Layout('f')),
    KeyBinding("apex", "ping_wheel", Layout('f'), [Alt], None)
  ]

  /** `add_minecraft_bindings`. */
  const MinecraftBindings: seq<KeyBinding> := [
    Bind("minecraft", "move_forward", Layout('w')),
    Bind("minecraft", "move_back", Layout('s')),
    Bind("minecraft", "move_left", Layout('a')),
    Bind("minecraft", "move_right", Layout('d')),
    Bind("minecraft", "jump", Space),
    Bind("minecraft", "sneak", Shift),
    Bind("minecraft", "sprint", Control),
    Bind("minecraft", "attack", Layout('1')),
    Bind("minecraft", "use", Layout('2')),
    Bind("minecraft", "drop", Layout('q')),
    Bind("minecraft", "inventory", Layout('e')),
    Bind("minecraft", "hotbar_1", Layout('1')),
    Bind("minecraft", "hotbar_2", Layout('2')),
    Bind("minecraft", "hotbar_3", Layout('3')),
    Bind("minecraft", "hotbar_4", Layout('4')),
    Bind("minecraft", "hotbar_5", Layout('5')),
    Bind("minecraft", "hotbar_6", Layout('6')),
    Bind("minecraft", "hotbar_7", Layout('7')),
    Bind("minecraft", "hotbar_8", Layout('8')),
    Bind("minecraft", "hotbar_9", Layout('9')),
    Bind("minecraft", "chat", Layout('t')),
    Bind("minecraft", "command", Forward),
    Bind("minecraft", "advancements", Layout('l')),
    Bind("minecraft", "swap_hands", Layout('f'))
  ]

  /** `init_key_bindings`: the four games' bindings, added in this order. */
  function DefaultBindings(): seq<KeyBinding> {
    OverwatchBindings + ValorantBindings + ApexBindings + MinecraftBindings
  }

  /** The map left by adding `bindings` one after another with `add_key_binding`: a later
    * binding with the same key replaces an earlier one. */
  function BindingsMap(bindings: seq<KeyBinding>): map<string, KeyBinding>
    decreases |bindings|
  {
    if bindings == [] then map[]
    else
      var last := bindings[|bindings| - 1];
      BindingsMap(bindings[..|bindings| - 1])[BindingKey(last.game, last.action) := last]
  }

  /** Every binding added is bound under its key, to it or to a later one with the same key. */
  lemma {:induction false} BindingsMapHas(bindings: seq<KeyBinding>, j: nat)
    requires j < |bindings|
    ensures BindingKey(bindings[j].game, bindings[j].action) in BindingsMap(bindings)
    decreases |bindings|
  {
    if j < |bindings| - 1 {
      BindingsMapHas(bindings[..|bindings| - 1], j);
    }
  }

  /** Every stored binding is one of the bindings added, under its own key. */
  lemma {:induction false} BindingsMapValues(bindings: seq<KeyBinding>, k: string)
    requires k in BindingsMap(bindings)
    ensures BindingsMap(bindings)[k] in bindings
    ensures BindingKey(BindingsMap(bindings)[k].game, BindingsMap(bindings)[k].action) == k
    decreases |bindings|
  {
    if bindings != [] {
      var init := bindings[..|bindings| - 1];
      var last := bindings[|bindings| - 1];
      if k != BindingKey(last.game, last.action) {
        BindingsMapValues(init, k);
        assert BindingsMap(init)[k] in init;
      }
    }
  }

  /** No Overwatch binding holds its key. */
  lemma OverwatchNoHold()
    ensures forall i :: 0 <= i < |OverwatchBindings| ==> OverwatchBindings[i].holdDuration == None
  {
  }

  /** No Valorant binding holds its key. */
  lemma ValorantNoHold()
    ensures forall i :: 0 <= i < |ValorantBindings| ==> ValorantBindings[i].holdDuration == None
  {
  }

  /** No Minecraft binding holds its key. */
  lemma MinecraftNoHold()
    ensures forall i :: 0 <= i < |MinecraftBindings| ==> MinecraftBindings[i].holdDuration == None
  {
  }

  /** Of Apex's bindings only the slide, the eighth, holds its key, for 300 ms. */
  lemma ApexOnlySlideHolds()
    ensures ApexBindings[7] == KeyBinding("apex", "slide", Control, [], Some(300))
    ensures forall i :: 0 <= i < |ApexBindings| && i != 7 ==> ApexBindings[i].holdDuration == None
  {
  }

  /** Among all default bindings only Apex's slide holds its key, for 300 ms. */
  lemma OnlySlideHolds(b: KeyBinding)
    requires b in DefaultBindings() && b.holdDuration.Some?
    ensures b.game == "apex" && b.action == "slide" && b.holdDuration == Some(300)
  {
    OverwatchNoHold();
    ValorantNoHold();
    MinecraftNoHold();
    ApexOnlySlideHolds();
    assert b in OverwatchBindings || b in ValorantBindings || b in ApexBindings || b in MinecraftBindings;
  }

  /** The key events of `perform_action` for one binding: modifiers down in order, the key down,
    * the hold, the key up, modifiers up in reverse order. */
  function PressSequence(b: KeyBinding): seq<KeyEvent> {
    Downs(b.modifiers) + [Down(b.key)] + (if b.holdDuration.Some? then [Wait(b.holdDuration.value)] else [])
    + [Up(b.key)] + Ups(Reverse(b.modifiers))
  }

  function Downs(keys: seq<Key>): (r: seq<KeyEvent>)
    ensures |r| == |keys| && forall i :: 0 <= i < |keys| ==> r[i] == Down(keys[i])
  {
    seq(|keys|, i requires 0 <= i < |keys| => Down(keys[i]))
  }

  function Ups(keys: seq<Key>): (r: seq<KeyEvent>)
    ensures |r| == |keys| && forall i :: 0 <= i < |keys| ==> r[i] == Up(keys[i])
  {
    seq(|keys|, i requires 0 <= i < |keys| => Up(keys[i]))
  }

  function Reverse<T>(s: seq<T>): (r: seq<T>)
    ensures |r| == |s| && forall i :: 0 <= i < |s| ==> r[i] == s[|s| - 1 - i]
  {
    seq(|s|, i requires 0 <= i < |s| => s[|s| - 1 - i])
  }

  /** The press sequence is well nested: the i-th key pressed is the i-th from last released,
    * so every key pressed is released, in the mirror order. */
  lemma PressSequenceNested(b: KeyBinding)
    ensures var p := PressSequence(b);
            var n := |b.modifiers|;
            var h := if b.holdDuration.Some? then 1 else 0;
            |p| == 2 * n + 2 + h
            && (forall i :: 0 <= i < n ==> p[i] == Down(b.modifiers[i]) && p[|p| - 1 - i] == Up(b.modifiers[i]))
            && p[n] == Down(b.key) && p[|p| - 1 - n] == Up(b.key)
  {
    var p := PressSequence(b);
    var n := |b.modifiers|;
    var hold := if b.holdDuration.Some? then [Wait(b.holdDuration.value)] else [];
    var front := Downs(b.modifiers) + [Down(b.key)] + hold + [Up(b.key)];
    assert p == front + Ups(Reverse(b.modifiers));
    forall i | 0 <= i < n ensures p[|p| - 1 - i] == Up(b.modifiers[i]) {
      assert p[|p| - 1 - i] == Ups(Reverse(b.modifiers))[n - 1 - i];
    }
  }

  /** The loop of `init_default_bindings`: each binding is added in turn, starting from an
    * empty map. */
  method AddBindings(bindings: seq<KeyBinding>) returns (m: map<string, KeyBinding>)
    ensures m == BindingsMap(bindings)
  {
    m := map[];
    var i := 0;
    while i < |bindings|
      invariant 0 <= i <= |bindings|
      invariant m == BindingsMap(bindings[..i])
    {
      var b := bindings[i];
      assert bindings[..i + 1][..i] == bindings[..i];
      m := m[BindingKey(b.game, b.action) := b];
      i := i + 1;
    }
    assert bindings[..i] == bindings;
  }

  class GameInputSystem {
    var keyBindings: map<string, KeyBinding>
    var currentGame: string
    var pushToTalkKey: Key
    var isPushToTalkActive: bool
    /** Everything told to the keyboard and mouse driver, in order. */
    var keyLog: seq<KeyEvent>
    /** Everything sent on the input channel, in order. */
    var sent: seq<GameInputEvent>

    /** `new`: the default bindings, push-to-talk on Alt and off. */
    constructor ()
      ensures keyBindings == BindingsMap(DefaultBindings())
      ensures currentGame == "" && pushToTalkKey == Alt && !isPushToTalkActive
      ensures keyLog == [] && sent == []
    {
      var m := AddBindings(DefaultBindings());
      keyBindings := m;
      currentGame := "";
      pushToTalkKey := Alt;
      isPushToTalkActive := false;
      keyLog := [];
      sent := [];
    }

    /** `add_key_binding`: stored under "game:action", replacing any binding already there. */
    method AddKeyBinding(game: string, action: string, key: Key, modifiers: seq<Key>, holdDuration: Option<nat>)
      modifies this`keyBindings
      ensures keyBindings == old(keyBindings)[BindingKey(game, action) := KeyBinding(game, action, key, modifiers, holdDuration)]
    {
      keyBindings := keyBindings[BindingKey(game, action) := KeyBinding(game, action, key, modifiers, holdDuration)];
    }

    /** Presses `keys` in order. */
    method PressAll(keys: seq<Key>)
      modifies this`keyLog
      ensures keyLog == old(keyLog) + Downs(keys)
    {
      var i := 0;
      while i < |keys|
        invariant 0 <= i <= |keys|
        invariant keyLog == old(keyLog) + Downs(keys[..i])
      {
        keyLog := keyLog + [Down(keys[i])];
        i := i + 1;
      }
      assert keys[..i] == keys;
    }

    /** Releases `keys` from last to first. */
    method ReleaseAllReversed(keys: seq<Key>)
      modifies this`keyLog
      ensures keyLog == old(keyLog) + Ups(Reverse(keys))
    {
      var j := |keys|;
      while j > 0
        invariant 0 <= j <= |keys|
        invariant keyLog == old(keyLog) + Ups(Reverse(keys)[..|keys| - j])
      {
        ghost var done := |keys| - j;
        j := j - 1;
        keyLog := keyLog + [Up(keys[j])];
        assert Ups(Reverse(keys)[..done + 1]) == Ups(Reverse(keys)[..done]) + [Up(keys[j])];
      }
      assert Reverse(keys)[..|keys|] == Reverse(keys);
    }

    /** `perform_action`: an unbound action does nothing; a bound one plays its press sequence
      * and sends one key press, the send failing on a closed input channel (`inputOpen` false)
      * after the keys were played. */
    method PerformAction(game: string, action: string, inputOpen: bool) returns (r: Result<()>)
      modifies this`keyLog, this`sent
      ensures BindingKey(game, action) !in keyBindings ==> r == Ok(()) && keyLog == old(keyLog) && sent == old(sent)
      ensures BindingKey(game, action) in keyBindings ==>
                var b := keyBindings[BindingKey(game, action)];
                keyLog == old(keyLog) + PressSequence(b)
      ensures BindingKey(game, action) in keyBindings && inputOpen ==>
                r == Ok(()) && sent == old(sent) + [KeyPress(keyBindings[BindingKey(game, action)].key)]
      ensures BindingKey(game, action) in keyBindings && !inputOpen ==> r == Err(ChannelClosed) && sent == old(sent)
    {
      var k := BindingKey(game, action);
      if k in keyBindings {
        var b := keyBindings[k];
        PressAll(b.modifiers);
        ghost var downs := keyLog;
        keyLog := keyLog + [Down(b.key)];
        if b.holdDuration.Some? {
          keyLog := keyLog + [Wait(b.holdDuration.value)];
        }
        keyLog := keyLog + [Up(b.key)];
        ghost var hold := if b.holdDuration.Some? then [Wait(b.holdDuration.value)] else [];
        ghost var pressed := keyLog;
        assert pressed == downs + [Down(b.key)] + hold + [Up(b.key)];
        ReleaseAllReversed(b.modifiers);
        assert keyLog == old(keyLog) + PressSequence(b);
        r := Send(KeyPress(b.key), inputOpen);
      } else {
        r := Ok(());
      }
    }

    /** `toggle_push_to_talk`: flip the flag, hold the key while active, and send the new state;
      * on a closed input channel the send fails after the flag and the key have changed. */
    method TogglePushToTalk(inputOpen: bool) returns (r: Result<()>)
      modifies this`isPushToTalkActive, this`keyLog, this`sent
      ensures isPushToTalkActive == !old(isPushToTalkActive)
      ensures keyLog == old(keyLog) + [if isPushToTalkActive then Down(pushToTalkKey) else Up(pushToTalkKey)]
      ensures inputOpen ==> r == Ok(()) && sent == old(sent) + [PushToTalk(isPushToTalkActive)]
      ensures !inputOpen ==> r == Err(ChannelClosed) && sent == old(sent)
    {
      isPushToTalkActive := !isPushToTalkActive;
      if isPushToTalkActive {
        keyLog := keyLog + [Down(pushToTalkKey)];
      } else {
        keyLog := keyLog + [Up(pushToTalkKey)];
      }
      r := Send(PushToTalk(isPushToTalkActive), inputOpen);
    }

    /** `move_mouse`: the cursor moves, then the move is sent, which fails on a closed input
      * channel with the cursor already moved. */
    method MoveMouse(x: int, y: int, inputOpen: bool) returns (r: Result<()>)
      modifies this`keyLog, this`sent
      ensures keyLog == old(keyLog) + [MoveTo(x, y)]
      ensures inputOpen ==> r == Ok(()) && sent == old(sent) + [MouseMove(x, y)]
      ensures !inputOpen ==> r == Err(ChannelClosed) && sent == old(sent)
    {
      keyLog := keyLog + [MoveTo(x, y)];
      r := Send(MouseMove(x, y), inputOpen);
    }

    /** `input_tx.send(..).await?`: the event is delivered when the channel is open; on a closed
      * channel the send fails and nothing is delivered. */
    method Send(event: GameInputEvent, inputOpen: bool) returns (r: Result<()>)
      modifies this`sent
      ensures inputOpen ==> r == Ok(()) && sent == old(sent) + [event]
      ensures !inputOpen ==> r == Err(ChannelClosed) && sent == old(sent)
    {
      if !inputOpen {
        return Err(ChannelClosed);
      }
      sent := sent + [event];
      r := Ok(());
    }

    /** `set_current_game`. */
    method SetCurrentGame(game: string)
      modifies this`currentGame
      ensures currentGame == game
    {
      currentGame := game;
    }
  }

  /** Two toggles restore push-to-talk, having pressed and then released Alt. */
  method ToggleTwice() returns (active: bool, log: seq<KeyEvent>, sent: seq<GameInputEvent>)
    ensures !active && log == [Down(Alt), Up(Alt)] && sent == [PushToTalk(true), PushToTalk(false)]
  {
    var s := new GameInputSystem();
    var _ := s.TogglePushToTalk(true);
    var _ := s.TogglePushToTalk(true);
    active := s.isPushToTalkActive;
    log := s.keyLog;
    sent := s.sent;
  }

  /** A new binding with a modifier presses Control, then the key, and releases them in reverse
    * order; one key press is sent. */
  method RebindScenario() returns (log: seq<KeyEvent>, sent: seq<GameInputEvent>)
    ensures log == [Down(Control), Down(Layout('k')), Up(Layout('k')), Up(Control)]
    ensures sent == [KeyPress(Layout('k'))]
  {
    var s := new GameInputSystem();
    s.AddKeyBinding("custom", "kick", Layout('k'), [Control], None);
    var _ := s.PerformAction("custom", "kick", true);
    log := s.keyLog;
    sent := s.sent;
  }
}
