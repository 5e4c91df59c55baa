/** src/tts/model.rs: the voice settings of the speech synthesiser. The three setters clamp pitch,
  * speaking rate and volume into the ranges the synthesis service accepts; the emotion and callout
  * helpers pick settings through those setters and then speak. The cloud client and the audio
  * sink are outside the model: a synthesis request is represented by its outcome, passed in, and
  * what was played is recorded in `played`. */
module TtsModel {
  import opened Wrappers

  /** `VoiceConfig`; the f32 fields are modelled as reals. */
  datatype VoiceConfig = VoiceConfig(languageCode: string, name: string, pitch: real,
                                     speakingRate: real, volumeGainDb: real)

  /** One synthesised utterance, with the settings it was spoken with. */
  datatype Utterance = Utterance(text: string, config: VoiceConfig)

  const MinPitch: real := -20.0
  const MaxPitch: real := 20.0
  const MinRate: real := 0.25
  const MaxRate: real := 4.0
  const MinVolume: real := -96.0
  const MaxVolume: real := 16.0

  /** The voice `new` configures. */
  const DefaultVoice: VoiceConfig := VoiceConfig("en-US", "en-US-Studio-O", 0.0, 1.0, 0.0)

  /** `x.max(lo).min(hi)` on a number that is not NaN. */
  function Clamp(x: real, lo: real, hi: real): (r: real)
    requires lo <= hi
    ensures lo <= r <= hi
    ensures lo <= x <= hi ==> r == x
    ensures x < lo ==> r == lo
    ensures hi < x ==> r == hi
  {
    if x < lo then lo else if hi < x then hi else x
  }

  /** Clamping twice is clamping once. */
  lemma ClampIdempotent(x: real, lo: real, hi: real)
    requires lo <= hi
    ensures Clamp(Clamp(x, lo, hi), lo, hi) == Clamp(x, lo, hi)
  {
  }

  /** Clamping keeps the order of its inputs. */
  lemma ClampMonotone(x: real, y: real, lo: real, hi: real)
    requires lo <= hi && x <= y
    ensures Clamp(x, lo, hi) <= Clamp(y, lo, hi)
  {
  }

  /** All three settings lie in the ranges the setters enforce. */
  predicate InRange(c: VoiceConfig) {
    MinPitch <= c.pitch <= MaxPitch && MinRate <= c.speakingRate <= MaxRate
    && MinVolume <= c.volumeGainDb <= MaxVolume
  }

  /** The pitch and speaking rate `speak_with_emotion` asks for: happy, excited, calm and serious
    * have their own, every other emotion resets to the defaults. */
  function EmotionSettings(emotion: string): (s: (real, real))
  {
    match emotion
    case "happy" => (2.0, 1.1)
    case "excited" => (4.0, 1.2)
    case "calm" => (0.0, 0.9)
    case "serious" => (-2.0, 0.95)
    case _ => (0.0, 1.0)
  }

  /** Every emotion's settings are already in range, so the setters never clamp them, and an
    * unknown emotion gets the pitch and rate of the default voice. */
  lemma EmotionSettingsInRange(emotion: string)
    ensures MinPitch <= EmotionSettings(emotion).0 <= MaxPitch
    ensures MinRate <= EmotionSettings(emotion).1 <= MaxRate
    ensures emotion !in {"happy", "excited", "calm", "serious"} ==>
              EmotionSettings(emotion) == (DefaultVoice.pitch, DefaultVoice.speakingRate)
  {
  }

  /** Of the named emotions, excitement speaks highest and fastest and seriousness lowest. */
  lemma EmotionOrdering(emotion: string)
    ensures EmotionSettings("serious").0 <= EmotionSettings(emotion).0 <= EmotionSettings("excited").0
    ensures EmotionSettings(emotion).1 <= EmotionSettings("excited").1
  {
  }

  /** The speaking rate `speak_callout` asks for at a given urgency (a `u8`). */
  function CalloutRate(urgency: nat): (rate: real)
    requires urgency < 256
  {
    if urgency <= 3 then 1.0 else if urgency <= 7 then 1.2 else 1.3
  }

  /** More urgency never slows a callout down, and no callout rate is clamped. */
  lemma CalloutRateMonotone(u: nat, v: nat)
    requires u <= v < 256
    ensures CalloutRate(u) <= CalloutRate(v)
    ensures MinRate <= CalloutRate(u) <= MaxRate
  {
  }

  class TtsModel {
    var voiceConfig: VoiceConfig
    /** Everything handed to the audio sink, in order. */
    var played: seq<Utterance>

    /** `new`: the default English voice, nothing played yet. */
    constructor ()
      ensures voiceConfig == DefaultVoice && InRange(voiceConfig) && played == []
    {
      voiceConfig := DefaultVoice;
      played := [];
    }

    /** `speak`: when the synthesis request succeeds, the audio is played with the current
      * settings; its error is returned otherwise and nothing is played. */
    method Speak(text: string, synthesis: Result<()>) returns (r: Result<()>)
      modifies this`played
      ensures r == synthesis
      ensures r.Ok? ==> played == old(played) + [Utterance(text, voiceConfig)]
      ensures r.Err? ==> played == old(played)
    {
      if synthesis.Err? {
        return synthesis;
      }
      played := played + [Utterance(text, voiceConfig)];
      r := synthesis;
    }

    /** `adjust_voice`: the whole configuration is replaced, without any clamping. */
    method AdjustVoice(config: VoiceConfig)
      modifies this`voiceConfig
      ensures voiceConfig == config
    {
      voiceConfig := config;
    }

    /** `set_pitch`: the pitch clamped to [-20, 20]; the other settings are kept. */
    method SetPitch(pitch: real)
      modifies this`voiceConfig
      ensures voiceConfig == old(voiceConfig).(pitch := Clamp(pitch, MinPitch, MaxPitch))
      ensures MinPitch <= voiceConfig.pitch <= MaxPitch
    {
      voiceConfig := voiceConfig.(pitch := Clamp(pitch, MinPitch, MaxPitch));
    }

    /** `set_speaking_rate`: the rate clamped to [0.25, 4.0]. */
    method SetSpeakingRate(rate: real)
      modifies this`voiceConfig
      ensures voiceConfig == old(voiceConfig).(speakingRate := Clamp(rate, MinRate, MaxRate))
      ensures MinRate <= voiceConfig.speakingRate <= MaxRate
    {
      voiceConfig := voiceConfig.(speakingRate := Clamp(rate, MinRate, MaxRate));
    }

    /** `set_volume`: the gain clamped to [-96, 16] dB. */
    method SetVolume(volumeDb: real)
      modifies this`voiceConfig
      ensures voiceConfig == old(voiceConfig).(volumeGainDb := Clamp(volumeDb, MinVolume, MaxVolume))
      ensures MinVolume <= voiceConfig.volumeGainDb <= MaxVolume
    {
      voiceConfig := voiceConfig.(volumeGainDb := Clamp(volumeDb, MinVolume, MaxVolume));
    }

    /** `speak_with_emotion`: the emotion's pitch and rate are set exactly (they are in range),
      * the volume and voice are kept, and the text is spoken with them. */
    method SpeakWithEmotion(text: string, emotion: string, synthesis: Result<()>) returns (r: Result<()>)
      modifies this`voiceConfig, this`played
      ensures voiceConfig == old(voiceConfig).(pitch := EmotionSettings(emotion).0,
                                               speakingRate := EmotionSettings(emotion).1)
      ensures r == synthesis
      ensures r.Ok? ==> played == old(played) + [Utterance(text, voiceConfig)]
      ensures r.Err? ==> played == old(played)
    {
      var settings := EmotionSettings(emotion);
      EmotionSettingsInRange(emotion);
      SetPitch(settings.0);
      SetSpeakingRate(settings.1);
      r := Speak(text, synthesis);
    }

    /** `speak_callout`: the rate of the urgency's band is set and the text spoken; pitch and
      * volume are kept. */
    method SpeakCallout(text: string, urgency: nat, synthesis: Result<()>) returns (r: Result<()>)
      requires urgency < 256
      modifies this`voiceConfig, this`played
      ensures voiceConfig == old(voiceConfig).(speakingRate := CalloutRate(urgency))
      ensures r == synthesis
      ensures r.Ok? ==> played == old(played) + [Utterance(text, voiceConfig)]
      ensures r.Err? ==> played == old(played)
    {
      CalloutRateMonotone(urgency, urgency);
      SetSpeakingRate(CalloutRate(urgency));
      r := Speak(text, synthesis);
    }
  }

  /** The setters' clamps in action: an over-loud, over-fast, over-high request lands on the upper
    * bounds, and repeating a setter changes nothing further. */
  method ClampScenario() returns (c: VoiceConfig)
    ensures c == VoiceConfig("en-US", "en-US-Studio-O", MaxPitch, MaxRate, MaxVolume)
  {
    var m := new TtsModel();
    m.SetPitch(35.0);
    m.SetSpeakingRate(10.0);
    m.SetVolume(40.0);
    m.SetVolume(m.voiceConfig.volumeGainDb);
    c := m.voiceConfig;
  }

  /** `adjust_voice` does not clamp: a pitch of 50 is stored as is, out of the setters' range. */
  method AdjustVoiceUnclamped() returns (c: VoiceConfig)
    ensures c.pitch == 50.0 && !InRange(c)
  {
    var m := new TtsModel();
    m.AdjustVoice(VoiceConfig("en-US", "en-US-Studio-O", 50.0, 1.0, 0.0));
    c := m.voiceConfig;
  }

  /** An urgent callout after an excited line keeps the excited pitch and speeds up to 1.3. */
  method ExcitedThenUrgent() returns (c: VoiceConfig, played: seq<Utterance>)
    ensures c.pitch == 4.0 && c.speakingRate == 1.3 && c.volumeGainDb == 0.0
    ensures |played| == 2 && played[0].config.speakingRate == 1.2 && played[1].text == "Behind you!"
  {
    var m := new TtsModel();
    var _ := m.SpeakWithEmotion("We won!", "excited", Ok(()));
    var _ := m.SpeakCallout("Behind you!", 9, Ok(()));
    c := m.voiceConfig;
    played := m.played;
  }
}
