/** src/voice/karaoke.rs: the karaoke mode — a subathon-only switch, a first-in first-out song
  * queue, and the syllable count used to time lyrics. */
module Karaoke {
  import opened Wrappers
  import opened Strings

  /** A song; `bpm` and `target_pitch` are `f32` in the source. */
  datatype KaraokeSong = KaraokeSong(title: string, artist: string, lyrics: string, youtubeId: string,
                                     bpm: real, targetPitch: real)

  const ActivatedMessage: string := "Karaoke mode activated! Time to shine! ✨🎤"
  const DeactivatedMessage: string := "Karaoke mode deactivated! Thanks for singing with me! 🎤💕"
  const QueuedSuffix: string := " to the karaoke queue! 🎵"
  const NowSingingSuffix: string := " 🎤✨"
  /** The text of a send on a channel whose receiver is gone. */
  const ChannelClosed: string := "channel closed"

  function QueuedMessage(song: KaraokeSong): string {
    "Added " + song.title + " by " + song.artist + QueuedSuffix
  }

  function NowSingingMessage(song: KaraokeSong): string {
    "Now singing: " + song.title + " by " + song.artist + NowSingingSuffix
  }

  class KaraokeManager {
    var isActive: bool
    var currentSong: Option<KaraokeSong>
    var queue: seq<KaraokeSong>
    var isSubathon: bool
    /** Everything sent on the voice channel, in order. */
    var announcements: seq<string>

    /** `new`: inactive, outside a subathon, nothing playing or queued. */
    constructor ()
      ensures !isActive && !isSubathon && currentSong == None && queue == [] && announcements == []
    {
      isActive := false;
      currentSong := None;
      queue := [];
      isSubathon := false;
      announcements := [];
    }

    /** `start_karaoke`: only during a subathon, and then the mode is on and announced. The
      * announcement fails when the voice channel is closed (`voiceOpen` false), after the mode has
      * been switched on. */
    method StartKaraoke(voiceOpen: bool) returns (r: Result<()>)
      modifies this`isActive, this`announcements
      ensures !old(isSubathon) ==> (r == Err("Karaoke is only available during subathons!")
                                    && isActive == old(isActive) && announcements == old(announcements))
      ensures old(isSubathon) ==> isActive
      ensures old(isSubathon) && voiceOpen ==> r == Ok(()) && announcements == old(announcements) + [ActivatedMessage]
      ensures old(isSubathon) && !voiceOpen ==> r == Err(ChannelClosed) && announcements == old(announcements)
    {
      if !isSubathon {
        return Err("Karaoke is only available during subathons!");
      }
      isActive := true;
      r := Announce(ActivatedMessage, voiceOpen);
    }

    /** `queue_song`: refused while inactive; otherwise the song joins the back of the queue and is
      * announced, the announcement failing on a closed voice channel with the song still queued. */
    method QueueSong(song: KaraokeSong, voiceOpen: bool) returns (r: Result<()>)
      modifies this`queue, this`announcements
      ensures !isActive ==> r == Err("Karaoke mode is not active!")
                            && queue == old(queue) && announcements == old(announcements)
      ensures isActive ==> queue == old(queue) + [song]
      ensures isActive && voiceOpen ==> r == Ok(()) && announcements == old(announcements) + [QueuedMessage(song)]
      ensures isActive && !voiceOpen ==> r == Err(ChannelClosed) && announcements == old(announcements)
    {
      if !isActive {
        return Err("Karaoke mode is not active!");
      }
      queue := queue + [song];
      r := Announce(QueuedMessage(song), voiceOpen);
    }

    /** `process_next_song`: the front of the queue becomes the current song and is announced; with
      * an empty queue nothing changes and nothing is sent. The voice settings it applies are not
      * modelled. A closed voice channel fails the announcement after the song was taken. */
    method ProcessNextSong(voiceOpen: bool) returns (r: Result<()>)
      modifies this`queue, this`currentSong, this`announcements
      ensures old(queue) == [] ==> r == Ok(()) && queue == [] && currentSong == old(currentSong)
                                   && announcements == old(announcements)
      ensures old(queue) != [] ==> currentSong == Some(old(queue)[0]) && queue == old(queue)[1..]
      ensures old(queue) != [] && voiceOpen ==>
        r == Ok(()) && announcements == old(announcements) + [NowSingingMessage(old(queue)[0])]
      ensures old(queue) != [] && !voiceOpen ==> r == Err(ChannelClosed) && announcements == old(announcements)
    {
      if queue == [] {
        return Ok(());
      }
      var song := queue[0];
      queue := queue[1..];
      currentSong := Some(song);
      r := Announce(NowSingingMessage(song), voiceOpen);
    }

    /** `stop_karaoke`: off, nothing playing, queue emptied, then announced; on a closed voice
      * channel the announcement fails but the mode is off all the same. */
    method StopKaraoke(voiceOpen: bool) returns (r: Result<()>)
      modifies this`isActive, this`currentSong, this`queue, this`announcements
      ensures !isActive && currentSong == None && queue == []
      ensures voiceOpen ==> r == Ok(()) && announcements == old(announcements) + [DeactivatedMessage]
      ensures !voiceOpen ==> r == Err(ChannelClosed) && announcements == old(announcements)
    {
      isActive := false;
      currentSong := None;
      queue := [];
      r := Announce(DeactivatedMessage, voiceOpen);
    }

    /** `voice_tx.send(..).await?`: the message is delivered when the channel is open; on a closed
      * channel the send fails and nothing is delivered. */
    method Announce(message: string, voiceOpen: bool) returns (r: Result<()>)
      modifies this`announcements
      ensures voiceOpen ==> r == Ok(()) && announcements == old(announcements) + [message]
      ensures !voiceOpen ==> r == Err(ChannelClosed) && announcements == old(announcements)
    {
      if !voiceOpen {
        return Err(ChannelClosed);
      }
      announcements := announcements + [message];
      r := Ok(());
    }
  }

  /** Nothing in the file sets `is_subathon`, so a fresh manager can never start karaoke, and
    * it then refuses every song, whatever the state of the voice channel. */
  method FreshManagerNeverSings(song: KaraokeSong, voiceOpen: bool) returns (started: Result<()>, queued: Result<()>)
    ensures started == Err("Karaoke is only available during subathons!")
    ensures queued == Err("Karaoke mode is not active!")
  {
    var m := new KaraokeManager();
    started := m.StartKaraoke(voiceOpen);
    queued := m.QueueSong(song, voiceOpen);
  }

  /** The vowels of `count_syllables`, after lowercasing. */
  predicate IsVowel(c: char) {
    LowerChar(c) in {'a', 'e', 'i', 'o', 'u', 'y'}
  }

  /** The number of maximal runs of vowels in `s`: positions holding a vowel whose predecessor
    * is not one, counted from the left. */
  function VowelRuns(s: string): nat
    decreases |s|
  {
    if s == [] then 0
    else
      var p := s[..|s| - 1];
      VowelRuns(p) + (if IsVowel(s[|s| - 1]) && (p == [] || !IsVowel(p[|p| - 1])) then 1 else 0)
  }

  /** `count_syllables`: the vowel runs, at least one. */
  function Syllables(word: string): nat {
    if VowelRuns(word) == 0 then 1 else VowelRuns(word)
  }

  /** The loop of `count_syllables`, with its previous-letter flag. */
  method CountSyllables(word: string) returns (n: nat)
    ensures n == Syllables(word)
  {
    var count := 0;
    var prevWasVowel := false;
    var i := 0;
    while i < |word|
      invariant 0 <= i <= |word|
      invariant count == VowelRuns(word[..i])
      invariant prevWasVowel <==> i > 0 && IsVowel(word[i - 1])
    {
      var isVowel := IsVowel(word[i]);
      assert word[..i + 1][..i] == word[..i];
      if isVowel && !prevWasVowel {
        count := count + 1;
      }
      prevWasVowel := isVowel;
      i := i + 1;
    }
    assert word[..i] == word;
    n := if count == 0 then 1 else count;
  }

  /** No run is counted exactly when the text has no vowel. */
  lemma {:induction false} NoRunsIffNoVowel(s: string)
    ensures VowelRuns(s) == 0 <==> forall i :: 0 <= i < |s| ==> !IsVowel(s[i])
    decreases |s|
  {
    if s != [] {
      var p := s[..|s| - 1];
      NoRunsIffNoVowel(p);
      forall i | 0 <= i < |p| ensures s[i] == p[i] {
      }
      if VowelRuns(p) != 0 {
        var j :| 0 <= j < |p| && IsVowel(p[j]);
        assert IsVowel(s[j]);
      } else if p != [] {
        assert !IsVowel(p[|p| - 1]);
      }
    }
  }

  /** Runs are separated by non-vowels, so a word of `n` letters has at most `(n + 1) / 2`. */
  lemma {:induction false} RunsBound(s: string)
    ensures 2 * VowelRuns(s) <= |s| + (if s != [] && IsVowel(s[|s| - 1]) then 1 else 0)
    decreases |s|
  {
    if s != [] {
      RunsBound(s[..|s| - 1]);
    }
  }

  /** Every word has between one and `(|word| + 1) / 2` syllables, or exactly one if shorter. */
  lemma SyllablesBounds(word: string)
    ensures 1 <= Syllables(word)
    ensures |word| > 0 ==> Syllables(word) <= (|word| + 1) / 2
  {
    RunsBound(word);
  }

  /** Counting ignores case. */
  lemma {:induction false} RunsIgnoreCase(a: string, b: string)
    requires Lower(a) == Lower(b)
    ensures VowelRuns(a) == VowelRuns(b)
    decreases |a|
  {
    assert |a| == |Lower(a)| == |b|;
    forall i | 0 <= i < |a| ensures IsVowel(a[i]) == IsVowel(b[i]) {
      assert Lower(a)[i] == Lower(b)[i];
    }
    if a != [] {
      var pa := a[..|a| - 1];
      var pb := b[..|b| - 1];
      assert Lower(pa) == Lower(pb) by {
        forall i | 0 <= i < |pa| ensures Lower(pa)[i] == Lower(pb)[i] {
          assert Lower(a)[i] == Lower(b)[i];
        }
      }
      RunsIgnoreCase(pa, pb);
    }
  }

  /** "hello" has two syllables, "bcd" one, "Queue" one. */
  method SyllableExamples() returns (hello: nat, bcd: nat, queue: nat)
    ensures hello == 2 && bcd == 1 && queue == 1
  {
    hello := CountSyllables("hello");
    assert "hello"[..4][..3] == "hel" && "hello"[..4] == "hell";
    assert "hel"[..2] == "he" && "he"[..1] == "h" && "h"[..0] == "";
    assert VowelRuns("hello") == 2;
    bcd := CountSyllables("bcd");
    assert "bcd"[..2] == "bc" && "bc"[..1] == "b" && "b"[..0] == "";
    queue := CountSyllables("Queue");
    assert "Queue"[..4] == "Queu" && "Queu"[..3] == "Que" && "Que"[..2] == "Qu" && "Qu"[..1] == "Q";
    assert "Q"[..0] == "";
  }
}
