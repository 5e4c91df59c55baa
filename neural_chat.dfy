/** src/ai/neural_chat.rs: the chat core's bounded history of recent messages, the mood it
  * reads from them, the tone it gives a reply, and the bulleted lists of its model report. The
  * language and sentiment models are inputs: their outputs are parameters. */
module NeuralChat {
  import opened Strings

  /** A remembered message; `sentiment` is the sentiment model's score, a real number. */
  datatype ChatContext = ChatContext(user: string, message: string, sentiment: real, timestamp: nat)

  // ---------------------------------------------------------------- tone

  /** The three tones a reply can take. */
  datatype Tone = Cheerful | Comforting | Calm

  /** Above 0.7 is cheerful, below 0.3 comforting, anything else calm. */
  function ToneOf(sentiment: real): (t: Tone)
    ensures t == Cheerful <==> sentiment > 0.7
    ensures t == Comforting <==> sentiment < 0.3
  {
    if sentiment > 0.7 then Cheerful else if sentiment < 0.3 then Comforting else Calm
  }

  const CheerfulFace: string := "(◕‿◕✿)"
  const ComfortingFace: string := "(｡•́︿•̀｡)"
  const CalmFace: string := "(｡◕‿◕｡)"

  function Face(t: Tone): string {
    match t
    case Cheerful => CheerfulFace
    case Comforting => ComfortingFace
    case Calm => CalmFace
  }

  /** `adjust_response_tone`: the reply, a space, and the face of its tone. */
  function AdjustResponseTone(response: string, sentiment: real): (r: string)
    ensures |r| > |response| && r[..|response|] == response && r[|response|] == ' '
  {
    response + " " + Face(ToneOf(sentiment))
  }

  /** The faces have different lengths, so a toned reply gives back both the reply and its tone:
    * two toned replies agree exactly when their replies and tones do. */
  lemma ToneInjective(r1: string, s1: real, r2: string, s2: real)
    ensures AdjustResponseTone(r1, s1) == AdjustResponseTone(r2, s2) <==> r1 == r2 && ToneOf(s1) == ToneOf(s2)
  {
    var t1, t2 := ToneOf(s1), ToneOf(s2);
    if AdjustResponseTone(r1, s1) == AdjustResponseTone(r2, s2) {
      var a := AdjustResponseTone(r1, s1);
      FaceHasNoSpace(t1);
      FaceHasNoSpace(t2);
      assert |r1| == |r2| by {
        assert forall j :: |r1| < j < |a| ==> a[j] == Face(t1)[j - |r1| - 1];
        assert forall j :: |r2| < j < |a| ==> a[j] == Face(t2)[j - |r2| - 1];
        assert a[|r1|] == ' ' && a[|r2|] == ' ';
      }
      assert r1 == a[..|r1|] == r2;
      assert Face(t1) == a[|r1| + 1..] == Face(t2);
    }
  }

  lemma FaceHasNoSpace(t: Tone)
    ensures ' ' !in Face(t)
  {
  }

  // ---------------------------------------------------------------- mood

  function SentimentSum(history: seq<ChatContext>): real
    decreases |history|
  {
    if history == [] then 0.0 else SentimentSum(history[..|history| - 1]) + history[|history| - 1].sentiment
  }

  /** A history whose every sentiment lies between `lo` and `hi` sums to between `n * lo` and
    * `n * hi`. */
  lemma {:induction false} SumBounds(history: seq<ChatContext>, lo: real, hi: real)
    requires forall i :: 0 <= i < |history| ==> lo <= history[i].sentiment <= hi
    ensures |history| as real * lo <= SentimentSum(history) <= |history| as real * hi
    decreases |history|
  {
    if history != [] {
      SumBounds(history[..|history| - 1], lo, hi);
    }
  }

  /** `get_chat_mood`: 0.5 with nothing to go on, otherwise the mean sentiment. */
  function ChatMood(history: seq<ChatContext>): (m: real)
    ensures history == [] ==> m == 0.5
    ensures history != [] ==> m * |history| as real == SentimentSum(history)
  {
    if history == [] then 0.5 else SentimentSum(history) / |history| as real
  }

  /** The mood lies within any bounds of the sentiments that also admit the neutral 0.5. */
  lemma MoodBounds(history: seq<ChatContext>, lo: real, hi: real)
    requires lo <= 0.5 <= hi
    requires forall i :: 0 <= i < |history| ==> lo <= history[i].sentiment <= hi
    ensures lo <= ChatMood(history) <= hi
  {
    if history != [] {
      SumBounds(history, lo, hi);
      var n := |history| as real;
      var m := ChatMood(history);
      assert (m - lo) * n >= 0.0;
      assert (hi - m) * n >= 0.0;
    }
  }

  // ---------------------------------------------------------------- reports

  const BulletMark: string := "   - "

  /** Each item on its own bulleted line. */
  function Bulleted(items: seq<string>): (lines: seq<string>)
    ensures |lines| == |items|
    ensures forall i :: 0 <= i < |items| ==> lines[i] == BulletMark + items[i]
  {
    seq(|items|, i requires 0 <= i < |items| => BulletMark + items[i])
  }

  /** `format_improvements`: the bulleted lines joined by newlines. The text is empty exactly
    * when there are no improvements, and it lists every improvement behind a bullet. */
  function FormatImprovements(improvements: seq<string>): (r: string)
    ensures r == "" <==> improvements == []
    ensures forall i :: 0 <= i < |improvements| ==> Contains(r, BulletMark + improvements[i])
  {
    JoinContainsFields(Bulleted(improvements), "\n");
    Join(Bulleted(improvements), "\n")
  }

  /** No improvements make an empty text; otherwise the text's lines are exactly the bulleted
    * items, provided no item itself spans lines. */
  lemma ImprovementLines(improvements: seq<string>)
    requires forall i :: 0 <= i < |improvements| ==> '\n' !in improvements[i]
    ensures improvements == [] ==> FormatImprovements(improvements) == ""
    ensures improvements != [] ==> Split(FormatImprovements(improvements), '\n') == Bulleted(improvements)
  {
    if improvements != [] {
      var lines := Bulleted(improvements);
      forall k | 0 <= k < |lines| ensures '\n' !in lines[k] {
        assert lines[k] == BulletMark + improvements[k];
      }
      SplitJoin(lines, '\n');
    }
  }

  datatype LearningSource = Tutorial(name: string) | Reference(name: string) | Technique(name: string)

  /** The `{:?}` escaping of a string's characters: quotes, backslashes and the usual control
    * characters become backslash sequences. */
  function EscapeDebug(s: string): (e: string)
    ensures '\n' !in e
    decreases |s|
  {
    if s == [] then ""
    else
      var c := s[0];
      var head := if c == '"' then "\\\"" else if c == '\\' then "\\\\" else if c == '\n' then "\\n"
                  else if c == '\r' then "\\r" else if c == '\t' then "\\t" else if c == '\0' then "\\0"
                  else [c];
      head + EscapeDebug(s[1..])
  }

  /** The `{:?}` text of a learning source: its variant and its quoted, escaped name. */
  function DebugSource(source: LearningSource): (d: string)
    ensures '\n' !in d
  {
    var variant := match source
      case Tutorial(_) => "Tutorial"
      case Reference(_) => "Reference"
      case Technique(_) => "Technique";
    variant + "(\"" + EscapeDebug(source.name) + "\")"
  }

  /** `format_learning_sources`: one bulleted line per source. The text is empty exactly when
    * there are no sources, and it lists the debug form of every source behind a bullet. */
  function FormatLearningSources(sources: seq<LearningSource>): (r: string)
    ensures r == "" <==> sources == []
    ensures forall i :: 0 <= i < |sources| ==> Contains(r, BulletMark + DebugSource(sources[i]))
  {
    var items := seq(|sources|, i requires 0 <= i < |sources| => DebugSource(sources[i]));
    var lines := Bulleted(items);
    assert forall i :: 0 <= i < |sources| ==> lines[i] == BulletMark + DebugSource(sources[i]);
    JoinContainsFields(lines, "\n");
    Join(lines, "\n")
  }

  /** Escaping keeps every source on one line: the text has exactly one line per source. */
  lemma LearningSourceLines(sources: seq<LearningSource>)
    requires sources != []
    ensures |Split(FormatLearningSources(sources), '\n')| == |sources|
  {
    var items := seq(|sources|, i requires 0 <= i < |sources| => DebugSource(sources[i]));
    var lines := Bulleted(items);
    forall k | 0 <= k < |lines| ensures '\n' !in lines[k] {
      assert lines[k] == BulletMark + DebugSource(sources[k]);
    }
    SplitJoin(lines, '\n');
  }

  // ---------------------------------------------------------------- history

  class NeuralChat {
    var contextHistory: seq<ChatContext>
    var maxContext: nat

    /** The history holds at most `maxContext` messages. */
    predicate Valid()
      reads this
    {
      0 < maxContext && |contextHistory| <= maxContext
    }

    /** `new`, without the models and the database: an empty history of capacity ten. */
    constructor ()
      ensures Valid() && contextHistory == [] && maxContext == 10
    {
      contextHistory := [];
      maxContext := 10;
    }

    /** `add_context`: when full, the oldest message is dropped first; the new one goes at the
      * back. */
    method AddContext(context: ChatContext)
      requires Valid()
      modifies this`contextHistory
      ensures Valid()
      ensures |old(contextHistory)| < maxContext ==> contextHistory == old(contextHistory) + [context]
      ensures |old(contextHistory)| == maxContext ==> contextHistory == old(contextHistory)[1..] + [context]
    {
      if |contextHistory| >= maxContext {
        contextHistory := contextHistory[1..];
      }
      contextHistory := contextHistory + [context];
    }

    /** `generate_response` at `now`, where `sentiment` is the sentiment model's score of the
      * message and `reply` the conversation model's answer: the message is remembered and the
      * reply toned by its sentiment. */
    method GenerateResponse(user: string, message: string, sentiment: real, reply: string, now: nat)
      returns (r: string)
      requires Valid()
      modifies this`contextHistory
      ensures Valid()
      ensures var c := ChatContext(user, message, sentiment, now);
              contextHistory == (if |old(contextHistory)| < maxContext then old(contextHistory)
                                 else old(contextHistory)[1..]) + [c]
      ensures r == AdjustResponseTone(reply, sentiment)
    {
      AddContext(ChatContext(user, message, sentiment, now));
      r := AdjustResponseTone(reply, sentiment);
    }

    /** `get_chat_mood` of the current history. */
    function GetChatMood(): (m: real)
      reads this
      ensures m == ChatMood(contextHistory)
    {
      ChatMood(contextHistory)
    }
  }

  /** Eleven messages into a fresh chat leave the last ten, the newest at the back. */
  method ElevenMessages(c: ChatContext) returns (size: nat)
    ensures size == 10
  {
    var chat := new NeuralChat();
    var i := 0;
    while i < 11
      invariant 0 <= i <= 11 && chat.Valid() && chat.maxContext == 10
      invariant |chat.contextHistory| == if i < 10 then i else 10
    {
      chat.AddContext(c);
      i := i + 1;
    }
    size := |chat.contextHistory|;
  }
}
