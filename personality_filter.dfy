/** src/voice/personality_filter.rs: plain-word rewriting, two-sentence summaries, canned tech
  * explanations and fixed reactions. */
module PersonalityFilter {
  import opened Strings

  /** The first four of `make_conversational`'s rewrites. */
  function FirstFourRewrites(text: string): string {
    ReplaceAll(ReplaceAll(ReplaceAll(ReplaceAll(text,
      "therefore", "so"), "however", "but"), "additionally", "also"), "utilize", "use")
  }

  /** The last rewrite leaves no "implement" behind: "add" cannot form one. */
  lemma AddLeavesNoImplement(t: string)
    ensures !Contains(ReplaceAll(t, "implement", "add"), "implement")
  {
    var p := "implement";
    assert NoReplacementInside(p, "add") by {
      forall j | 0 <= j < |p| ensures !Compatible("add", p[j..]) {
        assert p[j..][0] == p[j];
      }
    }
    assert NoOccurrenceFromReplacement(p, "add") by {
      forall j | 0 <= j < |"add"| ensures !Compatible("add"[j..], p) {
        assert "add"[j..][0] == "add"[j];
      }
    }
    NoOccurrenceAfterReplace(t, p, "add", p);
  }

  /** Text with none of the first four words passes the first four rewrites unchanged. */
  lemma FirstFourUnchanged(text: string)
    requires !Contains(text, "therefore") && !Contains(text, "however") && !Contains(text, "additionally")
    requires !Contains(text, "utilize")
    ensures FirstFourRewrites(text) == text
  {
    ReplaceAllAbsent(text, "therefore", "so");
    ReplaceAllAbsent(text, "however", "but");
    ReplaceAllAbsent(text, "additionally", "also");
    ReplaceAllAbsent(text, "utilize", "use");
  }

  /** None of the five rewritten words occurs in `text`. */
  predicate PlainWording(text: string) {
    !Contains(text, "therefore") && !Contains(text, "however") && !Contains(text, "additionally")
    && !Contains(text, "utilize") && !Contains(text, "implement")
  }

  /** Both rewrite stages leave plainly worded text alone. */
  lemma PlainWordingKept(text: string)
    ensures PlainWording(text) ==> ReplaceAll(FirstFourRewrites(text), "implement", "add") == text
  {
    if PlainWording(text) {
      FirstFourUnchanged(text);
      ReplaceAllAbsent(text, "implement", "add");
    }
  }

  /** `make_conversational`: five `str::replace` calls, case-sensitive, in this order. No
    * "implement" survives, and text containing none of the five words is left unchanged. */
  function MakeConversational(text: string): (r: string)
    ensures !Contains(r, "implement")
    ensures PlainWording(text) ==> r == text
  {
    AddLeavesNoImplement(FirstFourRewrites(text));
    PlainWordingKept(text);
    ReplaceAll(FirstFourRewrites(text), "implement", "add")
  }

  /** "implementation" holds none of the first four words. */
  lemma ImplementationPassesFirstFour()
    ensures FirstFourRewrites("implement" + "ation") == "implement" + "ation"
  {
    var s := "implement" + "ation";
    assert 'h' !in s && 'd' !in s && 'u' !in s;
    AbsentChar(s, "therefore", 1);
    AbsentChar(s, "however", 0);
    AbsentChar(s, "additionally", 1);
    AbsentChar(s, "utilize", 0);
    FirstFourUnchanged(s);
  }

  /** "ation" holds no "implement". */
  lemma AtionUnchanged()
    ensures ReplaceAll("ation", "implement", "add") == "ation"
  {
    assert 'p' !in "ation";
    AbsentChar("ation", "implement", 2);
    ReplaceAllAbsent("ation", "implement", "add");
  }

  /** Replacement is by substring: "implementation" becomes "addation". */
  lemma ImplementationExample()
    ensures MakeConversational("implement" + "ation") == "add" + "ation"
  {
    ImplementationPassesFirstFour();
    ReplaceAllAtMatch("ation", "implement", "add");
    AtionUnchanged();
  }

  /** `split('.').take(2)`. */
  function FirstTwo(fields: seq<string>): (r: seq<string>)
    ensures |r| == if |fields| < 2 then |fields| else 2
    ensures r == fields[..|r|]
  {
    if |fields| < 2 then fields else fields[..2]
  }

  /** `summarize_content`: the first two '.'-separated pieces joined by ". ", made
    * conversational. Text without a full stop is summarised as itself, made conversational. */
  function SummarizeContent(content: string): (r: string)
    ensures !Contains(r, "implement")
    ensures '.' !in content ==> r == MakeConversational(content)
  {
    if '.' in content then MakeConversational(Join(FirstTwo(Split(content, '.')), ". "))
    else
      SplitAbsent(content, '.');
      MakeConversational(Join(FirstTwo(Split(content, '.')), ". "))
  }

  /** Of "a.b.c", with no dots inside the pieces, only "a. b" is kept. */
  lemma SummaryKeepsTwoSentences(a: string, b: string, c: string)
    requires '.' !in a && '.' !in b
    ensures SummarizeContent(a + "." + b + "." + c) == MakeConversational(a + ". " + b)
  {
    SplitAtFirst(b, c, '.');
    SplitAtFirst(a, b + "." + c, '.');
    assert a + "." + b + "." + c == a + "." + (b + "." + c);
    var fs := Split(a + "." + b + "." + c, '.');
    assert fs == [a] + ([b] + Split(c, '.'));
    assert FirstTwo(fs) == [a, b];
    assert Join([a, b], ". ") == a + ". " + Join([b], ". ");
  }

  const BufferOverflowText: string := "It's like trying to pour too much boba tea into a smol cup! 🧋"
  const EncryptionText: string :=
    "Think of it like passing notes in class, but with a super secret language only you and your bestie know! 💌"
  const DdosText: string :=
    "Imagine everyone trying to get into a store on Black Friday at the same time - that's basically what's happening! 🏪"

  /** `init_tech_explanations`. */
  function TechExplanations(): map<string, string> {
    map["buffer_overflow" := BufferOverflowText, "encryption" := EncryptionText, "ddos" := DdosText]
  }

  /** `init_engagement_phrases`. */
  const EngagementPhrases: seq<string> := [
    "Chat, what do you think about this? 🤔",
    "Has anyone else experienced something similar? Share your stories! 💭",
    "Let me know if you want me to explain anything in more detail! ✨",
    "Drop some emotes in chat if you're following along! 🎮",
    "This is actually super relevant to what we were talking about earlier! Remember? 💫"]

  const ExplainMoreSuffix: string := " - let me know if you want me to explain more! ✨"

  /** `simplify_tech_content`: the canned explanation on an exact key match; otherwise the
    * conversational text with an engagement phrase picked by the injected random `choice`. */
  function SimplifyTechContent(content: string, choice: nat): (r: string)
    ensures content in TechExplanations() ==> r == TechExplanations()[content]
    ensures content !in TechExplanations() ==>
      exists phrase :: phrase in EngagementPhrases
        && r == "So basically, " + MakeConversational(content) + ExplainMoreSuffix + " " + phrase
  {
    if content in TechExplanations() then TechExplanations()[content]
    else "So basically, " + MakeConversational(content) + ExplainMoreSuffix + " "
         + EngagementPhrases[choice % |EngagementPhrases|]
  }

  /** The three canned explanations are reached by their exact keys. */
  lemma CannedExplanations(choice: nat)
    ensures SimplifyTechContent("buffer_overflow", choice) == BufferOverflowText
    ensures SimplifyTechContent("encryption", choice) == EncryptionText
    ensures SimplifyTechContent("ddos", choice) == DdosText
  {
  }

  /** A key with different casing is not a match: the lookup is exact. */
  lemma LookupIsExact()
    ensures "DDoS" !in TechExplanations()
  {
    assert "DDoS"[1] != "ddos"[1];
  }

  const ExcitedReaction: string := "OMG chat! This is so exciting! *happy bouncing* ✨"
  const SurprisedReaction: string := "Wait what?! Chat, did you see that?! 😱"
  const ProudReaction: string := "Look at us being awesome together! Group hug! 🤗"
  const DefaultReaction: string := "Hehe~ 💕"

  /** `generate_reaction`. */
  function GenerateReaction(context: string): (r: string)
    ensures context !in {"excited", "surprised", "proud"} ==> r == DefaultReaction
  {
    if context == "excited" then ExcitedReaction
    else if context == "surprised" then SurprisedReaction
    else if context == "proud" then ProudReaction
    else DefaultReaction
  }
}
