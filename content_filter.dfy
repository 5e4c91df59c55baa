/** src/moderation/content_filter.rs: the keyword part of the chat filter — banned words and
  * sensitive topics matched as substrings of the lowercased message, and allowed mild swears. */
module ContentFilter {
  import opened Wrappers
  import opened Strings

  const InitialAllowedSwears: set<string> := {"damn", "hell", "crap", "shoot", "dang"}
  const InitialBannedWords: set<string> := {"hate", "slur"}
  const InitialSensitiveTopics: set<string> := {"politics", "religion", "discrimination", "nsfw"}

  class ContentFilter {
    var allowedSwears: set<string>
    var bannedWords: set<string>
    var sensitiveTopics: set<string>

    /** `new`, without the classification model. */
    constructor ()
      ensures allowedSwears == InitialAllowedSwears && bannedWords == InitialBannedWords
      ensures sensitiveTopics == InitialSensitiveTopics
    {
      allowedSwears := InitialAllowedSwears;
      bannedWords := InitialBannedWords;
      sensitiveTopics := InitialSensitiveTopics;
    }

    /** `is_profanity`: an allowed swear never is; otherwise a word is profane when it is banned. */
    predicate IsProfanity(word: string)
      reads this
      ensures IsProfanity(word) ==> word in bannedWords
      ensures word in allowedSwears ==> !IsProfanity(word)
      ensures word in bannedWords && word !in allowedSwears ==> IsProfanity(word)
    {
      if word in allowedSwears then false else word in bannedWords
    }

    /** `contains_banned_words`: some banned word occurs at some position of the message. */
    predicate ContainsBannedWords(message: string)
      reads this
      ensures ContainsBannedWords(message) <==> exists w, i :: w in bannedWords && OccursAt(message, w, i)
    {
      SomeContainedIffOccurs(message, bannedWords);
      exists w :: w in bannedWords && Contains(message, w)
    }

    /** `contains_sensitive_topics`: some sensitive topic occurs at some position of the message. */
    predicate ContainsSensitiveTopics(message: string)
      reads this
      ensures ContainsSensitiveTopics(message) <==> exists t, i :: t in sensitiveTopics && OccursAt(message, t, i)
    {
      SomeContainedIffOccurs(message, sensitiveTopics);
      exists t :: t in sensitiveTopics && Contains(message, t)
    }

    /** `contains_only_allowed_swears`: every whitespace-separated word is an allowed swear or
      * not a banned word. */
    predicate ContainsOnlyAllowedSwears(message: string)
      reads this
      ensures ContainsOnlyAllowedSwears(message) <==>
        forall w :: w in Words(message) ==> w in allowedSwears || w !in bannedWords
    {
      var ws := Words(message);
      forall k :: 0 <= k < |ws| ==> ws[k] in allowedSwears || !IsProfanity(ws[k])
    }

    /** A message with no banned word as a substring has no profane word: a word equal to a
      * banned word is itself an occurrence of it. */
    lemma CleanMessageHasOnlyAllowedWords(message: string)
      requires !ContainsBannedWords(message)
      ensures ContainsOnlyAllowedSwears(message)
    {
      var ws := Words(message);
      forall k | 0 <= k < |ws| ensures ws[k] in allowedSwears || !IsProfanity(ws[k]) {
        WordsContained(message, k);
      }
    }

    /** `filter_message`: None when the lowercased message contains a banned word or a sensitive
      * topic; otherwise the message itself, in its original casing. The source's third test,
      * `contains_only_allowed_swears`, always holds at that point (`CleanMessageHasOnlyAllowedWords`),
      * so its replacement branch is never taken and is not part of this function. */
    function FilterMessage(message: string): (r: Option<string>)
      reads this
      ensures r.None? <==> ContainsBannedWords(Lower(message)) || ContainsSensitiveTopics(Lower(message))
      ensures r.Some? ==> r.value == message && ContainsOnlyAllowedSwears(Lower(message))
    {
      var lower := Lower(message);
      if ContainsBannedWords(lower) then None
      else if ContainsSensitiveTopics(lower) then None
      else
        CleanMessageHasOnlyAllowedWords(lower);
        Some(message)
    }

    /** `get_safe_response`, where `safe` is the classification model's verdict on the filtered
      * message: nothing for a rejected message, the message itself when the model finds it safe,
      * and the friendly fallback otherwise. */
    function GetSafeResponse(message: string, safe: bool): (r: Option<string>)
      reads this
      ensures r.None? <==> FilterMessage(message).None?
      ensures r.Some? && safe ==> r.value == message
      ensures r.Some? && !safe ==> r.value == SafeFallback
    {
      match FilterMessage(message)
      case None => None
      case Some(filtered) => if safe then Some(filtered) else Some(SafeFallback)
    }

    /** `update_allowed_swears`: insert or remove one word; the other sets are untouched. */
    method UpdateAllowedSwears(word: string, allow: bool)
      modifies this`allowedSwears
      ensures allow ==> allowedSwears == old(allowedSwears) + {word}
      ensures !allow ==> allowedSwears == old(allowedSwears) - {word}
    {
      if allow {
        allowedSwears := allowedSwears + {word};
      } else {
        allowedSwears := allowedSwears - {word};
      }
    }
  }

  /** The reply used when the model finds a filtered message unsafe. */
  const SafeFallback: string := "Let's keep things fun and friendly! ✨"

  /** "whatever" is its own lowercase form and holds "hate". */
  lemma WhateverHoldsHate()
    ensures Lower("whatever") == "whatever" && Contains("whatever", "hate")
  {
    LowerOfNoUpper("whatever");
    ContainsAt("whatever", "hate", 1);
  }

  /** "GG ez" lowercases to "gg ez", which holds no banned word and no sensitive topic. */
  lemma GgEzHoldsNothing()
    ensures Lower("GG ez") == "gg ez"
    ensures forall w :: w in InitialBannedWords + InitialSensitiveTopics ==> !Contains("gg ez", w)
  {
    var lower := "gg ez";
    AbsentFirstChar(lower, "hate");
    AbsentFirstChar(lower, "slur");
    AbsentFirstChar(lower, "politics");
    AbsentFirstChar(lower, "religion");
    AbsentFirstChar(lower, "discrimination");
    AbsentFirstChar(lower, "nsfw");
  }

  /** "whatever" contains "hate", so a fresh filter rejects it; "GG ez" passes with its casing. */
  method SubstringMatchExamples() returns (whatever: Option<string>, gg: Option<string>)
    ensures whatever == None
    ensures gg == Some("GG ez")
  {
    var f := new ContentFilter();
    WhateverHoldsHate();
    whatever := f.FilterMessage("whatever");
    GgEzHoldsNothing();
    gg := f.FilterMessage("GG ez");
  }

  /** An allowed swear is never profanity, even if it is also banned. */
  method AllowingAWordClearsIt(word: string) returns (profane: bool)
    ensures !profane
  {
    var f := new ContentFilter();
    f.UpdateAllowedSwears(word, true);
    profane := f.IsProfanity(word);
  }
}
