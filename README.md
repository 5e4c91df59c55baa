# Sparkle core in Dafny

Sparkle is a Rust VTuber assistant. It runs a streaming persona with chat moderation, game trainers, a karaoke queue, knowledge stores, a text-to-speech voice and Live2D model parameters. Most of the repository is network, ML and audio glue. This project models its deterministic core. Each unit is one Dafny module, in a file named after the unit:

- **Parsers and string rules**
  - the ISO 8601 duration parser (`youtube_duration.dfy`);
  - the `a.b.c` version bumper and the model version-control branches (`version_control.dfy`);
  - the family-friendly word filter (`text_filter.dfy`);
  - the content filter (`content_filter.dfy`);
  - the TOS rule chain (`tos_compliance.dfy`);
  - the personality text rewriter (`personality_filter.dfy`);
  - the year extraction, trending-topic counting, confidence labels and sponsorship check of the scrapers.
- **Game-progress state machines**
  - Overwatch SR and rank bands;
  - Yu-Gi-Oh gems, packs, duels and win-rate ranks;
  - Minecraft skills and objectives;
  - the subathon goals;
  - the score and achievement manager.
- **Moderation and defence**
  - warning, timeout and ban escalation;
  - the attack defence system and its IP block list;
  - per-user command cooldowns;
  - reaction cooldowns.
- **Containers with invariants**
  - the circular YouTube playlist;
  - the karaoke queue;
  - the bounded chat-context deque;
  - per-user conversation lists;
  - the task list sorted by next run;
  - the special-event list sorted by date;
  - the response caches and TTL caches;
  - the keyed knowledge stores;
  - the community member registry;
  - the model-version switcher;
  - the tag performance table.
- **Lookups and builders**
  - the next-stream lookup over the weekly schedule;
  - the resources and tasks needed per stream type;
  - the TTS parameter clamps and emotion mappings;
  - the Live2D and dance parameter tables.

Three shared modules support the rest:

- `wrappers.dfy` holds `Option` and `Result`.
- `strings.dfy` holds substring search, replacement, splitting, trimming, lowercasing, decimal rendering and UTF-8 length.
- `collections.dfy` holds filtering, ordered insertion and the visiting order of a hash map.

Modelling conventions:

- **Time.** Wall-clock time (`Utc::now`, `Instant::now`, `SystemTime::now`) is an explicit `now` parameter.
- **Randomness.** A random choice is "some element of the list".
- **External results.** Network, ML and audio results are parameters of type `Result`.
- **Hash maps.** `HashMap` and `DashMap` are Dafny `map`s. Where the source iterates a map and emits a list, its unspecified iteration order is a parameter `order`, a permutation of the keys.
- **Classes.** A struct whose methods update it in place is a `class`. Its methods state the whole new state in `ensures`.
- **Pure code.** Pure helpers are functions, each paired with lemmas that relate them to an independent description or to an inverse.

## Model

| member | source | states |
|---|---|---|
| Community.GreetingsDistinct | sparkle/src/community/manager.rs:31-43 | the subscriber, returning and newcomer greetings of one user are pairwise different, so the three arms of the match are distinguishable by their text |
| Community.NewMember | sparkle/src/community/manager.rs:46-54 | a new member record carries the user's name, one interaction, no subscription, no favourite topics, and first and last seen both at the current time |
| Community.CommunityManager.constructor | sparkle/src/community/manager.rs:21-26 | a new manager has no members and an empty greeting cache |
| Community.CommunityManager.GenerateGreeting | sparkle/src/community/manager.rs:28-44 | a known subscriber gets the subscriber greeting and a known non-subscriber the welcome-back greeting, both leaving the member table unchanged; an unknown user gets the newcomer greeting and is added as a new member; afterwards the user is always a member |
| Community.CommunityManager.AddNewMember | sparkle/src/community/manager.rs:46-56 | the member table becomes the old one with the user's entry set to a fresh record, replacing any existing one |
| Community.CommunityManager.UpdateMemberActivity | sparkle/src/community/manager.rs:58-63 | for a known user only that entry changes, with last-seen set to now and the interaction count up by one; for an unknown user nothing changes |
| Community.NeverSubscriberGreeting | sparkle/src/community/manager.rs:32-34 | since no code path creates a subscriber, the subscriber greeting is never produced, and a known user always gets the welcome-back greeting |
| Community.GreetTwice | sparkle/src/community/manager.rs:28-63 | a first greeting welcomes a newcomer, a second greets them as returning, and with one activity update in between the interaction count is 2 |
| ContextManager.Extended | src/memory/context_manager.rs:18-23 | after a message the conversation ends with that message, is a suffix of the old conversation followed by the message, and holds at most ten messages: one more than before while under ten, exactly ten once full |
| ContextManager.UpdatedProfile | src/memory/context_manager.rs:34-40 | the profile gains one interaction and is last seen now; the message is appended to the preferences exactly when it contains "favorite", otherwise they are unchanged |
| ContextManager.ContextManager.constructor | src/memory/context_manager.rs:1-6 | an empty context: no short-term memory, no profiles, no conversations, no recent topics |
| ContextManager.ContextManager.RememberInteraction | src/memory/context_manager.rs:9-27 | the interaction is appended to short-term memory; only a user who already has a conversation gets the message added there (none is created); the user's profile, created if missing, is updated; no conversation ever exceeds ten messages |
| ContextManager.ContextManager.UpdateUserProfile | src/memory/context_manager.rs:29-41 | the user's profile, a new one when missing, is replaced by its updated form and every other profile is unchanged |
| ContextManager.ConversationSlides | src/memory/context_manager.rs:19-22 | a message added to a full conversation of ten drops the oldest one |
| ContextManager.FavoriteMentioned | src/memory/context_manager.rs:38 | the substring test decides "favorite" absent from "hello" and present in "my favorite anime" |
| ContextManager.FirstContact | src/memory/context_manager.rs:9-41 | after "hello" and "my favorite anime" from a new user the profile counts two interactions, keeps only the second message as a preference, and no conversation was opened |
| TextFilter.ApplyPairsSnoc | src/text_filter.rs:10-12 | applying one more replacement pair after the others is one more replace-all on the text the earlier pairs produced, so the loop applies the pairs in order |
| TextFilter.MakeFamilyFriendly | src/text_filter.rs:1-15 | the loop's result is the curse marker replaced by "oh dear" and then the bad-word marker by "goodness", and neither marker remains in it |
| TextFilter.FamilyFriendlyClean | src/text_filter.rs:3-12 | no output of the filter contains "curse_word" or "bad_word", whatever the input: the replacements cannot recreate a marker |
| TextFilter.FamilyFriendlyUnchanged | src/text_filter.rs:9-14 | text with neither marker comes back unchanged |
| TextFilter.FamilyFriendlyIdempotent | src/text_filter.rs:1-15 | filtering an already filtered text changes nothing |
| TextFilter.FamilyFriendlyExample | src/text_filter.rs:21-26 | the unit test's input "Oh curse_word, this is bad_word!" becomes "Oh oh dear, this is goodness!" |
| GameKnowledge.GameKnowledge.constructor | src/gaming/knowledge_base.rs:27-45 | a new knowledge base has a trainer registered for "marvel_rivals" only, and an empty cache |
| GameKnowledge.GameKnowledge.CheckCache | src/gaming/knowledge_base.rs:62-70 | an entry that has not expired is returned with the cache unchanged; an expired entry is removed and gives None; a missing entry gives None and changes nothing |
| GameKnowledge.GameKnowledge.CacheResponse | src/gaming/knowledge_base.rs:72-77 | the context's entry becomes the response, expiring 300 seconds from now, replacing any earlier entry; other entries are unchanged |
| GameKnowledge.GameKnowledge.GetGameResponse | src/gaming/knowledge_base.rs:47-60 | a fresh cached answer is returned with the cache unchanged; otherwise the newly generated answer is returned and cached; either way the context then has a fresh entry holding exactly the returned answer |
| GameKnowledge.CacheLifetimeScenario | src/gaming/knowledge_base.rs:47-77 | an answer generated at time t is served again 299 seconds later, whatever would be generated then, and is regenerated at 300 seconds |
| GameState.GameStateManager.constructor | src/game/state_manager.rs:29-38 | a new manager has score 0, no high scores, no achievements and has sent no events |
| GameState.GameStateManager.NoRecordsEverythingIsHigh | src/game/state_manager.rs:77-79 | with no stored high scores every score is a high score, since `all` over no values holds |
| GameState.GameStateManager.TieIsNotHigh | src/game/state_manager.rs:77-79 | a score equal to a stored high score is not a high score, because the comparison is strict |
| GameState.GameStateManager.UpdateScore | src/game/state_manager.rs:40-48 | the current score becomes the new score; a HighScore event with the "New high score" text is sent exactly when the score beats every stored one, and no event otherwise |
| GameState.GameStateManager.HandleDeath | src/game/state_manager.rs:50-56 | a Death event with the fixed message is sent and the score is reset to 0 |
| GameState.GameStateManager.UnlockAchievement | src/game/state_manager.rs:58-64 | a new achievement is appended and announced with an Achievement event; one already unlocked changes neither the list nor the events; the list never holds a name twice |
| GameState.GameStateManager.GetCurrentScore | src/game/state_manager.rs:81-83 | the getter returns the score last set |
| GameState.ScenarioScoresAndAchievements | src/game/state_manager.rs:40-64 | since nothing fills the high-score table, two score updates (the second lower) are both announced as high scores; unlocking one achievement twice records and announces it once; a death is announced and leaves the score at 0 |
| Reactions.Elapsed | src/reactions/manager.rs:59 | the time elapsed between two instants, zero when the later one is actually earlier (saturating `duration_since`) |
| Reactions.WithinMeaning | src/reactions/manager.rs:59 | for a clock that does not run backwards, being within a cooldown means the current time is less than the last use plus the cooldown |
| Reactions.ReactionManager.constructor | src/reactions/manager.rs:21-53 | a new manager holds only the head-pat reaction, keyed "headpat" with trigger "!headpat", a 30-second cooldown, its sound and animation; no reaction used yet; the three engagement phrases; the engagement gap starting now |
| Reactions.ReactionManager.TryReaction | src/reactions/manager.rs:55-68 | an unknown key gives None; a reaction used less than its cooldown ago gives None; both change nothing; otherwise the reaction is returned and its last use becomes now |
| Reactions.ReactionManager.GetRandomEngagement | src/reactions/manager.rs:70-78 | within five minutes of the last phrase nothing is returned and nothing changes; otherwise one of the phrases, picked by the random choice, is returned and the five minutes restart |
| Reactions.HeadpatScenario | src/reactions/manager.rs:30-68 | "!headpat" is not a key; "headpat" fires, is refused 10 seconds later, and fires again once its 30 seconds have passed |
| Reactions.EngagementScenario | src/reactions/manager.rs:70-78 | no phrase in the first five minutes after construction, one of the three phrases at five minutes, and none again right after |
| Subathon.CheckedGoal | src/events/subathon.rs:60-65 | a checked goal keeps its threshold and reward, and is complete exactly when it already was or the sub count has reached its threshold |
| Subathon.CheckedGoals | src/events/subathon.rs:59-66 | checking keeps the number, order, thresholds and rewards of the goals, and each is complete exactly when it already was or has been reached |
| Subathon.CheckedGoalsIdempotent | src/events/subathon.rs:59-66 | checking the goals twice at the same count is the same as checking once |
| Subathon.CheckedGoalsMonotone | src/events/subathon.rs:59-66 | a goal completed by checking at a lower count is also completed by checking at any higher count |
| Subathon.SubathonManager.constructor | src/events/subathon.rs:30-38 | a new manager keeps the configuration, has not started (no start or end time) and has no subscriptions |
| Subathon.SubathonManager.StartSubathon | src/events/subathon.rs:40-49 | a non-affiliate gets the "Not a Twitch affiliate" error and nothing changes; an affiliate's subathon starts now and ends after the base duration |
| Subathon.SubathonManager.AddSubscription | src/events/subathon.rs:51-57 | the sub count goes up by one; a running subathon's end moves later by the per-sub time, one not started stays without an end; the goals are checked at the new count |
| Subathon.SubathonManager.CheckGoals | src/events/subathon.rs:59-66 | the loop leaves exactly the checked goals at the current sub count |
| Subathon.UnstartedSubathon | src/events/subathon.rs:51-66 | a subathon never started gains no end time from subscriptions, and a two-sub goal is complete after the second |
| Subathon.AffiliateGate | src/events/subathon.rs:40-57 | a non-affiliate's start is refused with the affiliate message; an affiliate with a 100-second base and 5 seconds per sub ends at start plus 105 after one sub |
| ModelManager.ModelManager.constructor | src/maintenance/model_manager.rs:31-42 | the initial version is current and is the only available version, filed under its own name; no history and nothing broadcast |
| ModelManager.ModelManager.UpdateModel | src/maintenance/model_manager.rs:44-64 | an unknown name gives "Version not found" and an inactive version "Version is not ready for activation", both changing nothing; an active version becomes current, and one update record (old name, new name, the new version's features, now) is appended to the history and broadcast; the history stays a chain of switches ending at the current version |
| ModelManager.ModelManager.AddVersion | src/maintenance/model_manager.rs:66-68 | the version is filed under its name, replacing any of that name; the current version and the history are kept |
| ModelManager.ModelManager.ListAvailableVersions | src/maintenance/model_manager.rs:78-80 | the list has one entry per available name, and a version is in it exactly when it is one of the available versions |
| ModelManager.SwitchScenario | src/maintenance/model_manager.rs:44-64 | from 1.0, switching to an active 2.0 succeeds and is logged; an inactive 3.0 and an unknown name are refused and leave the one-record log unchanged |
| NetworkKnowledge.EmptyQueryMatches | src/knowledge/network_knowledge.rs:84-85 | the empty query is contained in every topic, so it matches every concept |
| NetworkKnowledge.MatchesIgnoresQueryCase | src/knowledge/network_knowledge.rs:79-85 | since the query is lowercased first, a query and its lowercase form match the same concepts |
| NetworkKnowledge.NetworkKnowledge.constructor | src/knowledge/network_knowledge.rs:37-63 | a new store holds only the architecture category, with the OSI model as its one concept, and was updated now |
| NetworkKnowledge.NetworkKnowledge.AddConcept | src/knowledge/network_knowledge.rs:65-72 | the concept is appended to its own category's list, or starts a new one-element list when the category is missing; no other category changes; the update time becomes now |
| NetworkKnowledge.NetworkKnowledge.GetConceptsByCategory | src/knowledge/network_knowledge.rs:74-76 | a result exists exactly when the category is populated, and then it is that category's list |
| NetworkKnowledge.NetworkKnowledge.SearchConcepts | src/knowledge/network_knowledge.rs:78-91 | the result is the stored concepts, category by category in the map's order, whose lowercased topic or summary contains the lowercased query; a concept is in it exactly when it is stored and matches |
| NetworkKnowledge.EmptySearch | src/knowledge/network_knowledge.rs:78-91 | the empty query returns every stored concept |
| NetworkKnowledge.FreshStore | src/knowledge/network_knowledge.rs:37-76 | a new store files the OSI model under architecture and has no protocols list; adding a protocol concept creates that list holding just it |
| InputHandler.KeyInjective | src/game/input_handler.rs:85 | for command names without ':', the "command:user" key determines both the command and the user, so different pairs never share a cooldown entry |
| InputHandler.Allowed | src/game/input_handler.rs:84-94 | a use is refused exactly when this user's last use of this command is recorded, the command has a window, and less than that window has elapsed since |
| InputHandler.FirstUseAllowed | src/game/input_handler.rs:84-94 | a command the user has never completed is always allowed |
| InputHandler.OthersUnaffected | src/game/input_handler.rs:96-101 | recording a use for one command and user leaves every other command-and-user verdict unchanged |
| InputHandler.Windows | src/game/input_handler.rs:51-57 | after uses at time t, jump is allowed again exactly from t + 5 s, attack from t + 3 s and special from t + 30 s; the max-use counts play no part |
| InputHandler.InputHandler.constructor | src/game/input_handler.rs:19-57 | a new handler has the three commands (jump, attack, special) with their buttons, cooldowns and descriptions, the three rate limits, and no recorded use |
| InputHandler.InputHandler.HandleCommand | src/game/input_handler.rs:59-74 | the command is lowercased; an unknown one gives the unknown-command error and one on cooldown the cooldown error, both changing nothing; otherwise the "Executed ... command!" message is returned and the time the command finishes (after its own cooldown) is recorded for this command and user |
| InputHandler.JumpScenario | src/game/input_handler.rs:59-101 | "JUMP" runs the jump command; the same user's jump one second later is refused, another user's is not, and the first user can jump again once the window has passed |
| TosCompliance.DetectViolation | src/safety/tos_compliance.rs:98-112 | each verdict holds exactly when its own rule fires and no earlier rule does: self-promotion for "follow" with "my" or "me", personal info for "face", "real name" or "where", backseating for "you should" with "play" or "do", and no verdict when none fires |
| TosCompliance.OnlyThreeVerdicts | src/safety/tos_compliance.rs:98-112 | detection only ever reports self-promotion, personal info or backseating; harassment, NSFW, spoilers and unsolicited advice are never detected |
| TosCompliance.FriendlyResponse | src/safety/tos_compliance.rs:114-120 | a type with replies gets one of its own replies, picked by the random choice; a type without replies gets the fixed fallback message |
| TosCompliance.DetectedHaveReplies | src/safety/tos_compliance.rs:62-86 | every type that can be detected has its own two replies, so the fallback is never used on a detected violation |
| TosCompliance.CheckMessage | src/safety/tos_compliance.rs:88-96 | a reply is given exactly when the lowercased message breaks a rule, and it is one of that rule's own replies |
| TosCompliance.CaseInsensitive | src/safety/tos_compliance.rs:89 | two messages that lowercase to the same text get the same answer |
| TosCompliance.SubstringExample | src/safety/tos_compliance.rs:99-100 | matching is by substring, so "follow the meta" counts as self-promotion because "me" occurs in "meta" |
| TosCompliance.FollowTheMeta | src/safety/tos_compliance.rs:99 | "follow the meta" contains both "follow" and "me" |
| ModSystem.ActionFor | src/safety/mod_system.rs:52-56 | the escalation always chooses a ban, a timeout or a warning, never a delete or a mod call |
| ModSystem.ActionForCases | src/safety/mod_system.rs:52-56 | a ban exactly at severity 8 or more; a warning exactly when the severity is below 5 and the user has fewer than three warnings; a timeout in every other case |
| ModSystem.NoFourthWarning | src/safety/mod_system.rs:54 | a user who already has three warnings is timed out or banned, never warned again |
| ModSystem.DurationFor | src/safety/mod_system.rs:76-79 | an action has a duration exactly when it is a timeout, and then it is ten minutes |
| ModSystem.ModSystem.GetWarningCount | src/safety/mod_system.rs:117-119 | a user never warned has count 0, and no count exceeds three since warnings stop at three |
| ModSystem.ModSystem.constructor | src/safety/mod_system.rs:35-45 | a new system has no moderators, no history, no warnings, no bans and has sent nothing |
| ModSystem.ModSystem.AddModerator | src/safety/mod_system.rs:47-49 | the user joins the moderator set |
| ModSystem.ModSystem.HandleViolation | src/safety/mod_system.rs:51-59 | the action chosen from the severity and the user's warning count is recorded and broadcast under the bot's name, with a ten-minute duration for a timeout; a warning raises the user's count by one and a ban adds them to the banned set; moderators are untouched and the call succeeds |
| ModSystem.ModSystem.ExecuteModAction | src/safety/mod_system.rs:75-103 | the action is appended to the history and broadcast; only a warning changes the warning counts (the user's goes up by one) and only a ban changes the banned set |
| ModSystem.ModSystem.CallMods | src/safety/mod_system.rs:61-73 | a mod call from "System" with no duration is broadcast and the history is not touched |
| ModSystem.ModSystem.IsBanned | src/safety/mod_system.rs:109-111 | true exactly for banned users |
| ModSystem.ModSystem.IsModerator | src/safety/mod_system.rs:113-115 | true exactly for moderators |
| ModSystem.SevereFirstViolationBans | src/safety/mod_system.rs:51-59 | a first violation of severity 8 bans the user without any warning |
| ModSystem.MildViolationsEscalate | src/safety/mod_system.rs:51-59 | three mild violations give three warnings; the fourth is a timeout and leaves the count at three |
| YouTubeManager.NextIndex | src/youtube/manager.rs:83 | the next cursor stays inside the playlist: one further on, or back to the first video after the last |
| YouTubeManager.PrevIndex | src/youtube/manager.rs:93-97 | the previous cursor stays inside the playlist: one back, or the last video when at the first |
| YouTubeManager.PrevUndoesNext | src/youtube/manager.rs:80-102 | stepping back after stepping forward returns to the same video |
| YouTubeManager.NextUndoesPrev | src/youtube/manager.rs:80-102 | stepping forward after stepping back returns to the same video |
| YouTubeManager.StepsAround | src/youtube/manager.rs:83 | k forward steps move the cursor k places around the circle, and as many steps as there are videos bring it back to where it started |
| YouTubeManager.Advance | src/youtube/manager.rs:83 | any number of forward steps keeps the cursor on a video of the playlist |
| YouTubeManager.VideoAt | src/youtube/manager.rs:84 | a video is returned exactly when the index is inside the list, and it is the video at that index |
| YouTubeManager.YouTubeManager.constructor | src/youtube/manager.rs:28-35 | a new manager has no playlists and no current playlist |
| YouTubeManager.YouTubeManager.CreatePlaylist | src/youtube/manager.rs:70-78 | the playlist is stored under its name at its first video, replacing any playlist of that name; other playlists are unchanged |
| YouTubeManager.YouTubeManager.NextVideo | src/youtube/manager.rs:80-88 | with no current playlist (or one not stored) nothing changes and None is returned; otherwise only the current playlist's cursor moves one on, wrapping, and the video there is returned |
| YouTubeManager.YouTubeManager.PreviousVideo | src/youtube/manager.rs:90-102 | with no current playlist nothing changes and None is returned; otherwise only the current playlist's cursor moves one back, wrapping to the last video, and the video there is returned |
| YouTubeManager.NavigationNeverPlays | src/youtube/manager.rs:24-102 | since nothing ever sets the current playlist, next and previous return None even right after a playlist is created |
| YouTubeDuration.ParseDuration | src/voice/youtube.rs:183-210 | the loop returns the value of the duration scan: 'P' and 'T' are skipped, digits build a pending number, and 'H', 'M' and 'S' add it times 3600, 60 and 1 and reset it |
| YouTubeDuration.RunConcat | src/voice/youtube.rs:187-207 | scanning a concatenation is scanning the first part and then the second from where it left off |
| YouTubeDuration.ReadNumber | src/voice/youtube.rs:202-204 | right after a designator, reading the decimal digits of n leaves n pending and the total unchanged |
| YouTubeDuration.DigitsKeepTotal | src/voice/youtube.rs:202-204 | digits only change the pending number, never the total |
| YouTubeDuration.TrailingDigitsDropped | src/voice/youtube.rs:183-210 | digits after the last designator are dropped from the result |
| YouTubeDuration.ParseFormatted | src/voice/youtube.rs:183-210 | every ISO 8601 "PT<h>H<m>M<s>S" parses to 3600 h + 60 m + s seconds |
| YouTubeDuration.DurationExamples | src/voice/youtube.rs:183-210 | "PT1H2M3S" is 3723 seconds; the empty string is 0; "PT5" is 0 (no designator); "PT1M5" is 60; "P1M" (one month) is read as 60 seconds, since 'M' is always minutes |
| VersionControl.ParseU32 | src/model/version_control.rs:92 | a field parses as a u32 only to a value that fits in 32 bits (an optional '+' then ASCII digits) |
| VersionControl.Fields | src/model/version_control.rs:91-93 | a version string gives one number per '.'-separated field |
| VersionControl.Bumped | src/model/version_control.rs:95-107 | the increment always yields exactly three numbers |
| VersionControl.IncrementVersion | src/model/version_control.rs:90-110 | the method mutating its vector of parts returns the rendered bumped fields of the version string |
| VersionControl.BumpedPatchBelowTen | src/model/version_control.rs:98-100 | the patch number of every incremented version is a single digit |
| VersionControl.BumpedIsDecimalSuccessor | src/model/version_control.rs:97-107 | for single-digit minor and patch numbers the increment is a decimal counter: 100 major + 10 minor + patch grows by exactly one and the digits stay single |
| VersionControl.ParseRendered | src/model/version_control.rs:92 | the decimal form of any 32-bit number parses back to that number |
| VersionControl.FieldsOfRender | src/model/version_control.rs:91-93 | splitting a rendered "a.b.c" at '.' and parsing gives back a, b and c |
| VersionControl.NoDotInNumber | src/model/version_control.rs:109 | a rendered number contains no '.', so rendering then splitting keeps exactly three fields |
| VersionControl.IncrementRendered | src/model/version_control.rs:90-110 | incrementing a rendered version is the same as bumping its three numbers directly: the string form round-trips |
| VersionControl.PatchCarries | src/model/version_control.rs:98-101 | "1.0.9" becomes "1.1.0" |
| VersionControl.MinorCarries | src/model/version_control.rs:102-105 | "1.9.9" becomes "2.0.0" |
| VersionControl.WrongFieldCount | src/model/version_control.rs:95-96 | a version without exactly three fields becomes 1.0.0 |
| VersionControl.NonNumericFields | src/model/version_control.rs:92 | non-numeric fields read as 0, so "x.y.z" becomes 0.0.1 |
| VersionControl.ModelVersionControl.constructor | src/model/version_control.rs:49-56 | a new store has no versions, current version "1.0.0", no working branch, and backups enabled |
| VersionControl.ModelVersionControl.CreateWorkingBranch | src/model/version_control.rs:58-65 | when the current version is not stored the call fails with "Current version not found" and nothing changes; otherwise the current version's snapshot is copied under the branch name, which becomes the working branch |
| VersionControl.ModelVersionControl.CommitChanges | src/model/version_control.rs:67-75 | with a stored working branch, its snapshot gets the changes appended and its timestamp set to now; otherwise nothing changes; the call always succeeds |
| VersionControl.ModelVersionControl.MergeToMain | src/model/version_control.rs:77-88 | with a stored working branch, its snapshot is stored under the incremented version, which becomes current, and the working branch is cleared (the branch entry stays); otherwise nothing changes; the call always succeeds |
| VersionControl.FreshInstanceCannotBranch | src/model/version_control.rs:49-65 | a new store holds no versions, so creating a branch fails with "Current version not found" |
| TaskManager.TaskManager.constructor | src/automation/task_manager.rs:82-87 | a new manager has no tasks and no execution history |
| TaskManager.TaskManager.ScheduleTask | src/automation/task_manager.rs:89-94 | the task list becomes the push of the task followed by a stable sort by next run: it stays ordered by next run and grows by one |
| TaskManager.TaskManager.GetNextTask | src/automation/task_manager.rs:96-99 | None exactly when no task is scheduled; otherwise the first task, whose next run is no later than any other's |
| TaskManager.TaskManager.ExecuteTask | src/automation/task_manager.rs:101-143 | one record for the task is appended to the history and returned: start and end times, the status still InProgress, zero CPU and memory use, no errors, and the duration in whole seconds |
| TaskManager.TaskManager.AnalyzePerformance | src/automation/task_manager.rs:145-154 | the report counts the executions and reports zero for the success rate and the average duration |
| TaskManager.SameTimeScenario | src/automation/task_manager.rs:89-99 | two tasks due at the same time stay in the order they were scheduled, a task due earlier goes before both and is the next task |
| Collections.InsertStable | src/automation/task_manager.rs:91-92 | a push followed by a stable sort on a sorted list puts the new element after every element whose key is no greater, with the others in their old order |
| Collections.InsertStableSorted | src/automation/task_manager.rs:91-92 | the insertion keeps the list sorted by the key and adds exactly the new element (a permutation of the old list plus it) |
| Scheduler.WeekCovers | src/stream/scheduler.rs:196-204 | seven successive days from any start meet every weekday, so the week scan can reach any day |
| Scheduler.DefaultDays | src/stream/scheduler.rs:66-179 | the default timetable streams on exactly Monday, Wednesday, Friday and Saturday, once each |
| Scheduler.FirstAfter | src/stream/scheduler.rs:187-193 | None exactly when none of today's streams starts after now; otherwise a stream of the list starting after now with every stream before it starting no later than now (the first such) |
| Scheduler.FirstOfDays | src/stream/scheduler.rs:196-204 | None exactly when none of the scanned days has a stream; otherwise the first stream of a scanned day that has one, with no earlier scanned day having any |
| Scheduler.NextStreamNone | src/stream/scheduler.rs:181-207 | there is no next stream exactly when no weekday has any stream |
| Scheduler.TodayFirst | src/stream/scheduler.rs:187-193 | a stream later today is chosen before any stream of another day |
| Scheduler.NextStreamTitle | src/stream/scheduler.rs:239-251 | with no announced stream the default title; otherwise a title that contains the stream's title template |
| Scheduler.RequiredResources | src/stream/scheduler.rs:253-279 | the three base resources (OBS, chat, voice) come first, then three more for security and gaming, two for tokusatsu and none for the rest |
| Scheduler.ResourcesDistinct | src/stream/scheduler.rs:253-279 | no resource is listed twice for any stream type |
| Scheduler.PreparationTasks | src/stream/scheduler.rs:214-237 | every stream type gets three preparation tasks |
| Scheduler.ScanToday | src/stream/scheduler.rs:187-193 | the loop over today's streams returns the first one starting after now, or None |
| Scheduler.ScanWeek | src/stream/scheduler.rs:196-206 | the loop over seven days from tomorrow returns the first stream of the first day that has one, or None |
| Scheduler.StreamScheduler.constructor | src/stream/scheduler.rs:58-64 | a new scheduler holds the default timetable (three-hour streams, ten-minute breaks, half an hour of preparation, no special events) with no stream announced |
| Scheduler.StreamScheduler.GetNextStream | src/stream/scheduler.rs:181-207 | the next stream is a stream later today if there is one, otherwise the first stream of the next day that has any, looking a whole week ahead |
| Scheduler.StreamScheduler.AddSpecialEvent | src/stream/scheduler.rs:209-212 | the event is pushed and the list stably sorted by date, so the events stay in date order and grow by one; the rest of the schedule is unchanged |
| Scheduler.StreamScheduler.GenerateNextStreamTitle | src/stream/scheduler.rs:239-251 | the title is the framed title of the announced stream, or the default title |
| Scheduler.FreshScheduler | src/stream/scheduler.rs:58-251 | since nothing ever announces a stream, the title is always the default one; on a Tuesday the next stream is Wednesday's |
| SecurityBase.GetTopicInfo | src/security/knowledge_base.rs:126-128 | a topic is returned exactly when the id is known, and it is the topic stored under that id |
| SecurityBase.TopicsOf | src/security/knowledge_base.rs:132-134 | the result is no longer than the id list, as long exactly when every id has a topic, and holds exactly the topics of the ids that have one |
| SecurityBase.TopicsOfAppend | src/security/knowledge_base.rs:132-134 | topics keep the order of their ids: the topics of two id lists in a row are the first list's topics followed by the second's |
| SecurityBase.SuggestLearningPath | src/security/knowledge_base.rs:130-136 | None exactly for an unknown interest; otherwise the path's topics in path order, ids without a topic skipped |
| SecurityBase.GetRecentVulnerabilities | src/security/knowledge_base.rs:138-140 | the first min(count, number known) vulnerabilities, in stored order |
| SecurityBase.RecentIsPrefix | src/security/knowledge_base.rs:138-140 | asking for more vulnerabilities returns an extension of what asking for fewer returned |
| SecurityBase.InitialPathSuggestions | src/security/knowledge_base.rs:39-136 | in a new base the pentester path offers network basics then web security (exploitation has no topic), the defender path only network basics, and any other interest gets nothing |
| SecurityBase.RecentExamples | src/security/knowledge_base.rs:86-140 | a new base knows only Log4Shell, so asking for five gives just it and asking for none gives nothing |
| SecurityKnowledge.SecurityKnowledge.constructor | src/knowledge/security_knowledge.rs:42-107 | a new store holds the network, web and system security topics with one lesson each, no references, and was updated now |
| SecurityKnowledge.SecurityKnowledge.GetTopicInfo | src/knowledge/security_knowledge.rs:109-111 | a list is returned exactly when the topic is populated, and it is that topic's list |
| SecurityKnowledge.SecurityKnowledge.AddKnowledgeEntry | src/knowledge/security_knowledge.rs:113-119 | the entry is appended to its topic's list, or starts a one-entry list for a missing topic; other topics are unchanged |
| SecurityKnowledge.SecurityKnowledge.SearchByTag | src/knowledge/security_knowledge.rs:121-131 | the nested loops return, topic by topic in the map's order, exactly the stored entries having a tag equal to the query ignoring case |
| SecurityKnowledge.SecurityKnowledge.GetByDifficulty | src/knowledge/security_knowledge.rs:133-143 | the nested loops return exactly the stored entries of the requested difficulty |
| SecurityKnowledge.SecurityKnowledge.UpdateEntry | src/knowledge/security_knowledge.rs:145-153 | true exactly when the topic is populated and holds an entry with the title; then only the first such entry is replaced; otherwise nothing changes |
| SecurityKnowledge.NetworkLessonTagged | src/knowledge/security_knowledge.rs:60 | the network lesson's tag "networking" matches the query "NETWORKING" |
| SecurityKnowledge.WebLessonUntagged | src/knowledge/security_knowledge.rs:79 | no tag of the web lesson matches "NETWORKING" |
| SecurityKnowledge.SystemLessonUntagged | src/knowledge/security_knowledge.rs:98 | no tag of the system lesson matches "NETWORKING" |
| SecurityKnowledge.SelectFirstOfThree | src/knowledge/security_knowledge.rs:123-129 | over three topics with one entry each, a test that only the first entry passes selects just that entry |
| SecurityKnowledge.NetworkingTagSearch | src/knowledge/security_knowledge.rs:42-131 | searching "NETWORKING" over the initial topics finds the network lesson and nothing else |
| SecurityKnowledge.TagSearchExample | src/knowledge/security_knowledge.rs:42-131 | a new store's search for "NETWORKING" returns only the network lesson, whatever order the map visits its topics in |
| Collections.Collect | src/knowledge/network_knowledge.rs:82-89 | the nested loops over a map's lists, in the map's visiting order, keep exactly the elements that pass the test and are in some list |
| Collections.Position | src/knowledge/security_knowledge.rs:147 | nothing exactly when no element passes the test; otherwise the index of an element that passes it, with no earlier element passing it; `update_entry` searches with it by title, and `complete_objective` (src/games/minecraft/trainer.rs:156-157) by name |
| DefenseSystem.CountermeasuresDistinct | src/security/defense_system.rs:88-113 | two different kinds of attack never get the same defense message |
| DefenseSystem.RandomTaunt | src/security/defense_system.rs:138-140 | the random taunt is always one of the system's taunts |
| DefenseSystem.SecurityDefenseSystem.constructor | src/security/defense_system.rs:41-62 | a new system has seen no attack, blocked no address, sent nothing, and holds the eight taunts |
| DefenseSystem.SecurityDefenseSystem.GenerateDefenseResponse | src/security/defense_system.rs:87-120 | the response carries the fixed message and countermeasure of the attack's kind and one of the taunts |
| DefenseSystem.SecurityDefenseSystem.HandleAttack | src/security/defense_system.rs:64-85 | the attack is always logged and its source address blocked; with no subscriber the broadcast fails and nothing is spoken; otherwise the attack is broadcast, and a taunt is spoken unless the voice channel is closed, in which case the call fails; every attack seen has its source blocked |
| DefenseSystem.SecurityDefenseSystem.IsIpBlocked | src/security/defense_system.rs:156-158 | true exactly for blocked addresses |
| DefenseSystem.BlockedStaysBlocked | src/security/defense_system.rs:64-85 | once an attack is handled its source stays blocked after a later attack, whether or not the notifications went through, and both attacks are in the history in order |
| ContentFilter.ContentFilter.constructor | src/moderation/content_filter.rs:15-52 | a new filter holds the five allowed mild swears, the two banned words and the four sensitive topics |
| ContentFilter.ContentFilter.IsProfanity | src/moderation/content_filter.rs:84-93 | a word is profanity exactly when it is banned and not an allowed swear: an allowed swear never is, even if banned |
| ContentFilter.ContentFilter.ContainsBannedWords | src/moderation/content_filter.rs:95-98 | true exactly when some banned word occurs at some position of the message |
| ContentFilter.ContentFilter.ContainsSensitiveTopics | src/moderation/content_filter.rs:100-103 | true exactly when some sensitive topic occurs at some position of the message |
| ContentFilter.ContentFilter.ContainsOnlyAllowedSwears | src/moderation/content_filter.rs:76-82 | true exactly when every whitespace-separated word of the message is an allowed swear or not a banned word |
| ContentFilter.ContentFilter.CleanMessageHasOnlyAllowedWords | src/moderation/content_filter.rs:76-98 | a message containing no banned word as a substring has no profane word, since a word equal to a banned word is itself an occurrence of it; so the allowed-swears test always passes once the banned-word test has |
| ContentFilter.ContentFilter.FilterMessage | src/moderation/content_filter.rs:54-74 | the message is rejected exactly when its lowercase form contains a banned word or a sensitive topic; otherwise it is returned unchanged, in its original casing, and holds only allowed words |
| ContentFilter.ContentFilter.GetSafeResponse | src/moderation/content_filter.rs:123-133 | nothing exactly when the filter rejects the message; otherwise the message itself when the model finds it safe, and the friendly fallback reply when it does not |
| ContentFilter.ContentFilter.UpdateAllowedSwears | src/moderation/content_filter.rs:135-141 | allowing adds the word to the allowed swears and disallowing removes it; the other sets are unchanged |
| ContentFilter.WhateverHoldsHate | src/moderation/content_filter.rs:95-98 | "whatever" is already lowercase and contains the banned word "hate" |
| ContentFilter.GgEzHoldsNothing | src/moderation/content_filter.rs:54-65 | "GG ez" lowercases to "gg ez", which contains no banned word and no sensitive topic |
| ContentFilter.SubstringMatchExamples | src/moderation/content_filter.rs:54-74 | since matching is by substring, a new filter rejects "whatever" (it contains "hate") and passes "GG ez" with its casing |
| ContentFilter.AllowingAWordClearsIt | src/moderation/content_filter.rs:84-93 | once a word is allowed it is never profanity, even if it is also banned |
| KnowledgeBase.KnowledgeBase.constructor | src/knowledge/base.rs:77-250 | a new base holds the built-in tokusatsu, anime, cybersecurity and gaming entries and an empty response cache |
| KnowledgeBase.KnowledgeBase.GenerateResponse | src/knowledge/base.rs:268-302 | for a query whose tokusatsu entry, if any, has a fun fact: no answer exactly when none of the four maps knows the query; otherwise the answer comes from the first map that knows it, in the order tokusatsu, anime, cybersecurity, gaming, in that map's answer format |
| KnowledgeBase.KnowledgeBase.GetResponse | src/knowledge/base.rs:252-266 | a cached answer is returned as stored and its hit count goes up by one; otherwise, for a query whose tokusatsu entry, if any, has a fun fact, the generated answer is returned and, when there is one, cached with one hit; a query nobody knows leaves the cache unchanged |
| KnowledgeBase.KnowledgeBase.CacheResponse | src/knowledge/base.rs:304-310 | the query's cache entry becomes the response, stamped now, with one hit, replacing any earlier entry |
| KnowledgeBase.KnowledgeBase.GetRandomFact | src/knowledge/base.rs:312-326 | when every entry of the chosen category has a fun fact (tokusatsu) or a best practice (cybersecurity) and the map is non-empty, a fact exactly for the "tokusatsu" and "cybersecurity" categories: a fun fact of some tokusatsu entry, or a best practice of some cybersecurity entry, picked by the random indices; any other category gives None |
| KnowledgeBase.KnowledgeBase.UpdateSeasonalAnime | src/knowledge/base.rs:328-335 | the "current_season" entry, when present with seasonal data, is marked as airing and nothing else changes; otherwise nothing changes |
| KnowledgeBase.KnowledgeBase.AddTokusatsuInfo | src/knowledge/base.rs:337-339 | the entry is stored under its key, replacing any earlier one |
| KnowledgeBase.KnowledgeBase.AddAnimeInfo | src/knowledge/base.rs:347-349 | the entry is stored under its category, replacing any earlier one |
| KnowledgeBase.KnowledgeBase.AddSecurityInfo | src/knowledge/base.rs:362-364 | the entry is stored under its category, replacing any earlier one |
| KnowledgeBase.CacheScenario | src/knowledge/base.rs:252-339 | asking twice serves the second answer from the cache; overwriting the entry afterwards does not change the cached answer, which has then been served three times |
| KnowledgeBase.PrecedenceScenario | src/knowledge/base.rs:268-284 | a key known to two maps is answered from the earlier one: a tokusatsu entry under an anime key wins over the anime entry |
| KnowledgeBase.EmptyTriviaUnanswerable | src/scrapers/tokusatsu_scraper.rs:143-153 | an entry without fun facts, which the scraper stores for a page without trivia, is accepted by `add_tokusatsu_info`, and its key then falls outside the queries the answer operations are specified for (the source panics on `fun_facts[0]` there) |
| KnowledgeBase.UnknownQuery | src/knowledge/base.rs:252-266 | a query no map knows gets no answer and is not cached |
| GameInput.BindingsMapHas | src/games/input_system.rs:175-184 | after adding a list of bindings one by one, every binding's "game:action" key is present in the map |
| GameInput.BindingsMapValues | src/games/input_system.rs:175-184 | every binding stored in the map is one of the bindings added, and it is stored under its own "game:action" key |
| GameInput.OverwatchNoHold | src/games/input_system.rs:63-85 | no Overwatch binding holds its key |
| GameInput.ValorantNoHold | src/games/input_system.rs:87-110 | no Valorant binding holds its key |
| GameInput.MinecraftNoHold | src/games/input_system.rs:143-173 | no Minecraft binding holds its key |
| GameInput.ApexOnlySlideHolds | src/games/input_system.rs:112-141 | of the Apex bindings only the slide, bound to Control, holds its key, for 300 ms |
| GameInput.OnlySlideHolds | src/games/input_system.rs:49-61 | across all four games' default bindings, the only binding with a hold duration is Apex's slide, with 300 ms |
| GameInput.Downs | src/games/input_system.rs:190-192 | pressing a list of keys produces one key-down per key, in the same order |
| GameInput.Ups | src/games/input_system.rs:206-208 | releasing a list of keys produces one key-up per key, in the same order |
| GameInput.Reverse | src/games/input_system.rs:206 | the reversed list has the same length and holds the i-th element from the end at position i |
| GameInput.PressSequenceNested | src/games/input_system.rs:189-208 | the key events of an action are well nested: the i-th modifier pressed is the i-th from last released, the main key is pressed after all modifiers and released before any, and the length is twice the keys pressed plus one if the binding holds |
| GameInput.AddBindings | src/games/input_system.rs:49-61 | adding a list of bindings one by one to an empty map, each with `add_key_binding`, yields exactly the map those additions build, later bindings replacing earlier ones under the same "game:action" key |
| GameInput.GameInputSystem.constructor | src/games/input_system.rs:35-47 | a new system holds exactly the map built by adding the default bindings in order, with no current game, push-to-talk on Alt and off, and no key events or messages yet |
| GameInput.GameInputSystem.AddKeyBinding | src/games/input_system.rs:175-184 | the binding is stored under "game:action", replacing any binding there, and no other entry changes |
| GameInput.GameInputSystem.PressAll | src/games/input_system.rs:190-192 | the key log grows by one key-down per modifier, in order |
| GameInput.GameInputSystem.ReleaseAllReversed | src/games/input_system.rs:206-208 | the key log grows by one key-up per modifier, last modifier first |
| GameInput.GameInputSystem.PerformAction | src/games/input_system.rs:186-214 | an unbound action changes nothing and succeeds; a bound action appends the binding's nested press sequence to the key log and sends one key press of its main key, failing with the channel error, the key log already extended, when the input channel is closed |
| GameInput.GameInputSystem.TogglePushToTalk | src/games/input_system.rs:216-227 | the push-to-talk flag flips; the key goes down when it becomes active and up when it becomes inactive; the new state is sent, the call failing with the channel error, the flag and key already changed, when the input channel is closed |
| GameInput.GameInputSystem.MoveMouse | src/games/input_system.rs:229-233 | the mouse cursor moves to the given point and a mouse-move event with the same coordinates is sent, the call failing with the channel error, the cursor already moved, when the input channel is closed |
| GameInput.GameInputSystem.Send | src/games/input_system.rs:211 | an open input channel takes the event, appended to what was sent, and the send succeeds; a closed one takes nothing and the send fails with the channel error |
| GameInput.GameInputSystem.SetCurrentGame | src/games/input_system.rs:235-237 | the current game becomes the given name |
| GameInput.ToggleTwice | src/games/input_system.rs:216-227 | toggling twice returns push-to-talk to off, having pressed and then released Alt, and sends true then false |
| GameInput.RebindScenario | src/games/input_system.rs:175-214 | an action bound to a key with Control as modifier presses Control, then the key, releases them in reverse order and sends one key press |
| Karaoke.KaraokeManager.constructor | src/voice/karaoke.rs:41-59 | a new manager is inactive, outside a subathon, with nothing playing, an empty queue and nothing announced |
| Karaoke.KaraokeManager.StartKaraoke | src/voice/karaoke.rs:61-69 | outside a subathon the call fails with the subathon-only message and changes nothing; during one, karaoke becomes active and the activation message is sent, the call failing with the channel error, and nothing announced, when the voice channel is closed |
| Karaoke.KaraokeManager.QueueSong | src/voice/karaoke.rs:71-82 | while inactive the call fails with the not-active message and changes nothing; while active the song joins the back of the queue and an "Added … by …" message is sent, the call failing with the channel error, the song still queued, when the voice channel is closed |
| Karaoke.KaraokeManager.ProcessNextSong | src/voice/karaoke.rs:84-98 | with an empty queue nothing changes and the call succeeds; otherwise the front song is removed from the queue and becomes the current song, and "Now singing" is sent, the call failing with the channel error when the voice channel is closed |
| Karaoke.KaraokeManager.StopKaraoke | src/voice/karaoke.rs:273-279 | karaoke becomes inactive with no current song and an empty queue, and the deactivation message is sent, the call failing with the channel error when the voice channel is closed |
| Karaoke.KaraokeManager.Announce | src/voice/karaoke.rs:67 | an open voice channel takes the message, appended to what was announced, and the send succeeds; a closed one takes nothing and the send fails with the channel error |
| Karaoke.FreshManagerNeverSings | src/voice/karaoke.rs:41-82 | since nothing sets the subathon flag, a fresh manager refuses to start karaoke and then refuses every song |
| Karaoke.CountSyllables | src/voice/karaoke.rs:151-166 | the loop with its previous-letter flag returns the number of maximal vowel runs in the lowercased word, or 1 if there is none |
| Karaoke.NoRunsIffNoVowel | src/voice/karaoke.rs:157-165 | no vowel run is counted exactly when the word contains no vowel, which is exactly when the syllable count falls back to 1 |
| Karaoke.RunsBound | src/voice/karaoke.rs:157-163 | vowel runs are separated by non-vowels, so twice the number of runs is at most the length, plus one if the word ends in a vowel |
| Karaoke.SyllablesBounds | src/voice/karaoke.rs:151-166 | every word has at least one syllable and a non-empty word at most half its length rounded up |
| Karaoke.RunsIgnoreCase | src/voice/karaoke.rs:157 | two words equal after lowercasing have the same syllable count |
| Karaoke.SyllableExamples | src/voice/karaoke.rs:151-166 | "hello" has two syllables, "bcd" one (no vowel) and "Queue" one (a single run of four vowels) |
| MasterDuelScraper.DetermineTier | src/scrapers/master_duel_scraper.rs:178-192 | the tier is the first of God Tier, Tier 1, Tier 2, Tier 3 and Rogue whose marker the content mentions, each stated as an if-and-only-if over the markers before it, and Ojama exactly when none is mentioned |
| MasterDuelScraper.DetermineDifficulty | src/scrapers/master_duel_scraper.rs:251-254 | every deck is rated 5, inside the 1 to 10 scale |
| MasterDuelScraper.CoreCards | src/scrapers/master_duel_scraper.rs:152-162 | the core cards are at most as many as the cells, each non-empty and without leading or trailing whitespace |
| MasterDuelScraper.CoreCardsMembers | src/scrapers/master_duel_scraper.rs:152-162 | a card is listed exactly when it is non-empty and some table cell trims to it |
| MasterDuelScraper.ParseDeckPage | src/scrapers/master_duel_scraper.rs:134-176 | the deck is named by the page title, tiered by its content, rated 5, stamped now, carries the page's address and its trimmed non-blank cells as core cards, and has no tech choices or counters |
| MasterDuelScraper.FullUrl | src/scrapers/master_duel_scraper.rs:119-123 | links starting with "http" are kept as they are; any other link is prefixed with the site root |
| MasterDuelScraper.FullUrlIdempotent | src/scrapers/master_duel_scraper.rs:119-123 | a resolved link starts with "http", so resolving it again leaves it unchanged |
| MasterDuelScraper.DecksInOrder | src/scrapers/master_duel_scraper.rs:197 | listing the cache in a visiting order yields one deck per key, and exactly the decks cached under those keys |
| MasterDuelScraper.GroupingFilters | src/scrapers/master_duel_scraper.rs:194-205 | the grouping has an entry for a tier exactly when some deck has that tier, and that entry is the decks of that tier in their original order |
| MasterDuelScraper.GroupingMembers | src/scrapers/master_duel_scraper.rs:194-205 | a deck is filed under a tier exactly when it is one of the decks and has that tier, and every deck's tier has an entry |
| MasterDuelScraper.FileSizeOver | src/scrapers/master_duel_scraper.rs:198-201 | filing one deck adds one to the deck count over a list of tiers for each time the list names the deck's tier |
| MasterDuelScraper.FileTotal | src/scrapers/master_duel_scraper.rs:198-201 | filing one deck adds exactly one to the total over all six tiers |
| MasterDuelScraper.TierListedOnce | src/scrapers/master_duel_scraper.rs:178-192 | each of the six tiers occurs exactly once in the list of all tiers |
| MasterDuelScraper.GroupingTotal | src/scrapers/master_duel_scraper.rs:194-205 | grouping files every deck exactly once: the entries' sizes add up to the number of decks |
| MasterDuelScraper.MasterDuelScraper.constructor | src/scrapers/master_duel_scraper.rs:40-53 | a new scraper has an empty cache and records the current time as its last scrape |
| MasterDuelScraper.MasterDuelScraper.GroupCachedDecksByTier | src/scrapers/master_duel_scraper.rs:194-205 | the result is the grouping of the cached decks in visiting order: every cached deck is filed under its own tier, only decks of a tier are filed under it, and the sizes add up to the number of cached decks |
| MasterDuelScraper.Visited | src/scrapers/master_duel_scraper.rs:113-129 | after scraping a list of links the cache holds exactly the links it held before plus the listed links whose page can be fetched; a link cached before keeps its deck, and a newly cached link holds its fetched page parsed under its full address |
| MasterDuelScraper.CachedDecksMembers | src/scrapers/master_duel_scraper.rs:96-103 | a deck is listed for a tier exactly when some followed link is cached with it |
| MasterDuelScraper.CachedDecksAgree | src/scrapers/master_duel_scraper.rs:96-103 | the deck list depends only on what the cache holds for the followed links, so later additions under other links do not change it |
| MasterDuelScraper.VisitedStep | src/scrapers/master_duel_scraper.rs:113-129 | scraping one more link leaves the cache unchanged when the link is cached or its fetch fails, and otherwise adds exactly that link with its parsed page |
| MasterDuelScraper.ScrapeLinkStep | src/scrapers/master_duel_scraper.rs:96-103 | whatever `scrape_deck_page` answers for the next archive link, the cache becomes the cache of the links so far plus that one, and the tier's deck list gains the answered deck exactly when the answer is a deck |
| MasterDuelScraper.VisitedTwice | src/scrapers/master_duel_scraper.rs:67-72 | scraping the same links a second time (the next tier heading) fetches nothing new: the cache is already complete for them |
| MasterDuelScraper.MasterDuelScraper.ScrapeTier | src/scrapers/master_duel_scraper.rs:80-109 | the page's links are followed in document order, archive links only; the cache gains every uncached archive link whose page can be fetched, the decks listed are those cached under the followed links in link order, and a link whose fetch fails is skipped |
| MasterDuelScraper.MasterDuelScraper.ScrapeTierList | src/scrapers/master_duel_scraper.rs:55-77 | less than 24 hours after the last scrape the cached decks are served grouped by tier and nothing changes; a failed fetch of the tier page returns its error and nothing changes; otherwise every tier whose heading the page has lists the decks of all the page's archive links, the cache grows by every deck page newly fetched, and the scrape is stamped now |
| MasterDuelScraper.OneLinkScraped | src/scrapers/master_duel_scraper.rs:96-129 | scraping a single fetchable archive link into an empty cache caches and lists exactly that link's deck |
| MasterDuelScraper.FreshScrapeCachesDeck | src/scrapers/master_duel_scraper.rs:55-129 | a day after construction, a tier page with the God Tier heading and one relative archive link gives that link's deck under God, and the cache now holds that deck under the link |
| MasterDuelScraper.MasterDuelScraper.ScrapeDeckPage | src/scrapers/master_duel_scraper.rs:113-132 | a cached link is answered from the cache and nothing changes; a failed fetch returns its error and leaves the cache unchanged; a fetched page is parsed under its full address and cached under the link as given |
| MasterDuelScraper.FirstCallServesCache | src/scrapers/master_duel_scraper.rs:40-62 | a tier-list request less than a day after construction serves the empty cache grouped, that is an empty tier list |
| MasterDuelScraper.SecondVisitCached | src/scrapers/master_duel_scraper.rs:113-132 | once a deck page has been fetched, a second request for the same link returns the same deck, even when the network would now fail |
| Minecraft.Trained | src/games/minecraft/trainer.rs:134-139 | training adds the gained amount to the experience without resetting it, keeps the name and milestones, and raises the level by one exactly when the new experience reaches 100 times the old level |
| Minecraft.TrainedLevelStep | src/games/minecraft/trainer.rs:133-147 | one call raises a level by at most one however much experience is gained, and by exactly one when the old experience already reached the threshold and the gain is not negative |
| Minecraft.NextObjectiveIndex | src/games/minecraft/trainer.rs:149-153 | there is no next objective exactly when all are completed; otherwise the chosen one is incomplete, has the least priority among the incomplete ones, and comes first among those tied with it |
| Minecraft.SurvivalNext | src/games/minecraft/trainer.rs:114-131 | survival mode sets two incomplete objectives of priorities 1 and 2, and the shelter, priority 1, is the next one |
| Minecraft.CompletingNextAdvances | src/games/minecraft/trainer.rs:149-163 | once the proposed next objective is marked complete, it is no longer proposed |
| Minecraft.MinecraftTrainer.constructor | src/games/minecraft/trainer.rs:39-82 | a new trainer knows only the crafting-table recipe and the building skill at level 1 with no experience, and has no objectives and no achievements |
| Minecraft.MinecraftTrainer.LearnRecipe | src/games/minecraft/trainer.rs:84-93 | an unknown recipe is the "Recipe not found" error; a known one yields its name and its ingredients joined by commas |
| Minecraft.MinecraftTrainer.SetObjectives | src/games/minecraft/trainer.rs:95-112 | the objectives are replaced, not extended: by the two survival objectives in survival mode, and by what the mode's helper adds otherwise |
| Minecraft.MinecraftTrainer.UpdateSkill | src/games/minecraft/trainer.rs:133-147 | an unknown skill is the "Skill not found" error and nothing changes; a known skill alone is trained, and the report is a level-up message exactly when the level rose, otherwise the experience gained |
| Minecraft.MinecraftTrainer.GetNextObjective | src/games/minecraft/trainer.rs:149-153 | there is no next objective exactly when all are completed; otherwise the result is an incomplete current objective |
| Minecraft.MinecraftTrainer.CompleteObjective | src/games/minecraft/trainer.rs:155-163 | when no objective has the name the call fails with "Objective not found" and nothing changes; otherwise only the first objective with that name is marked completed and the completion message names it |
| Minecraft.FreshTrainerSkill | src/games/minecraft/trainer.rs:66-82 | a fresh trainer knows only the building skill, so training any other skill fails with "Skill not found" |
| NeuralChat.ToneOf | src/ai/neural_chat.rs:428-432 | a sentiment above 0.7 is cheerful, one below 0.3 comforting, and anything in between calm, each as an if-and-only-if |
| NeuralChat.AdjustResponseTone | src/ai/neural_chat.rs:424-433 | the toned reply starts with the reply itself followed by a space, and is longer than it |
| NeuralChat.ToneInjective | src/ai/neural_chat.rs:424-433 | two toned replies are equal exactly when their replies are equal and their sentiments fall in the same tone band, so the reply and the tone can be read back |
| NeuralChat.FaceHasNoSpace | src/ai/neural_chat.rs:429-431 | none of the three faces contains a space, so the last space of a toned reply separates reply and face |
| NeuralChat.SumBounds | src/ai/neural_chat.rs:440-442 | when every sentiment lies between two bounds, the sum lies between the count times each bound |
| NeuralChat.ChatMood | src/ai/neural_chat.rs:435-445 | the mood is 0.5 for an empty history and otherwise the mean sentiment: the mood times the count equals the sum |
| NeuralChat.MoodBounds | src/ai/neural_chat.rs:435-445 | when every sentiment lies within bounds that also admit 0.5, the mood lies within them too |
| NeuralChat.Bulleted | src/ai/neural_chat.rs:2850-2852 | each item becomes one line, the bullet mark followed by the item, in the same order |
| NeuralChat.FormatImprovements | src/ai/neural_chat.rs:2849-2854 | the text is empty exactly when there are no improvements, and it holds every improvement behind the bullet mark |
| NeuralChat.ImprovementLines | src/ai/neural_chat.rs:2849-2854 | no improvements give the empty text; otherwise, when no item spans lines, splitting the text at newlines gives back exactly the bulleted items |
| NeuralChat.EscapeDebug | src/ai/neural_chat.rs:2858 | the debug escaping of a string never contains a newline |
| NeuralChat.DebugSource | src/ai/neural_chat.rs:2498-2502 | the debug text of a learning source never contains a newline |
| NeuralChat.FormatLearningSources | src/ai/neural_chat.rs:2856-2861 | the text is empty exactly when there are no sources, and it holds the debug form of every source behind the bullet mark |
| NeuralChat.LearningSourceLines | src/ai/neural_chat.rs:2856-2861 | a non-empty list of sources formats as exactly one line per source, whatever the names contain |
| NeuralChat.NeuralChat.constructor | src/ai/neural_chat.rs:386-398 | a new chat core has an empty history and a capacity of ten |
| NeuralChat.NeuralChat.AddContext | src/ai/neural_chat.rs:417-422 | the history never exceeds its capacity; below capacity the message is appended at the back; at capacity the oldest is dropped and the new one appended |
| NeuralChat.NeuralChat.GenerateResponse | src/ai/neural_chat.rs:400-415 | the message, with its sentiment and time, is remembered at the back of the bounded history, and the reply is the model's answer toned by the message's sentiment |
| NeuralChat.NeuralChat.GetChatMood | src/ai/neural_chat.rs:435-445 | the mood of the chat core is the mood of its current history |
| NeuralChat.ElevenMessages | src/ai/neural_chat.rs:417-422 | eleven messages into a fresh chat core leave a history of ten |
| Overwatch.RankIndex | src/games/overwatch/trainer.rs:73-83 | every rank has a position in the list of ranks from Bronze to Top500, and the rank at that position is itself |
| Overwatch.RankBands | src/games/overwatch/trainer.rs:282-291 | below 1500 SR the rank is Bronze; from 1500 up the bands are 500 SR wide, the band number being (SR - 1000) / 500 capped at Top500 |
| Overwatch.RankMonotone | src/games/overwatch/trainer.rs:282-291 | more SR never gives a lower rank |
| Overwatch.SrAfter | src/games/overwatch/trainer.rs:268-274 | a win adds 25 SR, a draw keeps it, and a loss takes 25 off, floored at 0 |
| Overwatch.IncompleteMembers | src/games/overwatch/trainer.rs:296 | a task survives the removal of completed tasks exactly when it was scheduled and is not completed |
| Overwatch.AdjustedProperties | src/games/overwatch/trainer.rs:294-314 | after adjustment no completed task remains; a non-empty remainder is kept as it is; an empty one gets the advanced aim task exactly when aim accuracy is above 0.5 |
| Overwatch.OverwatchTrainer.constructor | src/games/overwatch/trainer.rs:86-106 | a new trainer has the four built-in heroes, the Support role, zero metrics, no matches and no schedule, and is Bronze at 1500 SR with peak 1500 and no games played |
| Overwatch.OverwatchTrainer.TrainHero | src/games/overwatch/trainer.rs:197-211 | an unknown hero is the "Hero not found" error and nothing changes; a known one gets a fresh schedule of the movement task and its role's task, and the reply names the hero and the movement focus; nothing else changes |
| Overwatch.OverwatchTrainer.GenerateTrainingTasks | src/games/overwatch/trainer.rs:213-251 | the schedule is replaced by the movement task followed by the hero role's task, both incomplete |
| Overwatch.OverwatchTrainer.UpdateProgress | src/games/overwatch/trainer.rs:253-265 | the match is appended to the history, its metrics become the skill progress, the schedule is adjusted with those metrics, and SR, games played, peak and rank are updated as one rank update; the peak never falls below the SR |
| Overwatch.OverwatchTrainer.UpdateRank | src/games/overwatch/trainer.rs:267-292 | the SR changes by the result, floored at 0, one more game is counted, the peak rises to the SR if exceeded and never falls, and the rank is the band of the new SR |
| Overwatch.OverwatchTrainer.AdjustTrainingSchedule | src/games/overwatch/trainer.rs:294-314 | the schedule becomes its incomplete tasks, or the advanced aim task alone when none remain and aim accuracy is above 0.5 |
| Overwatch.FreshTrainerRank | src/games/overwatch/trainer.rs:100-102 | a fresh trainer is ranked Bronze although its 1500 SR falls in the Silver band, until the first rank update |
| PersonalityFilter.FirstFourUnchanged | src/voice/personality_filter.rs:180-184 | text containing none of "therefore", "however", "additionally" and "utilize" passes the first four rewrites unchanged |
| PersonalityFilter.MakeConversational | src/voice/personality_filter.rs:180-186 | no "implement" is left in the result, and text containing none of the five rewritten words is returned unchanged |
| PersonalityFilter.PlainWordingKept | src/voice/personality_filter.rs:180-186 | text containing none of the five rewritten words passes all five rewrites unchanged |
| PersonalityFilter.AddLeavesNoImplement | src/voice/personality_filter.rs:185 | replacing "implement" by "add" leaves no "implement" in any text, since "add" cannot form one with its neighbours |
| PersonalityFilter.ImplementationPassesFirstFour | src/voice/personality_filter.rs:181-184 | "implementation" contains none of the first four words and passes their rewrites unchanged |
| PersonalityFilter.AtionUnchanged | src/voice/personality_filter.rs:185 | "ation" contains no "implement" and is not rewritten |
| PersonalityFilter.ImplementationExample | src/voice/personality_filter.rs:185 | replacement is by substring, case-sensitive: "implementation" becomes "addation" |
| PersonalityFilter.FirstTwo | src/voice/personality_filter.rs:171-172 | taking two pieces keeps the first two, or all of them when there are fewer |
| PersonalityFilter.SummarizeContent | src/voice/personality_filter.rs:168-178 | the summary holds no "implement", and text without a full stop is summarised as itself, made conversational |
| PersonalityFilter.SummaryKeepsTwoSentences | src/voice/personality_filter.rs:168-178 | of three dot-separated pieces only the first two are kept, joined by ". ", and then made conversational |
| PersonalityFilter.SimplifyTechContent | src/voice/personality_filter.rs:134-151 | an exact key match returns the canned explanation; any other content is made conversational, wrapped in the "So basically" frame and followed by one of the engagement phrases |
| PersonalityFilter.CannedExplanations | src/voice/personality_filter.rs:102-122 | buffer_overflow, encryption and ddos each reach their canned explanation, whatever the random choice |
| PersonalityFilter.LookupIsExact | src/voice/personality_filter.rs:136 | the lookup is exact: "DDoS" is not a key, so it gets no canned explanation |
| PersonalityFilter.GenerateReaction | src/voice/personality_filter.rs:203-210 | any context other than excited, surprised and proud gets the default "Hehe~" reaction |
| SecurityScraper.Classify | src/scrapers/security_scraper.rs:91-103 | the analysis is picked by the first of "failed login", "privilege elevation", "firewall", "malware" and "unusual" that the pattern contains, each as an if-and-only-if over the keywords before it, and the generic analysis exactly when none occurs |
| SecurityScraper.AnalyzePattern | src/scrapers/security_scraper.rs:90-106 | the description is the message filed under the analysis' key; every key is in the message table (src/constants/strings.rs:73-82), so the description is never the empty fallback |
| SecurityScraper.DetermineSeverity | src/scrapers/security_scraper.rs:108-119 | Critical exactly when the pattern mentions "critical" or "priority=1"; High exactly when it does not but mentions "high"; Low exactly when it mentions none of the five markers; Medium otherwise |
| SecurityScraper.GetRecommendations | src/scrapers/security_scraper.rs:121-131 | the loop over the recommendation table (src/constants/strings.rs:87-111) returns a recommendation exactly when it is listed under some key the pattern contains, and returns nothing exactly when the pattern contains no key |
| SecurityScraper.RecommendOrderFree | src/scrapers/security_scraper.rs:124 | whatever order the hash map is visited in, the recommendations are the same up to permutation |
| SecurityScraper.Insight | src/scrapers/security_scraper.rs:63-78 | a cached pattern is answered with its cached event; otherwise a new event stamped now, with the pattern as its source and its severity |
| SecurityScraper.Retained | src/scrapers/security_scraper.rs:133-138 | the cleanup keeps exactly the entries younger than an hour, a future stamp counting as the full hour, and keeps them unchanged |
| SecurityScraper.SecurityScraper.constructor | src/scrapers/security_scraper.rs:25-35 | a new scraper has an empty cache |
| SecurityScraper.SecurityScraper.CleanupCache | src/scrapers/security_scraper.rs:133-138 | the cache becomes the entries younger than an hour, unchanged |
| SecurityScraper.SecurityScraper.GetSecurityInsights | src/scrapers/security_scraper.rs:37-88 | after the cleanup there is one event per built-in pattern, in order, each served from the cleaned cache when present and built new otherwise; every new event is cached at now, every pattern then has an entry, and no other entry changes |
| SecurityScraper.SecurityScraper.ServePatterns | src/scrapers/security_scraper.rs:63-85 | the loop over a list of patterns returns one event per pattern, served from the cache or built new; the cache gains exactly the new patterns, each with its new event stamped now, and keeps its other entries |
| SecurityScraper.FailedLoginKeywords | src/scrapers/security_scraper.rs:49 | "failed login attempt" holds "failed login" and "failed" and none of "critical", "priority=1" and "high" |
| SecurityScraper.FailedLoginExample | src/scrapers/security_scraper.rs:49 | "failed login attempt" is analysed as a failed login, of medium severity |
| SecurityScraper.SingleKeyRecommendations | src/scrapers/security_scraper.rs:121-131 | a pattern containing exactly one recommendation key is answered with exactly that key's recommendations, whatever the visiting order |
| SecurityScraper.FailedLoginKeys | src/scrapers/security_scraper.rs:49 | of the recommendation keys, "failed login attempt" holds "login" and none of "privilege", "firewall" and "malware" |
| SecurityScraper.FailedLoginRecommendations | src/scrapers/security_scraper.rs:121-131 | "failed login attempt" is answered with exactly the login recommendations, whatever the visiting order |
| SecurityScraper.FirewallBlockKeywords | src/scrapers/security_scraper.rs:51 | "firewall block" holds "firewall" and none of the other analysis and severity keywords |
| SecurityScraper.FirewallBlockExample | src/scrapers/security_scraper.rs:51 | "firewall block" is analysed as a firewall event, of low severity |
| SecurityScraper.HighAlertKeywords | src/scrapers/security_scraper.rs:57 | "alert_severity=high sourcetype=IDS" holds "high" and not "priority=1" |
| SecurityScraper.HighAlertLacksCritical | src/scrapers/security_scraper.rs:57 | "alert_severity=high sourcetype=IDS" does not hold "critical" |
| SecurityScraper.HighAlertExample | src/scrapers/security_scraper.rs:57 | "alert_severity=high sourcetype=IDS" is of high severity |
| SecurityScraper.PriorityOneHolds | src/scrapers/security_scraper.rs:58 | "priority=1 source=firewall" holds "priority=1" and "firewall" |
| SecurityScraper.PriorityOneLacks | src/scrapers/security_scraper.rs:58 | "priority=1 source=firewall" holds neither "failed login" nor "privilege elevation" |
| SecurityScraper.PriorityOneExample | src/scrapers/security_scraper.rs:58 | "priority=1 source=firewall" is analysed as a firewall event, of critical severity |
| SecurityScraper.CacheServesWithinHour | src/scrapers/security_scraper.rs:133-138 | a cache filled at some time is kept whole at any time within the following hour, and then serves the events it was filled with |
| SecurityScraper.RepeatWithinHour | src/scrapers/security_scraper.rs:37-88 | a second request for insights within the hour reports exactly the events of the first |
| TechKnowledgeScraper.ConfidenceLevel | src/scrapers/tech_knowledge_scraper.rs:226-234 | the level of a score is the number of the thresholds 0.3, 0.5, 0.7 and 0.9 it reaches, each level stated as an if-and-only-if over a half-open band |
| TechKnowledgeScraper.FormatConfidence | src/scrapers/tech_knowledge_scraper.rs:226-234 | a score of at least 0.9 is "very high", at least 0.7 "high", at least 0.5 "moderate", at least 0.3 "developing", and anything lower "preliminary" |
| TechKnowledgeScraper.ConfidenceMonotone | src/scrapers/tech_knowledge_scraper.rs:226-234 | a higher score never gets a lower confidence level |
| TechKnowledgeScraper.LabelsDistinct | src/scrapers/tech_knowledge_scraper.rs:226-234 | two scores get the same label exactly when they reach the same level, so the label tells the level |
| TechKnowledgeScraper.CheckSponsorship | src/scrapers/tech_knowledge_scraper.rs:292-300 | the loop over the active sponsorships never fails, and reports true exactly when the lowercased topic contains the lowercased name of some active product, whatever the visiting order |
| TechKnowledgeScraper.SponsorshipIgnoresCase | src/scrapers/tech_knowledge_scraper.rs:295 | a topic is sponsored exactly when its lowercase form is, so the topic's case does not matter |
| TechKnowledgeScraper.NothingSponsoredWithoutSponsorships | src/scrapers/tech_knowledge_scraper.rs:292-300 | with no active sponsorship no topic is sponsored |
| TechKnowledgeScraper.FindFactor | src/scrapers/tech_knowledge_scraper.rs:200-201 | the search returns the first factor from the given index on whose evidence lists the point, or nothing exactly when none does |
| TechKnowledgeScraper.OpinionTextStep | src/scrapers/tech_knowledge_scraper.rs:199-209 | each further key point adds its own line, or nothing, at the end of the text |
| TechKnowledgeScraper.FormatOpinion | src/scrapers/tech_knowledge_scraper.rs:195-212 | the loop builds one line per key point that some factor backs, in the order of the key points, naming the first backing factor |
| TechKnowledgeScraper.BackedPointListed | src/scrapers/tech_knowledge_scraper.rs:199-209 | every backed key point has its line in the text, naming the first factor whose evidence lists it |
| TechKnowledgeScraper.UnbackedPointsSilent | src/scrapers/tech_knowledge_scraper.rs:199-209 | when no key point is backed by any factor, the formatted opinion is empty |
| TechKnowledgeScraper.ContainsLine | src/scrapers/tech_knowledge_scraper.rs:202-207 | a text holding a key point's line mentions the key point itself |
| TechKnowledgeScraper.Expressed | src/scrapers/tech_knowledge_scraper.rs:172-193 | an unknown topic gets the "haven't formed a complete opinion" sentence; a sponsored opinion starts with the sponsored prefix and the topic and ends with the sponsorship disclosure; a genuine one starts with "My thoughts on" and the topic and ends with the confidence label of its score |
| TechKnowledgeScraper.ExpressOpinion | src/scrapers/tech_knowledge_scraper.rs:172-193 | expressing an opinion never fails, and says what the opinion table and the formatted opinion determine for the topic |
| TechNewsScraper.LowerKeepsUtf8Len | src/scrapers/tech_news_scraper.rs:187-188 | lowercasing changes ASCII letters only, so a word's byte length is the same before and after |
| TechNewsScraper.TitleTopicsMembers | src/scrapers/tech_news_scraper.rs:186-190 | a topic comes from a title exactly when it is the lowercase form of a title word longer than three bytes, and every such topic is itself longer than three bytes |
| TechNewsScraper.AllMentionsMembers | src/scrapers/tech_news_scraper.rs:180-191 | a topic is mentioned exactly when some article has it as a tag or as a long title word |
| TechNewsScraper.TallyOf | src/scrapers/tech_news_scraper.rs:178-191 | the count map has an entry exactly for each topic that occurs |
| TechNewsScraper.CountsTally | src/scrapers/tech_news_scraper.rs:178-191 | a map that counts every topic's occurrences, and nothing else, is the count map, so the counts are unique |
| TechNewsScraper.CountStep | src/scrapers/tech_news_scraper.rs:182 | adding one to a topic's entry, or creating it at one, counts one more occurrence of that topic |
| TechNewsScraper.TallyAppend | src/scrapers/tech_news_scraper.rs:180-191 | counting is additive: one more article adds, for every topic, its occurrences among the article's tags and among its long title words |
| TechNewsScraper.ShortTopicsAreTags | src/scrapers/tech_news_scraper.rs:181-189 | a topic of at most three bytes is counted only when some article carries it as a tag |
| TechNewsScraper.LongTitleWordsCounted | src/scrapers/tech_news_scraper.rs:186-189 | every title word longer than three bytes is counted, lowercased |
| TechNewsScraper.Pairs | src/scrapers/tech_news_scraper.rs:194 | the pairs taken from the count map hold each visited topic with its count, in visiting order |
| TechNewsScraper.Ranking | src/scrapers/tech_news_scraper.rs:194-195 | the ranking is sorted by decreasing count and is a permutation of the pairs |
| TechNewsScraper.RankingStep | src/scrapers/tech_news_scraper.rs:195 | the stable sort is insertion of each next pair after the pairs of equal or higher count before it |
| TechNewsScraper.TopTopics | src/scrapers/tech_news_scraper.rs:198-201 | the result is the topics of the first ten ranked pairs, or of all of them when there are fewer |
| TechNewsScraper.RankingPairs | src/scrapers/tech_news_scraper.rs:194-195 | the ranking carries each counted topic exactly once, with its count, most frequent first |
| TechNewsScraper.TopOfRanked | src/scrapers/tech_news_scraper.rs:195-201 | the first ten of such a ranking are distinct counted topics in decreasing order of count, and no topic left out is counted more often than any topic kept |
| TechNewsScraper.CountArticle | src/scrapers/tech_news_scraper.rs:180-190 | one pass over an article counts its tags, then its long title words lowercased |
| TechNewsScraper.CountTitleWords | src/scrapers/tech_news_scraper.rs:186-190 | the loop over title words counts exactly the title topics, one occurrence per long word |
| TechNewsScraper.CountTopics | src/scrapers/tech_news_scraper.rs:178-191 | the counting loops build exactly the count map of all mentions of all articles |
| TechNewsScraper.RankTopics | src/scrapers/tech_news_scraper.rs:194-195 | the pairs the map yields, stably sorted by decreasing count, are the ranking |
| TechNewsScraper.GetTrendingTopics | src/scrapers/tech_news_scraper.rs:177-202 | the result is at most ten distinct counted topics, most frequent first, and no topic left out is more frequent than any topic returned |
| TokusatsuScraper.FourDigits | src/scrapers/tokusatsu_scraper.rs:167 | the value of four decimal digits is the weighted sum of their digit values |
| TokusatsuScraper.YearValue | src/scrapers/tokusatsu_scraper.rs:165-167 | a match of ASCII digits starting "19" spells a year from 1900 to 1999, one starting "20" a year from 2000 to 2099, and the last two digits give the year modulo 100 |
| TokusatsuScraper.FindYear | src/scrapers/tokusatsu_scraper.rs:165-166 | the search finds the leftmost position, from the given one on, where "19" or "20" is followed by two decimal digits of any script, or nothing exactly when there is none |
| TokusatsuScraper.LowDecimalDigits | src/scrapers/tokusatsu_scraper.rs:165 | below U+0660 the decimal digits matched by the pattern are exactly the ASCII digits |
| TokusatsuScraper.ExtractYear | src/scrapers/tokusatsu_scraper.rs:163-171 | the year is 0 or lies between 1900 and 2099; it is non-zero exactly when the leftmost match has ASCII digits, and then it is that match's value; a leftmost match with digits of another script fails to parse and gives 0 |
| TokusatsuScraper.NoMatchNoYear | src/scrapers/tokusatsu_scraper.rs:166-170 | a text without a match gives 0 |
| TokusatsuScraper.YearAfterPlainPrefix | src/scrapers/tokusatsu_scraper.rs:165-167 | text in front of a year that creates no match of its own does not change the year found |
| TokusatsuScraper.YearInsideNumber | src/scrapers/tokusatsu_scraper.rs:165 | no word boundary is required: the year inside "12019" is found as 2019 |
| TokusatsuScraper.NineteenthCenturyIgnored | src/scrapers/tokusatsu_scraper.rs:165 | "1800" holds no match, so the year is 0 |
| TokusatsuScraper.LeftmostYearWins | src/scrapers/tokusatsu_scraper.rs:166 | of two years in a text the leftmost is returned: "in 1971 and 2024" gives 1971 |
| TokusatsuScraper.OtherScriptDigitsGiveZero | src/scrapers/tokusatsu_scraper.rs:165-167 | in "19٣٤ 2024" the leftmost match uses Arabic-Indic digits, so although an ASCII year follows, its parse fails and the year is 0 |
| YouTubePersonalityScraper.New | src/scrapers/youtube_personality_scraper.rs:57-76 | an empty playlist id is refused with the "Playlist ID cannot be empty" message, and only it; otherwise the scraper keeps the id, starts with an empty cache and is stamped now |
| YouTubePersonalityScraper.ContextualKind | src/scrapers/youtube_personality_scraper.rs:336-430 | the guards are tried in order: a mood above 0.7 first, then "teaching", "gaming", "creative" or "art", "entertainment" or "performance", "relax" or "comfy", "focus" or "challenge"; each arm is chosen exactly when its guard holds and no earlier one does |
| YouTubePersonalityScraper.Build | src/scrapers/youtube_personality_scraper.rs:339-350 | an expression carries the given type, its three trigger phrases and its two animation cues in order |
| YouTubePersonalityScraper.ExcitedExpression | src/scrapers/youtube_personality_scraper.rs:339-351 | the excited arm builds an "Excited" expression with three trigger phrases and two animation cues |
| YouTubePersonalityScraper.TeachingExpression | src/scrapers/youtube_personality_scraper.rs:352-364 | the teaching arm builds a "Teaching" expression with three trigger phrases and two animation cues |
| YouTubePersonalityScraper.GamingExpression | src/scrapers/youtube_personality_scraper.rs:365-377 | the gaming arm builds a "Gaming" expression with three trigger phrases and two animation cues |
| YouTubePersonalityScraper.CreativeExpression | src/scrapers/youtube_personality_scraper.rs:378-390 | the creative arm builds a "Creative" expression with three trigger phrases and two animation cues |
| YouTubePersonalityScraper.EntertainerExpression | src/scrapers/youtube_personality_scraper.rs:391-403 | the entertainment arm builds an "Entertainer" expression with three trigger phrases and two animation cues |
| YouTubePersonalityScraper.ComfyExpression | src/scrapers/youtube_personality_scraper.rs:404-416 | the comfy arm builds a "Comfy" expression with three trigger phrases and two animation cues |
| YouTubePersonalityScraper.FocusedExpression | src/scrapers/youtube_personality_scraper.rs:417-429 | the focus arm builds a "Focused" expression with three trigger phrases and two animation cues |
| YouTubePersonalityScraper.FriendlyExpression | src/scrapers/youtube_personality_scraper.rs:430-441 | any other context builds a "Friendly" expression with three trigger phrases and two animation cues |
| YouTubePersonalityScraper.GetUniqueResponse | src/scrapers/youtube_personality_scraper.rs:558-576 | an empty context is refused first, then a mood outside 0 to 1, each with its own message; otherwise the generator's outcome is returned unchanged |
| YouTubePersonalityScraper.GenerateUniquePersonality | src/scrapers/youtube_personality_scraper.rs:444-534 | a failed trait scrape is passed on; otherwise the mix keeps the scraped traits and adds four quirks, each with three trigger conditions and three expressions and a frequency below its uniqueness score, and five catchphrases |
| Yugioh.PackCards | src/games/yugioh/trainer.rs:122-130 | one pack holds eight cards |
| Yugioh.PackDistribution | src/games/yugioh/trainer.rs:122-130 | the eight slots of a pack are one UltraRare, one SuperRare and six Rare, no Normal, with the UltraRare first and the SuperRare second |
| Yugioh.Packs | src/games/yugioh/trainer.rs:114-117 | opening n packs yields eight cards per pack |
| Yugioh.PacksSlots | src/games/yugioh/trainer.rs:114-117 | card k of n packs is the card of slot k mod 8 of a single pack, so every pack has the same distribution |
| Yugioh.SimulatePackOpening | src/games/yugioh/trainer.rs:122-130 | the pack is the two guaranteed cards followed by six Rare cards |
| Yugioh.RankForCases | src/games/yugioh/trainer.rs:196-210 | Diamond exactly when at least 65 percent of at least 100 duels are won, Bronze exactly when no guard holds, and the label is always one of the five ranks |
| Yugioh.FewDuelsBronze | src/games/yugioh/trainer.rs:203-208 | fewer than ten duels always rank Bronze, whatever the record |
| Yugioh.YugiohTrainer.constructor | src/games/yugioh/trainer.rs:60-75 | a new trainer has the meta decks, no deck selected, no wins or losses, the "Rookie" rank, no favourite deck, no gems, no known combos and no meta notes |
| Yugioh.YugiohTrainer.PurchasePacks | src/games/yugioh/trainer.rs:107-120 | with fewer gems than 100 per pack the call fails with the insufficient-gems message and spends nothing; otherwise exactly 100 gems per pack are spent and eight cards per pack are returned |
| Yugioh.YugiohTrainer.LearnDeck | src/games/yugioh/trainer.rs:142-152 | an unknown deck is the "Deck not found" error with nothing changed; a known one becomes the current deck, its combo lines become the known combos, and the reply names the deck and its play style |
| Yugioh.YugiohTrainer.PracticeCombo | src/games/yugioh/trainer.rs:154-166 | the practice succeeds exactly when a deck is selected and one of its combo lines contains the combo name; otherwise it fails with the "Combo not found" message |
| Yugioh.YugiohTrainer.RecordDuelResult | src/games/yugioh/trainer.rs:168-194 | a win adds one win and 50 gems, a loss one loss and 10 gems, the other counter unchanged; the rank follows the record; with a deck selected the "deck_opponent" note list is created if missing and a loss appends one note, while without a deck the notes are unchanged |
| Yugioh.YugiohTrainer.UpdateRank | src/games/yugioh/trainer.rs:196-210 | with no duels the rank label stays as it is; otherwise it becomes the rank of the record |
| Yugioh.FreshTrainerCannotBuy | src/games/yugioh/trainer.rs:60-75 | a fresh trainer has no gems, so buying one pack or more fails |
| TtsModel.Clamp | src/tts/model.rs:78-88 | the clamped value lies within the bounds, equals the input when the input already does, and is the nearer bound otherwise |
| TtsModel.ClampIdempotent | src/tts/model.rs:78-88 | clamping a clamped value changes nothing, so repeating a setter has no further effect |
| TtsModel.ClampMonotone | src/tts/model.rs:78-88 | clamping keeps the order of its inputs: a larger request never gives a smaller setting |
| TtsModel.EmotionSettingsInRange | src/tts/model.rs:91-115 | every emotion's pitch and rate lie inside the setters' ranges, so they are never clamped, and an emotion other than happy, excited, calm and serious gets the default voice's pitch and rate |
| TtsModel.EmotionOrdering | src/tts/model.rs:93-115 | excitement has the highest pitch and the fastest rate of all emotions, and seriousness the lowest pitch |
| TtsModel.CalloutRateMonotone | src/tts/model.rs:123-127 | more urgency never slows a callout down, and every callout rate lies inside the speaking-rate range |
| TtsModel.TtsModel.constructor | src/tts/model.rs:23-44 | a new model has the default English voice, whose settings are in range, and has played nothing |
| TtsModel.TtsModel.Speak | src/tts/model.rs:46-72 | the outcome is the synthesis outcome; on success one utterance with the current settings is played, on failure nothing is played |
| TtsModel.TtsModel.AdjustVoice | src/tts/model.rs:74-76 | the whole configuration is replaced as given, without clamping |
| TtsModel.TtsModel.SetPitch | src/tts/model.rs:78-80 | only the pitch changes, to the request clamped to -20 to 20 |
| TtsModel.TtsModel.SetSpeakingRate | src/tts/model.rs:82-84 | only the speaking rate changes, to the request clamped to 0.25 to 4.0 |
| TtsModel.TtsModel.SetVolume | src/tts/model.rs:86-88 | only the volume gain changes, to the request clamped to -96 to 16 dB |
| TtsModel.TtsModel.SpeakWithEmotion | src/tts/model.rs:91-118 | the pitch and rate become exactly the emotion's settings, the voice and volume are kept, and the text is spoken with them |
| TtsModel.TtsModel.SpeakCallout | src/tts/model.rs:121-131 | only the speaking rate changes, to 1.0, 1.2 or 1.3 by urgency band, and the text is spoken with it |
| TtsModel.ClampScenario | src/tts/model.rs:78-88 | requests above every bound land on the upper bounds, and repeating them changes nothing further |
| TtsModel.AdjustVoiceUnclamped | src/tts/model.rs:74-76 | adjusting the voice directly stores a pitch of 50, outside the range the setters enforce |
| TtsModel.ExcitedThenUrgent | src/tts/model.rs:91-131 | an urgent callout after an excited line keeps the excited pitch, speeds up to 1.3 and keeps the volume; the first utterance was spoken at 1.2 |
| TagGenerator.CoreTagsCount | src/tags/tag_generator.rs:52-54 | the system has exactly three core tags |
| TagGenerator.EnumerationLength | src/tags/tag_generator.rs:99 | listing a hash set yields as many tags as the set holds |
| TagGenerator.ScoredTags | src/tags/tag_generator.rs:140-146 | the scored tags are the available tags that have metrics, each with viewer gain times retention rate as its score, and every such tag is scored |
| TagGenerator.InsertDescending | src/tags/tag_generator.rs:148 | one step of the stable sort: inserting a scored tag into a list sorted by decreasing score keeps it sorted and adds exactly that tag |
| TagGenerator.DescendingCons | src/tags/tag_generator.rs:148 | a tag scoring at least as high as the head of a sorted list can go in front of it |
| TagGenerator.SortDescending | src/tags/tag_generator.rs:148 | the sorted list is in decreasing order of score and is a permutation of the input |
| TagGenerator.Names | src/tags/tag_generator.rs:151 | the names of scored tags are their tags, in the same order |
| TagGenerator.SelectBestPerformingTags | src/tags/tag_generator.rs:139-153 | at most the requested number of tags are selected, all available and with metrics, in decreasing order of score |
| TagGenerator.SelectedAreBest | src/tags/tag_generator.rs:139-153 | a tag with metrics is left out only when the requested number were selected, and then it scores no higher than any tag chosen |
| TagGenerator.NoMetricsNoSelection | src/tags/tag_generator.rs:142-146 | with no metrics at all nothing is selected |
| TagGenerator.TrendingNames | src/tags/tag_generator.rs:159 | the names of trending tags, in the same order |
| TagGenerator.RelevantOnes | src/tags/tag_generator.rs:156-157 | the filtered trending tags are relevant ones, in order, and every relevant trending tag is kept |
| TagGenerator.RelevantTrendingTags | src/tags/tag_generator.rs:155-161 | the result is the names of the first two relevant trending tags, or of all of them when there are fewer |
| TagGenerator.SomeRelevant | src/tags/tag_generator.rs:155-161 | one relevant trending tag makes the relevant list non-empty |
| TagGenerator.TwoRelevantTwoAdded | src/tags/tag_generator.rs:155-161 | with two relevant trending tags or more, exactly two names are added |
| TagGenerator.NoSpaces | src/tags/tag_generator.rs:122 | a text with its spaces removed holds no space |
| TagGenerator.SpacesRemoved | src/tags/tag_generator.rs:122 | replacing every space with nothing leaves no space |
| TagGenerator.ActivityTags | src/tags/tag_generator.rs:110-132 | a CTF adds three tags starting with CyberSecurity, a dance adds three including VTuberDance and "Dancing" with the song's name without spaces, gaming adds two ending with "Playing" and the game's name without spaces, and teaching or chatting adds none; no activity tag holds a space |
| TagGenerator.Truncate | src/tags/tag_generator.rs:135 | cutting keeps at most the limit, as a prefix, and keeps a list within the limit whole |
| TagGenerator.CorePrefixKept | src/tags/tag_generator.rs:98-137 | since the core tags come first, cutting to twenty keeps all of them as long as there are at most twenty |
| TagGenerator.TagSystem.constructor | src/tags/tag_generator.rs:42-96 | a new system has the three core tags, the category lists, and no metrics, dynamic tags or trends |
| TagGenerator.TagSystem.GenerateTags | src/tags/tag_generator.rs:98-137 | the tags are the core tags, the category's best three, the first two relevant trending tags and the activity's tags, in that order, cut to twenty; all core tags are kept when there are at most twenty |
| TagGenerator.TagSystem.UpdateTagPerformance | src/tags/tag_generator.rs:163-172 | no tag gains or loses metrics; every tag with metrics takes the reported figures when the stream reports it, and keeps its own otherwise |
| TagGenerator.FreshSystemTags | src/tags/tag_generator.rs:42-172 | since metrics are only ever updated and never added, a new system's category lists contribute nothing, and its tags are the core tags followed by the activity's |
| DanceRigging.InitialCounts | src/model/dance_rigging.rs:136-272 | four dance moves and three choreographies, "dynamite", "how_you_like_that" and "touch", are known from the start |
| DanceRigging.ChoreographiesWellFormed | src/model/dance_rigging.rs:207-272 | the "touch" choreography runs from 0 to 30 seconds in segments that each take time and follow on without gaps or overlaps, and every choreography's energy curve moves forward in time |
| DanceRigging.TouchMovesRigged | src/model/dance_rigging.rs:243-258 | the move of the second "touch" segment is in the move table and needs three rig parameters, while the first segment's "touch_intro" is not a move the table knows |
| DanceRigging.DanceRigSystem.constructor | src/model/dance_rigging.rs:122-134 | a new rig has the initial moves and choreographies, nothing playing and an idle transition |
| DanceRigging.DanceRigSystem.ToggleDance | src/model/dance_rigging.rs:274-281 | the call succeeds exactly when the choreography is known, and then it becomes the current dance; otherwise the "Choreography not found" error leaves the current dance unchanged; the dance playing is always a known one |
| DanceRigging.DanceRigSystem.UpdateDance | src/model/dance_rigging.rs:283-295 | whatever is playing and whatever the time, no parameters are produced and nothing changes |
| DanceRigging.ToggleScenario | src/model/dance_rigging.rs:274-281 | starting "touch" on a new rig succeeds, and asking for an unknown song afterwards fails and leaves "touch" playing |
| DesignSpec.Prefix | src/model/design_spec.rs:292-306 | each numbered family's key prefix is at least ten characters and has 'H' (hair) or 'C' (cyber, cloth) as its sixth character |
| DesignSpec.Apart | src/model/design_spec.rs:292-306 | the prefixes of two different families differ at some position inside both |
| DesignSpec.NumberedApart | src/model/design_spec.rs:292-306 | two numbered keys are equal only for the same family and the same index |
| DesignSpec.FixedChars | src/model/design_spec.rs:269-289 | every fixed key has 'B', 'A', 'E' or 'M' as its sixth character |
| DesignSpec.DanceChars | src/model/design_spec.rs:322-324 | every dance key has 'D' as its sixth character |
| DesignSpec.NameInjective | src/model/design_spec.rs:265-315 | different parameters the generator can produce are stored under different keys, so no insertion overwrites another |
| DesignSpec.NamesAdd | src/model/design_spec.rs:265-315 | adding a parameter adds exactly its key to the key set |
| DesignSpec.Insert | src/model/design_spec.rs:265-315 | inserting a new parameter under a fresh key at its starting value keeps one key per parameter, each at its starting value |
| DesignSpec.InBase | src/model/design_spec.rs:265-307 | without the dance a model's parameters are fixed ones and numbered ones below their family's count, never dance ones |
| DesignSpec.FixedNotNumbered | src/model/design_spec.rs:269-307 | a fixed key is never a numbered key |
| DesignSpec.DanceNotOther | src/model/design_spec.rs:310-324 | a dance key is never a fixed or numbered key |
| DesignSpec.FreshNumbered | src/model/design_spec.rs:292-307 | the key of the next numbered parameter of a family is not among the keys inserted so far |
| DesignSpec.FreshDance | src/model/design_spec.rs:310-312 | no dance key is among the fixed and numbered keys, so extending with the dance parameters overwrites nothing |
| DesignSpec.KeyCounts | src/model/design_spec.rs:269-289 | there are thirteen fixed parameter names and three dance ones |
| DesignSpec.FixedImageSize | src/model/design_spec.rs:269-289 | naming a set of strings as fixed parameters keeps their number |
| DesignSpec.DanceImageSize | src/model/design_spec.rs:322-324 | naming a set of strings as dance parameters keeps their number |
| DesignSpec.FixedHold | src/model/design_spec.rs:269-289 | fixed parameters of any names hold one key each, the open-eye ones at 1.0 and the rest at 0.0 |
| DesignSpec.DanceHold | src/model/design_spec.rs:322-324 | dance parameters of any names hold one key each, at 0.0 |
| DesignSpec.FixedParamsHold | src/model/design_spec.rs:269-289 | the thirteen fixed parameters are present, each at its starting value |
| DesignSpec.DanceParamsHold | src/model/design_spec.rs:322-324 | the three dance parameters are present, each at 0.0 |
| DesignSpec.NamesUnion | src/model/design_spec.rs:310-312 | the keys of two parameter sets together are the keys of each |
| DesignSpec.MergeSize | src/model/design_spec.rs:310-312 | merging maps with disjoint keys gives the union of the keys and the sum of the sizes |
| DesignSpec.Merge | src/model/design_spec.rs:310-312 | merging two maps of different parameters under different keys holds all of them, each at its starting value |
| DesignSpec.GenerateDanceParams | src/model/design_spec.rs:317-330 | there are no dance parameters exactly when no dance is playing; otherwise there are the three dance parameters, each at 0.0 |
| DesignSpec.GenerateLive2dParams | src/model/design_spec.rs:265-315 | the keys are those of the thirteen fixed parameters, three per hair segment, two per enhancement and one per cloth segment, and the three dance ones while dancing, each at its starting value; all keys differ, so there are 13 + 3h + 2e + c of them, plus 3 while dancing |
| DesignSpec.InsertHairParams | src/model/design_spec.rs:292-296 | the hair loop adds three parameters per segment at 0.0, all under new keys |
| DesignSpec.InsertCyberParams | src/model/design_spec.rs:299-302 | the enhancement loop adds a glow at 0.8 and a pulse at 0.0 per enhancement, all under new keys |
| DesignSpec.InsertClothParams | src/model/design_spec.rs:305-307 | the cloth loop adds one parameter per segment at 0.0, under new keys |
| DesignSpec.HairFrontSideInserted | src/model/design_spec.rs:293-294 | the front and side parameters of the next hair segment go in at 0.0 under new keys |
| DesignSpec.HairBackFresh | src/model/design_spec.rs:295 | the back parameter of the next hair segment is new after its front and side ones |
| DesignSpec.HairInserted | src/model/design_spec.rs:292-296 | one pass of the hair loop adds exactly the segment's three parameters at 0.0 |
| DesignSpec.CyberInserted | src/model/design_spec.rs:299-302 | one pass of the enhancement loop adds exactly its glow at 0.8 and its pulse at 0.0 |
| DesignSpec.ClothInserted | src/model/design_spec.rs:305-307 | one pass of the cloth loop adds exactly the segment's parameter at 0.0 |
| DesignSpec.DanceMerged | src/model/design_spec.rs:310-312 | merging the dance parameters into a model's parameters adds exactly three keys, at 0.0 |
| DesignSpec.HairStep | src/model/design_spec.rs:292-296 | one more hair segment adds exactly its front, side and back parameters |
| DesignSpec.CyberStep | src/model/design_spec.rs:299-302 | one more enhancement adds exactly its glow and pulse parameters |
| DesignSpec.ClothStep | src/model/design_spec.rs:305-307 | one more cloth segment adds exactly its parameter |
| DesignSpec.KeyExamples | src/model/design_spec.rs:292-307 | numbered keys are the family prefix followed by the decimal index: "ParamHairFront0", "ParamCloth12" |
| DesignSpec.DancingModelScenario | src/model/design_spec.rs:265-330 | a model with two hair segments, one enhancement and no cloth has 21 parameters, and 24 once a dance is playing |
| DesignSpec.StartValuesScenario | src/model/design_spec.rs:282-300 | a fresh model starts with its eyes open at 1.0 and its first enhancement glowing at 0.8 |

## Left out

- KnowledgeBase.KnowledgeBase.GenerateResponse: the source panics on `fun_facts[0]` (src/knowledge/base.rs:274) when the query's tokusatsu entry has no fun facts, a state the tokusatsu scraper can reach. The model makes that a precondition (`CanAnswer`) and does not model the panic.
- KnowledgeBase.KnowledgeBase.GetResponse: an uncached query carries the same `CanAnswer` precondition, so the panic it would reach through `generate_response` is not modelled.
- KnowledgeBase.KnowledgeBase.GetRandomFact: `fastrand::usize` on an empty range panics (src/knowledge/base.rs:316-322), for an empty category map or an entry with no fun facts or best practices. The model requires non-empty lists instead and does not model the panic.
- Network, scraping and HTTP: the fetches of the scrapers (`scrape_verge`, `scrape_technewsworld`, `get_latest_tech_news`, `scrape_tier`, HTML selection), the YouTube search calls (`search_videos`, `fetch_karaoke_version`, `get_video_details`) and `update_yugioh_knowledge`. Their results are parameters of type `Result`, because the model cannot perform I/O.
- Knowledge-base scraper updaters: not modelled, because they only fetch pages and forward the results.
- ML models, the database and e-mail in src/ai/neural_chat.rs: left out, because they are foreign calls. Sentiment is a parameter. The rest of that file is outside this model.
- Content filter classifier: the ML toxicity model of src/moderation/content_filter.rs is an injected `bool`.
- Audio: the TTS client and the audio sink of src/tts/model.rs are replaced by a `synthesis: Result<()>` parameter. Sleeps and the audio devices of the karaoke singer are also left out.
- Karaoke timing: lyric timing and singing in src/voice/karaoke.rs are not modelled, because they are float timing maths, sleeps and randomness. This covers `process_lyrics_with_timing`, `estimate_line_duration`, `analyze_phrase_timing`, `sing_phrase`, `perform_current_song`, `apply_singing_voice_config`, `apply_singing_params`, `display_current_lyric` and `add_breath_point`.
- Random choices are "some element of the list", so their distribution is not modelled. This covers the TOS friendly response, engagement phrases, defence taunts, reaction picks and pack contents beyond their rarity.
- Subathon `generate_stream_title`: random choice. Its retry loop also never ends once every title is cached. `time_per_bits` is kept as a field (`Subathon.SubathonManager.timePerBits`) but, as in the source, nothing reads it: bits never extend the timer.
- Personality filter randomness: `format_news_for_stream`, `add_personality`, `add_engagement_prompt`, `init_chat_patterns`, the mood field and the phrase history of src/voice/personality_filter.rs are left out. They pick at random or rely on `is_emoji`, which is not shown.
- Security scraper monitoring: `monitor_security_events` in src/scrapers/security_scraper.rs is an endless polling loop that prints, so it is left out.
- Tech knowledge scraper: `new` and `form_opinion` in src/scrapers/tech_knowledge_scraper.rs build fixed tables and call the network, so they are left out. `express_opinion` is modelled over a given opinion.
- YouTubePersonalityScraper.GetUniqueResponse: src/scrapers/youtube_personality_scraper.rs defines `get_unique_response` twice (lines 537-556 and 558-576), which would not compile. The model follows the validating definition at 558-576, and the response cache of the other one is left out.
- Yu-Gi-Oh extras: `get_deck_recommendation` and `get_crafting_costs` are static tables, not modelled.
- Overwatch `get_role_progression` is unused data, not modelled.
- Master Duel extractors: `extract_archetype` and the other page extractors return constants in the source. The model takes the parsed deck page as input.
- MasterDuelScraper.MasterDuelScraper.ScrapeTierList: the tier headings are found with `h3:contains('…')`, which is not a selector that the `scraper` crate parses, so as written its `unwrap` would panic on every fresh scrape. The model takes the set of tiers whose heading the page has, as evidently intended. The deck links are selected from the whole page, so every tier found gets the same decks.
- MasterDuelScraper.MasterDuelScraper.ScrapeTier: one injected `now` stamps the whole scrape; the two-second sleeps between deck pages are left out; each deck page's fetch is a function of its link.
- Minecraft.MinecraftTrainer.UpdateSkill: the report is a `SkillReport` value (a level-up with the new level, or the experience gained) rather than the formatted text, because the `Display` formatting of an `f32` amount is not modelled.
- NeuralChat.EscapeDebug: only quotes, backslashes, `\n`, `\r`, `\t` and `\0` are escaped. Rust's `{:?}` also writes other control and non-printable characters as `\u{…}`, which is not modelled; those escapes hold no newline either, so the one-line-per-source property is unaffected.
- Minecraft.MinecraftTrainer.SetObjectives: the creative, hardcore and basic objective helpers are not defined in the source. They are a `helperObjectives` parameter, and only the survival list is fixed.
- DanceRigging.DanceRigSystem.UpdateDance: `update_dance` has no logic beyond reading state. The keyframe body positions (`BodyPosition`, `ClothPhysics`) are undefined types and are left out.
- Undefined helpers: `UserProfile::new` and `RelevanceRule::matches` are not defined in the source. `matches` is a parameter, and a new profile is taken to start with no interactions and no preferences. Also left out are `FullModelSpec::new`, `init_replacements` of the content filter, and `AppError::PersonalityGeneration`, which src/error.rs does not declare; its message is kept as an `Err` string.
- ContentFilter.ContentFilter.FilterMessage: `apply_replacements` is unreachable, because any word equal to a banned word already matched as a substring. The replacement table is therefore not modelled.
- ModelManager getters: the plain field getters of src/maintenance/model_manager.rs are not modelled.
- TosCompliance.CheckMessage: the `VoiceChatManager` and `StreamManager` implementations and the unused `tos_triggers` table of src/safety/tos_compliance.rs are left out.
- Lowercasing: `to_lowercase` is ASCII-only (`Strings.Lower`). Non-ASCII case mappings are not modelled.
- Integer widths: `u8`, `u32` and `i64` counters are unbounded integers, so wrap-around and overflow panics are not modelled. VersionControl.ParseU32 does follow Rust's `u32` parsing: values above 4294967295 parse as 0.
- Floats: `f32`/`f64` values (experience, TTS parameters, moods, sentiment) are `real`, without rounding or NaN.
- Yugioh.YugiohTrainer.UpdateRank: the `f32` win-rate thresholds are compared as exact rationals. Rounding at a threshold boundary is not modelled.
- Stable sorting: `sort_by` on the task and event lists is modelled as stable insertion of the new element into an already sorted list (`Collections.InsertStable`). That is the only way the source ever calls it.
- Compile errors modelled by intent: src/knowledge/network_knowledge.rs:54 mixes `&str` and `String` in one `vec!`, and the match in src/security/defense_system.rs:123-133 is not exhaustive. Both would not compile, so the model follows the evident intent.
- GameKnowledge.GameKnowledge.CheckCache: src/gaming/knowledge_base.rs:63-67 removes an expired entry from a `DashMap` while holding a read guard, which deadlocks. The model removes the entry, as evidently intended.
- Concurrency: the `Arc`/`RwLock`/`Mutex` wrappers and async tasks are left out. Every operation is modelled as a sequential call.
