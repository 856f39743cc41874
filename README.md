# AI career finder — verified model of its local logic

The application interviews a user about their interests, asks a generative-AI service for a
career report, finds learning resources and YouTube videos through search grounding, and
offers a resume editor whose fields an AI can rewrite. This project models the deterministic
logic around those AI calls:

- the **AI service layer** (`GeminiService`):
  - which language instruction and which prompt are chosen;
  - the fallback values when a call fails or answers with nothing;
  - the filtering of search-grounding chunks into resources;
  - the removal of `" - YouTube"` from video titles;
  - the de-duplication by URL through a JavaScript `Map` (`UrlDedup`);
  - the cap of three videos.
- the **resume editor** (`ResumeBuilder`): the resume record, the pure list and record updates behind every handler, and a `ResumeEditor` class whose methods replace the record as the handlers do.
- the **career interview** (`CareerPathfinder`): the transcript, its send and report guards, the flattening of the transcript for the report request, the per-suggestion video cache and the language-switch rule, as a `Pathfinder` class.

`Strings` and `Seqs` model the JavaScript built-ins the code relies on: `trim`, `startsWith`,
`includes` on strings, `replace` with a string pattern, `split` on one character, `join`,
`filter` and `slice(0, n)`. `Strings.IndexOf` is the first-occurrence search that `includes`
and `replace` are defined by; the code does not call `indexOf` itself. `Array.prototype.includes` is Dafny's `in`.
`Seqs.FirstIndex` and `Seqs.LastIndex` are not built-ins the code calls. They are
specification helpers: they state the key order of the `Map` and which entry each key keeps.

Some outside behaviour becomes parameters. Every AI call is given as its outcome:
- a text reply is `Threw` or `Responded(text)`, where the text may be absent;
- a search reply is `SearchThrew` or `Answered(chunks)`, where the chunk list may be absent.

`JSON.parse` and `new URL(u).hostname` are function parameters that return `None` where the
library would throw. Ids made from `Date.now()` are method parameters.

Two behaviours of the code are worth knowing:
- **Skill merge.** The merge drops only the suggestions that are already listed. A suggestion list that repeats a skill therefore appends it twice, so the merge alone does not keep the skills duplicate-free. `ResumeBuilder.MergeKeepsRepeatedSuggestions` exhibits this. Merges of duplicate-free inputs stay duplicate-free (`ResumeBuilder.MergeSkillsDistinct`).
- **Reply shape.** Only a failing `JSON.parse` is caught; the `as` cast checks nothing. A reply that parses but has the wrong shape is not caught. The `parse` parameter stands for "parses into the expected shape, or throws".

Prompts and instructions are standalone functions. These are the chat, resume and rewrite instructions (`GeminiService.ChatLanguageInstruction`, `GeminiService.ResumeLanguageInstruction`, `GeminiService.EnhanceInstruction`), the switch message (`CareerPathfinder.SwitchMessage`) and the skill context (`ResumeBuilder.SkillContext`). The handlers record what a call is made with, not the prompt string:
- `StartSession` records the chat's language;
- `SetLanguage` records a `LanguageSwitch(language)` request, which stands for sending `SwitchMessage(language)`;
- `ResumeEditor.SuggestSkills` and `Enhance` receive the reply to the prompt as a parameter.

## Model

| member | source | states |
|---|---|---|
| `GeminiService.ChatLanguageInstruction` | services/geminiService.ts:13-18 | each language gets its own chat instruction: English, Hinglish and Hindi each map one-to-one onto theirs |
| `GeminiService.ReportLanguageContext` | services/geminiService.ts:37 | the report language phrase starts with "in <language>"; only Hinglish adds a qualification |
| `GeminiService.EnhanceInstruction` | services/geminiService.ts:100-102 | a summary gets the summary instruction and a bullet gets the bullet instruction, in both directions |
| `GeminiService.ResumeLanguageInstruction` | services/geminiService.ts:106-107 | Hindi output exactly for Hindi; English for both English and Hinglish |
| `GeminiService.LearningSearchPrompt` | services/geminiService.ts:157-159 | the search prompt carries the quoted query |
| `GeminiService.SearchPromptChoice` | services/geminiService.ts:157-159 | Hindi and Hinglish share the Hindi-aware prompt; English gets a different one |
| `GeminiService.VideoSearchPrompt` | services/geminiService.ts:203 | the video prompt carries the quoted query |
| `GeminiService.EnhanceResumeText` | services/geminiService.ts:114-118 | a failed call or an empty answer returns the input text; a non-empty answer is returned as is; a non-empty input never becomes empty |
| `GeminiService.ParsedOrEmpty` | services/geminiService.ts:142-148 | [] on failure, empty text or a parse error; a successful parse of non-empty text is returned as is, and a non-empty result is exactly what the text parsed to |
| `GeminiService.SuggestSkills` | services/geminiService.ts:142-148 | the skill list is `ParsedOrEmpty` of the reply, so it inherits that contract |
| `GeminiService.GenerateCareerReport` | services/geminiService.ts:86-92 | the suggestion list is `ParsedOrEmpty` of the reply, so it inherits that contract |
| `GeminiService.HasUriAndTitle` | services/geminiService.ts:175 | the keep test of a chunk, both uri and title present and non-empty; `LearningStep` states that other chunks are skipped |
| `GeminiService.LearningResources` | services/geminiService.ts:176-181 | one resource per kept chunk; `LearningResourcesWellFormed` and `LearningResourcesAppend` fix each resource's fields and order |
| `GeminiService.LearningResourcesWellFormed` | services/geminiService.ts:175-181 | each built resource has a non-empty url and title, the url's hostname as source and the fixed description |
| `GeminiService.LearningResult` | services/geminiService.ts:170-192 | the URLs are distinct; [] when the call throws or there are no chunks |
| `GeminiService.LearningResultWellFormed` | services/geminiService.ts:175-181 | every returned resource has a non-empty url and title, the url's hostname as source and the fixed description |
| `GeminiService.LearningResultCoverage` | services/geminiService.ts:170-192 | [] when a kept chunk's hostname cannot be taken; otherwise the URL set equals the set of uris of chunks with a uri and a title |
| `GeminiService.LearningResultProvenance` | services/geminiService.ts:175-178 | every resource carries the uri and the title of a chunk of the reply that has both |
| `GeminiService.LearningResourcesAppend` | services/geminiService.ts:174-183 | one more kept chunk appends exactly its resource |
| `GeminiService.LearningStep` | services/geminiService.ts:174-183 | one more chunk either is dropped (no uri or title) or, when its host resolves, appends exactly its resource |
| `GeminiService.UnresolvedHostEmpties` | services/geminiService.ts:179-192 | one kept chunk whose uri has no hostname makes the whole result [] |
| `GeminiService.FindLearningResources` | services/geminiService.ts:170-187 | the forEach/push loop followed by de-duplication returns exactly `LearningResult` |
| `GeminiService.VideosFrom` | services/geminiService.ts:213-222 | every video comes from a YouTube chunk with a uri and a title |
| `GeminiService.VideosWellFormed` | services/geminiService.ts:214-219 | every video's url mentions youtube.com, its source is "YouTube" and its description is fixed |
| `GeminiService.TakeKeepsDistinctUrls` | services/geminiService.ts:224 | cutting the list to its first entries keeps the URLs distinct and adds nothing |
| `GeminiService.VideosFromStep` | services/geminiService.ts:213-222 | one more chunk adds its video at the end when it is a YouTube chunk and nothing otherwise |
| `GeminiService.VideoResult` | services/geminiService.ts:209-228 | at most three videos with distinct URLs; [] on failure or when there are no chunks |
| `GeminiService.IsVideoChunk` | services/geminiService.ts:214 | the video keep test: a uri and a title, and the uri includes "youtube.com"; `VideosFromStep` states that other chunks are skipped |
| `GeminiService.VideoOf` | services/geminiService.ts:214-220 | the video's title is the chunk title with its first " - YouTube" replaced by nothing; it keeps the chunk's uri, which mentions youtube.com; its source is "YouTube" and its description is fixed |
| `GeminiService.VideoTitleStripped` | services/geminiService.ts:216 | a chunk titled with a name followed by " - YouTube" gives a video titled with the name |
| `GeminiService.VideoChunkUrl` | services/geminiService.ts:213-222 | the uri of every YouTube chunk is among the collected videos' URLs |
| `GeminiService.VideoResultCoverage` | services/geminiService.ts:209-224 | the videos are exactly the first min(3, n) de-duplicated YouTube links, in order; a reply with a YouTube chunk yields at least one video; with at most three distinct links, every YouTube chunk's uri is present |
| `GeminiService.VideoResultFromChunks` | services/geminiService.ts:213-224 | every returned video is built from a YouTube chunk of the reply, its url mentions youtube.com, its source is "YouTube" and its description is fixed |
| `GeminiService.FindVideoResources` | services/geminiService.ts:209-224 | the forEach/push loop, de-duplication and slice return exactly `VideoResult` |
| `GeminiService.StripsYouTubeSuffix` | services/geminiService.ts:216 | a title ending in " - YouTube", with no other occurrence, loses exactly that suffix |
| `UrlDedup.Set` | services/geminiService.ts:187 | `Map.set` keeps the map well formed; it stores the resource under its URL, a present key keeps its place and a new key goes last |
| `UrlDedup.Values` | services/geminiService.ts:187 | `values()` lists one value per key, in key order; the contract spells out that listing and is a building block, and the properties of the result are stated by `DedupFirstOccurrenceOrder` and `DedupKeepsLastEntry` |
| `UrlDedup.FromEntries` | services/geminiService.ts:187 | `new Map(entries)` has exactly the input URLs as keys, each once, and maps each key to a resource with that URL |
| `UrlDedup.DedupByUrl` | services/geminiService.ts:187 | no URL twice, no URL lost or added, never longer than the input |
| `UrlDedup.FromEntriesHoldsLast` | services/geminiService.ts:187 | the map holds the last input entry for each URL |
| `UrlDedup.FromEntriesFirstOrder` | services/geminiService.ts:187 | the keys stand in the order of each URL's first occurrence |
| `UrlDedup.DedupFirstOccurrenceOrder` | services/geminiService.ts:187 | output order is the order of first occurrences in the input |
| `UrlDedup.DedupKeepsLastEntry` | services/geminiService.ts:187 | each output entry is the last input entry with its URL |
| `UrlDedup.DedupSubset` | services/geminiService.ts:187 | the output holds only input entries |
| `UrlDedup.DedupOfDistinct` | services/geminiService.ts:187 | a list whose URLs are already distinct comes back unchanged |
| `UrlDedup.DedupIdempotent` | services/geminiService.ts:224 | de-duplicating twice equals de-duplicating once |
| `UrlDedup.DedupSharedUrl` | services/geminiService.ts:187 | two entries with one URL collapse to the later one |
| `Strings.Trim` | components/ResumeBuilder.tsx:113-115 | the result is the slice of the input left after cutting white space from both ends, and the cut parts are blank; it is empty exactly for a blank string and otherwise has no white space at either end |
| `Strings.TrimIdempotent` | components/ResumeBuilder.tsx:113-115 | trimming twice equals trimming once |
| `Strings.StartsWith` | components/ResumeBuilder.tsx:51 | `startsWith`: the prefix is the string's first characters; `JobPathTargetsPrefix` applies it to the "exp-" paths |
| `Strings.Includes` | services/geminiService.ts:214 | `includes`: the pattern occurs somewhere, as `IndexOf` finds it; `IncludesMiddle` states that a string includes anything it was built around |
| `Strings.IncludesWithin` | components/ResumeBuilder.tsx:62-63 | a string included in a part is included in anything built around that part |
| `Strings.IndexOf` | services/geminiService.ts:214 | the first position where the pattern occurs, or None when it occurs nowhere |
| `Strings.ReplaceFirst` | services/geminiService.ts:216 | only the first occurrence is replaced; without an occurrence the string is unchanged |
| `Strings.Split` | components/ResumeBuilder.tsx:52 | at least one part, no part holds the separator, two or more parts exactly when the separator occurs |
| `Strings.SplitAt` | components/ResumeBuilder.tsx:52 | the first part ends at the first separator |
| `Strings.Join` | components/CareerPathfinder.tsx:78 | `join`: the parts with the separator between neighbours; `JoinAppend`, `JoinSplit` and `SplitJoin` fix its content |
| `Strings.JoinIncludes` | components/ResumeBuilder.tsx:63 | every part is included in the join of the parts |
| `Strings.JoinSplit` | components/ResumeBuilder.tsx:52 | joining the parts of a split with the separator restores the string |
| `Strings.SplitJoin` | components/CareerPathfinder.tsx:78 | splitting parts joined by a separator none of them holds restores the parts |
| `Strings.JoinAppend` | components/CareerPathfinder.tsx:78 | joining one more part adds the separator and that part at the end |
| `Seqs.Filter` | components/ResumeBuilder.tsx:88 | keeps exactly the members that pass, never lengthening the list |
| `Seqs.FilterConcat` | components/ResumeBuilder.tsx:122 | filtering distributes over concatenation, so relative order is kept |
| `Seqs.FilterCounts` | components/ResumeBuilder.tsx:122 | each kept value keeps its number of occurrences; each dropped value has none |
| `Seqs.Take` | services/geminiService.ts:224 | `slice(0, n)`: the prefix of length min(n, length), so the whole list when it is short |
| `ResumeBuilder.UpdateField` | components/ResumeBuilder.tsx:41-43 | the named field takes the value; every other field is unchanged |
| `ResumeBuilder.UpdateFieldSame` | components/ResumeBuilder.tsx:41-43 | writing back a field's own value leaves the record unchanged |
| `ResumeBuilder.UpdateFieldTwice` | components/ResumeBuilder.tsx:41-43 | a second write to a field overrides the first |
| `ResumeBuilder.UpdateFieldsCommute` | components/ResumeBuilder.tsx:41-43 | writes to different fields commute |
| `ResumeBuilder.JobSet` | components/ResumeBuilder.tsx:202 | one field of an entry changes; its id and other fields stay |
| `ResumeBuilder.EditJobs` | components/ResumeBuilder.tsx:200-234 | same length; entries with other ids unchanged; matching entries change only the edited field |
| `ResumeBuilder.EditJobsTwice` | components/ResumeBuilder.tsx:200-234 | two edits of one field keep only the last text |
| `ResumeBuilder.BlankJob` | components/ResumeBuilder.tsx:77-83 | a new entry has the given id and blank fields |
| `ResumeBuilder.WithoutJob` | components/ResumeBuilder.tsx:87-89 | exactly the entries with other ids remain |
| `ResumeBuilder.WithoutJobKeepsOthers` | components/ResumeBuilder.tsx:87-89 | other entries keep their counts and their relative order |
| `ResumeBuilder.RemoveAddedJob` | components/ResumeBuilder.tsx:76-89 | adding an entry with a fresh id and removing it restores the list |
| `ResumeBuilder.SchoolSet` | components/ResumeBuilder.tsx:107 | one key of an education entry changes; the others stay |
| `ResumeBuilder.EditSchools` | components/ResumeBuilder.tsx:106-109 | same length; entries with other ids unchanged; matching entries change only the edited key |
| `ResumeBuilder.EditSchoolsTwice` | components/ResumeBuilder.tsx:106-109 | two edits of one non-id key keep only the last text |
| `ResumeBuilder.BlankSchool` | components/ResumeBuilder.tsx:93-98 | a new entry has the given id and blank fields |
| `ResumeBuilder.WithoutSchool` | components/ResumeBuilder.tsx:102-104 | exactly the entries with other ids remain |
| `ResumeBuilder.WithoutSchoolKeepsOthers` | components/ResumeBuilder.tsx:102-104 | other entries keep their counts and their relative order |
| `ResumeBuilder.SkillsAfterAdd` | components/ResumeBuilder.tsx:113-116 | the list changes exactly when the input is not blank and its trimmed form is new, and then gains only that; no duplicate is created |
| `ResumeBuilder.AddSkillIdempotent` | components/ResumeBuilder.tsx:113-116 | adding the same input twice equals adding it once |
| `ResumeBuilder.WithoutSkill` | components/ResumeBuilder.tsx:121-123 | every copy of the skill goes, every other skill stays, distinctness is kept |
| `ResumeBuilder.WithoutSkillKeepsOthers` | components/ResumeBuilder.tsx:121-123 | other skills keep their counts and relative order |
| `ResumeBuilder.RemoveAddedSkill` | components/ResumeBuilder.tsx:112-123 | removing a just-added new skill restores the list |
| `ResumeBuilder.Unlisted` | components/ResumeBuilder.tsx:68 | the new skills are exactly the suggestions not yet listed; as a `Filter` they keep suggestion order and repeats (`FilterConcat`, `FilterCounts`) |
| `ResumeBuilder.MergeSkills` | components/ResumeBuilder.tsx:67-71 | the old list is a prefix and the appended part is exactly the unlisted suggestions in suggestion order, repeats included; every appended skill was absent and suggested; nothing new leaves the list as it was; membership is the union |
| `ResumeBuilder.MergeSkillsDistinct` | components/ResumeBuilder.tsx:67-71 | duplicate-free inputs give a duplicate-free merge |
| `ResumeBuilder.MergeSkillsIdempotent` | components/ResumeBuilder.tsx:67-71 | merging the same suggestions again adds nothing |
| `ResumeBuilder.MergeKeepsRepeatedSuggestions` | components/ResumeBuilder.tsx:68 | a suggestion repeated in the reply is appended twice |
| `ResumeBuilder.JobLine` | components/ResumeBuilder.tsx:63 | one `role at company: description` line per experience entry, used by `SkillContext` |
| `ResumeBuilder.SkillContext` | components/ResumeBuilder.tsx:62-63 | the suggestion context contains the summary and the `JobLine` of every experience entry |
| `ResumeBuilder.JobPath` | components/ResumeBuilder.tsx:238 | the rewrite path of an entry starts with "exp-" and continues with the entry's id |
| `ResumeBuilder.TargetOf` | components/ResumeBuilder.tsx:49-55 | "summary" targets the summary; a path starting "exp-" targets a description by a '-'-free id; anything else targets nothing |
| `ResumeBuilder.JobPathTargetsPrefix` | components/ResumeBuilder.tsx:51-53 | an entry's button targets the part of its id before the first '-' |
| `ResumeBuilder.JobPathTargetsId` | components/ResumeBuilder.tsx:51-53 | an entry whose id has no '-' is targeted exactly |
| `ResumeBuilder.JobPathCutsDashedId` | components/ResumeBuilder.tsx:52 | the path of id "7-2" targets the entries with id "7" |
| `ResumeBuilder.ApplyEnhanced` | components/ResumeBuilder.tsx:49-55 | a summary rewrite changes only the summary; a description rewrite changes only descriptions of matching entries; any other path changes nothing |
| `ResumeBuilder.FailedSummaryRewriteKeepsRecord` | components/ResumeBuilder.tsx:45-57 | a failed summary rewrite leaves the record unchanged |
| `ResumeBuilder.FailedJobRewriteKeepsRecord` | components/ResumeBuilder.tsx:45-57 | with unique '-'-free ids, a failed description rewrite leaves the record unchanged |
| `ResumeBuilder.ResumeEditor.constructor` | components/ResumeBuilder.tsx:10-39 | the editor opens on the sample resume with an empty skill box and no work pending |
| `ResumeBuilder.ResumeEditor.SetField` | components/ResumeBuilder.tsx:41-43 | the record becomes `UpdateField` of the old record; nothing else changes |
| `ResumeBuilder.ResumeEditor.SetSkillInput` | components/ResumeBuilder.tsx:312 | only the skill box changes |
| `ResumeBuilder.ResumeEditor.Enhance` | components/ResumeBuilder.tsx:45-57 | the rewrite (or the original text on failure) lands in the targeted field; loading ends |
| `ResumeBuilder.ResumeEditor.SuggestSkills` | components/ResumeBuilder.tsx:59-73 | only the skills change, to the merge with the suggestions; the busy flag ends lowered |
| `ResumeBuilder.ResumeEditor.AddExperience` | components/ResumeBuilder.tsx:76-85 | exactly one blank entry is appended; nothing else changes |
| `ResumeBuilder.ResumeEditor.RemoveExperience` | components/ResumeBuilder.tsx:87-89 | no entry with the id remains; the rest follow `WithoutJob` |
| `ResumeBuilder.ResumeEditor.EditExperience` | components/ResumeBuilder.tsx:200-234 | only the experience list changes, as `EditJobs` says |
| `ResumeBuilder.ResumeEditor.AddEducation` | components/ResumeBuilder.tsx:92-100 | exactly one blank entry is appended; nothing else changes |
| `ResumeBuilder.ResumeEditor.RemoveEducation` | components/ResumeBuilder.tsx:102-104 | no entry with the id remains; the rest follow `WithoutSchool` |
| `ResumeBuilder.ResumeEditor.UpdateEducationItem` | components/ResumeBuilder.tsx:106-109 | only the education list changes, as `EditSchools` says |
| `ResumeBuilder.ResumeEditor.AddSkill` | components/ResumeBuilder.tsx:112-119 | a blank box changes nothing; otherwise the skills follow `SkillsAfterAdd` and the box is cleared even for a duplicate; no duplicate is created |
| `ResumeBuilder.ResumeEditor.RemoveSkill` | components/ResumeBuilder.tsx:121-123 | only the skills change, as `WithoutSkill` says; no duplicate is created |
| `CareerPathfinder.BotText` | components/CareerPathfinder.tsx:64-70 | the model turn is never empty: a non-empty reply text itself, "I didn't catch that." for an empty reply, or the apology on failure |
| `CareerPathfinder.SendEnabled` | components/CareerPathfinder.tsx:253 | send is enabled exactly for a non-blank input with no reply and no report pending |
| `CareerPathfinder.UserTurnsAlternating` | components/CareerPathfinder.tsx:59-70 | in an alternating transcript half the messages, rounded down, are the user's |
| `CareerPathfinder.ReportOffered` | components/CareerPathfinder.tsx:189 | the report button's guard, more than four messages and no report pending; `ReportAfterTwoAnswers` states what it means in user turns |
| `CareerPathfinder.ReportAfterTwoAnswers` | components/CareerPathfinder.tsx:189 | the report button appears exactly after two user answers, while no report is pending |
| `CareerPathfinder.ExchangeKeepsAlternating` | components/CareerPathfinder.tsx:59-70 | a send keeps the transcript alternating and leaves earlier messages in place |
| `CareerPathfinder.FlattenHistory` | components/CareerPathfinder.tsx:78 | the history is empty exactly when there are no messages; `FlattenHistorySplits` and `FlattenHistoryAppend` fix its lines |
| `CareerPathfinder.FlattenHistorySplits` | components/CareerPathfinder.tsx:78 | without newlines in the texts, the history splits back into one `role: text` line per message, in order |
| `CareerPathfinder.FlattenHistoryAppend` | components/CareerPathfinder.tsx:78 | a longer transcript's history extends the shorter one's by one line |
| `CareerPathfinder.HistoryLine` | components/CareerPathfinder.tsx:78 | the `role: text` line of one message; `HistoryLines` and `FlattenHistorySplits` state how the lines make up the history |
| `CareerPathfinder.HistoryLines` | components/CareerPathfinder.tsx:78 | one `role: text` line per message, in order; the contract spells out the `map` and is a building block, and the history's property is stated by `FlattenHistorySplits` |
| `CareerPathfinder.VideoQuery` | components/CareerPathfinder.tsx:141 | a present, non-empty first search query is chosen, and the title otherwise; a non-empty title never gives an empty query |
| `CareerPathfinder.RoadmapPreview` | components/CareerPathfinder.tsx:123 | the first three roadmap steps, or all when fewer |
| `CareerPathfinder.SwitchInstruction` | components/CareerPathfinder.tsx:39-43 | the instruction names the new language |
| `CareerPathfinder.SwitchInstructionsDiffer` | components/CareerPathfinder.tsx:39-43 | different languages get different instructions |
| `CareerPathfinder.SwitchMessage` | components/CareerPathfinder.tsx:45 | the chat message carries the instruction |
| `CareerPathfinder.Pathfinder.constructor` | components/CareerPathfinder.tsx:13-27 | the transcript is the single greeting; everything else is empty or idle |
| `CareerPathfinder.Pathfinder.StartSession` | components/CareerPathfinder.tsx:30-33 | run once at mount, while no chat exists and the recorded language is the selected one, it creates the chat in that language, so the chat's language and the recorded language agree |
| `CareerPathfinder.Pathfinder.SetInput` | components/CareerPathfinder.tsx:247 | only the input changes |
| `CareerPathfinder.Pathfinder.SetLanguage` | components/CareerPathfinder.tsx:36-50 | the selected language always changes; a language switch is sent and the recorded language updated exactly when it differs from the recorded one and a chat exists, otherwise nothing is sent |
| `CareerPathfinder.Pathfinder.HandleSend` | components/CareerPathfinder.tsx:56-74 | a blank input or no chat changes nothing; otherwise exactly the user turn (untrimmed) and the model turn are appended, the input is cleared and typing ends |
| `CareerPathfinder.Pathfinder.GenerateReport` | components/CareerPathfinder.tsx:76-83 | the flattened transcript is sent; the suggestions are replaced wholesale by the result; analysis ends |
| `CareerPathfinder.Pathfinder.HandleLoadVideos` | components/CareerPathfinder.tsx:85-90 | a video search for the query is sent; only cache entry idx is written, with the `VideoResult` of the reply; its loading flag ends false; other indices are untouched |
| `CareerPathfinder.Pathfinder.LoadVideosFor` | components/CareerPathfinder.tsx:139-147 | for a suggestion with nothing cached, the button sends a video search for its `VideoQuery`, caches the `VideoResult` of the reply under its index, lowers its loading flag and keeps the interview valid |
| `CareerPathfinder.Pathfinder.BackToChat` | components/CareerPathfinder.tsx:101-106 | the suggestions are cleared and the video cache is kept |

## Left out

- The AI SDK calls (`ai.chats.create`, `sendMessage`, `generateContent`) are foreign network calls. Their outcomes are parameters; the prompt text beyond the language and prompt choices is not modelled.
- `JSON.parse` and `new URL(...).hostname` are library parsers. They are uninterpreted parameters that may fail.
- JavaScript strings are UTF-16 code units. The model treats a string as a sequence of characters, with `trim` removing the ECMAScript white-space and line-terminator code points.
- Asynchronous interleaving is not modelled. Each handler is one atomic step, so loading and typing flags raised before an `await` are lowered again by the same step. Stale `data` captured by a pending rewrite is not modelled either.
- The Enter-key path of the chat input calls `handleSend` without the button's typing guard. With atomic handlers the typing flag is never observed raised, so this cannot be told apart.
- The `onCareerFound` callback and the view routing of App.tsx are view wiring, not modelled.
- components/ResourceFinder.tsx and types.ts are not part of this model. The types become the datatypes in types.dfy.
- JSX rendering, `scrollIntoView` and `window.print` are user interface only.
- `matchScore` is only displayed, and the optional `isThinking` flag of a message is unused by the modelled components. The datatypes leave both out.
- The `console.error` logging in the catch blocks is left out.
- `Date.now()` id generation: ids are parameters, and nothing assumes they are unique.
- `GeminiService.SuggestSkills`, `GeminiService.GenerateCareerReport`: do not model schema validation, because the code performs none beyond `JSON.parse`.
- `ResumeBuilder.ResumeEditor.SuggestSkills`, `CareerPathfinder.Pathfinder.GenerateReport`: assume that a parsed reply has the expected shape. In the code, JSON that parses but is not an array makes `suggestions.filter` throw outside any `try`. The busy flag then stays raised, and `setSuggestions` would get a value that is not a list. The model promises a lowered flag and a list instead.
- `ResumeBuilder.ResumeEditor.Enhance`: takes the reply as a parameter, so the rewrite kind selects only the instruction (`GeminiService.EnhanceInstruction`) and does not appear in the method.
- `CareerPathfinder.Pathfinder.LoadVideosFor` requires that nothing is cached for the suggestion yet, because the button is only rendered in that state.
