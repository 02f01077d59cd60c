# Flashcards: study scheduling, folders and AI generation in Dafny

This project models the core of a flashcards application: a React client and a Flask backend over MongoDB.

- **Study session (client).** The study page keeps a deck of cards with selection weights. It draws the next card at random in proportion to the weights. A "know" answer halves the current card's weight, never below 0.1. A "don't know" answer doubles it. The session ends once every card has been answered "know" at least once.
- **Scheduler (server).** For the user's cards in a folder, the scheduler builds a missing statistics record for each card. It weighs each card by its age since last seen (999 hours if never seen) plus five per failure plus one, and draws with `random.choices`. It also counts failures and successes.
- **Folders.** A folder has a unique seven-character join code and a list of members with roles. The folder endpoints let a user create a folder, join by code, delete a folder (owner only) and add a card (members only). Documents are serialised with object ids turned into strings.
- **AI generation.** The endpoint checks the request and guesses the style of the folder's existing cards. It builds a prompt, extracts the bracketed JSON array from the model's reply and keeps the items with a non-blank front and back. It stores those items as AI-generated cards.
- **Pages.** The folder page and the dashboard keep small UI state machines: backs shown or hidden, a two-press delete button disarmed when the pointer leaves, and guards against blank input.

## Modules and state

| module | models |
|---|---|
| `Wrappers` | `Option` and `Result` |
| `Text` | Python's `strip` and JavaScript's `trim`, each with its own whitespace set; `upper` on ASCII letters; substring tests; `" ".join` |
| `Seqs` | the subsequence relation that filters are proved to keep |
| `Bson` | object ids and their parsing, document values, `serialize_doc` |
| `Cards`, `Stats` | the `flashcards` and `flashcardStats` documents and their updates |
| `Scheduler` | `hours_since`, `compute_weight`, `random.choices`, and class `StatsStore` holding the statistics collection, with `pick_flashcard`, `mark_fail`, `mark_success` |
| `FolderModel` | `generate_join_code` (a loop over successive draws) and `create_folder` |
| `FolderRoutes` | `get_member_role` and class `FolderDb` holding the `folders` and `flashcards` collections, with the folder endpoints |
| `AiRoutes` | `analyze_style`, `build_prompt`, `extract_json`, the item filter and `generate_flashcards` |
| `StudySession` | `weightedRandom` (a loop) and class `Session` with the study page's state and handlers |
| `Confirmation` | the armed delete button shared by both pages |
| `FolderPage`, `Dashboard` | classes `FolderView` and `DashboardView` with the pages' state and handlers |

Things outside the code are parameters:
- The clock is `now`, in seconds.
- `Math.random()` and `random.random()` are a draw `u` in [0, 1).
- A sequence of draws stands for the successive results of `random.choices` in the join-code loop.
- New object ids come from a parameter.
- The language model's reply is a function of the prompt.
- `json.loads` and `str.lower` are functions.
- Each request's outcome is a parameter of the page handler that sends it.

## Model

| member | source | states |
|---|---|---|
| StudySession.WeightedRandom | frontend-react/src/pages/StudyPage.jsx:15-23 | the loop that subtracts weights from `u * total` returns the index `Pick` defines, always a valid index (the last one when rounding leaves the draw unspent) |
| StudySession.IdOf | frontend-react/src/pages/FolderPage.jsx:229-231 | a card's identity is its `_id` when it has one, otherwise its `id`, and there is none only when both are missing |
| StudySession.PickIsFirstReaching | frontend-react/src/pages/StudyPage.jsx:15-23 | with positive weights the chosen card is the first whose running weight sum reaches the draw |
| StudySession.PickInterval | frontend-react/src/pages/StudyPage.jsx:15-23 | for a draw `u` in (0, 1), card `i` is chosen exactly when the draw lies in its interval (prefix sum, prefix sum + weight], whose length is the card's weight, so the choice is proportional to the weight |
| StudySession.DrawInRange | frontend-react/src/pages/StudyPage.jsx:16-17 | the scaled draw lies in [0, total), and is positive when `u` is |
| StudySession.PickFromFirstReaching | frontend-react/src/pages/StudyPage.jsx:18-22 | the loop from any card on stops at the first card whose running sum reaches the draw, or falls back to the last card |
| StudySession.Halve | frontend-react/src/pages/StudyPage.jsx:231 | `max(0.1, w * 0.5)`: never below the floor and never below half the weight, never above a weight at or above the floor |
| StudySession.KnowWeights | frontend-react/src/pages/StudyPage.jsx:230-232 | the deck after "know": the same length, each entry halved if it has the answered key `_id ?? id` and kept otherwise (the corrected matching of the Findings) |
| StudySession.DontKnowWeights | frontend-react/src/pages/StudyPage.jsx:249-251 | the deck after "don't know": each entry doubled if it has the answered key `_id ?? id` and kept otherwise (the corrected matching of the Findings) |
| StudySession.KnowKeepsFloorAndNeverRaises | frontend-react/src/pages/StudyPage.jsx:230-232 | "know" keeps every weight at or above 0.1, keeps the cards, never raises a weight and leaves other keys' entries untouched |
| StudySession.DontKnowKeepsFloorAndRaises | frontend-react/src/pages/StudyPage.jsx:249-251 | "don't know" keeps the floor and the cards, strictly raises the answered card's weight and leaves the others untouched |
| StudySession.AnswerChangesOnlyCurrent | frontend-react/src/pages/StudyPage.jsx:230-251 | with distinct card identities, either answer changes the current card's weight alone, to half (floored) or double |
| StudySession.ResetWeights | frontend-react/src/pages/StudyPage.jsx:257 | restart gives every card weight 1 and keeps the cards in order |
| StudySession.InitialDeck | frontend-react/src/pages/StudyPage.jsx:204 | loading gives each listed card weight 1, in order |
| StudySession.FullIffAllLearned | frontend-react/src/pages/StudyPage.jsx:236 | with distinct identities, the learned set is as large as the deck exactly when every card of the deck is learned |
| StudySession.InKeySet | frontend-react/src/pages/StudyPage.jsx:236 | a key is among the deck's keys exactly when some card of the deck carries it |
| StudySession.KeySetSize | frontend-react/src/pages/StudyPage.jsx:236 | the deck has at most as many identities as cards, and exactly as many when they are distinct |
| StudySession.Percent | frontend-react/src/pages/StudyPage.jsx:267 | the progress percentage lies in [0, 100] and is 100 exactly when learned equals deck size |
| StudySession.KnowKeepsInv | frontend-react/src/pages/StudyPage.jsx:220-242 | a "know" keeps the session invariant (weights above the floor, known ≤ total, learned ⊆ deck, finished exactly when all are learned), whichever card is drawn next |
| StudySession.Session.Load | frontend-react/src/pages/StudyPage.jsx:193-212 | a failed fetch shows its error and leaves the deck empty; an empty list yields the "no cards" error; otherwise every card has weight 1 and the current card is the weighted draw |
| StudySession.Session.Flip | frontend-react/src/pages/StudyPage.jsx:326 | a click on the card toggles the side shown and changes nothing else |
| StudySession.Session.Know | frontend-react/src/pages/StudyPage.jsx:220-242 | the corrected handler of the Findings, matching cards and recording the learned card by `_id ?? id` rather than by `id`: ignored until flipped; then known and total grow by one, the card is learned, its weight halves, and the session either finishes or draws the next card from the updated deck |
| StudySession.Session.DontKnow | frontend-react/src/pages/StudyPage.jsx:244-254 | the corrected handler of the Findings, matching cards by `_id ?? id` rather than by `id`: ignored until flipped; then total grows by one, the card's weight doubles and the next card is drawn from the updated deck |
| StudySession.Session.Restart | frontend-react/src/pages/StudyPage.jsx:256-265 | weights reset to 1, counters and learned set cleared, not finished, front side, and a new card drawn |
| StudySession.Session.Progress | frontend-react/src/pages/StudyPage.jsx:267 | progress lies in [0, 100], is 0 for an empty deck and is 100 exactly when the session is finished |
| StudySession.KnowWeightsAsWritten | frontend-react/src/pages/StudyPage.jsx:230-232 | the page's own update, which matches cards by their `id` field |
| StudySession.KnowAsWrittenTouchesOtherCards | frontend-react/src/pages/StudyPage.jsx:225-236 | on two API cards with `_id` and no `id`, "know" halves both and the learned set never reaches the deck's size; with `_id ?? id` only the answered card changes |
| Scheduler.HoursSince | backend/services/scheduler.py:9-14 | 999 for a card never seen, otherwise the elapsed seconds over 3600, non-negative for a past time |
| Scheduler.ComputeWeight | backend/services/scheduler.py:17-25 | a card never seen weighs 1000 plus five per failure; a seen card weighs its age in hours plus five per failure plus one |
| Scheduler.WeightAtLeastOne | backend/services/scheduler.py:17-25 | a record with non-negative counters and a past `lastSeen` weighs at least 1 |
| Scheduler.MoreFailsMoreWeight | backend/services/scheduler.py:17-25 | with the same `lastSeen`, more failures weigh strictly more, by five per failure |
| Scheduler.FreshRecordWeight | backend/services/scheduler.py:9-25 | a freshly created record weighs 999 + 0 + 1 = 1000 |
| Scheduler.AnsweredNowWeight | backend/services/scheduler.py:17-25 | right after an answer the age term is 0: the weight is five times the failures plus one |
| Scheduler.ChooseIndex | backend/services/scheduler.py:75 | `random.choices` yields an index exactly when the total weight is positive (else `ValueError`), and the index is valid |
| Scheduler.ChosenIsFirstAbove | backend/services/scheduler.py:75 | with positive weights the chosen index is the first whose running sum exceeds `u * total` |
| Scheduler.ChooseInterval | backend/services/scheduler.py:75 | index `k` is chosen exactly when `u * total` lies in [sum before k, sum through k), an interval as long as `k`'s weight |
| Scheduler.ScaledDrawInRange | backend/services/scheduler.py:75 | the scaled draw lies in [0, total) |
| Scheduler.Weights | backend/services/scheduler.py:54-73 | one weight per card, in order, each the weight of the card's stored record or of a fresh one |
| Scheduler.WithStats | backend/services/scheduler.py:56-65 | the store after the loop: exactly the old keys plus one per card, old records untouched, fresh records for the missing cards |
| Scheduler.WithStatsStep | backend/services/scheduler.py:59-65 | one loop step inserts a fresh record for the card when, and only when, it has none |
| Scheduler.WithStatsSane | backend/services/scheduler.py:56-67 | the inserted records keep the store sane, and every weight is at least 1 |
| Scheduler.Updated | backend/services/scheduler.py:80-103 | `update_one` applies the update to the matching record, if any, and changes nothing else |
| Scheduler.UpdatedSane | backend/services/scheduler.py:80-103 | an answer recorded at `now` keeps the store sane |
| Scheduler.StatsStore.InsertMissingAndWeigh | backend/services/scheduler.py:54-73 | the loop inserts the missing records and returns the weights, as `WithStats` and `Weights` define them |
| Scheduler.StatsStore.PickFlashcard | backend/services/scheduler.py:28-77 | no card in the folder: `None` and no write; otherwise missing records are inserted and the card at `random.choices`' index over the weights is returned |
| Scheduler.PickOnSaneStore | backend/services/scheduler.py:28-77 | on a sane store with a non-empty folder a card is always picked, and it belongs to that folder |
| Scheduler.StatsStore.MarkFail | backend/services/scheduler.py:80-90 | reports whether a record matched; that record's failures grow by one and `lastSeen` becomes now, nothing else changes |
| Scheduler.StatsStore.MarkSuccess | backend/services/scheduler.py:93-103 | as `MarkFail`, on the success counter |
| Stats.CreateFlashcardStats | backend/models/stats.py:3-11 | a new record for the user and card, never seen, both counters 0 |
| Stats.ApplyUpdate | backend/models/stats.py:13-17 | `$inc` adds to one counter and leaves the other, `$set` overwrites `lastSeen`, the ids and creation time stay |
| Stats.MarkUpdatesCountOne | backend/services/scheduler.py:80-103 | a failure (success) adds exactly one to the failure (success) counter and sets `lastSeen` to now |
| Cards.FolderCards | backend/services/scheduler.py:38 | `find({"folderId": id})`: exactly the cards of that folder, in order |
| Cards.FolderCardsSubsequence | backend/services/scheduler.py:38 | the folder's cards keep their order in the collection |
| Cards.FolderCardsCounts | backend/services/scheduler.py:38 | every card of the folder occurs as often as in the collection, every other card not at all |
| Bson.ParseObjectId | backend/routes/folders.py:136-138 | a string is an id exactly when it is 24 hexadecimal digits; the id is their lower-case form |
| Bson.ParseStr | backend/routes/folders.py:136 | parsing an id's string form gives the id back |
| Bson.SerializeDoc | backend/routes/folders.py:18-26 | lists and dictionaries keep their shape, length and keys; other values pass through unchanged |
| Bson.SerializeListElement | backend/routes/folders.py:19-20 | each list element is serialised in turn |
| Bson.SerializeDictEntry | backend/routes/folders.py:21-25 | an object-id value becomes its string, any other value is serialised in turn, keys stay |
| Bson.SerializeIdempotent | backend/routes/folders.py:18-26 | serialising a serialised document changes nothing |
| Text.TrimStartSpec | backend/routes/folders.py:64 | the result is a suffix of the input, what was dropped is all whitespace, and the result does not start with whitespace |
| Text.TrimEndSpec | backend/routes/folders.py:64 | the result is a prefix of the input, what was dropped is all whitespace, and the result does not end with whitespace |
| Text.StripSpec | backend/routes/folders.py:64 | the result is a slice of the input with only whitespace cut at both ends, and starts and ends with non-whitespace |
| Text.BlankIffAllSpace | backend/routes/folders.py:64 | a string strips to empty exactly when it is all whitespace |
| Text.StripLanguagesDiffer | backend/routes/folders.py:64 | the two whitespace sets differ: Python strips the separator U+001C that JavaScript keeps, and JavaScript trims the byte-order mark U+FEFF that Python keeps |
| Text.Upper | backend/routes/folders.py:107 | same length, each letter upper-cased, no lower-case letter left |
| FolderModel.AlphabetChars | backend/models/folder.py:15 | the alphabet has 36 characters, upper-case letters and digits |
| FolderModel.CodeOf | backend/models/folder.py:17 | a code has one alphabet character per drawn position |
| FolderModel.GenerateJoinCode | backend/models/folder.py:10-20 | the loop returns the first drawn code no folder uses: seven alphabet characters, not in use |
| FolderModel.CreateFolder | backend/models/folder.py:23-43 | the new folder has the given name, owner and code, and the owner as its only member with role "owner" |
| FolderRoutes.FirstRole | backend/routes/folders.py:30-38 | the role of the first member whose id string matches, or none exactly when nobody matches |
| FolderRoutes.GetMemberRole | backend/routes/folders.py:30-38 | no role for a folder without members; otherwise none exactly when no member's id string matches, and a role is always that of a matching member |
| FolderRoutes.CreatorIsOwner | backend/models/folder.py:36-41 | the creator's role in a new folder is "owner" |
| FolderRoutes.NormaliseCode | backend/routes/folders.py:107 | the input with only whitespace cut at both ends, upper-cased: no lower-case letter left; an absent code gives the empty string |
| FolderRoutes.NormaliseIdempotent | backend/routes/folders.py:107 | a normalised code has no lower-case letter and no whitespace at its ends, and normalising it again changes nothing |
| FolderRoutes.FindByCode | backend/routes/folders.py:111 | `find_one` by code: the first folder with that code, or none exactly when no folder has it |
| FolderRoutes.FindById | backend/routes/folders.py:140 | `find_one` by id: the first folder with that id, or none exactly when no folder has it |
| FolderRoutes.AddMember | backend/routes/folders.py:120-124 | `$push` appends the entry to the members list, creating the list when missing, and changes nothing else |
| FolderRoutes.JoinedHasRole | backend/routes/folders.py:116-124 | after joining, the user has a role, "member" if they had none, and earlier members keep their places |
| FolderRoutes.WithoutFolderCards | backend/routes/folders.py:147 | `delete_many`: exactly the cards of other folders remain, in order |
| FolderRoutes.WithoutFolderCardsSubsequence | backend/routes/folders.py:147 | the remaining cards keep their order |
| FolderRoutes.WithoutFolderCardsCounts | backend/routes/folders.py:147 | every card of another folder remains as often as it was there, no card of the deleted folder remains |
| FolderRoutes.FolderDb.JoinFolder | backend/routes/folders.py:101-125 | 401 without a user, 400 for a blank code, 404 for an unknown code, the folder unchanged for a member, otherwise the user appended as "member" to the first folder with the code |
| FolderRoutes.FolderDb.DeleteFolder | backend/routes/folders.py:131-149 | 401, 400 for a malformed id, 404, 403 unless the role is "owner"; on success the folder and exactly its cards are removed, nothing else changes |
| FolderRoutes.FolderDb.AddFlashcard | backend/routes/folders.py:155-189 | 401, 400 for a missing id or blank side, 400 for a malformed id, 404, 403 for a non-member; otherwise one card with stripped sides is appended |
| FolderRoutes.FolderDb.CreateNewFolder | backend/routes/folders.py:58-73 | 401, 400 for a blank name; with a user and a non-blank name a folder is always created: one folder is appended with the stripped name, the user as sole owner, the creation time `now` and the first drawn join code no other folder uses |
| AiRoutes.StyleOf | backend/routes/ai.py:54-69 | the style of the first keyword category the fronts mention, or the default style when none is mentioned |
| AiRoutes.LowerFronts | backend/routes/ai.py:51 | one lower-cased front per card, in order |
| AiRoutes.LengthBucket | backend/routes/ai.py:72-78 | the answer length is one of the three bucket texts |
| AiRoutes.BucketsByTotal | backend/routes/ai.py:72-78 | the length bucket is "very short" exactly below 60 characters on average, "short" below 130, "medium" otherwise |
| AiRoutes.Sample | backend/routes/ai.py:81 | the first (at most) four cards' front and back, in order |
| AiRoutes.AnalyzeStyle | backend/routes/ai.py:37-83 | no cards: the default style, short answers, no sample; otherwise the keyword style of the joined lower-cased fronts, the bucket of the average answer length and a sample of at most four |
| AiRoutes.PromptFronts | backend/routes/ai.py:88-90 | at most the first 20 fronts, in order |
| AiRoutes.BuildPrompt | backend/routes/ai.py:87-90 | the prompt carries the topic, the count, the detected style, length and sample, and the first (at most) 20 existing fronts in order |
| AiRoutes.ExtractBracketed | backend/routes/ai.py:132-136 | a match exists exactly when some `[` precedes some `]`, and it runs from the first `[` to the last `]` |
| AiRoutes.ExtractBracketedShape | backend/routes/ai.py:132-134 | the match starts with `[` and ends with `]`, and a text that is already a bracketed array is matched whole |
| AiRoutes.DecodeReply | backend/routes/ai.py:123-136 | no array when no `[` precedes a `]`; otherwise exactly what `json.loads` makes of the slice from the first `[` to the last `]` |
| AiRoutes.ClampCount | backend/routes/ai.py:164 | the count is 5 when absent, never above 10, exactly 10 when more is requested, and the requested count itself exactly when it is at most 10 |
| AiRoutes.ValidItems | backend/routes/ai.py:221-226 | the kept items are exactly the objects with a non-blank front and back |
| AiRoutes.ValidItemsSubsequence | backend/routes/ai.py:221-226 | the kept items keep their order |
| AiRoutes.ValidItemsCounts | backend/routes/ai.py:221-226 | every valid item is kept as often as it occurs, every other item not at all |
| AiRoutes.ValidItemSides | backend/routes/ai.py:224-225 | a kept item has both sides, and neither strips to empty |
| AiRoutes.BuildDocs | backend/routes/ai.py:231-240 | one document per kept item, in order, with stripped sides and the AI flag |
| AiRoutes.AssignIds | backend/routes/ai.py:242-243 | the `zip` loop gives the i-th document the i-th inserted id and leaves documents beyond the ids untouched |
| AiRoutes.AsFlashcards | backend/routes/ai.py:242-246 | each inserted document read as a card with its id |
| AiRoutes.StoreGenerated | backend/routes/ai.py:231-243 | `insert_many` appends exactly one card per kept item, in order, and touches no folder |
| AiRoutes.CheckRequest | backend/routes/ai.py:157-179 | 401, 400 for a blank folder id or topic; past those, 400 exactly for a malformed id, 404 exactly for an unknown folder, 403 exactly for a user without a role, and acceptance otherwise; an accepted request carries the parsed id and stripped topic |
| AiRoutes.GenerateFlashcards | backend/routes/ai.py:142-249 | the checks' error, or 502 when the model fails, no JSON is found or no item is valid; otherwise one stored card per valid item, in order, and the detected style; only the success writes, and no folder changes |
| Confirmation.Leave | frontend-react/src/pages/FolderPage.jsx:317-320 | leaving an item disarms the button only when it is armed for that item |
| FolderPage.Toggle | frontend-react/src/pages/FolderPage.jsx:205-211 | the toggled identity changes membership, every other identity keeps it |
| FolderPage.ToggleTwice | frontend-react/src/pages/FolderPage.jsx:205-211 | toggling twice restores the set |
| FolderPage.WithoutCard | frontend-react/src/pages/FolderPage.jsx:222 | exactly the cards whose `_id ?? id` differs from the deleted one remain |
| FolderPage.WithoutCardSubsequence | frontend-react/src/pages/FolderPage.jsx:222 | the remaining cards keep their order |
| FolderPage.WithoutCardCounts | frontend-react/src/pages/FolderPage.jsx:222 | every card with another identity remains as often as it was there, no card with the deleted identity remains |
| FolderPage.WithoutAbsentCard | frontend-react/src/pages/FolderPage.jsx:222 | removing an identity no card carries leaves the list as it was |
| FolderPage.AddRequest | frontend-react/src/pages/FolderPage.jsx:193-196 | no request exactly when a side is all whitespace; otherwise both trimmed sides, neither empty |
| FolderPage.FolderView.Load | frontend-react/src/pages/FolderPage.jsx:176-189 | every back is hidden again; the list is replaced on success, the error shown on failure |
| FolderPage.FolderView.ToggleReveal | frontend-react/src/pages/FolderPage.jsx:205-211 | the shown set is toggled at that card, nothing else changes |
| FolderPage.FolderView.HandleDelete | frontend-react/src/pages/FolderPage.jsx:213-227 | a first press only arms the button; a press on the armed card sends the request and disarms, removing that card's entries on success and showing the error on failure |
| FolderPage.FolderView.MouseLeave | frontend-react/src/pages/FolderPage.jsx:317-320 | leaving the button disarms it only if it is armed for that card |
| FolderPage.FolderView.HandleAdd | frontend-react/src/pages/FolderPage.jsx:191-203 | nothing happens with a blank side; otherwise the trimmed sides are sent; on success both inputs are cleared and the list is reloaded at once (replaced, every back hidden, or the reload's error shown); on failure the error is shown |
| Dashboard.IsOwner | frontend-react/src/pages/Dashboard.jsx:126-128 | owned exactly when some member entry names the current user with role "owner"; never without a user or a members list |
| Dashboard.IsShared | frontend-react/src/pages/Dashboard.jsx:130-132 | shared exactly when there are more than one member; a missing list is not shared |
| Dashboard.WithoutFolder | frontend-react/src/pages/Dashboard.jsx:115 | exactly the folders whose `_id ?? id` differs from the deleted one remain |
| Dashboard.WithoutFolderSubsequence | frontend-react/src/pages/Dashboard.jsx:115 | the remaining folders keep their order |
| Dashboard.WithoutFolderCounts | frontend-react/src/pages/Dashboard.jsx:115 | every folder with another identity remains as often as it was there, no folder with the deleted identity remains |
| Dashboard.CreateRequest | frontend-react/src/pages/Dashboard.jsx:100-103 | no request exactly when the name is all whitespace; otherwise the trimmed name, not empty |
| Dashboard.ViewOf | backend/routes/folders.py:44-50 | a stored folder as the list endpoint sends it keeps its members list, one entry per member |
| Dashboard.SerializedFolder | backend/routes/folders.py:42-52 | `serialize_doc` of a stored folder turns its ids, the owner's and each member's into strings and keeps every other field and the key order |
| Dashboard.ListedNameAndIds | backend/routes/folders.py:42-52 | the listed folder's `name` is the stored name, its `_id` is the stored id's string when there is one, and it has no `id` key |
| Dashboard.ListedMembersLookup | backend/routes/folders.py:42-52 | the listed folder has a `members` list exactly when the stored one does, holding the serialised member documents |
| Dashboard.ListedMemberIsView | backend/routes/folders.py:42-52 | a serialised member document reads back as the member's id string and role |
| Dashboard.ListedFolderIsView | backend/routes/folders.py:42-52 | what the page reads from the serialised folder the list endpoint sends is exactly `ViewOf` the stored folder |
| Dashboard.OwnedViewIffStoredOwner | frontend-react/src/pages/Dashboard.jsx:126-128 | the page sees a folder as owned by exactly the users the stored folder lists as owners |
| Dashboard.OwnerRoleSeesOwned | backend/routes/folders.py:144 | a user the delete endpoint accepts as owner sees the folder as owned, so the delete button is shown |
| Dashboard.CreatedThenJoined | frontend-react/src/pages/Dashboard.jsx:126-132 | a new folder is owned by its creator and not shared; after another user joins it is shared and still owned |
| Dashboard.DashboardView.Load | frontend-react/src/pages/Dashboard.jsx:89-95 | the list is replaced on success, the error shown on failure |
| Dashboard.DashboardView.HandleCreate | frontend-react/src/pages/Dashboard.jsx:98-107 | nothing happens with a blank name; otherwise the trimmed name is sent; on success the input is cleared and the list is reloaded at once (replaced, or the reload's error shown); on failure the error is shown |
| Dashboard.DashboardView.HandleDelete | frontend-react/src/pages/Dashboard.jsx:109-117 | reachable for owned folders only; a first press arms, a press on the armed folder sends the request and disarms, removing that folder's entries on success and showing the error on failure |
| Dashboard.DashboardView.MouseLeave | frontend-react/src/pages/Dashboard.jsx:178 | leaving a folder's card disarms the button only if it is armed for that folder |

## Left out

- Requests and responses are not modelled: HTTP, JSON, CORS, status codes as numbers, tokens and `get_current_user`. The authenticated user is a parameter, `None` without a valid token. `getMyUserId` (token decoding) is the page's `me`.
- The network, `localStorage`, navigation, loading flags, styles and rendering are not modelled. Only the state the handlers change is modelled.
- The Groq client call is a function from prompt to reply. Removing code fences from the reply, and the prompt's text, are not modelled. The prompt is a record of its parts, and `json.loads` is a parameter.
- Numbers are exact reals. Floating-point rounding in `weightedRandom`, in `random.choices` and in `hours_since` is not modelled.
- Whitespace follows Python's `str.isspace` (which adds U+001C-U+001F and U+0085) and JavaScript's `trim` (which adds U+FEFF) over the characters both treat as spaces, as of the current Unicode tables; a later Unicode version that adds a space character is not followed. `upper` changes ASCII letters only, so Unicode case mapping is not modelled; `lower` is a parameter. Python's `int()` of a non-number is not modelled.
- StudySession.Session.Load: models the load when the page opens, from the initial state. A reload after the folder id changes, with the earlier state still in place, is not modelled.
- AiRoutes.ValidItems: an item whose `front` or `back` is present but not a string (a JSON null or a number) makes `.strip()` raise, a server error the model does not have. Items are objects with optional string sides.
- StudySession.Session.Know and StudySession.Session.DontKnow: the 200 ms `setTimeout` before the next card is drawn is folded into the handler.
- Scheduler.ChooseIndex: `random.choices` uses `bisect` over the cumulative weights. It is modelled as a linear search for the first cumulative weight above the draw. That gives the same index when no weight is negative, which holds for every weight the scheduler computes from a sane store (`WithStatsSane`).
- Scheduler.StatsStore: the statistics collection is a map keyed by user and card. Duplicate records for one pair are not modelled.
- FolderRoutes.FolderDb.JoinFolder: `update_one` by `_id` is taken to hit the folder just found. Ids are unique.
- FolderModel.GenerateJoinCode: the loop's termination depends on some draw being unused. That is a precondition here, since the real loop may run forever in principle.
- FolderRoutes.FolderDb.CreateNewFolder: the creation time is one clock reading, and the folder's id is a parameter.
- Scheduler.HoursSince, Scheduler.Weights, AiRoutes.BuildDocs and AiRoutes.StoreGenerated: the source reads `datetime.now()` once per card (scheduler.py:13) or once per document (ai.py:236). The model uses one clock reading `now` for the whole call, so the microseconds between those readings are not modelled.
- Bson.ParseObjectId: pymongo's `ObjectId(str)` checks the length and then decodes with `bytes.fromhex`, which skips ASCII whitespace between hex pairs. A 24-character id with inner spaces therefore reaches the lookup (404) in the source, while the model rejects it as malformed (400). The same holds for AiRoutes.CheckRequest and the folder endpoints.
- Scheduler.StatsStore.PickFlashcard, Scheduler.StatsStore.MarkFail and Scheduler.StatsStore.MarkSuccess: they take typed ids. The exception that `ObjectId(...)` raises on a malformed id string (scheduler.py:34-35, 83-84, 96-97) is not modelled.
- The backend's `get_folder` and the flashcard, study and auth routes are not part of this model. Neither are the join and AI-generation pages.
- Dashboard.DashboardView.HandleDelete: requires that some owned folder carries the identity, because the delete button is drawn only for owned folders.
- The scheduler has no recency window. It skips no recently shown card, and none is modelled.
- The study page's card click toggles the shown side; a second click turns the card back. It is not idempotent.

## Findings

| source | as written | input that shows it | evidently intended | confidence | as-written member | corrected member |
|---|---|---|---|---|---|---|
| frontend-react/src/pages/StudyPage.jsx:226-250 | answers match cards by `c.id === current.id` and record `current.id` as learned; cards from the API carry `_id` and no `id` | a deck of two cards `{_id: "a"}` and `{_id: "b"}`; "know" on the first | only the answered card's weight changes, and the learned set can reach the deck's size, matching cards by `_id ?? id` as the folder page does | high, not executed | StudySession.KnowAsWrittenTouchesOtherCards | StudySession.AnswerChangesOnlyCurrent |
