# LeadgenLite bots: a Dafny model of the lead and conversation core

LeadgenLite qualifies sales leads in chat. A Node.js platform server takes each visitor message and resolves the visitor to a lead row in PostgreSQL. It stores the conversation turn by turn and asks a Python AI agent for a reply and an analysis. It then folds the extracted entities, intent and score back into the lead. Visitors who give an email already known under another identity are merged into one lead. An admin dashboard exports the organization's leads as CSV.

This project models that core in Dafny and proves properties of the model.

- **Tables as state.** `Db.Database` is a class holding:
  - the `leads` table, a map from id to row;
  - the `conversations` table, a sequence in insertion order;
  - the clock behind `NOW()`;
  - the id sequence.

  `Database.Valid` states the constraints: primary key, the unique dedup key `(organization_id, platform, platform_user_id)`, the foreign key from a turn to its lead, and timestamps that increase along the table.
- **Lead repository** (`LeadRepository`):
  - `findOrCreate` is an insert-or-update-on-conflict.
  - `updateLead` builds its SET list and placeholders step by step, after which PostgreSQL's checks and binding are modelled.
  - `getLeadById` and `getLeadByPlatformUser` are point reads.
  - `getAllLeads` builds its filter conditions, then orders newest first with `LIMIT 100`.
- **Conversation ledger** (`ConversationRepository`): append, bounded ascending history, delete, count.
- **Identity merge** (`SessionService.LinkByEmail`): one transaction that reassigns the source lead's turns, merges entities, takes the larger score, sums message counts and deletes the source. Any failing statement rolls everything back.
- **Chat handlers** (`ChatServer`): the order of writes in `POST /api/chat` around the opaque agent call, and the `GET`/`DELETE /api/conversation/:userId` handlers.
- **Smaller parts:**
  - organization lookups (`OrganizationRepository`);
  - the in-memory stores `ConversationStore.Store` and `Memory.ConversationMemory`;
  - the CSV export (`AdminExport`);
  - the analyser's deterministic post-processing (`Analyzer`);
  - the Python `/chat` handler (`ChatApi`);
  - the two tool catalogues (`Tools`, `ToolsEnhanced`, with `Calendar` for the proposed demo slots).
- **Shared modules:** `Wrappers` (Option, Result), `Text` (join, split, decimal digits, ASCII case, Python `strip`), `JsValues` and `PyValues` (the two languages' values and conversions), and `Messages` (LangChain message kinds).

Where the code and the design documentation disagree, the model follows the code:

- `getConversationHistory` orders ascending and then limits, so it returns the *earliest* 50 turns, not the most recent.
- The merge picks its source with `LIMIT 1` and no `ORDER BY`, so any matching lead may be chosen, not the most recently active one.
- A chat turn *replaces* `lead_score`; the score only grows across merges.

## Model

| member | source | states |
|---|---|---|
| LeadRepository.FindOrCreate | platform-integrations/db/repositories/lead-repository.js:4-22 | The new table is the one-statement upsert of the key; the returned row is stored; the ledger is untouched and the table constraints still hold |
| LeadRepository.UpsertInserts | platform-integrations/db/repositories/lead-repository.js:7-9 | On an unseen key exactly one row is added, holding the key and the given platform_data, with first_message_at now and message_count 1; all other rows are unchanged |
| LeadRepository.UpsertUpdates | platform-integrations/db/repositories/lead-repository.js:10-14 | On a known key no row is created; message_count rises by one, last_message_at is now, platform_data is replaced wholesale; id, entities, score, contact columns and first_message_at are kept; the id sequence still advances, since the serial default is drawn before the conflict is found |
| LeadRepository.UpsertKeepsTable | platform-integrations/db/repositories/lead-repository.js:10 | The upsert keeps every table constraint, in particular at most one lead per dedup key |
| LeadRepository.TouchKeepsTable | platform-integrations/db/repositories/lead-repository.js:10-14 | The conflict branch keeps the table constraints |
| LeadRepository.InsertKeepsTable | platform-integrations/db/repositories/lead-repository.js:7-9 | The insert branch keeps the table constraints: a fresh id, an unused key and the newest creation time |
| LeadRepository.UpsertTwice | platform-integrations/db/repositories/lead-repository.js:10-18 | Two upserts of one key return the same id, and the second counts one more message |
| LeadRepository.UpsertFirst | platform-integrations/db/repositories/lead-repository.js:7-13 | After the first upsert of a new key, one lead holds it with message_count 1 |
| LeadRepository.UpsertAgain | platform-integrations/db/repositories/lead-repository.js:10-13 | Each further upsert of the key keeps a single lead for it, with message_count equal to the number of calls |
| LeadRepository.UpsertThenLookup | platform-integrations/db/repositories/lead-repository.js:77-83 | After findOrCreate, getLeadByPlatformUser of that key finds the row it returned |
| LeadRepository.MirroredColumns | platform-integrations/db/repositories/lead-repository.js:30-52 | A column is mirrored exactly when updates.entities and its same-named field are both truthy |
| LeadRepository.PushSet | platform-integrations/db/repositories/lead-repository.js:33-35 | One push adds `column = $n` with n the old paramIndex, binds its value, and moves paramIndex on by one |
| LeadRepository.PushMirror | platform-integrations/db/repositories/lead-repository.js:30-52 | One entity test pushes a SET entry for its column exactly when that entity field is truthy, numbered after the entries before it |
| LeadRepository.PushEntries | platform-integrations/db/repositories/lead-repository.js:54-63 | The forEach pass adds one numbered SET entry per key of updates, in order; values are JSON-encoded for entities, metadata and platform_data and stored as given otherwise |
| LeadRepository.BuildUpdate | platform-integrations/db/repositories/lead-repository.js:24-67 | The statement is the mirrored columns followed by the keys; placeholders run 1, 2, … consecutively, so paramIndex == values.length + 1, and the lead id is bound to the last placeholder |
| LeadRepository.ColumnNamed | platform-integrations/db/repositories/lead-repository.js:67 | Name resolution of a SET column among the columns an update may assign: the unique column of that name, or nothing |
| LeadRepository.Bind | platform-integrations/db/repositories/lead-repository.js:57-60 | A jsonb column accepts exactly a JSON-encoded object; a text column stores a string as itself and `null` as NULL; an integer column takes a whole number, or a string PostgreSQL reads as one, as that integer |
| LeadRepository.ApplyAllEffect | platform-integrations/db/repositories/lead-repository.js:67 | After the SET list each assigned column holds its cell, every other column is as before, and id, key and creation time do not move |
| LeadRepository.FirstUnknown | platform-integrations/db/repositories/lead-repository.js:67 | Reports a SET name that is not, as an exact lower-case identifier, a column of leads (identity and timestamp columns count as known), and nothing exactly when every name is one |
| LeadRepository.FirstFixed | platform-integrations/db/repositories/lead-repository.js:67 | Reports a SET name that is an identity or timestamp column of leads, and nothing exactly when there is none |
| LeadRepository.FirstDuplicate | platform-integrations/db/repositories/lead-repository.js:67 | Reports a column assigned twice, and nothing exactly when the names are distinct |
| LeadRepository.CheckStatement | platform-integrations/db/repositories/lead-repository.js:67 | Raises no error exactly when the statement is well formed: a non-empty SET list of assignable, distinct columns whose placeholders are bound; unknown, repeated and identity columns are each reported |
| LeadRepository.ExecuteUpdate | platform-integrations/db/repositories/lead-repository.js:67-69 | A successful UPDATE comes from a well-formed statement and returns a row whose updated_at is now |
| LeadRepository.UpdatedRow | platform-integrations/db/repositories/lead-repository.js:67-69 | A returned row is the stored row with the bound cells applied and updated_at set |
| LeadRepository.UpdateLead | platform-integrations/db/repositories/lead-repository.js:24-70 | The result is the built statement run on the table; a returned row replaces that id's row and nothing else changes; an error leaves the table as it was |
| LeadRepository.UpdateKeepsTable | platform-integrations/db/repositories/lead-repository.js:67-69 | Replacing a row by one with the same identity keeps the table constraints |
| LeadRepository.UpdateKeepsIdentity | platform-integrations/db/repositories/lead-repository.js:67-69 | A successful update returns the row with the given id, with the same key, creation time and first_message_at, and updated_at now |
| LeadRepository.UpdateStoresKeys | platform-integrations/db/repositories/lead-repository.js:54-63 | Every key of updates names a column and that column holds the key's value, with jsonb keys decoded back to the given object |
| LeadRepository.UpdateMirrorsEntities | platform-integrations/db/repositories/lead-repository.js:30-52 | Each truthy entities.name, email, phone or company ends up in the same-named column |
| LeadRepository.UpdateKeepsOthers | platform-integrations/db/repositories/lead-repository.js:30-67 | A column neither named by a key nor mirrored from a truthy entity field keeps its value, so a falsy entity field leaves its column alone |
| LeadRepository.UpdateWithoutKeysFails | platform-integrations/db/repositories/lead-repository.js:67 | updateLead(id, {}) sends `SET , updated_at`, which is a syntax error |
| LeadRepository.MirrorAndKeyClash | platform-integrations/db/repositories/lead-repository.js:30-63 | A key that also names a mirrored column assigns it twice, and the statement fails |
| LeadRepository.UpdateMissingLead | platform-integrations/db/repositories/lead-repository.js:67-69 | An update of an absent id raises no error for it: a statement that is well formed and binds returns no row, and any error comes from the statement itself |
| LeadRepository.UpdateSucceeds | platform-integrations/db/repositories/lead-repository.js:67-69 | updateLead succeeds exactly when its statement is well formed and every value binds; it then returns a row exactly when the id is in the table |
| LeadRepository.GetLeadById | platform-integrations/db/repositories/lead-repository.js:72-75 | Returns the row with that id, or undefined exactly when there is none |
| LeadRepository.GetLeadByPlatformUser | platform-integrations/db/repositories/lead-repository.js:77-83 | Returns the unique row with that dedup key, or undefined exactly when there is none |
| LeadRepository.BuildSelect | platform-integrations/db/repositories/lead-repository.js:85-108 | `$1` is the organization; each truthy filter, and only those, adds one condition with the next placeholder bound to that filter's value |
| LeadRepository.BindInt | platform-integrations/db/repositories/lead-repository.js:102-104 | A whole number binds to the integer column as itself; a value that is neither a whole number nor a string does not bind |
| LeadRepository.BindConditions | platform-integrations/db/repositories/lead-repository.js:110 | Binds every condition, or fails because one condition does not bind |
| LeadRepository.Newest | platform-integrations/db/repositories/lead-repository.js:108 | Picks the lead of the set created last, strictly after every other one |
| LeadRepository.NewestIds | platform-integrations/db/repositories/lead-repository.js:108 | `ORDER BY created_at DESC LIMIT n`: min(n, size) ids of the set in strictly decreasing creation order, each newer than every id left out |
| LeadRepository.Matching | platform-integrations/db/repositories/lead-repository.js:86-104 | Exactly the organization's rows that pass every bound condition |
| LeadRepository.RowsOf | platform-integrations/db/repositories/lead-repository.js:111 | The stored rows behind the ids, in the same order |
| LeadRepository.GetAllLeads | platform-integrations/db/repositories/lead-repository.js:85-112 | Fails exactly on a truthy filter PostgreSQL cannot compare; otherwise returns the organization's leads matching each truthy filter (status and platform equal, lead_score at least minScore), newest first, at most 100, each newer than any matching lead left out |
| LeadRepository.BindFails | platform-integrations/db/repositories/lead-repository.js:90-104 | A bad filter makes binding fail |
| LeadRepository.BindSucceeds | platform-integrations/db/repositories/lead-repository.js:90-104 | Good filters bind to tests that hold of exactly the leads matching the filters |
| LeadRepository.TestsMeaning | platform-integrations/db/repositories/lead-repository.js:90-104 | The bound tests hold of a lead exactly when it matches every truthy filter; minScore 0 is no condition |
| LeadRepository.SelectFails | platform-integrations/db/repositories/lead-repository.js:85-110 | The built SELECT fails exactly on a bad filter |
| LeadRepository.SelectAnswers | platform-integrations/db/repositories/lead-repository.js:85-111 | On good filters, the built SELECT returns the newest 100 matching leads of the organization |
| LeadRepository.NewestRowsOf | platform-integrations/db/repositories/lead-repository.js:108-111 | The rows of the newest ids are stored rows of the set, newest first, bounded, none older than one left out |
| Db.IdForKey | platform-integrations/db/repositories/lead-repository.js:79 | Names a lead holding the key, or nothing exactly when no lead does |
| Db.IdForKeyUnique | platform-integrations/db/repositories/lead-repository.js:10 | Under the unique constraint, the lead holding a key is the one the lookup names |
| Db.OwnedBy | platform-integrations/db/repositories/conversation-repository.js:26 | `WHERE lead_id = $1`: exactly that lead's rows, in table order |
| Db.OwnedByChronological | platform-integrations/db/repositories/conversation-repository.js:26-27 | A lead's rows keep the table's increasing timestamp order |
| Db.Database.Tick | platform-integrations/db/repositories/conversation-repository.js:7 | `NOW()` is later than every earlier value and keeps the constraints |
| ConversationRepository.AddMessage | platform-integrations/db/repositories/conversation-repository.js:4-20 | Appends exactly the one row the INSERT builds, or nothing on error; the leads table is unchanged |
| ConversationRepository.InsertTurnMeaning | platform-integrations/db/repositories/conversation-repository.js:9-17 | Succeeds exactly when the lead exists and the metadata binds; stores the given lead, organization, role and content at now; a falsy intent or sentiment becomes NULL and a missing entities_extracted becomes {} |
| ConversationRepository.AppendKeepsTable | platform-integrations/db/repositories/conversation-repository.js:5-8 | Appending a row stamped later, whose lead exists, keeps the ledger's constraints |
| ConversationRepository.OwnedByAppend | platform-integrations/db/repositories/conversation-repository.js:26 | An appended row joins the end of its own lead's rows and no other lead's |
| ConversationRepository.AppendCounts | platform-integrations/db/repositories/conversation-repository.js:38-44 | After addMessage that lead's count rises by exactly one and no other lead's count changes |
| ConversationRepository.History | platform-integrations/db/repositories/conversation-repository.js:22-31 | min(limit, count) rows, the first rows of that lead in table order |
| ConversationRepository.HistoryEarliestFirst | platform-integrations/db/repositories/conversation-repository.js:27-28 | The history is in strictly ascending timestamp order and is older than every turn it leaves out: the earliest turns, not the newest |
| ConversationRepository.GetConversationHistory | platform-integrations/db/repositories/conversation-repository.js:22-32 | Only that lead's rows, min(limit, count) of them (default limit 50), ascending by timestamp |
| ConversationRepository.Without | platform-integrations/db/repositories/conversation-repository.js:35 | `DELETE ... WHERE lead_id = $1` keeps exactly the other leads' rows |
| ConversationRepository.WithoutOwned | platform-integrations/db/repositories/conversation-repository.js:35 | After the delete the lead owns no row and every other lead owns the same rows in the same order |
| ConversationRepository.WithoutChronological | platform-integrations/db/repositories/conversation-repository.js:35 | The rows left keep increasing timestamps |
| ConversationRepository.ClearConversation | platform-integrations/db/repositories/conversation-repository.js:34-36 | The ledger becomes the table without that lead's rows; leads are untouched; the constraints hold |
| ConversationRepository.CountOf | platform-integrations/db/repositories/conversation-repository.js:39-43 | A count, row by row, equal to the number of that lead's rows |
| ConversationRepository.GetConversationCount | platform-integrations/db/repositories/conversation-repository.js:38-44 | Returns the number of that lead's rows |
| ConversationRepository.ClearCounts | platform-integrations/db/repositories/conversation-repository.js:34-44 | After clearConversation the lead's count is 0 and every other count is unchanged |
| SessionService.StepsRun | platform-integrations/src/services/session-service.js:8-40 | BEGIN, the source SELECT and COMMIT always run; the current-lead lookup runs when a source exists; the reassign, update and delete run exactly when both exist |
| SessionService.Reassigned | platform-integrations/src/services/session-service.js:20-23 | Every row of the source lead now points at the target, every other row is as before, and no row is added or removed |
| SessionService.ReassignCounts | platform-integrations/src/services/session-service.js:20-23 | After the reassignment the source owns no turn, the target owns its own turns plus the source's, and every other lead's count is unchanged |
| SessionService.MergedLeadMeaning | platform-integrations/src/services/session-service.js:25-34 | Merged entities are the source's overlaid by the target's; the score is the larger one; message counts add; intent, sentiment, platform_data, email and identity are the target's |
| SessionService.SourceIsNotTarget | platform-integrations/src/services/session-service.js:10-17 | The source (other platform_user_id) is never the visitor's own web lead |
| SessionService.MergeKeepsLeadTable | platform-integrations/src/services/session-service.js:27-36 | Updating the target and deleting the source keeps the lead table's constraints |
| SessionService.MergeKeepsTurnTable | platform-integrations/src/services/session-service.js:20-36 | After the merge every turn still points at an existing lead and timestamps do not move |
| SessionService.Merge | platform-integrations/src/services/session-service.js:20-36 | The reassign, the target update and the delete run in order, and the first that fails stops the rest; with no failure the tables are the merged leads and the reassigned ledger, and the constraints hold |
| SessionService.MergeSource | platform-integrations/src/services/session-service.js:17-37 | With a source found, the web-lead lookup runs; with no web lead nothing changes; with one, the merge runs into it, which is never the source itself |
| SessionService.LinkByEmail | platform-integrations/src/services/session-service.js:5-48 | Throws exactly when a statement that runs fails, and then the store is as before; otherwise returns true; with no source or no web lead nothing changes; a full merge leaves the merged lead table and the reassigned ledger |
| ChatServer.UserIdOf | platform-integrations/src/index.js:79 | The supplied user_id when non-empty, otherwise the freshly generated one |
| ChatServer.Entries | platform-integrations/src/index.js:156-160 | One `{role, content, timestamp}` per stored history row, in order |
| ChatServer.TurnEntitiesKeepKnown | platform-integrations/src/index.js:207 | Every known entity key survives; a new_entities value wins on a shared key |
| ChatServer.TurnReplacesScore | platform-integrations/src/index.js:207-216 | After the turn's update the stored score is the agent's lead_score, whatever it was before (so it can go down); entities are the known ones overlaid by the new ones, and metadata is `{suggested_action}` |
| ChatServer.HandleChat | platform-integrations/src/index.js:75-234 | A missing message is 400 with no write. Otherwise the lead is upserted before the agent call, and the agent gets the stored history from before this message plus the lead's entities. On agent failure it is 500 with no turn and no update. After a successful agent call the reply is 200 exactly when the reply is readable, its intent and sentiment can be stored and the lead update succeeds; then exactly two turns are appended, user then assistant, and the update is stored, and the response echoes the user id used. Otherwise it is 500, with no turn when the reply or its metadata is unusable and both turns kept when only the update fails |
| ChatServer.StartTurn | platform-integrations/src/index.js:144-170 | The upsert runs first; the agent call carries the history read after it and the lead's entities |
| ChatServer.AppendTurns | platform-integrations/src/index.js:191-204 | Succeeds exactly when the agent's intent and sentiment can be stored; then two rows are appended in order, user then assistant, only the user row holding intent and sentiment; on failure nothing is written; leads are untouched |
| ChatServer.RecordTurn | platform-integrations/src/index.js:191-216 | Succeeds exactly when the user turn can be stored and the lead update succeeds. The two turns are kept whenever the user turn could be stored, even when the update then fails; the leads change only by the successful update of this lead |
| ChatServer.GetConversation | platform-integrations/src/index.js:242-261 | 404 exactly when the visitor has no web lead; otherwise that lead and its history |
| ChatServer.DeleteConversation | platform-integrations/src/index.js:272-286 | 404 with no change exactly when there is no web lead; otherwise only that lead's turns are deleted |
| JsValues.Spread | platform-integrations/src/index.js:207 | `{...a, ...b}` holds the keys of both, and b wins on a shared key |
| OrganizationRepository.GetByApiKey | platform-integrations/db/repositories/organization-repository.js:4-10 | A returned organization has that api key and is active; undefined exactly when none does |
| OrganizationRepository.GetById | platform-integrations/db/repositories/organization-repository.js:12-18 | A returned organization has that id, whatever is_active holds; undefined exactly when none has it |
| OrganizationRepository.GetDefaultOrganization | platform-integrations/db/repositories/organization-repository.js:20-25 | Returns an active organization created no later than any other active one; undefined exactly when none is active |
| OrganizationRepository.GetByIdFinds | platform-integrations/db/repositories/organization-repository.js:12-18 | Under the primary key, getById finds the row holding that id |
| OrganizationRepository.DeactivatedStillById | platform-integrations/db/repositories/organization-repository.js:4-18 | A deactivated organization is still found by id, but by no api key and not as the default |
| OrganizationRepository.ApiKeyThenId | platform-integrations/db/repositories/organization-repository.js:4-18 | An organization found by api key is found again by its id |
| ConversationStore.DefaultLead | platform-integrations/src/conversation-store.js:18-25 | The unknown user's lead: user_id, entities {}, null intent and sentiment, lead_score 0, created_at now |
| ConversationStore.Overlay | platform-integrations/src/conversation-store.js:30-34 | A shallow overlay: keys of updates win, other keys are kept, updated_at is now |
| ConversationStore.OverlayEntities | platform-integrations/src/conversation-store.js:30-34 | An entities key in updates replaces the stored entities wholesale, with no deep merge; without one they are kept |
| ConversationStore.Store.constructor | platform-integrations/src/conversation-store.js:2-5 | Both maps start empty |
| ConversationStore.Store.GetConversation | platform-integrations/src/conversation-store.js:7-9 | The stored list, or [] for an unknown user |
| ConversationStore.Store.AddMessage | platform-integrations/src/conversation-store.js:11-15 | One entry is added at the end of that user's list; other users' lists and all leads are unchanged |
| ConversationStore.Store.GetLead | platform-integrations/src/conversation-store.js:17-26 | The stored lead, or the default lead, which is not stored |
| ConversationStore.Store.UpdateLead | platform-integrations/src/conversation-store.js:28-37 | Stores the overlay of updates on the current lead under that user and returns it; getLead then returns that object; conversations are unchanged |
| ConversationStore.Store.ClearConversation | platform-integrations/src/conversation-store.js:39-41 | Removes only that user's conversation; leads are untouched |
| ConversationStore.Store.GetAllLeads | platform-integrations/src/conversation-store.js:43-45 | Every stored lead once, in first-insertion order |
| ConversationStore.OneUpdateListsOneLead | platform-integrations/src/conversation-store.js:17-45 | Example on a fresh store: getLead of a new user stores nothing, and after one updateLead getAllLeads lists exactly the lead it returned |
| Memory.ConversationMemory.constructor | ai-brain-python/app/agent/memory.py:8-9 | Storage starts empty |
| Memory.ConversationMemory.GetHistory | ai-brain-python/app/agent/memory.py:11-13 | The saved list, or [] for an unknown user |
| Memory.ConversationMemory.SaveHistory | ai-brain-python/app/agent/memory.py:15-17 | The list replaces the saved one wholesale, so get_history then returns it; no other user's history changes |
| Memory.ConversationMemory.ClearHistory | ai-brain-python/app/agent/memory.py:19-22 | Only that user is removed; clearing an absent user changes nothing; other users keep their history |
| AdminExport.TextCell | platform-integrations/admin/routes/index.js:142 | `column \|\| ''`: a NULL column is empty |
| AdminExport.ValueCell | platform-integrations/admin/routes/index.js:151-152 | A falsy platform_data value, a missing one included, is empty; a string is itself |
| AdminExport.Cells | platform-integrations/admin/routes/index.js:141-153 | Exactly one value per header name |
| AdminExport.Lines | platform-integrations/admin/routes/index.js:137-155 | The header first, then one line per lead in the order given |
| AdminExport.MissingValuesAreEmpty | platform-integrations/admin/routes/index.js:140-152 | A missing name, email, phone, company, intent, sentiment, ip or user_agent gives an empty field |
| AdminExport.HeaderHasNoNewline | platform-integrations/admin/routes/index.js:138 | The fixed header is a single line |
| AdminExport.CsvLines | platform-integrations/admin/routes/index.js:137-156 | With no newline in a value, splitting the document at newlines gives the header and then one line per lead: one more line than leads, no trailing newline |
| AdminExport.RowFieldCount | platform-integrations/admin/routes/index.js:141-154 | A data line has 12 fields plus one for every comma inside a value, since values are not quoted |
| AdminExport.RowFields | platform-integrations/admin/routes/index.js:141-154 | With no comma in a value, a line's fields are exactly its 12 values |
| AdminExport.CommaInNameShiftsColumns | platform-integrations/admin/routes/index.js:142-154 | A name `Doe, Jane` gives its line 13 fields |
| AdminExport.Export | platform-integrations/admin/routes/index.js:133-164 | The attachment is the CSV of the organization's leads as getAllLeads returns them with no filters: newest first, at most 100 |
| Analyzer.UserMessages | ai-brain-python/app/agent/analyzer.py:11-14 | Contents of human messages only, each from the input; empty exactly when there is no human message |
| Analyzer.UserMessagesAppend | ai-brain-python/app/agent/analyzer.py:11-14 | The filter distributes over concatenation, so input order is kept |
| Analyzer.TranscriptLines | ai-brain-python/app/agent/analyzer.py:28 | One `User: ` line per user message, in order |
| Analyzer.TranscriptSplits | ai-brain-python/app/agent/analyzer.py:28 | With no newline in a message, the transcript's lines are exactly those lines |
| Analyzer.Analysis | ai-brain-python/app/agent/analyzer.py:146-155 | The result dictionary has exactly the eight keys |
| Analyzer.ReasoningNotAKey | ai-brain-python/app/agent/analyzer.py:136-137 | `reasoning` is none of the eight keys |
| Analyzer.StripFencesUnfenced | ai-brain-python/app/agent/analyzer.py:127 | Content not starting with three backticks is untouched |
| Analyzer.StripFencesShort | ai-brain-python/app/agent/analyzer.py:127-131 | Fenced content of at most two lines is unchanged |
| Analyzer.StripFencesFenced | ai-brain-python/app/agent/analyzer.py:127-131 | Fenced content loses its first and last lines exactly; then a leading `json` is dropped and the rest stripped |
| Analyzer.StringValue | ai-brain-python/app/agent/analyzer.py:142-143 | None stays None; any other value becomes its string form |
| Analyzer.Stringified | ai-brain-python/app/agent/analyzer.py:140-143 | The same keys, each value rewritten as above |
| Analyzer.StringifyEntities | ai-brain-python/app/agent/analyzer.py:140-143 | The in-place loop gives the stringified map, so every value is None or a string |
| Analyzer.Normalised | ai-brain-python/app/agent/analyzer.py:140-155 | Fails exactly when new_entities is no dict or confidence or lead_score does not convert; otherwise the eight keys with stringified entities, and missing keys get their defaults |
| Analyzer.Normalise | ai-brain-python/app/agent/analyzer.py:140-155 | The imperative normalisation computes exactly that |
| Analyzer.Interpret | ai-brain-python/app/agent/analyzer.py:119-169 | Always exactly the eight keys and never `reasoning`; a failed model call gives the fallback (score 10, confidence 0.3) |
| Analyzer.InterpretReply | ai-brain-python/app/agent/analyzer.py:119-169 | The imperative handling of the reply computes exactly the interpretation above |
| Analyzer.ReasoningIgnored | ai-brain-python/app/agent/analyzer.py:136-137 | A `reasoning` key, whatever it holds, has no effect on the result |
| Analyzer.EmptyObjectDefaults | ai-brain-python/app/agent/analyzer.py:146-155 | A decoded `{}` gets every documented default |
| Analyzer.AnalyzeConversation | ai-brain-python/app/agent/analyzer.py:7-169 | With no human message it returns the fixed default (score 0, confidence 0.5, no entities) without calling the model; otherwise the model gets the transcript of the user messages and the known entities, and the reply is interpreted as above |
| ChatApi.Converted | ai-brain-python/app/api/chat.py:52-55 | A `user` entry becomes a HumanMessage and any other role an AIMessage, with the same content |
| ChatApi.ToMessages | ai-brain-python/app/api/chat.py:50-58 | The history converted in order, then the incoming message as a HumanMessage: length len(history) + 1 |
| ChatApi.ConvertedUserMessages | ai-brain-python/app/api/chat.py:50-55 | The converted history's human messages are exactly the `user` entries, in order |
| ChatApi.Chat | ai-brain-python/app/api/chat.py:45-89 | The graph gets the converted messages with user_id and platform. A graph exception, or an empty message list, is a 500 carrying the exception text. Otherwise the reply is the last message, user_id and platform are echoed, success is true, and the metadata is the analysis of the graph's messages with the request's known_entities |
| PyValues.Truncate | ai-brain-python/app/agent/analyzer.py:151 | `int()` of a float truncates toward zero |
| PyValues.ToInt | ai-brain-python/app/agent/analyzer.py:151 | `int()` of ints, booleans, floats and strings; None, lists and dicts raise |
| PyValues.ToFloat | ai-brain-python/app/agent/analyzer.py:150 | `float()` of floats, ints and booleans; None, lists and dicts raise |
| PyValues.ToStr | ai-brain-python/app/agent/analyzer.py:143 | `str()` keeps a string and renders an int as decimal digits that parse back to it |
| Tools.GetPricingService | ai-brain-python/app/agent/tools.py:4-45 | The plan named, lower-cased, or the error dictionary |
| Tools.PricingIgnoresCase | ai-brain-python/app/agent/tools.py:45 | The lookup gives the same answer in any letter case |
| Tools.UnknownPlanIsError | ai-brain-python/app/agent/tools.py:45 | An unknown plan yields a dictionary with the single key `error` |
| Tools.OnlyProIsPopular | ai-brain-python/app/agent/tools.py:6-44 | Only the pro plan carries `popular`, and it is True |
| Tools.GetPricing | ai-brain-python/app/agent/tools.py:126-135 | `all` in any letter case gives the three plans plus the trial note; anything else is the service lookup |
| Tools.GetPricingIgnoresCase | ai-brain-python/app/agent/tools.py:128 | The `all` test ignores letter case |
| Tools.GetFeaturesService | ai-brain-python/app/agent/tools.py:48-85 | Exactly `all` wraps the six categories under `features`; otherwise a lower-cased lookup or `Category not found` |
| Tools.FeaturesAllIsCaseSensitive | ai-brain-python/app/agent/tools.py:83-85 | Any other casing of `all` falls through to the lookup and yields the error |
| Tools.FeaturesUpperAll | ai-brain-python/app/agent/tools.py:83-85 | `ALL` yields `Category not found` |
| Tools.ScheduleDemoService | ai-brain-python/app/agent/tools.py:88-95 | Always status `scheduled`, with a message naming both name and email |
| Tools.ScheduleIgnoresPreferredTime | ai-brain-python/app/agent/tools.py:88-95 | preferred_time has no effect on the answer |
| ToolsEnhanced.GetPricingService | ai-brain-python/app/agent/tools_enhanced.py:5-27 | The plan named, lower-cased, or the error dictionary naming basic, pro and enterprise |
| ToolsEnhanced.PricingIgnoresCase | ai-brain-python/app/agent/tools_enhanced.py:27 | The lookup gives the same answer in any letter case |
| ToolsEnhanced.MonthlyPrices | ai-brain-python/app/agent/tools_enhanced.py:7-26 | Prices are the integers 29, 99 and 299, whatever the case of the name, all billed monthly |
| ToolsEnhanced.GetFeaturesService | ai-brain-python/app/agent/tools_enhanced.py:30-58 | `all` in any case is the whole three-plan map, unwrapped; otherwise a lower-cased lookup or `Plan not found` |
| ToolsEnhanced.FeaturesIgnoreCase | ai-brain-python/app/agent/tools_enhanced.py:56-58 | The answer is the same in any letter case, and `ALL` is the whole map |
| ToolsEnhanced.SlotDates | ai-brain-python/app/agent/tools_enhanced.py:63-68 | Three dates, the i-th being today plus i + 1 days; they are missing exactly when today is one of the last three days `datetime` can hold (9999-12-29 to 9999-12-31) |
| ToolsEnhanced.SlotDatesConsecutive | ai-brain-python/app/agent/tools_enhanced.py:65-69 | The first slot is tomorrow and each next slot is the day after the previous one |
| ToolsEnhanced.Slot | ai-brain-python/app/agent/tools_enhanced.py:67 | A slot is the date followed by ` 10:00 AM` |
| ToolsEnhanced.SlotsDistinct | ai-brain-python/app/agent/tools_enhanced.py:66-69 | The three slot strings differ |
| ToolsEnhanced.ScheduleDemoService | ai-brain-python/app/agent/tools_enhanced.py:61-84 | A non-empty date gives `scheduled`, echoing the date, name and email. None or an empty date gives `pending` with the three slots and the literal next_step, unless a slot would pass the last date datetime can hold |
| ToolsEnhanced.Pending | ai-brain-python/app/agent/tools_enhanced.py:69-74 | The pending answer has exactly the keys status, message, available_slots and next_step, with status `pending` and the slots as given |
| ToolsEnhanced.Scheduled | ai-brain-python/app/agent/tools_enhanced.py:76-83 | The scheduled answer has exactly the six keys, with status `scheduled` and the date, name and email echoed |
| ToolsEnhanced.NextStepNotInterpolated | ai-brain-python/app/agent/tools_enhanced.py:74 | The pending answer does not depend on the email, and next_step ends in the literal `{email}` |
| Calendar.DaysInMonth | ai-brain-python/app/agent/tools_enhanced.py:65 | Months have 28 to 31 days, with February following the Gregorian leap rule |
| Calendar.NextDay | ai-brain-python/app/agent/tools_enhanced.py:65 | The next valid date, later than the given one, with no valid date in between; none after 9999-12-31 |
| Calendar.AddDays | ai-brain-python/app/agent/tools_enhanced.py:64-67 | `+ timedelta(days=n)` is defined exactly when it does not pass 9999-12-31, and is then the valid date n days later by day count |
| Calendar.NextDayNumber | ai-brain-python/app/agent/tools_enhanced.py:64-67 | The day after a date has the next day number |
| Calendar.AtMostMaxDate | ai-brain-python/app/agent/tools_enhanced.py:64-67 | 9999-12-31 is the latest date, and the only one with the largest day number |
| Calendar.LastThreeDays | ai-brain-python/app/agent/tools_enhanced.py:64-67 | Three more days exist after every date except 9999-12-29, 9999-12-30 and 9999-12-31 |
| Calendar.AddDaysSucc | ai-brain-python/app/agent/tools_enhanced.py:67 | Adding n + 1 days is the next day after adding n |
| Calendar.TwoDigits | ai-brain-python/app/agent/tools_enhanced.py:67 | `%m` and `%d` are two digits that read back as the number |
| Calendar.FormatInjective | ai-brain-python/app/agent/tools_enhanced.py:67 | Distinct dates render differently |
| Text.JoinSplit | ai-brain-python/app/agent/analyzer.py:128-129 | Joining the pieces of a split gives the string back |
| Text.SplitJoin | platform-integrations/admin/routes/index.js:154-156 | Splitting a join gives the parts back when no part holds the separator |
| Text.SplitAfterPiece | ai-brain-python/app/agent/analyzer.py:128 | A split separates off a leading piece without the separator |
| Text.SplitBeforePiece | ai-brain-python/app/agent/analyzer.py:128 | A split separates off a trailing piece without the separator |
| Text.SplitCount | ai-brain-python/app/agent/analyzer.py:128-129 | A split yields one piece more than there are separators |
| Text.JoinOccurrences | platform-integrations/admin/routes/index.js:154 | A join of n parts holds n - 1 separators plus those inside the parts |
| Text.NotInJoin | platform-integrations/admin/routes/index.js:154-156 | A character in neither the parts nor the separator is absent from the join |
| Text.ParseIntToDecimal | platform-integrations/admin/routes/index.js:148 | The decimal rendering of an integer parses back to it |
| Text.LowerUpper | ai-brain-python/app/agent/tools.py:45 | Lower-casing an upper-cased string equals lower-casing it |
| Text.Strip | ai-brain-python/app/agent/analyzer.py:124 | The result is a slice of the input with only whitespace outside it, and it starts and ends with no whitespace: exactly the outer whitespace is removed |

## Left out

- The PostgreSQL schema file is not part of this model. The model takes the column defaults to be: entities `{}`, lead_score 0, message_count 1, and created_at, updated_at and last_message_at `NOW()`. It also models a foreign key from a conversation row to its lead, text columns that reject non-strings, and jsonb columns that hold objects only.
- Concurrency and isolation: each SQL statement is one atomic step, and the merge transaction is all-or-nothing with no interleaving. The current-lead lookup at session-service.js:17 runs outside the transaction client; with no interleaving this makes no difference.
- `NOW()`, `new Date()`, `datetime.now()` and `uuidv4()` are parameters. `NOW()` is a clock that increases by one before each statement that reads it, so timestamps are distinct and creation times never tie.
- ConversationStore.Store.UpdateLead: both `new Date()` calls of one `updateLead` (created_at of a default lead and updated_at) read the same `now`.
- ConversationStore.Store.AddMessage: the in-place push onto a list a caller may still hold, and any aliasing of stored objects, are modelled by value.
- `undefined` and `null` are both `Null`. The spread of strings or arrays, V8's number formatting, `Date.toISOString` and JavaScript's string conversion of non-string CSV values are parameters or not modelled.
- LeadRepository.GetAllLeads: a string minScore binds only when it is an optional sign followed by ASCII digits, so PostgreSQL's whitespace and other numeric spellings are not modelled. Truthy non-string status or platform filters are refused.
- ConversationRepository.AddMessage: a truthy non-string intent or sentiment, and a truthy non-object entities_extracted, are refused rather than cast.
- ChatServer.HandleChat: the request's `message` is a string or absent. A truthy non-string message (a number, an object) passes `!message` in the source and would be stored in its string form; the model does not take it.
- LeadRepository.Bind: node-postgres sends parameters as text, so PostgreSQL would also store a number or boolean in a text column as its string form and cast a decimal string into `confidence`. The model refuses these, because their string forms depend on V8's number formatting. An integer column takes a whole number or a string of an optional sign and ASCII digits.
- LeadRepository.ColumnNamed: resolves only the columns an update may assign here. The identity and timestamp columns (`id`, `organization_id`, `platform`, `platform_user_id`, `first_message_at`, `last_message_at`, `created_at`) are real columns that PostgreSQL would assign from an `updates` key. The model refuses such an update with `UnmodelledColumn` (see `LeadRepository.FirstFixed`), because assigning them could break the dedup key, the primary key or the foreign key from conversations, and no caller sends these keys.
- LeadRepository.ColumnNamed: SET names are taken as exact lower-case identifiers. PostgreSQL's folding of unquoted identifiers to lower case, whitespace around a key, double-quoted identifiers and SQL text inside a key are not modelled, so a key such as `Name` is reported unknown here. The only caller (platform-integrations/src/index.js:208) sends lower-case literal keys.
- LeadRepository.BindInt: integer columns (`lead_score`, `message_count`) and the `minScore` parameter are taken as unbounded. PostgreSQL's `integer` range, whose overflow makes the UPDATE or SELECT fail, and an overflowing `message_count + 1` in the upsert are not modelled, so an agent score beyond that range is stored here where the source answers 500.
- LeadRepository.CheckStatement: an update naming an identity or timestamp column is refused rather than performed, as above.
- The request enrichment of index.js (lines 89-142: user-agent parsing and IP geolocation with foreign libraries) is out of scope. The enriched `platform_data` is a parameter of `ChatServer.HandleChat`, and the agent client is an opaque function.
- Logging (`console.log`, `print`) is left out.
- The merge's source row is any matching row, chosen arbitrarily, because `LIMIT 1` without `ORDER BY` fixes none.
- Organizations are a sequence in scan order; PostgreSQL's choice among equal `created_at` values is taken to be the first in that order.
- Lower- and upper-casing is ASCII only. Python's `str.lower()` differs only for non-ASCII letters, and only the Kelvin sign lowers to an ASCII letter (`k`), which none of the looked-up keys contains.
- Python details not modelled:
  - `int()` of strings with underscores or non-ASCII digits;
  - non-finite floats;
  - the `repr` of floats, lists and dicts;
  - `round(x, 2)` and `float()` of a string, which are parameters;
  - dictionary key order.
- Analyzer.AnalyzeConversation: the prompt text is abstracted: the model receives the transcript and the known entities. `json.dumps(known_entities)` outside the `try` is taken never to raise.
- ChatApi.Chat: Pydantic validation of `ChatRequest` and of the response `Metadata` is not modelled. A metadata value of the wrong type would turn the 200 into a 500.
- The second `chat` handler in chat.py (lines 92-127), `calculate_roi_service` (float arithmetic and money formatting) and `get_company_info_service` are not part of this model.
- Calendar.Format: `%Y` is rendered without padding, as glibc does; `datetime`'s time of day plays no part in the slots.
