# DocAI backend core, modelled in Dafny

This project models the parts of the DocAI Rails backend that hold real
logic of their own, and proves what that logic promises:

- **Energy ledger** of a general user. `consume_energy` is a guarded debit
  of the energy balance that should leave one consumption record behind.
  `check_can_consume_energy` is the read-only check callers make first.
- **Folder permissions and destroy hook**:
  - the owner's `r`/`w` roles on create;
  - sharing, which depends on the owner's `w` role;
  - the read/write queries, with rolify's global, class-wide and
    per-folder roles;
  - read access through ancestor folders (`acts_as_tree`);
  - the `before_destroy` hook that removes the folder's id from every
    chatbot's `source['folder_id']` array.
- **Chatbot controller helpers**:
  - the whitelisted copy of meta fields;
  - the merge, or the default, of the selected-feature titles;
  - the QA metadata defaults;
  - the `energy_cost` guard;
  - the choice of conversation id;
  - the pairing done by `index`.
- **Document controller helpers**:
  - the `checkDocumentItemsIsDocument` guard of `deep_understanding`, which
    answers 422 for an item that is not a document;
  - the deep-understanding flags written into each listed document's `meta`;
  - the attribute projection and 500-character truncation of
    `filter_documents_by_conditions`;
  - the parameter defaults of `show_by_tag_and_content`.
- **DAG runs**:
  - `index` lists the caller's runs newest first;
  - `create` saves a run, then resets, reloads and starts it;
  - `update` is the worker's callback that upserts one task's entry into
    the run's status stack, keyed by task name, and then re-evaluates the
    run's status.
  
  The DagRun model's own code is not part of this model. Name
  normalisation, the initial meta, `reset_workflow!`, `start` and the status
  policy of `dag_status_check!` are passed in as functions (`DagRuns.Hooks`).
  The controllers' call order, and the fields they pass, are proved against
  those functions.
- **Response helpers** of every API controller: `json_success`,
  `json_fail`, `render_error_msg`, `render_error`, `user_not_authorized`,
  and the blanket `rescue_from Exception`.

Request parameters and jsonb columns are JSON values
(`JsonValues.Json`). `JNull` stands for Ruby's `nil`, and a missing hash key
reads as `nil`. The model spells out Ruby's truthiness (`||`), ActiveSupport's
`blank?`/`present?`, `Array#delete`, `Array#-`, `String#split(' ')` and
`String#truncate`. An exception that escapes an action is an
`ApiController.Outcome` of kind `Raised`. `ApiController.Respond` turns it
into the body that `rescue_from Exception` renders.

Records that the source updates in place are classes:

- `Energy.GeneralUser` and its `EnergyAccount`;
- `Chatbots.Chatbot`;
- `Folders.RoleTable`;
- `DocumentsController.Document`;
- `DagRuns.DagRun`.

Their methods are proved against pure specification functions, and the
lemmas are stated about those functions. The loops over chatbots and
documents require no distinctness of the objects. Their invariants rely on
the per-object update being idempotent.

There is one module per source file:

| file | module | source |
|---|---|---|
| json_values.dfy | JsonValues | Ruby values, truthiness and `blank?` |
| api_controller.dfy | ApiController | app/controllers/api_controller.rb |
| general_user.dfy | Energy | app/models/general_user.rb |
| chatbot.dfy | Chatbots | the Chatbot record |
| folder.dfy | Folders | app/models/folder.rb |
| chatbots_controller.dfy | ChatbotsController | app/controllers/api/v1/chatbots_controller.rb |
| documents_controller.dfy | DocumentsController | app/controllers/api/v1/documents_controller.rb |
| dag_run.dfy | DagRuns | the DagRun record and its status stack |
| dag_runs_controller.dfy | DagRunsController | app/controllers/api/v1/dag_runs_controller.rb |

## Model

| member | source | states |
|---|---|---|
| ApiController.JsonSuccess | app/controllers/api_controller.rb:27-29 | `success` is true. `doc` is present exactly when the data is not nil, and then holds the data. No other key appears, so `json_success(nil)` is exactly `{success: true}`. |
| ApiController.JsonFail | app/controllers/api_controller.rb:31-33 | `success` is false. `error` holds the message and is dropped exactly when the message is nil. No other key appears. |
| ApiController.RenderErrorMsg | app/controllers/api_controller.rb:22-25 | The keys are exactly success/error/status. `success` is false and the message is kept even when nil. The status is the given code, or 400 when the code is nil or false. |
| ApiController.RenderError | app/controllers/api_controller.rb:17-20 | The keys are exactly success/error/status. `success` is false and `error` is the exception's message. The status is `params[:code]` when truthy, else 400. |
| ApiController.UserNotAuthorized | app/controllers/api_controller.rb:35-37 | The answer is exactly `{success: false, error: 'You are not authorized to perform this action.'}`. |
| ApiController.Respond | app/controllers/api_controller.rb:47 | A rendered action, or one halted by a `before_action` render, answers its own body. Any escaped exception is rendered by `render_error` (lines 17-20): `success: false`, its message, and the status `params[:code]` when truthy, else 400, with no other key. |
| Energy.Consume | app/models/general_user.rb:39-53 | The debit succeeds iff balance >= cost. On success the balance drops by exactly the cost, and exactly one record of that cost for that user and item is appended. On failure nothing changes. Balance plus recorded consumption is preserved, and a non-negative balance stays non-negative. |
| Energy.ConsumeAsWritten | app/models/general_user.rb:39-53 | As written, a covered debit updates the balance and then raises, with no record created. An uncovered one returns false and changes nothing. |
| Energy.AsWrittenLosesEnergy | app/models/general_user.rb:41-48 | Counterexample: with balance 10 and cost 3, the code as written leaves 7 accounted for. The corrected debit keeps all 10. |
| Energy.ConsumeAllConserves | app/models/general_user.rb:41-48 | Over any sequence of debits, balance plus recorded consumption is invariant, and a non-negative balance never goes negative. |
| Energy.GeneralUser.CheckCanConsumeEnergy | app/models/general_user.rb:55-57 | Changes nothing. Answers balance >= cost, which is exactly the condition under which `consume_energy` succeeds. |
| Energy.GeneralUser.ConsumeEnergy | app/models/general_user.rb:39-53 | The user's balance and records change exactly as Energy.Consume says. Balance plus recorded consumption is preserved. |
| Folders.HasRole | app/models/folder.rb:67 | rolify's `has_role?` on a folder holds iff the user has the role globally, on the Folder class, or on that folder. |
| Folders.HasRightsToRead | app/models/folder.rb:64-68 | An ownerless folder is readable by everyone. Otherwise read is granted iff the user holds `r` on a scope covering the folder. |
| Folders.HasRightsToWrite | app/models/folder.rb:70-74 | An ownerless folder is writable by everyone. Otherwise write is granted iff the user holds `w` on a scope covering the folder. |
| Folders.Ancestors | app/models/folder.rb:28 | Empty iff the folder is a root. Every ancestor lies strictly above the folder, so the folder is never its own ancestor. |
| Folders.AllowUserAccess | app/models/folder.rb:76-80 | Only for a folder with a parent. `r` on the parent itself grants it. When granted, the user holds `r` on one of the folder's ancestors (the parent chain, by AncestorsIsParentChain), which has a smaller depth than the folder. |
| Folders.RoleTable.AddRole | app/models/folder.rb:46-48 | Granting a role adds exactly that role. Granting a role already held changes nothing. |
| Folders.SetPermissionsToOwner | app/models/folder.rb:43-49 | An owned folder's owner gains exactly `r` and `w` on it and then holds read and write rights. An ownerless folder gets no roles. |
| Folders.ShareWith | app/models/folder.rb:51-58 | The other user gets `r` and `w` on the folder exactly when the owner holds `w` on it (globally, class-wide or on the folder), and then has read and write rights. Otherwise the roles are unchanged. An ownerless folder raises. |
| Folders.OwnerRightsAfterCreate | app/models/folder.rb:64-74 | After create, the owner can read and write and holds `w`, so a later share goes through. Nobody else has rights through the folder's own roles. |
| Folders.RightsIgnoreOtherFolders | app/models/folder.rb:64-74 | Adding or removing roles held on other folders changes neither read nor write rights. |
| Folders.AncestorsIsParentChain | app/models/folder.rb:28 | The ancestors are exactly the parent chain: the parent first, each next one the parent of the previous, and a root last. |
| Folders.FolderItselfNotConsulted | app/models/folder.rb:76-80 | Adding or removing any role on the folder itself never changes `allow_user_access?`. |
| Folders.ScopedReadNotInherited | app/models/folder.rb:64-80 | A global or class-wide `r` grants read on every owned folder, yet never changes `allow_user_access?`, which looks only at roles on the ancestors themselves. |
| Folders.AccessInheritedByChildren | app/models/folder.rb:76-80 | `r` held on a folder itself, or access through its ancestors, gives access to each child. |
| Folders.RemoveAll | app/models/folder.rb:87 | `Array#delete` leaves no copy of the value. Every other value keeps its multiplicity, and an array without the value is unchanged. |
| Folders.RemoveAllAppend | app/models/folder.rb:87 | Removal distributes over concatenation, so what is left keeps its original order. |
| Folders.UnlinkSource | app/models/folder.rb:86-89 | The same keys, and every key but `folder_id` unchanged. A non-array `folder_id` is untouched. An array `folder_id` loses every copy of the folder's id and nothing else. |
| Folders.UnlinkSourceIdempotent | app/models/folder.rb:84-91 | Unlinking twice is unlinking once. |
| Folders.UnlinkFromChatbots | app/models/folder.rb:84-91 | Afterwards every chatbot's source is its unlinked old source, with meta and energy cost untouched. No array `folder_id` still holds the folder's id. |
| ChatbotsController.WithFields | app/controllers/api/v1/chatbots_controller.rb:475-480 | A key is in the new meta iff it was in the old meta, or it is one of the fields and present in the params. Such a field takes the param's value, and every other key keeps its old value. |
| ChatbotsController.CopyPresentFields | app/controllers/api/v1/chatbots_controller.rb:477-479 | The loop leaves the chatbot's meta as WithFields says. The source and energy cost are untouched. |
| ChatbotsController.SetMetaFields | app/controllers/api/v1/chatbots_controller.rb:475-480 | The chatbot's meta becomes WithFields over the seven whitelisted keys. Nothing else of the chatbot changes. |
| ChatbotsController.MetaFieldsOnlyWhitelisted | app/controllers/api/v1/chatbots_controller.rb:476-478 | A key outside the whitelist, or one blank in the params, keeps its presence and value. |
| ChatbotsController.ApplyTitles | app/controllers/api/v1/chatbots_controller.rb:482-497 | Keys other than the titles never change. Without titles in the params, defaults are installed iff the stored titles are blank, and nothing raises. Titles that are present but not a hash raise, leaving meta unchanged. A titles hash raises when the stored `selected_features` has no `include?` (nil, a number, a boolean). |
| ChatbotsController.MergeStoresSelectedTitles | app/controllers/api/v1/chatbots_controller.rb:486-492 | The merged titles hold the given title for exactly the selected features among those given. Every other stored title is kept, and nothing else is added. Stored titles that are not a hash survive only if no given feature is selected, and then nothing changes. |
| ChatbotsController.MergeTitlesLoop | app/controllers/api/v1/chatbots_controller.rb:487-492 | The loop raises and yields exactly as the merge specification MergeTitles does, with the lemmas above stating its meaning. |
| ChatbotsController.SetDefaultTitlesIfAbsent | app/controllers/api/v1/chatbots_controller.rb:482-497 | Whether it raises, and the chatbot's new meta, are exactly ApplyTitles of the old meta. Source and energy cost are untouched. |
| ChatbotsController.QaMetadata | app/controllers/api/v1/chatbots_controller.rb:180-185 | Exactly four keys. Language, tone and length come from meta when truthy, else from '繁體中文', '專業' and 'normal'. |
| ChatbotsController.EnergyCostOnCreate | app/controllers/api/v1/chatbots_controller.rb:99 | The cost comes from the params exactly when `is_public` is the string 'true'. Otherwise it is unchanged. |
| ChatbotsController.LastMatchIndex | app/controllers/api/v1/chatbots_controller.rb:393 | None iff no message of that user and chatbot exists. Otherwise the result is such a message with none after it in the sequence, which is the query's primary-key (uuid) order, not creation order. |
| ChatbotsController.ConversationId | app/controllers/api/v1/chatbots_controller.rb:155-159 | A new conversation gets none, and so does a user with no earlier message. Otherwise it is the conversation id of the last matching message in primary-key (uuid) order. |
| ChatbotsController.IndexEntries | app/controllers/api/v1/chatbots_controller.rb:22-24 | Same count and order as the chatbots, each paired with an empty folder list. |
| DocumentsController.DeepMeta | app/controllers/api/v1/documents_controller.rb:204-218 | Blank meta becomes exactly the five flags. A hash keeps every other key and gets the five flags. Other values are left to raise. |
| DocumentsController.DeepMetaIdempotent | app/controllers/api/v1/documents_controller.rb:204-218 | Running the flag write twice with the same params gives the meta of running it once. |
| DocumentsController.NeedsApproval | app/controllers/api/v1/documents_controller.rb:200 | `needs_approval` is the param when truthy, else false. |
| DocumentsController.DocumentItems | app/controllers/api/v1/documents_controller.rb:199 | Missing items are an empty list, an array is walked as given, and any other truthy value cannot be walked. |
| DocumentsController.Stop | app/controllers/api/v1/documents_controller.rb:202-218 | The walk stops at the first item that names no document, or a document whose meta cannot be patched. Every earlier item is fine. |
| DocumentsController.ScreenPasses | app/controllers/api/v1/documents_controller.rb:295-301 | The guard's loop lets the request through iff nothing was rendered and every item names a document. After one render it ends with that answer when every later item is a document, and with a second render otherwise. |
| DocumentsController.ScreenMissing | app/controllers/api/v1/documents_controller.rb:296-297 | A missing record ends the guard only after every earlier item passed, at an item with no record. |
| DocumentsController.ScreenNotADocument | app/controllers/api/v1/documents_controller.rb:298-301 | A 422 answer names an item whose record is not a document; every item before it and after it is a document. |
| DocumentsController.ScreenRenderedTwice | app/controllers/api/v1/documents_controller.rb:298-301 | A double render happens only when two items are rejected. |
| DocumentsController.NotADocumentBody | app/controllers/api/v1/documents_controller.rb:300-301 | Exactly `success: false` and the error message naming the item. |
| DocumentsController.GuardOutcome | app/controllers/api/v1/documents_controller.rb:293-302 | Run before `deep_understanding` (line 14). The request reaches the action iff `document_items` can be walked and every item is a document. A halt answers 422 with `success: false`. The guard never answers success. |
| DocumentsController.CheckDocumentItemsIsDocument | app/controllers/api/v1/documents_controller.rb:293-302 | Changes nothing, and its verdict is exactly GuardOutcome. |
| DocumentsController.WalkOutcome | app/controllers/api/v1/documents_controller.rb:202-223 | `{success: true}` exactly when the walk reaches the end of the items, otherwise the first failure's exception; the walk never halts. |
| DocumentsController.WriteFlags | app/controllers/api/v1/documents_controller.rb:202-220 | Every document reached before the stop has the flags written, and every other document is unchanged. The answer is WalkOutcome. |
| DocumentsController.DeepUnderstandingOutcome | app/controllers/api/v1/documents_controller.rb:198-224 | The answer of the guard of lines 14 and 293-302 when it stops the request, otherwise the walk's. It is `{success: true}` only when every item is a document. |
| DocumentsController.DeepUnderstanding | app/controllers/api/v1/documents_controller.rb:198-224 | The guard of lines 14 and 293-302 runs first, and a request it stops changes nothing. Otherwise every document reached before the stop has the flags written, and every other document is unchanged. A document listed twice ends as if listed once. The answer is DeepUnderstandingOutcome. |
| DocumentsController.Words | app/controllers/api/v1/documents_controller.rb:273 | Every word is non-empty and holds no whitespace. |
| DocumentsController.WordsOfJoin | app/controllers/api/v1/documents_controller.rb:273 | Splitting undoes joining with spaces, for any list of non-empty words without whitespace. |
| DocumentsController.Subtract | app/controllers/api/v1/documents_controller.rb:276 | The attribute names not in the except list, with their multiplicity, and never longer than the input. |
| DocumentsController.Truncate | app/controllers/api/v1/documents_controller.rb:286 | At most 500 characters. A short string is unchanged. A longer one keeps its first 497 characters and ends in "...". |
| DocumentsController.DocumentJson | app/controllers/api/v1/documents_controller.rb:280-288 | A key is returned iff it is a row attribute that is named and not excepted. Every value but content is as stored, and a string content is truncated. |
| DocumentsController.FilterDocuments | app/controllers/api/v1/documents_controller.rb:272-291 | One result per row. No excepted column appears, and no string content is longer than 500 characters. The `user` and `labels` keys that `include:` adds are not modelled. |
| DocumentsController.DefaultExceptIsLabelList | app/controllers/api/v1/documents_controller.rb:272-273 | The default except list splits to exactly `label_list`. |
| DocumentsController.TagAndContentExceptWords | app/controllers/api/v1/documents_controller.rb:86 | The except list of `show_by_tag_and_content` splits to exactly its sixteen column names. |
| DocumentsController.DefaultHidesLabelList | app/controllers/api/v1/documents_controller.rb:272-283 | With the default except list, no result has a `label_list` key. |
| DocumentsController.TagAndContentHides | app/controllers/api/v1/documents_controller.rb:85-86 | For `show_by_tag_and_content`, none of the sixteen excepted columns appears in a result. |
| DocumentsController.ArrayOf | app/controllers/api/v1/documents_controller.rb:72 | `Array(x)`: nil is empty, an array is itself, anything else is wrapped. |
| DocumentsController.DateBound | app/controllers/api/v1/documents_controller.rb:73-74 | An empty string gives the default and any other string is kept. A non-string cannot be read as a date and raises. |
| DocumentsController.SearchWindow | app/controllers/api/v1/documents_controller.rb:71-82 | Content is `content || ''`. An empty `from` is 1970-01-01 and an empty `to` is tomorrow. A missing bound raises. The folder condition is added exactly when `Array(folder_ids)` is non-empty. |
| DagRuns.FindByKey | app/controllers/api/v1/dag_runs_controller.rb:51 | None iff no entry has the key. Otherwise the first entry with the key. |
| DagRuns.Upsert | app/controllers/api/v1/dag_runs_controller.rb:52-53 | The new entry is in the stack. The length grows only for a new task name, and every entry of another task stays in its place. |
| DagRuns.UpsertKeepsUnique | app/controllers/api/v1/dag_runs_controller.rb:53 | Task names stay unique across an upsert. |
| DagRuns.UpsertIsMapUpdate | app/controllers/api/v1/dag_runs_controller.rb:53 | Read as a dictionary from task name, an upsert is exactly the update of that task's entry. |
| DagRuns.UpsertIdempotent | app/controllers/api/v1/dag_runs_controller.rb:53 | A repeated callback leaves the stack as a single one. |
| DagRuns.UpsertLastWins | app/controllers/api/v1/dag_runs_controller.rb:53 | Of two callbacks for one task, the later replaces the earlier in the earlier's place. |
| DagRuns.DagRun.constructor | test/models/dag_run_test.rb:10-16 | A new run is pending, not accepted by Airflow, with an empty stack and no saved row; `statistic`, `dag_meta` and the timestamps are nil. |
| DagRuns.DagRun.Save | app/controllers/api/v1/dag_runs_controller.rb:37 | The row is written exactly when the database accepts it. The state and every other column are unchanged. |
| DagRuns.DagRun.ResetWorkflow | app/controllers/api/v1/dag_runs_controller.rb:38 | The state becomes the reset state and is written. Every other column is unchanged. |
| DagRuns.DagRun.Reload | app/controllers/api/v1/dag_runs_controller.rb:39 | The state becomes the saved row. Every other column keeps the value that was saved with it. |
| DagRuns.DagRun.Start | app/controllers/api/v1/dag_runs_controller.rb:40 | The state becomes the started state and is written. Every other column is unchanged. |
| DagRuns.DagRun.AsJson | test/models/dag_run_test.rb:3-16 | Every column of the `dag_runs` row plus `chatbot_id`, each with the run's current value. |
| DagRuns.DagRun.FindStatusStackByKey | app/controllers/api/v1/dag_runs_controller.rb:51 | Changes nothing. Finds the task's entry iff the task is in the stack. |
| DagRuns.DagRun.AddOrReplaceStatusStack | app/controllers/api/v1/dag_runs_controller.rb:53 | Only the stack changes, and it becomes the upsert of the entry, which read as a dictionary is one key update. |
| DagRuns.DagRun.DagStatusCheck | app/controllers/api/v1/dag_runs_controller.rb:54 | The status is the policy's verdict on the stack, and the run is written. Nothing else changes. |
| DagRunsController.RunsOf | app/controllers/api/v1/dag_runs_controller.rb:19 | The caller's runs keep their multiplicity, and no other user's run appears. |
| DagRunsController.InsertByCreated | app/controllers/api/v1/dag_runs_controller.rb:19 | Inserting into a newest-first list keeps it newest first and adds exactly that run. |
| DagRunsController.OrderNewestFirst | app/controllers/api/v1/dag_runs_controller.rb:19 | A newest-first permutation of the runs. |
| DagRunsController.ListedRunsAreTheCallers | app/controllers/api/v1/dag_runs_controller.rb:19-20 | The listed runs are the caller's and no one else's, each as often as in the table, newest first. |
| DagRunsController.Listing | app/controllers/api/v1/dag_runs_controller.rb:20 | Exactly the columns id, dag_name, dag_status, created_at and updated_at, each holding that run's value. |
| DagRunsController.Listings | app/controllers/api/v1/dag_runs_controller.rb:20 | One listing per run, in order. |
| DagRunsController.Index | app/controllers/api/v1/dag_runs_controller.rb:18-21 | Always `success` and a `doc`, the doc being the listings of the runs of ListedRunsAreTheCallers. |
| DagRunsController.Prepared | app/controllers/api/v1/dag_runs_controller.rb:33-34 | A run about to be saved is pending and not accepted, with an empty stack. The request's `params` sits under `meta['params']` and every other initial meta key is kept. |
| DagRunsController.NewRun | app/controllers/api/v1/dag_runs_controller.rb:32-35 | The run carries the caller, the normalized name, the tenant and `chatbot_id`, with the Prepared state, and nil `statistic`, `dag_meta` and timestamps. When the new meta is not a hash it is not built. |
| DagRunsController.Launch | app/controllers/api/v1/dag_runs_controller.rb:38-41 | The run is reset, reloaded and started, in that order. Its name, tenant, `chatbot_id`, `statistic`, `dag_meta` and timestamps are kept, and the answer is its JSON. |
| DagRunsController.Create | app/controllers/api/v1/dag_runs_controller.rb:31-45 | Only a saved run is reset, reloaded and started, in that order, and answered with its JSON, in which `statistic`, `dag_meta` and the timestamps are nil. A refused save gets only the save call, then raises from `json_fail`. Meta that is not a hash raises before any save. |
| DagRunsController.CreateFailureIsRendered | app/controllers/api/v1/dag_runs_controller.rb:43 | The raised call to `json_fail` reaches the client as `success: false` with Ruby's argument-count message and status 400 by default. |
| DagRunsController.CallbackEntry | app/controllers/api/v1/dag_runs_controller.rb:52 | The entry holds exactly the callback's task_name, content and function. |
| DagRunsController.Update | app/controllers/api/v1/dag_runs_controller.rb:50-57 | For a known run, the stack becomes the upsert of the callback's entry, and the status is then re-evaluated, never skipped. The calls are exactly upsert then status check. The run's name, tenant, `chatbot_id`, `statistic`, `dag_meta` and timestamps are unchanged, and the answer is `{success: true}` with no `doc`. Every other run is unchanged. An unknown run raises and nothing changes. |
| DagRunsController.CallbacksForOneTask | app/controllers/api/v1/dag_runs_controller.rb:51-53 | Callbacks for one task leave the last one's content. A repeated callback changes nothing more. |

## Left out

- Persistence, querying and pagination are left out. ActiveRecord lookups are maps from id to record, `where`/`order` results are sequences, and Kaminari pages are not modelled. Ties in `created_at` may come back in any order from the database; the model's order for them is one of those.
- Tenant switching (`Apartment::Tenant.switch!`), authentication and the `before_action` wiring are global side effects outside these operations.
- `Document#is_document?` is not part of this model: whether a record is a document is a field (`DocumentsController.Document.isDocument`).
- DocumentsController.GuardOutcome: what the client receives after `render` is called twice is decided by Rails outside the controller; the model stops at the `DoubleRenderError`. A non-string item is shown as an empty string in the 422 message.
- Outbound calls are not modelled: the QA service, Dify, Airflow, OCR and storage. Neither is the rest of those actions, including logging, `LogMessage` and message saving.
- `Date.today + 1` is a parameter (`tomorrow`). Date parsing by `to_date` is not modelled: any string is taken as a date bound.
- Ruby exception messages are modelled by a fixed text per kind of failure. Messages that embed an inspected value show only their fixed part.
- `Document.find` and `DagRun.find` look up the id as given. Rails' coercion of `"5"` and `5` to the same id is not modelled.
- Truthy `document_items` that is not an array is modelled as raising. A hash given there would be walked pair by pair in Ruby.
- `Array(folder_ids)` on a hash is modelled as wrapping the hash.
- `save` in `deep_understanding` and `unlink_from_chatbots` is taken to succeed. Their return values are ignored by the source, and the Document and Chatbot validations are not part of this model.
- DocumentsController.FilterDocuments: the JSON of a document's `user` and `labels` associations, which `include:` adds, is not modelled. So for `show_by_tag_and_content` the `user` and `labels` keys that it excepts do come back in Ruby, while the model states only that the sixteen columns are hidden.
- ChatbotsController.SetDefaultTitlesIfAbsent: when the stored titles are a string, Ruby's `String#[]=` rewrites a matching substring instead of raising. The model treats every non-hash stored titles value that meets a selected feature as raising.
- `Chatbot::DEFAULT_SELECTED_FEATURES_TITLES` is not defined in the chatbot record's file, so it is a parameter (`defaults`).
- `Message.where(...).last` orders by the uuid primary key, so "last" is the greatest id, not the newest message. The model's message sequence is taken in that order.
- The `dify_conversation_id` column of `messages` and the `chatbot_id` column of `dag_runs` are absent from the schema annotations in the repository. Both are assumed to exist, as the code reads and writes them.
- A chatbot whose `source` or `meta` is nil makes `set_meta_fields`, `set_default_titles_if_absent` and `unlink_from_chatbots` raise in Ruby; the chatbot model holds `source` and `meta` as hashes.
- The `to_b` of `new_conversation` comes from a gem and is taken as a boolean.
- Energy.GeneralUser.CheckCanConsumeEnergy: a nil `energy_cost` makes the comparison raise in Ruby; costs are integers here. A user without an `energy` record makes both energy methods raise; the model always has an account.
- Energy.GeneralUser.ConsumeEnergy: the database update of the balance is taken to succeed.
- DagRuns.Hooks: the DagRun model's code is not part of this model. `reset_workflow!` and `start` are taken to write the run's state, and `dag_status_check!` to set the status from a policy function of the stack and to save. Where the status stack is stored in the row is not known, so DagRuns.DagRun.AsJson omits it.
- DagRuns.DagRun.AsJson: `created_at` and `updated_at` are not stamped by the model (no clock): Rails sets them on save, while the model keeps them as they were (nil for a run made by `create`). `statistic` and `dag_meta` are never written by the modelled operations. `chatbot_id` is assumed to exist (see above).
- DagRuns.DagRun.Reload requires a saved row; the controller only reloads after a successful save.
- `show` and `check_status_finish` of the DAG-run controller only render the model's own answers.
- The remaining controllers (documents CRUD, OCR, tags, QA, classification, projects, scheduled tasks, marketplace items, tools, registrations) and the services are CRUD, I/O or foreign calls.
- Integers are unbounded. The database's integer width for `energy.value` and `energy_consumed` is not modelled.
- Whitespace for `blank?` and `split(' ')` is ASCII only.

## Findings

| source | as written | input that shows it | evidently intended | confidence | as-written member | corrected member |
|---|---|---|---|---|---|---|
| app/models/general_user.rb:42-48 | The balance is debited (line 42), then `EnergyConsumptionRecord.create!` is given a `chatbot:` attribute. The record has no such attribute: app/models/energy_consumption_record.rb:20-23 and its schema at lines 7-13 list `marketplace_item_id`. So `create!` raises after the debit, and no record is written. | balance 10, cost 3: the balance becomes 7, no record exists, and balance plus recorded consumption drops from 10 to 7 | Record the consumption against the marketplace item the caller passes (app/controllers/api/v1/chatbots_controller.rb:290), so balance plus recorded consumption is conserved | not executed | Energy.ConsumeAsWritten, Energy.AsWrittenLosesEnergy | Energy.Consume, Energy.GeneralUser.ConsumeEnergy |
