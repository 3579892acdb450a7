# Course chatbot: document groups, uploads, provider settings

A Dafny model of the parts of the course-chatbot web application that have
logic of their own, with proofs about them:

- **Document-group bookkeeping.** This is the `/api/documentGroups` route. It finds or creates documents (keyed by
  course and `s3_path`, else by course and `url`), finds or creates doc
  groups (keyed by name and course), and inserts one association row per
  listed group. It stops at the first failure. `appendDocGroup` and `removeDocGroup`
  edit a document's group list as a set and then replay the add. The handler
  maps the outcome to 200, 400, 405 or 500. The three Supabase tables are a value
  (`DocumentGroupsSpec.Db`). Each database call consumes one scripted answer:
  served, failed, or served without data. The class `DocumentGroups.Store`
  holds the tables as fields and runs the route's nested loops. Each of its
  methods is proved equal to the matching function of the pure model.
- **The upload dropzone (`DropzoneS3Upload`).** Dropping files sets the loading flag and marks the course as
  existing. Then, for each file in order, the component requests a
  presigned POST, posts the form to S3 and asks for the file to be ingested.
  Finally it clears the flag and refreshes the page. What the network answers is a parameter. What
  the component asks of the world is recorded as a trace of effects.
- **Provider settings form.** This covers the API-key prefix checks, the `^https?://` check on
  base URLs and Azure endpoints, which fields each provider card renders,
  the flattening of providers' models into `provider:modelId` options, the
  field-error visibility rule, model toggles and the submit button.
- **Course page.** This covers the page-name helper, the view chosen when no course row
  exists, the key fallback of context cards, and the tri-state "all weeks"
  checkbox (class `DynamicCourse.CheckboxList`).
- **Ingest route.** This covers the storage path `courses/<course>/<file>`, the parameters
  forwarded to the ingestion service, and the reply.

Files: `common.dfy` (Option, Result), `js_text.dfy` (the JavaScript string
operations used: `slice(1)`, `startsWith`, `split`, `join`),
`document_groups_spec.dfy`, `document_groups.dfy`, `upload_s3.dfy`,
`api_key_input_form.dfy`, `dynamic_course.dfy`, `ingest.dfy`.

## Model

| member | source | states |
|---|---|---|
| JsText.SliceFrom1 | src/components/Upload_S3.tsx:66 | `slice(1)` drops exactly the first character; the empty string stays empty; the course page's `GetCurrentPageName` (src/pages/dynamic_course.tsx, lines 272-274) is this function |
| JsText.Split | src/components/Upload_S3.tsx:66 | `split(sep)` yields at least one piece; no piece contains the separator; the first piece is a prefix followed by the separator or the end; joining the pieces with the separator gives back the string |
| DocumentGroupsSpec.KeyOf | src/pages/api/documentGroups.ts:85-147 | a document is keyed by `s3_path` when set, by `url` only when `s3_path` is absent, and has no key when both are absent |
| DocumentGroupsSpec.FindDocument | src/pages/api/documentGroups.ts:98-99 | no id exactly when no row of the course has the key; an id found belongs to a row with the key |
| DocumentGroupsSpec.FindDocGroup | src/pages/api/documentGroups.ts:165-166 | no id exactly when no row is the group (name, course); an id found belongs to such a row |
| DocumentGroupsSpec.NewDocumentRow | src/pages/api/documentGroups.ts:102-105 | the inserted row has the course, the key and the new id |
| DocumentGroupsSpec.SelectDocument | src/pages/api/documentGroups.ts:87-96 | consumes one call; an error exactly when the call fails; an id returned belongs to a matching row; a served select returns the first matching row's id, or none exactly when no row matches |
| DocumentGroupsSpec.InsertDocument | src/pages/api/documentGroups.ts:102-114 | an error exactly when the call fails, and then no row is added; otherwise exactly the new row is appended, and its id is returned unless no data comes back |
| DocumentGroupsSpec.ResolveDocument | src/pages/api/documentGroups.ts:83-147 | only the documents table can grow; without a key nothing happens; an id returned belongs to a row with the document's key |
| DocumentGroupsSpec.SelectDocGroup | src/pages/api/documentGroups.ts:152-161 | consumes one call; an error exactly when it fails; an id returned belongs to the group; a served select returns the first row of the group, or none exactly when the group has no row |
| DocumentGroupsSpec.InsertDocGroup | src/pages/api/documentGroups.ts:169-183 | a failure adds nothing; otherwise exactly the new group row is appended; a served insert returns the new row's id; no data back is the "Failed to insert doc_group" error |
| DocumentGroupsSpec.ResolveDocGroup | src/pages/api/documentGroups.ts:152-184 | only doc groups can grow; an id returned names a row of the group; if every call returns data, unique (name, course) rows stay unique |
| DocumentGroupsSpec.InsertLink | src/pages/api/documentGroups.ts:186-194 | the association row is appended, with no existence check, exactly when the call does not fail |
| DocumentGroupsSpec.LinkGroup | src/pages/api/documentGroups.ts:151-194 | one inner iteration that completes adds exactly one association row, naming the document and a row of the group |
| DocumentGroupsSpec.LinkGroups | src/pages/api/documentGroups.ts:149-196 | the inner loop only appends rows and never touches documents |
| DocumentGroupsSpec.AddDocument | src/pages/api/documentGroups.ts:82-200 | one outer iteration only appends rows; a document without a key changes nothing |
| DocumentGroupsSpec.AddDocuments | src/pages/api/documentGroups.ts:76-202 | `addDocumentsToDocGroup` only ever appends rows |
| DocumentGroupsSpec.WithDocGroup | src/pages/api/documentGroups.ts:205-210 | the list afterwards contains the group; its elements are the old ones plus the group; the old list is a prefix; it grows by at most one; it is unchanged if the group was present |
| DocumentGroupsSpec.WithoutDocGroup | src/pages/api/documentGroups.ts:215-217 | every copy of the group is gone and every other element keeps its number of copies (multisets), in the old order (a subsequence); unchanged if the group was absent |
| DocumentGroupsSpec.AppendDocGroup | src/pages/api/documentGroups.ts:204-212 | `appendDocGroup` only appends rows |
| DocumentGroupsSpec.RemoveDocGroup | src/pages/api/documentGroups.ts:214-219 | `removeDocGroup` only appends rows: no row is ever deleted |
| DocumentGroupsSpec.CourseDocuments | src/pages/api/documentGroups.ts:58-61 | exactly the rows of the course |
| DocumentGroupsSpec.FetchDocuments | src/pages/api/documentGroups.ts:56-74 | an error exactly when the call fails; when served, exactly the course's documents; changes no table |
| DocumentGroupsSpec.Handle | src/pages/api/documentGroups.ts:27-54 | non-POST gives 405 "Method not allowed"; an unknown action gives 400 "Invalid action"; a known action gives 200, or 500 "An error occurred"; for each of the add, append and remove actions the new tables are that operation's and the status is 200 exactly when it completed; the get action gives 500 exactly when the select fails and, when served, 200 with the course's documents; tables only grow |
| DocumentGroupsSpec.AddDocumentsOne | src/pages/api/documentGroups.ts:77-79 | a single document is processed exactly as a one-element list |
| DocumentGroupsSpec.AddDocumentsStopsAtAbort | src/pages/api/documentGroups.ts:197-200 | once a document fails, later documents are never processed |
| DocumentGroupsSpec.AddDocumentsConcat | src/pages/api/documentGroups.ts:81-201 | documents are processed one after another, each on the tables the previous one left |
| DocumentGroupsSpec.LinkGroupsKeepsGroupsUnique | src/pages/api/documentGroups.ts:152-184 | while every call returns data, the inner loop never creates a second row for a (name, course) pair |
| DocumentGroupsSpec.AddDocumentsKeepsGroupsUnique | src/pages/api/documentGroups.ts:152-184 | if group rows were unique before, repeated adds never create a duplicate group row |
| DocumentGroupsSpec.LinkGroupsDone | src/pages/api/documentGroups.ts:150-195 | a completed inner loop added one association row per listed group, in list order, each naming the document and a row of that group |
| DocumentGroupsSpec.HealthyResolveDocGroup | src/pages/api/documentGroups.ts:152-184 | with a database that never fails, the group is found or created, is found afterwards under the id returned, and is not inserted if it existed |
| DocumentGroupsSpec.HealthyLinkGroups | src/pages/api/documentGroups.ts:150-195 | with a database that never fails, the inner loop completes; every listed group then exists; no group row is added when all existed |
| DocumentGroupsSpec.HealthyResolveDocument | src/pages/api/documentGroups.ts:85-147 | with a database that never fails, a document with a key is found, or inserted only if absent, under the id returned |
| DocumentGroupsSpec.HealthyAddDocument | src/pages/api/documentGroups.ts:82-196 | with a database that never fails: the document is inserted only if absent; one association row per listed group is added; a group row is created only if absent |
| DocumentGroupsSpec.RepeatedAddDocumentAddsOnlyLinks | src/pages/api/documentGroups.ts:186-194 | repeating an add creates no document or group row, but adds every association row again |
| DocumentGroupsSpec.UnreturnedDocumentSkipsGroups | src/pages/api/documentGroups.ts:112-149 | a document insert that returns no row keeps the row but skips the document's groups silently |
| DocumentGroupsSpec.UnreturnedDocGroupAborts | src/pages/api/documentGroups.ts:179-183 | a group insert that returns no row makes the document fail with the thrown error |
| DocumentGroupsSpec.HealthyAppendDocGroup | src/pages/api/documentGroups.ts:204-212 | after `appendDocGroup` on one document the group exists, and one association row is added per group of the edited list |
| DocumentGroupsSpec.HealthyRemoveDocGroup | src/pages/api/documentGroups.ts:214-219 | after `removeDocGroup` the old association rows remain and the new ones name only the remaining groups, none of them the removed group |
| DocumentGroups.Store.SelectDocument | src/pages/api/documentGroups.ts:87-96 | the tables and result are those of the pure `SelectDocument` on the old tables |
| DocumentGroups.Store.InsertDocument | src/pages/api/documentGroups.ts:102-114 | the new tables and result are those of the pure `InsertDocument` |
| DocumentGroups.Store.ResolveDocument | src/pages/api/documentGroups.ts:83-147 | the new tables and result are those of the pure `ResolveDocument` |
| DocumentGroups.Store.SelectDocGroup | src/pages/api/documentGroups.ts:152-161 | the new state and result are those of the pure `SelectDocGroup` |
| DocumentGroups.Store.InsertDocGroup | src/pages/api/documentGroups.ts:169-183 | the new tables and result are those of the pure `InsertDocGroup` |
| DocumentGroups.Store.ResolveDocGroup | src/pages/api/documentGroups.ts:152-184 | the new tables and result are those of the pure `ResolveDocGroup` |
| DocumentGroups.Store.InsertLink | src/pages/api/documentGroups.ts:186-194 | the new tables are those of the pure `InsertLink`; success exactly when it completed |
| DocumentGroups.Store.AddDocument | src/pages/api/documentGroups.ts:82-200 | the inner loop over the groups leaves the tables and outcome of the pure `AddDocument` |
| DocumentGroups.Store.AddDocumentsToDocGroup | src/pages/api/documentGroups.ts:76-202 | the outer loop leaves the tables and outcome of the pure `AddDocuments`, with a single document taken as a one-element list |
| DocumentGroups.Store.AppendDocGroup | src/pages/api/documentGroups.ts:204-212 | the new tables and outcome are those of the pure `AppendDocGroup` |
| DocumentGroups.Store.RemoveDocGroup | src/pages/api/documentGroups.ts:214-219 | the new tables and outcome are those of the pure `RemoveDocGroup` |
| DocumentGroups.Store.FetchDocumentGroups | src/pages/api/documentGroups.ts:56-74 | the new state and result are those of the pure `FetchDocuments` |
| DocumentGroups.Store.Handle | src/pages/api/documentGroups.ts:27-54 | the new tables and response are those of the pure `Handle` |
| UploadS3.PageName | src/components/Upload_S3.tsx:64-67 | the page name contains no "/"; it is a prefix of the path without its first character, ending at a "/" or at the end |
| UploadS3.PageNameOfCoursePath | src/components/Upload_S3.tsx:64-67 | "/CS-125/materials" and "/CS-125" both give "CS-125": for a course without "/", the page name of "/course/…" is the course |
| UploadS3.FieldEntries | src/components/Upload_S3.tsx:102-104 | one form entry per presigned field, same key and value, in entry order |
| UploadS3.FormFor | src/components/Upload_S3.tsx:100-106 | the form holds every presigned field in order, then the "file" entry last |
| UploadS3.FormHasOneFileEntryLast | src/components/Upload_S3.tsx:100-106 | the only file entry of the form is the last one |
| UploadS3.UploadEffects | src/components/Upload_S3.tsx:69-117 | a null file does nothing; otherwise the presign request comes first, and exactly when a presigned post was obtained the second effect posts `FormFor(fields, file)` to its URL |
| UploadS3.IngestEffects | src/components/Upload_S3.tsx:119-139 | no request exactly when the file is null |
| UploadS3.IngestResultOf | src/components/Upload_S3.tsx:119-151 | a null file gives nothing; an ok reply gives the parsed body; a non-ok reply gives the raw response; a failed fetch rejects |
| UploadS3.FilesEffectsAreFileSteps | src/components/Upload_S3.tsx:192-210 | the file loop only requests presigned posts, posts forms and requests ingests |
| UploadS3.DropEffects | src/components/Upload_S3.tsx:163-218 | the drop adds four effects of its own around the file loop's |
| UploadS3.DropShape | src/components/Upload_S3.tsx:163-218 | loading is switched on first; the course is marked once, before any file; loading is switched off and the page refreshed last; in between only file steps |
| UploadS3.RequestsIndependentOfNetwork | src/components/Upload_S3.tsx:192-210 | whatever the network answers, the requests made are the same: a failing file never stops the later ones |
| UploadS3.RequestsOfFiles | src/components/Upload_S3.tsx:192-210 | files are handled in order, two requests each: file i's presign request, then its ingest request with exactly courseName and fileName |
| UploadS3.FilesPostsFollowPresigns | src/components/Upload_S3.tsx:192-210 | each form posted in the file loop comes right after the presign request of the file it carries |
| UploadS3.DropPostsFollowPresigns | src/components/Upload_S3.tsx:163-218 | across the whole drop, each S3 post follows its file's presign request |
| UploadS3.DropzoneS3Upload.SetActive | src/components/Upload_S3.tsx:48 | the loading flag takes the value, and the change is recorded |
| UploadS3.DropzoneS3Upload.SetCourseExists | src/components/Upload_S3.tsx:36-43 | one KV write of the key is recorded; its failure is swallowed |
| UploadS3.DropzoneS3Upload.BuildUploadForm | src/components/Upload_S3.tsx:100-106 | the loop over the fields builds exactly `FormFor` |
| UploadS3.DropzoneS3Upload.UploadToS3 | src/components/Upload_S3.tsx:69-117 | records exactly the upload's effects and leaves the flag alone |
| UploadS3.DropzoneS3Upload.IngestFile | src/components/Upload_S3.tsx:119-152 | records the ingest request and returns the result of the reply |
| UploadS3.DropzoneS3Upload.RefreshPage | src/components/Upload_S3.tsx:60-62 | records a replace with the current path |
| UploadS3.DropzoneS3Upload.ProcessFile | src/components/Upload_S3.tsx:195-209 | one file: its upload awaited, then its ingest |
| UploadS3.DropzoneS3Upload.ProcessFiles | src/components/Upload_S3.tsx:192-210 | the loop records every file's steps in selection order |
| UploadS3.DropzoneS3Upload.OnDrop | src/components/Upload_S3.tsx:163-218 | the drop appends exactly `DropEffects` to the trace and leaves loading off |
| ApiKeyInputForm.ApiKeyError | src/components/UIUC-Components/api-inputs/APIKeyInputForm.tsx:357-366 | an OpenAI key is an error exactly when it lacks "sk-"; an Anthropic key exactly when it lacks "sk-ant"; other providers' keys are never errors |
| ApiKeyInputForm.AcceptedAnthropicKeyStartsWithSk | src/components/UIUC-Components/api-inputs/APIKeyInputForm.tsx:359-364 | an accepted Anthropic key starts with "sk-" and would pass the OpenAI check |
| ApiKeyInputForm.MatchesHttpSchemeIff | src/components/UIUC-Components/api-inputs/APIKeyInputForm.tsx:388 | the regular expression `^https?://` matches exactly the values that start with "http://" or "https://" |
| ApiKeyInputForm.BaseUrlError | src/components/UIUC-Components/api-inputs/APIKeyInputForm.tsx:386-389 | the Ollama base URL is valid exactly when it starts with "http://" or "https://" |
| ApiKeyInputForm.AzureEndpointError | src/components/UIUC-Components/api-inputs/APIKeyInputForm.tsx:422-425 | the Azure endpoint is valid exactly when it starts with "http://" or "https://" |
| ApiKeyInputForm.CardFields | src/components/UIUC-Components/api-inputs/APIKeyInputForm.tsx:327-495 | the enabled switch comes first; the validated API key appears exactly for providers other than WebLLM, Ollama and Azure; the base URL exactly for Ollama; the endpoint exactly for Azure; the Azure key and deployment carry no validator |
| ApiKeyInputForm.AzureKeyAndDeploymentUnchecked | src/components/UIUC-Components/api-inputs/APIKeyInputForm.tsx:451-493 | the Azure card's API key and deployment accept any value |
| ApiKeyInputForm.RenderedFieldRule | src/components/UIUC-Components/api-inputs/APIKeyInputForm.tsx:352-493 | every rendered field accepts a value exactly when its rule does: the OpenAI or Anthropic prefix, an http(s) scheme, or anything |
| ApiKeyInputForm.ModelOptions | src/components/UIUC-Components/api-inputs/APIKeyInputForm.tsx:210-213 | one option per model, in order, valued "provider:modelId" and labelled "provider - modelName"; none when models are absent |
| ApiKeyInputForm.FlatOptions | src/components/UIUC-Components/api-inputs/APIKeyInputForm.tsx:208-214 | as many options as the providers have models |
| ApiKeyInputForm.DefaultModelOptions | src/components/UIUC-Components/api-inputs/APIKeyInputForm.tsx:208-214 | no providers give no options; otherwise one option per model |
| ApiKeyInputForm.FlatOptionsConcat | src/components/UIUC-Components/api-inputs/APIKeyInputForm.tsx:208-214 | the options follow provider order |
| ApiKeyInputForm.OptionPosition | src/components/UIUC-Components/api-inputs/APIKeyInputForm.tsx:208-214 | model i of provider j sits right after all models of the providers before j, and is that model's option |
| ApiKeyInputForm.ProviderWithoutModels | src/components/UIUC-Components/api-inputs/APIKeyInputForm.tsx:212-213 | a provider without models contributes nothing |
| ApiKeyInputForm.InitialDefaultModel | src/components/UIUC-Components/api-inputs/APIKeyInputForm.tsx:176 | the form's initial default model is never empty, and is the stored one when that is non-empty |
| ApiKeyInputForm.FieldInfo | src/components/UIUC-Components/api-inputs/APIKeyInputForm.tsx:37-50 | an error line is shown exactly when the field is touched and has errors, with the errors joined by ", "; "Validating..." exactly while validating |
| ApiKeyInputForm.ErrorTextShape | src/components/UIUC-Components/api-inputs/APIKeyInputForm.tsx:42 | the shown text begins with the first error, and is that error alone when there is one |
| ApiKeyInputForm.TogglesMatchOptions | src/components/UIUC-Components/api-inputs/APIKeyInputForm.tsx:208-214 | an enabled provider's model toggles and its default-model options list the same models in the same order: toggle i's id and name are what its option carries after "provider:" and "provider - ", at its position in the flattened list |
| ApiKeyInputForm.ModelToggles | src/components/UIUC-Components/api-inputs/APIKeyInputForm.tsx:498-544 | toggles appear only while the provider is enabled and has models, one per model in order |
| DynamicCourse.UploadPageNameIsFirstSegment | src/pages/dynamic_course.tsx:272-274 | the dropzone's page name is a prefix of this page name, and equal to it when the page name has no "/" |
| DynamicCourse.ViewFor | src/pages/dynamic_course.tsx:83-87 | the course-creation view is shown exactly when the course row is null; both views use the page name as title |
| DynamicCourse.CardKey | src/pages/dynamic_course.tsx:291-292 | a context card's key is its id, or its index when the id is missing or 0 |
| DynamicCourse.CardKeys | src/pages/dynamic_course.tsx:289-292 | one key per context, each by the fallback rule |
| DynamicCourse.KeysWithoutIdsAreDistinct | src/pages/dynamic_course.tsx:291-292 | when no context has a usable id, the card keys differ |
| DynamicCourse.AllChecked | src/pages/dynamic_course.tsx:399 | true exactly when every item is checked (so also for no items) |
| DynamicCourse.SomeChecked | src/pages/dynamic_course.tsx:400 | true exactly when some item is checked |
| DynamicCourse.Indeterminate | src/pages/dynamic_course.tsx:400 | true exactly when some but not all items are checked, so never together with all-checked |
| DynamicCourse.WithAllChecked | src/pages/dynamic_course.tsx:435-436 | same length; every item keeps caption and key and takes the flag |
| DynamicCourse.ToggleAllIsUniform | src/pages/dynamic_course.tsx:433-437 | after the master toggle the list is uniformly checked or unchecked, and not indeterminate |
| DynamicCourse.InitiallyAllChecked | src/pages/dynamic_course.tsx:390-394 | the three initial weeks are all checked, not indeterminate |
| DynamicCourse.CheckboxList.constructor | src/pages/dynamic_course.tsx:397-398 | the list starts with the three initial weeks |
| DynamicCourse.CheckboxList.ToggleAll | src/pages/dynamic_course.tsx:433-437 | sets every item to the negation of all-checked; afterwards not indeterminate, and all checked exactly when not all were (or the list is empty) |
| DynamicCourse.CheckboxList.SetItemChecked | src/pages/dynamic_course.tsx:410-411 | only item i's flag changes; the length and all other items stay |
| Ingest.StoragePath | src/pages/api/UIUC-api/ingest.ts:24 | the path starts with "courses/", the course follows and then "/", it ends with the file name, and its length is 9 plus both lengths |
| Ingest.StoragePathSplits | src/pages/api/UIUC-api/ingest.ts:24 | if neither name contains "/", splitting the path on "/" gives exactly ["courses", course, file] |
| Ingest.StoragePathInjective | src/pages/api/UIUC-api/ingest.ts:24 | for names without "/", different (course, file) pairs give different paths |
| Ingest.ServiceCallFor | src/pages/api/UIUC-api/ingest.ts:26-31 | the call goes to RAILWAY_URL + "/ingest" with `s3_paths` the storage path and `course_name` the course |
| Ingest.Handle | src/pages/api/UIUC-api/ingest.ts:7-39 | the service is called as above; a successful call replies 200 with the remote data; a failed one returns an empty list without a status |
| Ingest.UploadQueryReachesStoragePath | src/pages/api/UIUC-api/ingest.ts:9-31 | the query the dropzone sends makes the route ask for `courses/<course>/<file>` of that course |

Definitions without a contract of their own are covered by the rows of the
members that use them: `DocumentGroupsSpec.DocsList` by `AddDocumentsOne`
and `Store.AddDocumentsToDocGroup`, `DocumentGroupsSpec.Respond` by
`Handle`, `UploadS3.IngestQuery`, `FileEffects` and `FilesEffects` by
`RequestsOfFiles`, `FilesPostsFollowPresigns` and `Store.ProcessFiles`,
`ApiKeyInputForm.OptionFor` by `ModelOptions` and `OptionPosition`,
`DynamicCourse.InitialValues` by `InitiallyAllChecked` and the checkbox
constructor, `Ingest.QueryOf`, `Lookup` and `Shown` by `ServiceCallFor` and
`UploadQueryReachesStoragePath`, `JsText.Join` and `StartsWith` by `Split`
and the validators.

## Left out

- Concurrency: each request to the document-groups route is modelled as one atomic step. In the route the select and the insert of a document or group are separate awaited calls, so two interleaved requests can both insert the same row. `AddDocumentsKeepsGroupsUnique` and `LinkGroupsKeepsGroupsUnique` hold only for requests that run one after another.
- SubmitButtonFor: records only the wiring of the submit button (`disabled` is `!canSubmit`, the caption depends on `isSubmitting`). `canSubmit` is computed by the form library from field state that is not modelled, so nothing relates the button to the validators.

- Supabase, Vercel KV, `fetch` and `axios` are foreign I/O. Their answers are parameters: a script of replies for the database, one answer per file for the dropzone, a service reply for the ingest route.
- `fetchDocumentGroups` is modelled without the `doc_groups(*)` join. It returns the course's rows in table order rather than ordered by `created_at`, since the tables carry no timestamps.
- The exceptions of the route are not modelled as JavaScript errors. They become an `Aborted` outcome. Their messages are not kept, except the one that reaches the client: "An error occurred".
- `appendDocGroup` and `removeDocGroup` edit the caller's document object in place. The model passes on an edited copy. When the handler passes an array, the edit lands on the array, so its elements go through unchanged.
- Row ids are serial and positive. So the falsy-zero case of `documentId &&` cannot arise.
- An absent optional string (`s3_path`, `url`) and an empty one are both `""`, because the code tests only their truthiness. An absent `doc_groups` list is `[]`.
- The commented-out parallel upload variant in `Upload_S3.tsx` is not modelled: it is dead code.
- `response.json()` failures in the dropzone are folded into "no presigned post" or "fetch rejected". Logging and `console` output are left out.
- URL encoding of the ingest query string is left out. So is the rule that `Object.entries` puts integer-like keys first: the presigned fields are taken in the order given.
- The fire-and-forget `addEdgeConfigItem` call of the ingest route is left out. Its work is unawaited and has no stated outcome.
- In the ingest route a query value that is an array (a repeated parameter) is left out. Each value is one string or absent. An absent value prints as "undefined".
- `getServerSideProps`, Next.js routing, Clerk authentication, and the static demo cards and chat bubbles of the course page are left out.
- All rendering, styling, animation, toasts and the internals of the form library are left out. That includes the `canSubmit` computation, `handleChange` and field state.
- The temperature slider and its default are left out: they are floating point.
- `randomId()` keys of the initial week items are parameters.
- The checkbox list's `setState` callback reads `allChecked` from the render in which the click happens. The model reads it from the list at that moment. The two agree because nothing else changes the list in between.
