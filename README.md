# Resume builder core, modelled in Dafny

This project models the request-handling core of a resume-builder web
application and proves properties of the model. The model covers these parts:

- **The resume handlers** (`resume_store.dfy`). These handle create, delete, get own, get public, update and list. The document store is a class holding a map from document id to record. It also has a clock, so each write gets a strictly later timestamp. The update handler's preparation step is pure: parse or clone the body, optionally upload an image with its transformation string, and write the returned URL into `personal_info.image`.
- **The extraction and enhancement handlers** (`ai_controller.dfy`). The two enhance handlers refuse a falsy `userContent` before any model call. The upload handler checks the required fields, builds the extraction prompt, makes one model call, parses the answer and creates one document from `{ userId, title, ...parsed }`. The language model and `JSON.parse` are function parameters. Each handler returns the requests it sent, so the contracts can state the order of guards and calls.
- **The project-list editor** (`project_form.dfy`). This covers add, remove-by-index, update-one-field-by-index and the link test. Each is a pure function from the current list to the new one.
- **The dashboard** (`dashboard.dfy`). This covers:
  - the upload guards: the case-insensitive `.pdf` test, and at least 50 UTF-16 code units of trimmed text;
  - the list updates on create, title edit and delete;
  - the card colour cycle.

  The component's `useState` variables form a class. Each handler is a method on it that takes the server's answer, and the confirmation dialog's answer, as inputs.
- **The authorization middleware** (`auth_middleware.dfy`). This covers `Bearer ` stripping, the accept/reject decision, and `protect`, which sets `userId` on the request object and says how many times it calls `next`.

Two more modules hold what several parts share:

- `common.dfy` holds optional values, results, JavaScript's `trim`/`trimStart` whitespace set, UTF-16 length, ASCII lower-casing and decimal index spelling.
- `json.dfy` holds JSON values, JavaScript truthiness, member access, object spread and `{ ...a, ...b }` overlay.

Where the code differs from its documented design, the model follows the code:

- **No server-side minimum text length.** `uploadResume` checks only that `resumeText` and `title` are truthy. The 50-character minimum exists only in the dashboard. `AiController.ShortTextIsStillExtracted` proves that a short text still reaches the model.
- **No retry.** The handlers call the model and the image service once each, and any error they throw becomes a 400 answer with the error's message.
- **Failures are not typed.** Failures are the handlers' status codes and messages, not a typed failure taxonomy. The messages are the handlers' own literals or a thrown error's message, except for the engine's TypeError (see "## Left out").
- **The image is uploaded before the owner check.** `updatedResume` uploads an attached image before it looks for the caller's document, so an update of a foreign or missing id still uploads. `ResumeStore.Store.UpdatedResume` states its uploads through `PreparePatch`, which does not depend on the caller or the id.
- **A `userId` in the data re-owns the document.** A patch carrying `userId` changes the owner (`ResumeStore.PatchKeepsOwners` states the converse). So does an extracted object carrying `userId`, because the spread comes after the caller's id (`AiController.IngestedOwner`).

## Model

| member | source | states |
|---|---|---|
| Common.TrimStart | server/middlewares/authMiddleware.js:12 | `trimStart` removes exactly the maximal run of leading JavaScript whitespace: the result is a suffix, it does not start with whitespace, and everything cut was whitespace |
| Common.TrimEnd | client/src/Pages/Dashboard.jsx:89 | the end half of `trim`: the result is a prefix, it does not end with whitespace, and everything cut was whitespace |
| Common.Trim | client/src/Pages/Dashboard.jsx:89 | the trimmed text is no longer than the input and neither starts nor ends with whitespace |
| Common.TrimFramed | client/src/Pages/Dashboard.jsx:89 | `trim` removes nothing but whitespace, and only at the two ends: the result occurs in the input at some offset with only whitespace before and after it |
| Common.Utf16Length | client/src/Pages/Dashboard.jsx:89 | a string's JavaScript `length` lies between its number of characters and twice that |
| Common.LowerAscii | client/src/Pages/Dashboard.jsx:71 | lower-casing keeps the length and maps each character on its own |
| Common.DecimalInjective | server/controllers/aiController.js:143 | distinct indices are spelled differently, so the keys a spread array or string contributes never collide |
| Json.Truthy | server/controllers/resumeController.js:12 | definition: JavaScript truthiness, where `undefined`, `null`, `false`, `0` and `""` are falsy and every object and array is truthy. The `!title` tests use it |
| Json.TruthyText | server/controllers/aiController.js:78 | definition: truthiness of an optional string, as in the `!resumeText`, `!userContent` and `!token` tests |
| Json.Member | server/middlewares/authMiddleware.js:17 | definition of `v.k` for a non-null value and a name no prototype defines: the own member for an object holding `k`, `undefined` otherwise |
| Json.Spread | server/controllers/aiController.js:143 | `...v` copies an object's members, nothing for null, booleans and numbers, and for arrays and strings exactly one entry per index under its decimal name |
| Json.Overlay | server/controllers/aiController.js:143 | `{ ...a, ...b }` has the keys of both; on a shared key the later one wins |
| ResumeStore.FailureAnswers | server/controllers/resumeController.js:13-124 | the status and message of every failure: 400 "Title is required" (line 13), 404 "Resume not found" (line 54), 404 "Resume not found or not public" (line 76), 400 "Missing required fields" (as at aiController.js:12), and 400 with a thrown error's own message (lines 122-124) |
| ResumeStore.NewResumeFields | server/controllers/resumeController.js:17 | the created record holds exactly `userId` and `title`; it is owned by the caller and not public |
| ResumeStore.Store.CreateResume | server/controllers/resumeController.js:7-19 | a falsy title is answered 400 with nothing inserted; otherwise exactly one new document, owned by the caller, with that title |
| ResumeStore.Inserted | server/controllers/resumeController.js:17 | creation adds exactly one fresh id and changes no other document |
| ResumeStore.Store.Insert | server/controllers/aiController.js:143 | the store gains one document under an id it did not hold, stamped with the current time, and keeps its invariant |
| ResumeStore.Deleted | server/controllers/resumeController.js:34 | the owner-scoped delete removes the document only when the caller owns it and leaves every other document as it was |
| ResumeStore.Store.DeleteResume | server/controllers/resumeController.js:29-36 | delete answers success whether or not anything matched, and the store becomes `Deleted` of the old store |
| ResumeStore.DeleteIdempotent | server/controllers/resumeController.js:34 | deleting twice is deleting once |
| ResumeStore.Owns | server/controllers/resumeController.js:51 | definition of the owner filter `{ userId, _id }`: the id is stored and its `userId` field is the caller |
| ResumeStore.IsPublic | server/controllers/resumeController.js:73 | definition of the public filter: the `public` field is `true` |
| ResumeStore.OwnedIds | server/controllers/resumeController.js:133 | definition of the `{ userId }` filter as the set of the caller's document ids |
| ResumeStore.ClearedView | server/controllers/resumeController.js:57-59 | definition of the answer of `getResumeById`: the stored fields with both timestamps cleared |
| ResumeStore.OwnershipIsolation | server/controllers/resumeController.js:17 | a created document is found by its creator's owner query, by no other user's query, and not by the public query |
| ResumeStore.Store.GetResumeById | server/controllers/resumeController.js:51-60 | success exactly when the caller owns the document, with both timestamps cleared; otherwise 404 "Resume not found", so another user's document looks absent |
| ResumeStore.Store.GetPublicResumeById | server/controllers/resumeController.js:73-78 | success exactly when the document exists and is public, whoever owns it; otherwise 404 "Resume not found or not public" |
| ResumeStore.Store.GetAllResumes | server/controllers/resumeController.js:133 | the caller's documents, each exactly once and as stored, most recently updated first |
| ResumeStore.InsertByStamp | server/controllers/resumeController.js:133 | inserting into the ordered listing adds exactly that view (as a multiset) |
| ResumeStore.InsertKeepsOrder | server/controllers/resumeController.js:133 | inserting by update time keeps a newest-first list newest-first |
| ResumeStore.InsertAddsId | server/controllers/resumeController.js:133 | inserting a view adds exactly its id to the listing's ids |
| ResumeStore.NewestListedFirst | server/controllers/resumeController.js:133 | the owner's most recently updated document heads every listing of the owner's documents, whatever the other owners' timestamps |
| ResumeStore.Patched | server/controllers/resumeController.js:119 | the owner-scoped update replaces each patched top-level field wholesale and keeps the other fields and the creation time. It restamps the update time and touches no other document. A foreign or missing id changes nothing |
| ResumeStore.PatchKeepsOwners | server/controllers/resumeController.js:119 | a patch without a `userId` key changes no document's owner |
| ResumeStore.UpdatedListedFirst | server/controllers/resumeController.js:119 | the document just updated heads its owner's listing |
| ResumeStore.TransformSpec | server/controllers/resumeController.js:111 | the `pre` string always starts with the fixed resize and face crop, and ends with background removal exactly when `removeBackground` is truthy |
| ResumeStore.ImageUpload | server/controllers/resumeController.js:106-113 | the upload sends the given file as "resume.png" into "user-resumes", with `pre` exactly the fixed transformation followed by `,e-bgremove` when `removeBackground` is truthy and nothing otherwise |
| ResumeStore.FalseTextRemovesBackground | server/controllers/resumeController.js:111 | the form value `"false"` is truthy and still requests background removal |
| ResumeStore.CopyOf | server/controllers/resumeController.js:96-101 | any string body, whether a multipart field or a string inside a JSON body, becomes exactly its parsed value, and a parse error is the only failure; any other value is copied as it is; an absent body stays absent |
| ResumeStore.WithImage | server/controllers/resumeController.js:115 | writing the image URL succeeds exactly when the body is an object with an object `personal_info`, and changes only `personal_info.image` |
| ResumeStore.AsUpdate | server/controllers/resumeController.js:119 | definition of the update document: an object body's members; any other body is refused |
| ResumeStore.PreparePatch | server/controllers/resumeController.js:96-117 | parsing comes first and a failed parse uploads nothing. There is exactly one upload when an image is attached, with the fixed file name and folder. A failed upload fails the update. After a successful upload the patch is exactly the body with the returned URL written into `personal_info.image`, and it fails only when the body has no object `personal_info` |
| ResumeStore.StringBodyIsParsed | server/controllers/resumeController.js:96-99 | without an image, a string body that parses to an object makes that object's members the patch, and nothing is uploaded |
| ResumeStore.ImageUpdateWritesBody | server/controllers/resumeController.js:103-119 | with an object body whose `personal_info` is an object, a successful upload makes the update succeed. It writes every other member of the body unchanged, and `personal_info` with `image` set to the returned URL |
| ResumeStore.Store.UpdatedResume | server/controllers/resumeController.js:90-125 | a failed preparation leaves the store unchanged and is answered with its error. Otherwise the store becomes `Patched` of the old store. The answer holds the updated document, or nothing for a missing or foreign id, and is still a success |
| AiController.ExtractionPrompt | server/controllers/aiController.js:84-129 | the extraction prompt is the fixed template, then the resume text verbatim, then the fixed tail |
| AiController.Enhance | server/controllers/aiController.js:11-31 | a falsy `userContent` is refused before any model call; otherwise exactly one request under the instruction, and the model's content returned unchanged, or its error |
| AiController.EnhanceProfessionalSummary | server/controllers/aiController.js:7-35 | 400 "Missing required fields" with no request for falsy content; otherwise one request with the summary instruction and the content passed through |
| AiController.EnhanceJobDescription | server/controllers/aiController.js:40-68 | 400 "Missing required fields" with no request for falsy content; otherwise one request with the job-description instruction and the content passed through |
| AiController.IngestedFields | server/controllers/aiController.js:143 | the created record has `userId`, `title` and every spread key of the parsed value, the parsed value winning on shared keys |
| AiController.ExtractionRequestText | server/controllers/aiController.js:131-138 | the extraction request carries the extraction instruction as its system message and the extraction prompt around the resume text as its user message, and asks for a JSON object |
| AiController.PlanIngestion | server/controllers/aiController.js:78-143 | the required-field guard comes before any model call. Otherwise exactly one request is sent, `ExtractionRequest` of the resume text (see `ExtractionRequestText`), and a model error or a parse error fails the upload with its message. A parsed answer becomes the record |
| AiController.UploadResume | server/controllers/aiController.js:73-148 | all or nothing: on a failure the store is unchanged; on success exactly one new document holds the planned record and its id is answered |
| AiController.IngestedOwner | server/controllers/aiController.js:143 | the created document belongs to the caller unless the extracted object carries its own `userId`, which then wins |
| AiController.ExtractedTitleWins | server/controllers/aiController.js:143 | whenever the extracted object has a `title`, it replaces the title the user typed |
| AiController.ShortTextIsStillExtracted | server/controllers/aiController.js:78-80 | the server has no minimum length: a nine-character text is still sent to the model |
| ProjectForm.DataOrEmpty | client/src/Components/ProjectForm.jsx:4 | definition of the `data = []` default: an absent list is the empty list, a given one is kept |
| ProjectForm.AddProject | client/src/Components/ProjectForm.jsx:6-9 | the old list, unchanged, followed by one entry with the four empty fields |
| ProjectForm.KeepOthers | client/src/Components/ProjectForm.jsx:13 | filtering by position drops exactly the entry at the index and keeps the rest in order |
| ProjectForm.RemoveProject | client/src/Components/ProjectForm.jsx:12-15 | the entry at the index is removed and the rest keep their order; an index outside the list changes nothing |
| ProjectForm.SetFieldAt | client/src/Components/ProjectForm.jsx:19-21 | only the entry at the index gets the field set; all others are unchanged and the length is kept |
| ProjectForm.UpdateProject | client/src/Components/ProjectForm.jsx:18-23 | the entry at the index gets exactly that field set and keeps its other fields. Every other entry and the length stay the same. An index outside the list changes nothing |
| ProjectForm.IsValidLink | client/src/Components/ProjectForm.jsx:26-27 | definition of the link test: a present URL starting with exactly `http://` or `https://` |
| ProjectForm.LinkOf | client/src/Components/ProjectForm.jsx:109 | definition of `project.link`: the `link` field, `undefined` when the entry has none |
| ProjectForm.LinkExamples | client/src/Components/ProjectForm.jsx:26-27 | the scheme test is exact and case-sensitive, an absent URL is not a link, and a fresh entry shows no link |
| ProjectForm.ValidLinkExtends | client/src/Components/ProjectForm.jsx:26-27 | a valid link stays valid whatever is typed after it |
| ProjectForm.AddThenRemoveLast | client/src/Components/ProjectForm.jsx:6-15 | removing the entry just added gives back the original list |
| Dashboard.CardColor | client/src/Pages/Dashboard.jsx:211 | every card's colour is one of the five palette colours |
| Dashboard.CardColorsCycle | client/src/Pages/Dashboard.jsx:29 | the colours repeat every five cards, and neighbouring cards never share a colour |
| Dashboard.IsPdfName | client/src/Pages/Dashboard.jsx:71 | definition of the extension test: the ASCII-lower-cased name ends in `.pdf` |
| Dashboard.IsPdfNameIff | client/src/Pages/Dashboard.jsx:71 | a name passes the PDF test exactly when it ends in a dot followed by p, d, f in either case |
| Dashboard.EnoughText | client/src/Pages/Dashboard.jsx:89 | definition of the text guard: a non-empty text whose trimmed length is at least 50 UTF-16 code units |
| Dashboard.LeadingSpaceIgnored | client/src/Pages/Dashboard.jsx:89 | leading whitespace cannot help a text pass the length guard |
| Dashboard.AcceptedTextIsPresent | client/src/Pages/Dashboard.jsx:89 | a text the dashboard accepts is non-empty, so it passes the server's required-field check, and it has at least 25 characters |
| Dashboard.RunUpload | client/src/Pages/Dashboard.jsx:66-118 | a missing file is an error and a non-PDF name is refused, both before extraction. A failed extraction, or a text below the length guard, sends nothing. A PDF with enough text is sent exactly once, carrying the title and the extracted text. The server's answer then decides between `Uploaded` with the returned id and `RequestFailed` with its message |
| Dashboard.Retitled | client/src/Pages/Dashboard.jsx:134-138 | exactly the entries whose id equals `editResumeId` get the new title, all their other fields kept; every other entry and the length are unchanged |
| Dashboard.WithoutId | client/src/Pages/Dashboard.jsx:156 | the filtered list holds exactly the entries whose id differs from the deleted one |
| Dashboard.WithoutIdConcat | client/src/Pages/Dashboard.jsx:156 | the filter keeps the relative order of the remaining entries |
| Dashboard.WithoutAbsentId | client/src/Pages/Dashboard.jsx:156 | deleting an id no entry has leaves the list as it was |
| Dashboard.DashboardState.constructor | client/src/Pages/Dashboard.jsx:21-27 | the initial state: no resumes, empty title, no file, no edit, nothing loading, both dialogs closed |
| Dashboard.DashboardState.CreateResume | client/src/Pages/Dashboard.jsx:46-63 | the title is sent; on success the created resume is appended and the existing entries stay; on failure nothing changes |
| Dashboard.DashboardState.UploadResume | client/src/Pages/Dashboard.jsx:66-118 | the upload is `RunUpload` on the chosen file and title. Loading is off afterwards on every path. Only a successful upload clears the title and file and closes the dialog |
| Dashboard.DashboardState.Settle | client/src/Pages/Dashboard.jsx:104-117 | after an attempt, loading ends; only a successful upload clears the title and the file and closes the dialog; nothing else changes |
| Dashboard.DashboardState.EditTitle | client/src/Pages/Dashboard.jsx:121-146 | the edited id and title are sent; on success the list becomes `Retitled` and the edit state is reset; on failure nothing changes |
| Dashboard.DashboardState.DeleteResume | client/src/Pages/Dashboard.jsx:149-163 | a request is sent only when confirmed; only a confirmed, successful delete filters the list; otherwise it is unchanged |
| AuthMiddleware.ExtractToken | server/middlewares/authMiddleware.js:11-13 | after an exact `Bearer ` prefix the token is the rest without its leading whitespace; any other header is the token unchanged |
| AuthMiddleware.BearerRoundTrip | server/middlewares/authMiddleware.js:11-13 | `Bearer `, any whitespace, then a token gives back exactly that token |
| AuthMiddleware.LowercaseSchemeKept | server/middlewares/authMiddleware.js:11 | the prefix test is case-sensitive: a `bearer ` header is verified as it is |
| AuthMiddleware.Authorize | server/middlewares/authMiddleware.js:4-22 | a missing or empty header is refused with 401 "No token provided, authorization denied" before verification. Otherwise the request is allowed exactly when the extracted token verifies to a payload other than `null`, carrying the payload's `userId`. A failed verification, or a `null` payload whose `userId` read throws, is 401 "Token is not valid or has expired" |
| AuthMiddleware.Protect | server/middlewares/authMiddleware.js:3-23 | an allowed request gets `userId` set and `next` called exactly once with no answer. A refused one gets the 401 answer, `next` is never called and `userId` is untouched |

## Left out

- The MongoDB collection is an in-memory map. Its schema, defaults and type casting are not modelled: models/Resume.js is not part of this model. So the stored fields are the given top-level members, without schema defaults, and an update may write `_id`, `createdAt`, `updatedAt` or `__v` as plain fields.
- Views do not carry `__v`, since the model has no document versions; the cleared view only drops the timestamps.
- The OpenAI, ImageKit and `jwt.verify` calls, `JSON.parse` and the client's `pdfToText` are function parameters. Each either returns a value or fails with a message. No state of those services is modelled.
- Reading the uploaded image from disk is not modelled: only the file's path reaches the upload request.
- Network timing, concurrent requests and their interleaving, and last-writer-wins between concurrent updates are not modelled: each handler runs atomically.
- AiController.Enhance: the model's content is always a string. When the service answers with a `null` content, the source answers 200 with `enhancedContent: null`, which the model cannot express. A response without choices throws, and is covered as a failed call.
- AiController.PlanIngestion: a `null` content is not expressible either. In the source, `JSON.parse(null)` gives `null` and `{ userId, title, ...null }` creates a document holding only `userId` and `title`. The model covers that outcome only when `parse` maps the content to `Null`, since `Spread(Null)` is empty.
- AiController.PlanIngestion, AiController.Enhance: `resumeText` and `userContent` are optional strings, whereas a request body may carry any JSON value there. A truthy non-string value, such as a number or an object, is not modelled; the source would pass it to the model or interpolate it into the prompt.
- JSON numbers are integers; floating point is not modelled.
- Json.Spread: spreading a string uses one entry per Unicode scalar value, whereas JavaScript uses one per UTF-16 code unit. This differs only for characters outside the Basic Multilingual Plane.
- Json.Member: inherited properties such as `length` or `constructor` are not modelled. The code reads only `userId` and `image`, which no prototype defines.
- ResumeStore.Failure.Message: a TypeError thrown by the engine has its message represented by the property name. This covers setting `image` on a `personal_info` that is not an object, and an update built from a body that is not an object. The real engine message (e.g. "Cannot set properties of undefined") depends on the JavaScript engine.
- ResumeStore.WithImage: a `personal_info` that is an array is refused like a non-object, whereas JavaScript would set an `image` property on the array.
- ResumeStore.AsUpdate: an update body that is not an object, such as an array or a primitive, is refused with 400 rather than handed to the driver's cast.
- Common.LowerAscii: lower-casing covers the ASCII letters only, so non-ASCII case folding is not modelled for file names.
- AuthMiddleware.Protect: `next` is assumed not to throw. A throwing `next` inside the verification's `try` would also be answered 401.
- Dashboard: navigation, toasts, console logging, the file picker, the mount-time load of the list and all rendering are left out. A failed request's answer is its message.
- The user controller, the mock AI controller, routing, the server entry point and every other page and component are outside the modelled core.
