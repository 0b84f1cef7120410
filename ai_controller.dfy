/** The extraction and enhancement handlers: the language model is a function
    from a chat request to the content of its first choice (or the error the
    call throws), and `JSON.parse` is a partial function from text to a value.
    Every handler reports the requests it sent, so the order of its guards and
    calls can be stated. */
module AiController {
  import opened Common
  import opened Json
  import opened ResumeStore

  /** One chat-completion request: the system message, the user message, and
      whether the response is constrained to a JSON object. */
  datatype ChatRequest = ChatRequest(system: string, user: UserMessage, jsonObject: bool)

  /** A user message: text passed through as it is, or the extraction prompt
      built around a resume text (its characters are given by `Text`). */
  datatype UserMessage = Verbatim(content: string) | ExtractionMessage(resumeText: string) {
    function Text(): string {
      match this
      case Verbatim(content) => content
      case ExtractionMessage(resumeText) => ExtractionPrompt(resumeText)
    }
  }

  /** A handler's answer together with the requests it sent to the model. */
  datatype Answer = Answer(result: Result<string, Failure>, requests: seq<ChatRequest>)

  const SummaryInstruction := "You are an expert in resume writing. Your task is to enhance the professional summary of a resume. The summary should be 1–2 sentences, highlighting key skills, experience, and career objectives. Make it compelling, ATS-friendly, and return only the improved text."

  const JobDescriptionInstruction := "You are an expert in resume writing. Your task is to enhance the job description section of a resume. Make each point action-oriented, impactful, and ATS-optimized using strong verbs and quantifiable achievements. Return only the improved text."

  const ExtractionInstruction := "You are an expert AI agent that extracts structured data from resumes."

  /** The user message of the extraction request up to the resume text. */
  const ExtractionTemplate :=
    "\n"
    + "    Extract data from this resume text and return it as a pure JSON object in the following format:\n"
    + "    {\n"
    + "      \"professional_summary\": \"\",\n"
    + "      \"skills\": [],\n"
    + "      \"personal_info\": {\n"
    + "        \"image\": \"\",\n"
    + "        \"full_name\": \"\",\n"
    + "        \"profession\": \"\",\n"
    + "        \"email\": \"\",\n"
    + "        \"phone\": \"\",\n"
    + "        \"location\": \"\",\n"
    + "        \"linkedin\": \"\",\n"
    + "        \"website\": \"\"\n"
    + "      },\n"
    + "      \"experience\": [\n"
    + "        {\n"
    + "          \"company\": \"\",\n"
    + "          \"position\": \"\",\n"
    + "          \"start_date\": \"\",\n"
    + "          \"end_date\": \"\",\n"
    + "          \"description\": \"\",\n"
    + "          \"is_current\": false\n"
    + "        }\n"
    + "      ],\n"
    + "      \"project\": [\n"
    + "        {\n"
    + "          \"name\": \"\",\n"
    + "          \"type\": \"\",\n"
    + "          \"description\": \"\"\n"
    + "        }\n"
    + "      ],\n"
    + "      \"education\": [\n"
    + "        {\n"
    + "          \"institution\": \"\",\n"
    + "          \"degree\": \"\",\n"
    + "          \"field\": \"\",\n"
    + "          \"graduation_date\": \"\",\n"
    + "          \"gpa\": \"\"\n"
    + "        }\n"
    + "      ]\n"
    + "    }\n"
    + "\n"
    + "    Resume text:\n"
    + "    "

  /** What follows the resume text in the user message. */
  const ExtractionTail := "\n    "

  /** The extraction request's user message carries the resume text verbatim
      between the fixed template and the fixed tail. */
  function ExtractionPrompt(resumeText: string): (p: string)
    ensures |p| == |ExtractionTemplate| + |resumeText| + |ExtractionTail|
    ensures StartsWith(p, ExtractionTemplate) && EndsWith(p, ExtractionTail)
    ensures p[|ExtractionTemplate|..|ExtractionTemplate| + |resumeText|] == resumeText
  {
    ThreeParts(ExtractionTemplate, resumeText, ExtractionTail);
    ExtractionTemplate + resumeText + ExtractionTail
  }

  /** Where the three parts of a concatenation sit. */
  lemma ThreeParts(a: string, b: string, c: string)
    ensures |a + b + c| == |a| + |b| + |c|
    ensures (a + b + c)[..|a|] == a
    ensures (a + b + c)[|a|..|a| + |b|] == b
    ensures (a + b + c)[|a| + |b|..] == c
  {
  }

  function ExtractionRequest(resumeText: string): ChatRequest {
    ChatRequest(ExtractionInstruction, ExtractionMessage(resumeText), true)
  }

  /** The extraction request is in JSON mode, under the extraction instruction,
      and its user message reads as the extraction prompt around the resume text. */
  lemma ExtractionRequestText(resumeText: string)
    ensures ExtractionRequest(resumeText).system == ExtractionInstruction
    ensures ExtractionRequest(resumeText).jsonObject
    ensures ExtractionRequest(resumeText).user.Text() == ExtractionPrompt(resumeText)
  {
  }

  /** The shape both enhance handlers share: refuse a falsy `userContent`
      before any call, otherwise send it once under the given instruction and
      answer with the first choice's content as it is. */
  function Enhance(instruction: string, userContent: Option<string>,
                   complete: ChatRequest -> Result<string, string>): (a: Answer)
    ensures !TruthyText(userContent) ==> a == Answer(Err(MissingFields), [])
    ensures TruthyText(userContent) ==> a.requests == [ChatRequest(instruction, Verbatim(userContent.value), false)]
    ensures TruthyText(userContent) ==>
      match complete(ChatRequest(instruction, Verbatim(userContent.value), false))
      case Ok(content) => a.result == Ok(content)
      case Err(message) => a.result == Err(Thrown(message))
  {
    if !TruthyText(userContent) then Answer(Err(MissingFields), [])
    else
      var request := ChatRequest(instruction, Verbatim(userContent.value), false);
      match complete(request)
      case Ok(content) => Answer(Ok(content), [request])
      case Err(message) => Answer(Err(Thrown(message)), [request])
  }

  /** `enhanceProfessionalSummary`. */
  function EnhanceProfessionalSummary(userContent: Option<string>,
                                      complete: ChatRequest -> Result<string, string>): (a: Answer)
    ensures !TruthyText(userContent) ==> a.result == Err(MissingFields) && a.result.error.Status() == 400 && a.requests == []
    ensures TruthyText(userContent) ==>
      && a.requests == [ChatRequest(SummaryInstruction, Verbatim(userContent.value), false)]
      && (complete(a.requests[0]).Ok? ==> a.result == Ok(complete(a.requests[0]).value))
      && (complete(a.requests[0]).Err? ==> a.result == Err(Thrown(complete(a.requests[0]).error)))
  {
    Enhance(SummaryInstruction, userContent, complete)
  }

  /** `enhanceJobDescription`. */
  function EnhanceJobDescription(userContent: Option<string>,
                                 complete: ChatRequest -> Result<string, string>): (a: Answer)
    ensures !TruthyText(userContent) ==> a.result == Err(MissingFields) && a.result.error.Status() == 400 && a.requests == []
    ensures TruthyText(userContent) ==>
      && a.requests == [ChatRequest(JobDescriptionInstruction, Verbatim(userContent.value), false)]
      && (complete(a.requests[0]).Ok? ==> a.result == Ok(complete(a.requests[0]).value))
      && (complete(a.requests[0]).Err? ==> a.result == Err(Thrown(complete(a.requests[0]).error)))
  {
    Enhance(JobDescriptionInstruction, userContent, complete)
  }

  // ---------------------------------------------------------------------------
  // uploadResume

  /** The record `uploadResume` creates: `{ userId, title, ...parsed }`. */
  function IngestedFields(caller: UserId, title: Value, parsed: Value): (f: map<string, Value>)
    ensures f.Keys == {"userId", "title"} + Spread(parsed).Keys
    ensures forall k :: k in Spread(parsed) ==> f[k] == Spread(parsed)[k]
    ensures "userId" !in Spread(parsed) ==> f["userId"] == Str(caller)
    ensures "title" !in Spread(parsed) ==> f["title"] == title
  {
    Overlay(map["userId" := Str(caller), "title" := title], Spread(parsed))
  }

  /** What `uploadResume` decides before touching the store: the record to
      create, or the failure, and the requests sent on the way. */
  datatype Ingestion = Ingestion(fields: Result<map<string, Value>, Failure>, requests: seq<ChatRequest>)

  function PlanIngestion(caller: UserId, resumeText: Option<string>, title: Option<Value>,
                         complete: ChatRequest -> Result<string, string>,
                         parse: string -> Result<Value, string>): (p: Ingestion)
    // the required-field guard comes before any call to the model
    ensures !TruthyText(resumeText) || !Truthy(title) ==> p == Ingestion(Err(MissingFields), [])
    // otherwise the model is asked exactly once
    ensures TruthyText(resumeText) && Truthy(title) ==> p.requests == [ExtractionRequest(resumeText.value)]
    ensures TruthyText(resumeText) && Truthy(title) && complete(ExtractionRequest(resumeText.value)).Err? ==>
      p.fields == Err(Thrown(complete(ExtractionRequest(resumeText.value)).error))
    ensures TruthyText(resumeText) && Truthy(title) && complete(ExtractionRequest(resumeText.value)).Ok? ==>
      var content := complete(ExtractionRequest(resumeText.value)).value;
      && (parse(content).Err? ==> p.fields == Err(Thrown(parse(content).error)))
      && (parse(content).Ok? ==> p.fields == Ok(IngestedFields(caller, title.value, parse(content).value)))
  {
    if !TruthyText(resumeText) || !Truthy(title) then Ingestion(Err(MissingFields), [])
    else
      var request := ExtractionRequest(resumeText.value);
      match complete(request)
      case Err(message) => Ingestion(Err(Thrown(message)), [request])
      case Ok(content) =>
        match parse(content)
        case Err(message) => Ingestion(Err(Thrown(message)), [request])
        case Ok(parsed) => Ingestion(Ok(IngestedFields(caller, title.value, parsed)), [request])
  }

  /** `uploadResume`: all or nothing. On any failure the store is unchanged;
      on success exactly one new document holds the planned record and its id
      is the answer. */
  method UploadResume(store: Store, caller: UserId, resumeText: Option<string>, title: Option<Value>,
                      complete: ChatRequest -> Result<string, string>,
                      parse: string -> Result<Value, string>)
    returns (r: Result<DocId, Failure>, requests: seq<ChatRequest>)
    requires store.Valid()
    modifies store
    ensures store.Valid()
    ensures requests == PlanIngestion(caller, resumeText, title, complete, parse).requests
    ensures PlanIngestion(caller, resumeText, title, complete, parse).fields.Err? ==>
      && r == Err(PlanIngestion(caller, resumeText, title, complete, parse).fields.error)
      && store.docs == old(store.docs)
    ensures PlanIngestion(caller, resumeText, title, complete, parse).fields.Ok? ==>
      && r.Ok? && r.value !in old(store.docs)
      && store.docs == Inserted(old(store.docs), r.value, PlanIngestion(caller, resumeText, title, complete, parse).fields.value, old(store.clock))
  {
    var plan := PlanIngestion(caller, resumeText, title, complete, parse);
    requests := plan.requests;
    if plan.fields.Err? {
      return Err(plan.fields.error), requests;
    }
    var id := store.Insert(plan.fields.value);
    r := Ok(id);
  }

  /** The created document belongs to the caller unless the extracted object
      itself carries a `userId`, which the spread lets win. */
  lemma IngestedOwner(caller: UserId, title: Value, parsed: Value, now: nat)
    ensures "userId" !in Spread(parsed) ==> OwnedBy(Resume(IngestedFields(caller, title, parsed), now, now), caller)
    ensures "userId" in Spread(parsed) && Spread(parsed)["userId"] != Str(caller) ==>
      !OwnedBy(Resume(IngestedFields(caller, title, parsed), now, now), caller)
  {
  }

  /** A title in the extracted object replaces the title the user typed. */
  lemma ExtractedTitleWins(caller: UserId, title: Value, members: map<string, Value>)
    requires "title" in members
    ensures IngestedFields(caller, title, Obj(members))["title"] == members["title"]
  {
  }

  /** The server asks for no minimum length: any non-empty text is sent to the model. */
  lemma ShortTextIsStillExtracted(caller: UserId, complete: ChatRequest -> Result<string, string>,
                                  parse: string -> Result<Value, string>)
    ensures |PlanIngestion(caller, Some("too short"), Some(Str("My Resume")), complete, parse).requests| == 1
  {
  }
}
