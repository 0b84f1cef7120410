/** The dashboard's bookkeeping: the list of the user's resumes it shows, the
    guards on an uploaded file, and the card colours. The server's answers,
    `pdfToText` and the confirmation dialog are inputs of the handlers. */
module Dashboard {
  import opened Common
  import opened Json

  /** A resume as the dashboard lists it: its `_id` and its other properties. */
  datatype Entry = Entry(id: string, fields: map<string, Value>)

  // ---------------------------------------------------------------------------
  // Card colours

  const Colors: seq<string> := ["#6366F1", "#A855F7", "#EC4899", "#F59E0B", "#10B981"]

  /** `colors[index % colors.length]`. */
  function CardColor(index: nat): (c: string)
    ensures c in Colors
  {
    Colors[index % |Colors|]
  }

  /** The colours repeat every five cards, and neighbouring cards never share one. */
  lemma CardColorsCycle(index: nat)
    ensures CardColor(index + 5) == CardColor(index)
    ensures CardColor(index) != CardColor(index + 1)
  {
  }

  // ---------------------------------------------------------------------------
  // Upload guards

  /** `name.toLowerCase().endsWith('.pdf')`, with ASCII case folding. */
  predicate IsPdfName(name: string) {
    EndsWith(LowerAscii(name), ".pdf")
  }

  /** The extension test, character by character: the name ends in a dot and
      the letters p, d, f in either case. */
  lemma IsPdfNameIff(name: string)
    ensures IsPdfName(name) <==>
      && |name| >= 4
      && name[|name| - 4] == '.'
      && (name[|name| - 3] == 'p' || name[|name| - 3] == 'P')
      && (name[|name| - 2] == 'd' || name[|name| - 2] == 'D')
      && (name[|name| - 1] == 'f' || name[|name| - 1] == 'F')
  {
  }

  const MinTextLength := 50

  /** `resumeText && resumeText.trim().length >= 50`, the length counted in UTF-16 code units. */
  predicate EnoughText(text: Option<string>) {
    TruthyText(text) && Utf16Length(Trim(text.value)) >= MinTextLength
  }

  /** Leading whitespace cannot make a short text long enough. */
  lemma LeadingSpaceIgnored(text: string, c: char)
    requires IsJsWhitespace(c)
    ensures EnoughText(Some([c] + text)) <==> EnoughText(Some(text))
  {
  }

  // ---------------------------------------------------------------------------
  // List updates

  /** `map((r) => r._id === editResumeId ? { ...r, title } : r)`. */
  function Retitled(list: seq<Entry>, editId: Option<string>, title: string): (r: seq<Entry>)
    ensures |r| == |list|
    ensures forall i :: 0 <= i < |list| && editId == Some(list[i].id) ==>
      r[i] == Entry(list[i].id, list[i].fields["title" := Str(title)])
    ensures forall i :: 0 <= i < |list| && editId != Some(list[i].id) ==> r[i] == list[i]
  {
    if list == [] then []
    else
      var e := list[0];
      (if editId == Some(e.id) then [Entry(e.id, e.fields["title" := Str(title)])] else [e])
        + Retitled(list[1..], editId, title)
  }

  /** `filter((r) => r._id !== resumeId)`. */
  function WithoutId(list: seq<Entry>, id: string): (r: seq<Entry>)
    ensures |r| <= |list|
    ensures forall e :: e in r <==> e in list && e.id != id
  {
    if list == [] then []
    else
      var rest := WithoutId(list[1..], id);
      assert forall e :: e in list <==> e == list[0] || e in list[1..];
      if list[0].id != id then [list[0]] + rest else rest
  }

  /** Filtering keeps the order: filtering a concatenation concatenates the filtered parts. */
  lemma {:induction false} WithoutIdConcat(a: seq<Entry>, b: seq<Entry>, id: string)
    ensures WithoutId(a + b, id) == WithoutId(a, id) + WithoutId(b, id)
  {
    if a == [] {
      assert a + b == b;
    } else {
      assert (a + b)[0] == a[0];
      assert (a + b)[1..] == a[1..] + b;
      WithoutIdConcat(a[1..], b, id);
    }
  }

  /** A list without the id is left exactly as it is. */
  lemma {:induction false} WithoutAbsentId(list: seq<Entry>, id: string)
    requires forall i :: 0 <= i < |list| ==> list[i].id != id
    ensures WithoutId(list, id) == list
  {
    if list != [] {
      WithoutAbsentId(list[1..], id);
    }
  }

  // ---------------------------------------------------------------------------
  // The upload flow

  /** The chosen file: its name and size in bytes. */
  datatype PdfFile = PdfFile(name: string, size: nat)

  /** The body of the upload request. */
  datatype UploadPost = UploadPost(title: string, resumeText: string)

  datatype UploadOutcome =
    | Uploaded(resumeId: string)
      /** `resume.name` read on a null file throws, and the error is reported */
    | NoFileChosen
    | NotPdf
    | UnreadablePdf(message: string)
    | NotEnoughText
    | RequestFailed(message: string)

  /** What one run of the upload handler did: its outcome, the files it gave to
      the text extractor and the requests it sent. */
  datatype UploadRun = UploadRun(outcome: UploadOutcome, pdfReads: seq<PdfFile>, posts: seq<UploadPost>)

  function RunUpload(file: Option<PdfFile>, title: string,
                     readPdf: PdfFile -> Result<string, string>,
                     post: UploadPost -> Result<string, string>): (u: UploadRun)
    ensures file.None? ==> u == UploadRun(NoFileChosen, [], [])
    // the extension is checked before the text is extracted
    ensures file.Some? && !IsPdfName(file.value.name) ==> u == UploadRun(NotPdf, [], [])
    ensures file.Some? && IsPdfName(file.value.name) ==> u.pdfReads == [file.value]
    ensures file.Some? && IsPdfName(file.value.name) && readPdf(file.value).Err? ==>
      u.outcome == UnreadablePdf(readPdf(file.value).error) && u.posts == []
    // the length is checked before anything is sent
    ensures file.Some? && IsPdfName(file.value.name) && readPdf(file.value).Ok? && !EnoughText(Some(readPdf(file.value).value)) ==>
      u.outcome == NotEnoughText && u.posts == []
    ensures u.posts != [] ==>
      && file.Some? && IsPdfName(file.value.name) && readPdf(file.value).Ok?
      && EnoughText(Some(readPdf(file.value).value))
      && u.posts == [UploadPost(title, readPdf(file.value).value)]
    // a PDF with enough text is sent once, and the server's answer decides the outcome
    ensures file.Some? && IsPdfName(file.value.name) && readPdf(file.value).Ok? && EnoughText(Some(readPdf(file.value).value)) ==>
      && u.posts == [UploadPost(title, readPdf(file.value).value)]
      && (post(u.posts[0]).Ok? ==> u.outcome == Uploaded(post(u.posts[0]).value))
      && (post(u.posts[0]).Err? ==> u.outcome == RequestFailed(post(u.posts[0]).error))
    ensures u.outcome.Uploaded? ==> |u.posts| == 1 && post(u.posts[0]) == Ok(u.outcome.resumeId)
  {
    if file.None? then UploadRun(NoFileChosen, [], [])
    else if !IsPdfName(file.value.name) then UploadRun(NotPdf, [], [])
    else
      match readPdf(file.value)
      case Err(message) => UploadRun(UnreadablePdf(message), [file.value], [])
      case Ok(text) =>
        if !EnoughText(Some(text)) then UploadRun(NotEnoughText, [file.value], [])
        else
          var request := UploadPost(title, text);
          match post(request)
          case Ok(id) => UploadRun(Uploaded(id), [file.value], [request])
          case Err(message) => UploadRun(RequestFailed(message), [file.value], [request])
  }

  /** A text the client accepts passes the server's required-field check too. */
  lemma AcceptedTextIsPresent(text: string)
    requires EnoughText(Some(text))
    ensures TruthyText(Some(text)) && |text| >= 25
  {
  }

  // ---------------------------------------------------------------------------
  // The component's state

  /** The dashboard's `useState` variables. */
  class DashboardState {
    var allResumes: seq<Entry>
    var showCreateResume: bool
    var showUploadResume: bool
    var title: string
    var resume: Option<PdfFile>
    var editResumeId: Option<string>
    var isLoading: bool

    constructor ()
      ensures allResumes == [] && title == "" && resume.None? && editResumeId.None?
      ensures !isLoading && !showCreateResume && !showUploadResume
    {
      allResumes, title, resume, editResumeId := [], "", None, None;
      isLoading, showCreateResume, showUploadResume := false, false, false;
    }

    /** `createResume`: posts the title; the created resume goes at the end of
        the list, and a failed request changes nothing. */
    method CreateResume(response: Result<Entry, string>) returns (sentTitle: string)
      modifies this
      ensures sentTitle == old(title)
      ensures response.Ok? ==>
        && allResumes == old(allResumes) + [response.value]
        && title == "" && !showCreateResume
      ensures response.Err? ==> allResumes == old(allResumes) && title == old(title) && showCreateResume == old(showCreateResume)
      ensures resume == old(resume) && editResumeId == old(editResumeId) && isLoading == old(isLoading)
      ensures showUploadResume == old(showUploadResume)
    {
      sentTitle := title;
      if response.Ok? {
        allResumes := allResumes + [response.value];
        title := "";
        showCreateResume := false;
      }
    }

    /** `uploadResume`: runs the guarded upload on the chosen file; whatever the
        path, loading is over at the end. */
    method UploadResume(readPdf: PdfFile -> Result<string, string>, post: UploadPost -> Result<string, string>)
      returns (run: UploadRun)
      modifies this
      ensures run == RunUpload(old(resume), old(title), readPdf, post)
      ensures !isLoading
      ensures run.outcome.Uploaded? ==> title == "" && resume.None? && !showUploadResume
      ensures !run.outcome.Uploaded? ==>
        title == old(title) && resume == old(resume) && showUploadResume == old(showUploadResume)
      ensures allResumes == old(allResumes) && editResumeId == old(editResumeId)
      ensures showCreateResume == old(showCreateResume)
    {
      isLoading := true;
      run := RunUpload(resume, title, readPdf, post);
      Settle(run.outcome.Uploaded?);
    }

    /** The state updates after an upload attempt: a successful one clears the
        title and the file and closes the dialog; loading ends either way. */
    method Settle(uploaded: bool)
      modifies this
      ensures !isLoading
      ensures uploaded ==> title == "" && resume.None? && !showUploadResume
      ensures !uploaded ==> title == old(title) && resume == old(resume) && showUploadResume == old(showUploadResume)
      ensures allResumes == old(allResumes) && editResumeId == old(editResumeId)
      ensures showCreateResume == old(showCreateResume)
    {
      if uploaded {
        title := "";
        resume := None;
        showUploadResume := false;
      }
      isLoading := false;
    }

    /** `editTitle`: sends the new title for `editResumeId`; once the server
        answers, the entries with that id get the new title and nothing else
        changes. A failed request changes nothing. */
    method EditTitle(response: Result<string, string>) returns (sentId: Option<string>, sentTitle: string)
      modifies this
      ensures sentId == old(editResumeId) && sentTitle == old(title)
      ensures response.Ok? ==>
        && allResumes == Retitled(old(allResumes), old(editResumeId), old(title))
        && title == "" && editResumeId.None?
      ensures response.Err? ==> allResumes == old(allResumes) && title == old(title) && editResumeId == old(editResumeId)
      ensures resume == old(resume) && isLoading == old(isLoading)
      ensures showCreateResume == old(showCreateResume) && showUploadResume == old(showUploadResume)
    {
      sentId, sentTitle := editResumeId, title;
      if response.Ok? {
        allResumes := Retitled(allResumes, editResumeId, title);
        title := "";
        editResumeId := None;
      }
    }

    /** `deleteResume`: asks for confirmation; only a confirmed delete is sent,
        and only a successful one removes the entries with that id. */
    method DeleteResume(resumeId: string, confirmed: bool, response: Result<string, string>)
      returns (sent: Option<string>)
      modifies this
      ensures sent == if confirmed then Some(resumeId) else None
      ensures confirmed && response.Ok? ==> allResumes == WithoutId(old(allResumes), resumeId)
      ensures !(confirmed && response.Ok?) ==> allResumes == old(allResumes)
      ensures title == old(title) && resume == old(resume) && editResumeId == old(editResumeId)
      ensures isLoading == old(isLoading)
      ensures showCreateResume == old(showCreateResume) && showUploadResume == old(showUploadResume)
    {
      sent := None;
      if confirmed {
        sent := Some(resumeId);
        if response.Ok? {
          allResumes := WithoutId(allResumes, resumeId);
        }
      }
    }
  }
}
