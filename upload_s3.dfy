/** The upload dropzone: dropping files marks the course as existing, then
    uploads each file to S3 through a presigned POST and asks for it to be
    ingested, one file after the other, and finally refreshes the page.
    The network is not modelled: what each remote call answers is given
    as a parameter, and what the component asks of the outside world is
    recorded, in order, as a trace of effects. */
module UploadS3 {
  import opened Common
  import opened JsText

  /** A dropped file: its name and MIME type. */
  datatype File = File(name: string, fileType: string)

  /** The presigned POST returned by `/api/UIUC-api/uploadToS3`: the bucket
      URL and the form fields in the order `Object.entries` yields them. */
  datatype PresignedPost = PresignedPost(url: string, fields: seq<(string, string)>)

  /** One entry appended to the `FormData`. */
  datatype FormEntry = FieldEntry(key: string, value: string) | FileEntry(key: string, file: File)

  /** How the `/api/UIUC-api/ingest` request ends. */
  datatype IngestReply =
    | IngestRejected                                       // `fetch` rejects
    | IngestAnswered(ok: bool, body: string, statusText: string)

  /** What `ingestFile` resolves to, or that it rejects. */
  datatype IngestOutcome = NoFile | Parsed(data: string) | RawResponse(statusText: string) | Rejected

  /** What the network answers for one file: the presigned post, or None
      when fetching or reading it fails, and the ingest reply. */
  datatype FileNetwork = FileNetwork(presign: Option<PresignedPost>, ingest: IngestReply)

  /** What the component asks of the outside world. */
  datatype Effect =
    | SetActive(on: bool)                                  // `setActive`, the dropzone's loading flag
    | KvSet(key: string)                                   // `kv.set(key, true)`
    | RequestPresignedPost(fileName: string, fileType: string, courseName: string)
    | PostForm(url: string, form: seq<FormEntry>)          // the multipart POST to S3
    | RequestIngest(query: seq<(string, string)>)          // GET `/api/UIUC-api/ingest?…`
    | Replace(path: string)                                // `router.replace`

  /** The effects a file's own processing may produce. */
  predicate IsFileStep(e: Effect) {
    e.RequestPresignedPost? || e.PostForm? || e.RequestIngest?
  }

  /** A file for which the network gives no answer sees every call fail. */
  function AnswerFor(network: seq<FileNetwork>, i: nat): FileNetwork {
    if i < |network| then network[i] else FileNetwork(None, IngestRejected)
  }

  /** `NewGetCurrentPageName`: the first `/`-separated segment of the path
      after its first character ("/CS-125/materials" gives "CS-125"). */
  function PageName(asPath: string): (r: string)
    ensures '/' !in r
    ensures r <= SliceFrom1(asPath)
    ensures |r| == |SliceFrom1(asPath)| || SliceFrom1(asPath)[|r|] == '/'
  {
    Split(SliceFrom1(asPath), '/')[0]
  }

  /** The presigned fields, each as a field entry, in order. */
  function FieldEntries(fields: seq<(string, string)>): (r: seq<FormEntry>)
    ensures |r| == |fields|
    ensures forall i :: 0 <= i < |fields| ==> r[i] == FieldEntry(fields[i].0, fields[i].1)
    decreases |fields|
  {
    if fields == [] then []
    else FieldEntries(fields[..|fields| - 1]) + [FieldEntry(fields[|fields| - 1].0, fields[|fields| - 1].1)]
  }

  /** The upload form: every presigned field, then the file under "file". */
  function FormFor(fields: seq<(string, string)>, file: File): (r: seq<FormEntry>)
    ensures |r| == |fields| + 1
    ensures forall i :: 0 <= i < |fields| ==> r[i] == FieldEntry(fields[i].0, fields[i].1)
    ensures r[|fields|] == FileEntry("file", file)
  {
    FieldEntries(fields) + [FileEntry("file", file)]
  }

  /** The form holds exactly one file entry, and it comes last. */
  lemma FormHasOneFileEntryLast(fields: seq<(string, string)>, file: File, k: nat)
    requires k < |FormFor(fields, file)|
    ensures FormFor(fields, file)[k].FileEntry? <==> k == |fields|
  {
  }

  /** The ingest query string's parameters. */
  function IngestQuery(courseName: string, fileName: string): seq<(string, string)> {
    [("courseName", courseName), ("fileName", fileName)]
  }

  /** `uploadToS3`: nothing for a null file; otherwise ask for a presigned
      post and, when one comes back, post the form to it. */
  function UploadEffects(courseName: string, file: Option<File>, presign: Option<PresignedPost>): (r: seq<Effect>)
    ensures file.None? ==> r == []
    ensures file.Some? ==> |r| >= 1 && r[0] == RequestPresignedPost(file.value.name, file.value.fileType, courseName)
    ensures file.Some? ==> (|r| == 2 <==> presign.Some?) && |r| <= 2
    ensures file.Some? && presign.Some? ==>
      r[1] == PostForm(presign.value.url, FormFor(presign.value.fields, file.value))
  {
    match file
    case None => []
    case Some(f) =>
      [RequestPresignedPost(f.name, f.fileType, courseName)] +
      match presign
      case None => []
      case Some(post) => [PostForm(post.url, FormFor(post.fields, f))]
  }

  /** `ingestFile`: nothing for a null file; otherwise one ingest request. */
  function IngestEffects(courseName: string, file: Option<File>): (r: seq<Effect>)
    ensures file.None? <==> r == []
  {
    match file
    case None => []
    case Some(f) => [RequestIngest(IngestQuery(courseName, f.name))]
  }

  /** What `ingestFile` resolves to: the parsed body when the response is
      ok, the raw response otherwise. */
  function IngestResultOf(file: Option<File>, reply: IngestReply): (r: IngestOutcome)
    ensures file.None? <==> r.NoFile?
    ensures file.Some? && reply.IngestAnswered? && reply.ok ==> r == Parsed(reply.body)
    ensures file.Some? && reply.IngestAnswered? && !reply.ok ==> r == RawResponse(reply.statusText)
    ensures r.Rejected? <==> file.Some? && reply.IngestRejected?
  {
    if file.None? then NoFile
    else match reply
      case IngestRejected => Rejected
      case IngestAnswered(ok, body, statusText) => if ok then Parsed(body) else RawResponse(statusText)
  }

  /** One file: its upload, then its ingest. */
  function FileEffects(courseName: string, f: File, answer: FileNetwork): seq<Effect> {
    UploadEffects(courseName, Some(f), answer.presign) + IngestEffects(courseName, Some(f))
  }

  /** The first n files in order, the i-th answered by `AnswerFor(network, i)`. */
  function FilesEffects(courseName: string, files: seq<File>, network: seq<FileNetwork>, n: nat): (r: seq<Effect>)
    requires n <= |files|
  {
    if n == 0 then []
    else FilesEffects(courseName, files, network, n - 1) + FileEffects(courseName, files[n - 1], AnswerFor(network, n - 1))
  }

  /** Processing files only ever uploads and ingests. */
  lemma {:induction false} FilesEffectsAreFileSteps(courseName: string, files: seq<File>, network: seq<FileNetwork>, n: nat)
    requires n <= |files|
    ensures forall k :: 0 <= k < |FilesEffects(courseName, files, network, n)| ==>
      IsFileStep(FilesEffects(courseName, files, network, n)[k])
  {
    if n > 0 {
      FilesEffectsAreFileSteps(courseName, files, network, n - 1);
      var front := FilesEffects(courseName, files, network, n - 1);
      var last := FileEffects(courseName, files[n - 1], AnswerFor(network, n - 1));
      assert forall k :: 0 <= k < |last| ==> IsFileStep(last[k]);
      assert forall k :: |front| <= k < |front| + |last| ==> (front + last)[k] == last[k - |front|];
    }
  }

  /** `onDrop`: set loading, mark the course, process the files, clear
      loading, refresh. */
  function DropEffects(courseName: string, asPath: string, files: seq<File>, network: seq<FileNetwork>): (r: seq<Effect>)
    ensures |r| == |FilesEffects(courseName, files, network, |files|)| + 4
  {
    [SetActive(true)] + [KvSet(PageName(asPath))] + FilesEffects(courseName, files, network, |files|) +
      [SetActive(false)] + [Replace(asPath)]
  }

  /** Loading is switched on first and off last, the course is marked once
      before any file, and in between only file steps happen. */
  lemma DropShape(courseName: string, asPath: string, files: seq<File>, network: seq<FileNetwork>)
    ensures var r := DropEffects(courseName, asPath, files, network);
      r[0] == SetActive(true) && r[1] == KvSet(PageName(asPath)) &&
      r[|r| - 2] == SetActive(false) && r[|r| - 1] == Replace(asPath) &&
      forall k :: 2 <= k < |r| - 2 ==> IsFileStep(r[k])
  {
    var middle := FilesEffects(courseName, files, network, |files|);
    FilesEffectsAreFileSteps(courseName, files, network, |files|);
    var r := DropEffects(courseName, asPath, files, network);
    assert forall k :: 2 <= k < |r| - 2 ==> r[k] == middle[k - 2];
  }

  lemma AppendAssoc(a: seq<Effect>, b: seq<Effect>, c: seq<Effect>)
    ensures a + b + c == a + (b + c)
  {
  }

  /** The requests for presigned posts and for ingestion, in order. */
  predicate IsRequest(e: Effect) {
    e.RequestPresignedPost? || e.RequestIngest?
  }

  function Requests(t: seq<Effect>): seq<Effect>
    decreases |t|
  {
    if t == [] then []
    else Requests(t[..|t| - 1]) + (if IsRequest(t[|t| - 1]) then [t[|t| - 1]] else [])
  }

  lemma {:induction false} RequestsConcat(a: seq<Effect>, b: seq<Effect>)
    ensures Requests(a + b) == Requests(a) + Requests(b)
    decreases |b|
  {
    if b == [] {
      assert a + b == a;
    } else {
      var n := |b| - 1;
      assert (a + b)[..|a + b| - 1] == a + b[..n];
      RequestsConcat(a, b[..n]);
    }
  }

  /** Whatever the network answers, one file asks for its presigned post
      and then for its ingestion, and nothing else. */
  lemma FileRequests(courseName: string, f: File, answer: FileNetwork)
    ensures Requests(FileEffects(courseName, f, answer)) ==
      [RequestPresignedPost(f.name, f.fileType, courseName), RequestIngest(IngestQuery(courseName, f.name))]
  {
    var up := UploadEffects(courseName, Some(f), answer.presign);
    var ing := IngestEffects(courseName, Some(f));
    RequestsConcat(up, ing);
    if answer.presign.Some? {
      RequestsConcat([up[0]], [up[1]]);
    }
  }

  /** The requests a run over the first n files makes when nothing fails:
      for each file in order, its presign request and then its ingest
      request. */
  function ExpectedRequests(courseName: string, files: seq<File>, n: nat): (r: seq<Effect>)
    requires n <= |files|
    ensures |r| == 2 * n
  {
    if n == 0 then []
    else
      var f := files[n - 1];
      ExpectedRequests(courseName, files, n - 1) +
        [RequestPresignedPost(f.name, f.fileType, courseName), RequestIngest(IngestQuery(courseName, f.name))]
  }

  /** No failure changes the requests made: whatever the network answers,
      they are the expected ones. */
  lemma {:induction false} RequestsIndependentOfNetwork(courseName: string, files: seq<File>, network: seq<FileNetwork>, n: nat)
    requires n <= |files|
    ensures Requests(FilesEffects(courseName, files, network, n)) == ExpectedRequests(courseName, files, n)
  {
    if n > 0 {
      RequestsIndependentOfNetwork(courseName, files, network, n - 1);
      RequestsConcat(FilesEffects(courseName, files, network, n - 1), FileEffects(courseName, files[n - 1], AnswerFor(network, n - 1)));
      FileRequests(courseName, files[n - 1], AnswerFor(network, n - 1));
    }
  }

  /** File i's presign and ingest requests are the (2i)-th and (2i+1)-th. */
  lemma {:induction false} ExpectedRequestsAt(courseName: string, files: seq<File>, n: nat, i: nat)
    requires i < n <= |files|
    ensures ExpectedRequests(courseName, files, n)[2 * i] == RequestPresignedPost(files[i].name, files[i].fileType, courseName)
    ensures ExpectedRequests(courseName, files, n)[2 * i + 1] == RequestIngest(IngestQuery(courseName, files[i].name))
  {
    if i < n - 1 {
      ExpectedRequestsAt(courseName, files, n - 1, i);
    }
  }

  /** Files are handled in selection order and no failure stops the loop:
      for every network, file i's presign request and ingest request are
      the (2i)-th and (2i+1)-th requests of the run. */
  lemma RequestsOfFiles(courseName: string, files: seq<File>, network: seq<FileNetwork>, i: nat)
    requires i < |files|
    ensures |Requests(FilesEffects(courseName, files, network, |files|))| == 2 * |files|
    ensures Requests(FilesEffects(courseName, files, network, |files|))[2 * i] == RequestPresignedPost(files[i].name, files[i].fileType, courseName)
    ensures Requests(FilesEffects(courseName, files, network, |files|))[2 * i + 1] == RequestIngest(IngestQuery(courseName, files[i].name))
  {
    RequestsIndependentOfNetwork(courseName, files, network, |files|);
    ExpectedRequestsAt(courseName, files, |files|, i);
  }

  /** Every form posted to S3 comes right after the presign request of the
      file it carries. */
  predicate PostsFollowPresigns(t: seq<Effect>) {
    forall k :: 0 <= k < |t| && t[k].PostForm? ==> 0 < k && Carries(t[k - 1], t[k])
  }

  /** `post` is the form for the file `request` asked to upload. */
  predicate Carries(request: Effect, post: Effect)
    requires post.PostForm?
  {
    request.RequestPresignedPost? && |post.form| > 0 &&
    post.form[|post.form| - 1] == FileEntry("file", File(request.fileName, request.fileType))
  }

  lemma PostsFollowPresignsConcat(a: seq<Effect>, b: seq<Effect>)
    requires PostsFollowPresigns(a) && PostsFollowPresigns(b)
    ensures PostsFollowPresigns(a + b)
  {
    var t := a + b;
    forall k | 0 <= k < |t| && t[k].PostForm?
      ensures 0 < k && Carries(t[k - 1], t[k])
    {
      if k >= |a| {
        assert t[k] == b[k - |a|];
        assert k - |a| > 0;
        assert t[k - 1] == b[k - 1 - |a|];
      }
    }
  }

  lemma FilePostsFollowPresign(courseName: string, f: File, answer: FileNetwork)
    ensures PostsFollowPresigns(FileEffects(courseName, f, answer))
  {
    if answer.presign.Some? {
      var form := FormFor(answer.presign.value.fields, f);
      assert form[|form| - 1] == FileEntry("file", f);
    }
  }

  lemma {:induction false} FilesPostsFollowPresigns(courseName: string, files: seq<File>, network: seq<FileNetwork>, n: nat)
    requires n <= |files|
    ensures PostsFollowPresigns(FilesEffects(courseName, files, network, n))
  {
    if n > 0 {
      FilesPostsFollowPresigns(courseName, files, network, n - 1);
      FilePostsFollowPresign(courseName, files[n - 1], AnswerFor(network, n - 1));
      PostsFollowPresignsConcat(
        FilesEffects(courseName, files, network, n - 1),
        FileEffects(courseName, files[n - 1], AnswerFor(network, n - 1)));
    }
  }

  /** The same for the whole drop. */
  lemma DropPostsFollowPresigns(courseName: string, asPath: string, files: seq<File>, network: seq<FileNetwork>)
    ensures PostsFollowPresigns(DropEffects(courseName, asPath, files, network))
  {
    var t0: seq<Effect> := [SetActive(true)];
    var t1 := t0 + [KvSet(PageName(asPath))];
    PostsFollowPresignsConcat(t0, [KvSet(PageName(asPath))]);
    var middle := FilesEffects(courseName, files, network, |files|);
    FilesPostsFollowPresigns(courseName, files, network, |files|);
    PostsFollowPresignsConcat(t1, middle);
    var t2 := t1 + middle;
    PostsFollowPresignsConcat(t2, [SetActive(false)]);
    PostsFollowPresignsConcat(t2 + [SetActive(false)], [Replace(asPath)]);
  }

  /** A path of the form "/<course>/..." names the course. */
  lemma PageNameOfCoursePath(course: string, rest: string)
    requires '/' !in course
    ensures PageName("/" + course + "/" + rest) == course
    ensures PageName("/" + course) == course
  {
    assert SliceFrom1("/" + course + "/" + rest) == course + "/" + rest;
    SplitAtSeparator(course, '/', rest);
    assert SliceFrom1("/" + course) == course;
    SplitWithoutSeparator(course, '/');
  }

  /** `DropzoneS3Upload` for one course on one page. */
  class DropzoneS3Upload {
    const courseName: string
    /** `router.asPath` */
    const asPath: string
    var active: bool
    var trace: seq<Effect>

    constructor (courseName: string, asPath: string)
      ensures this.courseName == courseName && this.asPath == asPath
      ensures !active && trace == []
    {
      this.courseName := courseName;
      this.asPath := asPath;
      active := false;
      trace := [];
    }

    method SetActive(on: bool)
      modifies this
      ensures active == on && trace == old(trace) + [Effect.SetActive(on)]
    {
      active := on;
      trace := trace + [Effect.SetActive(on)];
    }

    /** `setCourseExists`: a failure of the store is logged and swallowed,
        so the call always returns normally. */
    method SetCourseExists(key: string)
      modifies this
      ensures active == old(active) && trace == old(trace) + [KvSet(key)]
    {
      trace := trace + [KvSet(key)];
    }

    /** The `forEach` that fills the `FormData`. */
    static method BuildUploadForm(fields: seq<(string, string)>, file: File) returns (form: seq<FormEntry>)
      ensures form == FormFor(fields, file)
    {
      form := [];
      for i := 0 to |fields|
        invariant form == FieldEntries(fields[..i])
      {
        assert fields[..i + 1][..i] == fields[..i];
        form := form + [FieldEntry(fields[i].0, fields[i].1)];
      }
      assert fields[..|fields|] == fields;
      form := form + [FileEntry("file", file)];
    }

    method UploadToS3(file: Option<File>, presign: Option<PresignedPost>)
      modifies this
      ensures active == old(active)
      ensures trace == old(trace) + UploadEffects(courseName, file, presign)
    {
      if file.None? {
        return;
      }
      var f := file.value;
      trace := trace + [RequestPresignedPost(f.name, f.fileType, courseName)];
      if presign.Some? {
        var form := BuildUploadForm(presign.value.fields, f);
        trace := trace + [PostForm(presign.value.url, form)];
      }
    }

    method IngestFile(file: Option<File>, reply: IngestReply) returns (result: IngestOutcome)
      modifies this
      ensures active == old(active)
      ensures trace == old(trace) + IngestEffects(courseName, file)
      ensures result == IngestResultOf(file, reply)
    {
      if file.None? {
        return NoFile;
      }
      trace := trace + [RequestIngest(IngestQuery(courseName, file.value.name))];
      match reply
      case IngestRejected => result := Rejected;
      case IngestAnswered(ok, body, statusText) =>
        result := if ok then Parsed(body) else RawResponse(statusText);
    }

    method RefreshPage()
      modifies this
      ensures active == old(active) && trace == old(trace) + [Replace(asPath)]
    {
      trace := trace + [Replace(asPath)];
    }

    /** One iteration of that loop. */
    method ProcessFile(f: File, answer: FileNetwork)
      modifies this
      ensures active == old(active)
      ensures trace == old(trace) + FileEffects(courseName, f, answer)
    {
      UploadToS3(Some(f), answer.presign);
      var _ := IngestFile(Some(f), answer.ingest);
    }

    /** The `for … of` loop of `onDrop`: the files one after the other,
        each upload awaited before its ingest; a failure of either is
        caught and the loop goes on. */
    method ProcessFiles(files: seq<File>, network: seq<FileNetwork>)
      modifies this
      ensures active == old(active)
      ensures trace == old(trace) + FilesEffects(courseName, files, network, |files|)
    {
      ghost var start, wasActive := trace, active;
      var i := 0;
      while i < |files|
        invariant 0 <= i <= |files|
        invariant active == wasActive
        invariant trace == start + FilesEffects(courseName, files, network, i)
      {
        ghost var done := FilesEffects(courseName, files, network, i);
        ghost var next := FileEffects(courseName, files[i], AnswerFor(network, i));
        ProcessFile(files[i], AnswerFor(network, i));
        AppendAssoc(start, done, next);
        i := i + 1;
      }
    }

    /** The dropzone's `onDrop`; the dropzone shows loading while the
        files are processed. */
    method OnDrop(files: seq<File>, network: seq<FileNetwork>)
      modifies this
      ensures !active
      ensures trace == old(trace) + DropEffects(courseName, asPath, files, network)
    {
      ghost var before := trace;
      SetActive(true);
      ghost var done := [Effect.SetActive(true)];
      SetCourseExists(PageName(asPath));
      AppendAssoc(before, done, [KvSet(PageName(asPath))]);
      done := done + [KvSet(PageName(asPath))];
      ProcessFiles(files, network);
      AppendAssoc(before, done, FilesEffects(courseName, files, network, |files|));
      done := done + FilesEffects(courseName, files, network, |files|);
      SetActive(false);
      AppendAssoc(before, done, [Effect.SetActive(false)]);
      done := done + [Effect.SetActive(false)];
      RefreshPage();
      AppendAssoc(before, done, [Replace(asPath)]);
    }
  }
}
