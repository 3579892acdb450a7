/** The `/api/UIUC-api/ingest` route: it builds the S3 key of an uploaded
    file and forwards it to the ingestion service. */
module Ingest {
  import opened Common
  import opened JsText
  import UploadS3

  /** A template-literal slot: a missing query parameter prints as
      "undefined". */
  function Shown(v: Option<string>): string {
    if v.None? then "undefined" else v.value
  }

  /** The S3 key `courses/<courseName>/<fileName>`. */
  function StoragePath(courseName: string, fileName: string): (r: string)
    ensures |r| == 9 + |courseName| + |fileName|
    ensures StartsWith(r, "courses/")
    ensures r[|r| - |fileName|..] == fileName
    ensures r[8..8 + |courseName|] == courseName && r[8 + |courseName|] == '/'
  {
    var r := "courses/" + courseName + "/" + fileName;
    assert r[8..8 + |courseName|] == courseName;
    r
  }

  /** When neither name contains "/", the key splits back into its three
      parts. */
  lemma StoragePathSplits(courseName: string, fileName: string)
    requires '/' !in courseName && '/' !in fileName
    ensures Split(StoragePath(courseName, fileName), '/') == ["courses", courseName, fileName]
  {
    assert StoragePath(courseName, fileName) == "courses" + ['/'] + (courseName + ['/'] + fileName);
    SplitAtSeparator("courses", '/', courseName + ['/'] + fileName);
    SplitAtSeparator(courseName, '/', fileName);
    SplitWithoutSeparator(fileName, '/');
  }

  /** Different files of a course get different keys, and so do the same
      file name in two courses whose names contain no "/". */
  lemma StoragePathInjective(c1: string, f1: string, c2: string, f2: string)
    requires '/' !in c1 && '/' !in f1 && '/' !in c2 && '/' !in f2
    requires StoragePath(c1, f1) == StoragePath(c2, f2)
    ensures c1 == c2 && f1 == f2
  {
    StoragePathSplits(c1, f1);
    StoragePathSplits(c2, f2);
  }

  /** The query the route reads: each parameter may be missing. */
  datatype IngestQuery = IngestQuery(fileName: Option<string>, courseName: Option<string>)

  /** `URLSearchParams.get`: the first value under the key. */
  function Lookup(params: seq<(string, string)>, key: string): (r: Option<string>)
    ensures r.None? <==> forall i :: 0 <= i < |params| ==> params[i].0 != key
    ensures r.Some? ==> exists i :: 0 <= i < |params| && params[i] == (key, r.value)
    decreases |params|
  {
    if params == [] then None
    else if params[0].0 == key then Some(params[0].1)
    else Lookup(params[1..], key)
  }

  /** The route's view of a query string. */
  function QueryOf(params: seq<(string, string)>): IngestQuery {
    IngestQuery(Lookup(params, "fileName"), Lookup(params, "courseName"))
  }

  /** The GET the route makes to `<RAILWAY_URL>/ingest`; a missing course
      name is left out of the parameters, as axios drops undefined ones. */
  datatype ServiceCall = ServiceCall(url: string, params: seq<(string, string)>)

  function ServiceCallFor(railwayUrl: string, q: IngestQuery): (r: ServiceCall)
    ensures r.url == railwayUrl + "/ingest"
    ensures Lookup(r.params, "s3_paths") == Some(StoragePath(Shown(q.courseName), Shown(q.fileName)))
    ensures Lookup(r.params, "course_name") == q.courseName
  {
    var path := ("s3_paths", StoragePath(Shown(q.courseName), Shown(q.fileName)));
    var params := if q.courseName.None? then [path] else [("course_name", q.courseName.value), path];
    ServiceCall(railwayUrl + "/ingest", params)
  }

  /** How the ingestion service answers. */
  datatype ServiceReply = ServiceOk(data: string) | ServiceFailed

  /** What the handler does with the reply: respond 200 with the service's
      body, or, on any failure, return `[]` without responding. */
  datatype Outcome = Responded(status: nat, body: string) | ReturnedEmptyList

  function Handle(railwayUrl: string, q: IngestQuery, reply: ServiceReply): (r: (ServiceCall, Outcome))
    ensures r.0 == ServiceCallFor(railwayUrl, q)
    ensures reply.ServiceOk? <==> r.1.Responded?
    ensures reply.ServiceOk? ==> r.1 == Responded(200, reply.data)
  {
    (ServiceCallFor(railwayUrl, q), if reply.ServiceOk? then Responded(200, reply.data) else ReturnedEmptyList)
  }

  /** The upload component's ingest query makes the route ingest exactly
      the key `courses/<course>/<file>` of that course. */
  lemma UploadQueryReachesStoragePath(railwayUrl: string, courseName: string, fileName: string, reply: ServiceReply)
    ensures var call := Handle(railwayUrl, QueryOf(UploadS3.IngestQuery(courseName, fileName)), reply).0;
      Lookup(call.params, "s3_paths") == Some(StoragePath(courseName, fileName)) &&
      Lookup(call.params, "course_name") == Some(courseName)
  {
    var params := UploadS3.IngestQuery(courseName, fileName);
    assert Lookup(params, "courseName") == Some(courseName);
    assert Lookup(params[1..], "fileName") == Some(fileName);
  }
}
