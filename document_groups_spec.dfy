/** The document-group bookkeeping of the `/api/documentGroups` route, as
    functions over a value `Db` that holds the three Supabase tables the route
    touches (`documents`, `doc_groups`, `documents_doc_groups`).

    Every call the route makes to the database consumes one scripted `Reply`
    from `Db.replies`; an empty script answers every call with `Served`, so a
    database that never fails is a `Db` whose script is empty. The class in
    module DocumentGroups runs the route's loops against this model. */
module DocumentGroupsSpec {
  import opened Common

  /** Row ids are serial and start at 1, so they are never falsy. */
  type Id = n: nat | n > 0 witness 1

  /** The client's document record (`MaterialDocument`). An optional string
      that is absent and one that is empty are both falsy and the route treats
      them alike, so both are "" here; an absent `doc_groups` list is []. */
  datatype MaterialDocument = MaterialDocument(
    courseName: string,
    readableFilename: string,
    s3Path: string,
    baseUrl: string,
    url: string,
    docGroups: seq<string>)

  /** The `docs` argument: one document or a list of them. */
  datatype DocsArg = One(doc: MaterialDocument) | Many(docs: seq<MaterialDocument>)

  /** A row of `documents`; a null column is "". */
  datatype DocumentRow = DocumentRow(id: Id, courseName: string, s3Path: string, url: string)

  /** A row of `doc_groups`. */
  datatype DocGroupRow = DocGroupRow(id: Id, name: string, courseName: string)

  /** A row of `documents_doc_groups`. */
  datatype Link = Link(documentId: Id, docGroupId: Id)

  /** How the database answers one call: normally, with an error, or without
      an error but with no data (`data` is null). */
  datatype Reply = Served | Failed | Unreturned

  /** Why an operation stopped: a database error, or the thrown
      "Failed to insert doc_group into Supabase". */
  datatype Fault = StoreError | DocGroupNotReturned

  datatype Outcome = Done | Aborted(fault: Fault)

  datatype Db = Db(
    documents: seq<DocumentRow>,
    docGroups: seq<DocGroupRow>,
    links: seq<Link>,
    nextId: Id,
    replies: seq<Reply>)

  /** The column a document is looked up by. */
  datatype DocKey = ByS3Path(path: string) | ByUrl(url: string)

  datatype Request = Request(
    httpMethod: string,
    action: string,
    courseName: string,
    docs: DocsArg,
    docGroup: string)

  datatype Body =
    | Success
    | SuccessWithDocuments(documents: Option<seq<DocumentRow>>)
    | Failure(error: string)

  datatype Response = Response(status: nat, body: Body)

  // ---------------------------------------------------------------------
  // The database, one call at a time

  function NextReply(db: Db): Reply {
    if db.replies == [] then Served else db.replies[0]
  }

  function Consumed(db: Db): Db {
    db.(replies := if db.replies == [] then [] else db.replies[1..])
  }

  /** The tables of `db'` extend those of `db`: rows are only appended. */
  predicate Extends(db: Db, db': Db) {
    && db.documents <= db'.documents
    && db.docGroups <= db'.docGroups
    && db.links <= db'.links
    && db.nextId <= db'.nextId
    && (forall x :: x in db'.replies ==> x in db.replies)
  }

  /** No script answer is "no data". */
  predicate NeverUnreturned(db: Db) {
    Unreturned !in db.replies
  }

  /** No two doc-group rows share a (name, course) pair. */
  predicate UniqueGroups(rows: seq<DocGroupRow>) {
    forall i, j :: 0 <= i < j < |rows| ==>
      !(rows[i].name == rows[j].name && rows[i].courseName == rows[j].courseName)
  }

  /** The key of a document: `s3_path` when set, otherwise `url` when set. */
  function KeyOf(d: MaterialDocument): (r: Option<DocKey>)
    ensures r.None? <==> d.s3Path == "" && d.url == ""
    ensures d.s3Path != "" ==> r == Some(ByS3Path(d.s3Path))
    ensures r.Some? && r.value.ByUrl? ==> d.s3Path == "" && r.value.url == d.url
  {
    if d.s3Path != "" then Some(ByS3Path(d.s3Path))
    else if d.url != "" then Some(ByUrl(d.url))
    else None
  }

  predicate MatchesKey(row: DocumentRow, course: string, key: DocKey) {
    row.courseName == course &&
    match key
    case ByS3Path(p) => row.s3Path == p
    case ByUrl(u) => row.url == u
  }

  predicate MatchesGroup(row: DocGroupRow, name: string, course: string) {
    row.name == name && row.courseName == course
  }

  /** Some row of `rows` has the key and the id. */
  predicate HasDocument(rows: seq<DocumentRow>, course: string, key: DocKey, id: Id) {
    exists i :: 0 <= i < |rows| && MatchesKey(rows[i], course, key) && rows[i].id == id
  }

  /** Some row of `rows` is the group (name, course) with the id. */
  predicate HasDocGroup(rows: seq<DocGroupRow>, name: string, course: string, id: Id) {
    exists i :: 0 <= i < |rows| && MatchesGroup(rows[i], name, course) && rows[i].id == id
  }

  /** The id of the first row with the key, as `existingDocuments[0].id`. */
  function FindDocument(rows: seq<DocumentRow>, course: string, key: DocKey): (r: Option<Id>)
    ensures r.None? <==> forall i :: 0 <= i < |rows| ==> !MatchesKey(rows[i], course, key)
    ensures r.Some? ==> HasDocument(rows, course, key, r.value)
    decreases |rows|
  {
    if rows == [] then None
    else if MatchesKey(rows[0], course, key) then Some(rows[0].id)
    else
      var r := FindDocument(rows[1..], course, key);
      assert r.Some? ==> HasDocument(rows[1..], course, key, r.value);
      assert forall i :: 1 <= i < |rows| ==> rows[i] == rows[1..][i - 1];
      r
  }

  /** The id of the first row of the group, as `existingDocGroups[0].id`. */
  function FindDocGroup(rows: seq<DocGroupRow>, name: string, course: string): (r: Option<Id>)
    ensures r.None? <==> forall i :: 0 <= i < |rows| ==> !MatchesGroup(rows[i], name, course)
    ensures r.Some? ==> HasDocGroup(rows, name, course, r.value)
    decreases |rows|
  {
    if rows == [] then None
    else if MatchesGroup(rows[0], name, course) then Some(rows[0].id)
    else
      var r := FindDocGroup(rows[1..], name, course);
      assert r.Some? ==> HasDocGroup(rows[1..], name, course, r.value);
      assert forall i :: 1 <= i < |rows| ==> rows[i] == rows[1..][i - 1];
      r
  }

  /** The row `insert({ course_name, s3_path })` or `insert({ course_name, url })` adds. */
  function NewDocumentRow(id: Id, course: string, key: DocKey): (row: DocumentRow)
    ensures MatchesKey(row, course, key) && row.id == id
  {
    match key
    case ByS3Path(p) => DocumentRow(id, course, p, "")
    case ByUrl(u) => DocumentRow(id, course, "", u)
  }

  /** `select('id').eq('course_name', ...).eq(<key column>, ...)`. */
  function SelectDocument(db: Db, course: string, key: DocKey): (r: (Db, Result<Option<Id>, Fault>))
    ensures r.0 == Consumed(db)
    ensures r.1.Err? <==> NextReply(db) == Failed
    ensures r.1.Ok? && r.1.value.Some? ==> HasDocument(db.documents, course, key, r.1.value.value)
    ensures NextReply(db) == Served ==> r.1 == Ok(FindDocument(db.documents, course, key))
  {
    match NextReply(db)
    case Failed => (Consumed(db), Err(StoreError))
    case Unreturned => (Consumed(db), Ok(None))
    case Served => (Consumed(db), Ok(FindDocument(db.documents, course, key)))
  }

  /** `insert(...).single()` into `documents`. */
  function InsertDocument(db: Db, course: string, key: DocKey): (r: (Db, Result<Option<Id>, Fault>))
    ensures Extends(db, r.0)
    ensures r.0.docGroups == db.docGroups && r.0.links == db.links
    ensures r.1.Err? <==> NextReply(db) == Failed
    ensures r.1.Err? ==> r.0.documents == db.documents
    ensures r.1.Ok? ==> r.0.documents == db.documents + [NewDocumentRow(db.nextId, course, key)]
    ensures r.1.Ok? && r.1.value.Some? ==> r.1.value.value == db.nextId
  {
    var db' := Consumed(db);
    var inserted := db'.(documents := db.documents + [NewDocumentRow(db.nextId, course, key)],
                         nextId := db.nextId + 1);
    match NextReply(db)
    case Failed => (db', Err(StoreError))
    case Unreturned => (inserted, Ok(None))
    case Served => (inserted, Ok(Some(db.nextId)))
  }

  /** Find or create the document by its key: `s3_path` first, else `url`. */
  function ResolveDocument(db: Db, course: string, d: MaterialDocument): (r: (Db, Result<Option<Id>, Fault>))
    ensures Extends(db, r.0)
    ensures r.0.docGroups == db.docGroups && r.0.links == db.links
    ensures KeyOf(d).None? ==> r == (db, Ok(None))
    ensures r.1.Ok? && r.1.value.Some? ==>
      KeyOf(d).Some? && HasDocument(r.0.documents, course, KeyOf(d).value, r.1.value.value)
  {
    match KeyOf(d)
    case None => (db, Ok(None))
    case Some(key) =>
      var (db1, found) := SelectDocument(db, course, key);
      if found.Err? || found.value.Some? then (db1, found)
      else
        var (db2, inserted) := InsertDocument(db1, course, key);
        assert inserted.Ok? ==> db2.documents[|db1.documents|] == NewDocumentRow(db1.nextId, course, key);
        (db2, inserted)
  }

  /** `select('id').eq('name', ...).eq('course_name', ...)` on `doc_groups`. */
  function SelectDocGroup(db: Db, name: string, course: string): (r: (Db, Result<Option<Id>, Fault>))
    ensures r.0 == Consumed(db)
    ensures r.1.Err? <==> NextReply(db) == Failed
    ensures r.1.Ok? && r.1.value.Some? ==> HasDocGroup(db.docGroups, name, course, r.1.value.value)
    ensures NextReply(db) == Served ==> r.1 == Ok(FindDocGroup(db.docGroups, name, course))
  {
    match NextReply(db)
    case Failed => (Consumed(db), Err(StoreError))
    case Unreturned => (Consumed(db), Ok(None))
    case Served => (Consumed(db), Ok(FindDocGroup(db.docGroups, name, course)))
  }

  /** `insert({ name, course_name }).single()` into `doc_groups`; no row
      returned is an error of its own. */
  function InsertDocGroup(db: Db, name: string, course: string): (r: (Db, Result<Id, Fault>))
    ensures Extends(db, r.0)
    ensures r.0.documents == db.documents && r.0.links == db.links
    ensures NextReply(db) == Failed ==> r == (Consumed(db), Err(StoreError))
    ensures NextReply(db) == Unreturned ==> r.1 == Err(DocGroupNotReturned)
    ensures NextReply(db) != Failed ==>
      r.0.docGroups == db.docGroups + [DocGroupRow(db.nextId, name, course)]
    ensures r.1.Ok? ==> r.1.value == db.nextId
    ensures NextReply(db) == Served ==> r.1 == Ok(db.nextId)
  {
    var db' := Consumed(db);
    var inserted := db'.(docGroups := db.docGroups + [DocGroupRow(db.nextId, name, course)],
                         nextId := db.nextId + 1);
    match NextReply(db)
    case Failed => (db', Err(StoreError))
    case Unreturned => (inserted, Err(DocGroupNotReturned))
    case Served => (inserted, Ok(db.nextId))
  }

  /** Find or create the doc group (name, course) for one listed group. */
  function ResolveDocGroup(db: Db, name: string, course: string): (r: (Db, Result<Id, Fault>))
    ensures Extends(db, r.0)
    ensures r.0.documents == db.documents && r.0.links == db.links
    ensures r.1.Ok? ==> HasDocGroup(r.0.docGroups, name, course, r.1.value)
    ensures NeverUnreturned(db) && UniqueGroups(db.docGroups) ==> UniqueGroups(r.0.docGroups)
  {
    var (db1, found) := SelectDocGroup(db, name, course);
    if found.Err? then (db1, Err(found.error))
    else if found.value.Some? then (db1, Ok(found.value.value))
    else
      var (db2, inserted) := InsertDocGroup(db1, name, course);
      assert inserted.Ok? ==> db2.docGroups[|db1.docGroups|] == DocGroupRow(db1.nextId, name, course);
      (db2, inserted)
  }

  /** One `documents_doc_groups` row, with no existence check. */
  function InsertLink(db: Db, documentId: Id, docGroupId: Id): (r: (Db, Outcome))
    ensures Extends(db, r.0)
    ensures r.0.documents == db.documents && r.0.docGroups == db.docGroups
    ensures r.1.Done? <==> NextReply(db) != Failed
    ensures r.1.Done? ==> r.0.links == db.links + [Link(documentId, docGroupId)]
    ensures r.1.Aborted? ==> r.0.links == db.links
  {
    if NextReply(db) == Failed then (Consumed(db), Aborted(StoreError))
    else (Consumed(db).(links := db.links + [Link(documentId, docGroupId)]), Done)
  }

  /** The body of the inner loop for one group name. */
  function LinkGroup(db: Db, course: string, documentId: Id, name: string): (r: (Db, Outcome))
    ensures Extends(db, r.0)
    ensures r.0.documents == db.documents
    ensures r.1.Done? ==>
      |r.0.links| == |db.links| + 1 && r.0.links[|db.links|].documentId == documentId &&
      HasDocGroup(r.0.docGroups, name, course, r.0.links[|db.links|].docGroupId)
  {
    var (db1, group) := ResolveDocGroup(db, name, course);
    if group.Err? then (db1, Aborted(group.error))
    else InsertLink(db1, documentId, group.value)
  }

  /** The inner loop over `doc.doc_groups`, stopping at the first failure. */
  function LinkGroups(db: Db, course: string, documentId: Id, groups: seq<string>): (r: (Db, Outcome))
    ensures Extends(db, r.0)
    ensures r.0.documents == db.documents
    decreases |groups|
  {
    if groups == [] then (db, Done)
    else
      var (db1, o) := LinkGroup(db, course, documentId, groups[0]);
      if o.Aborted? then (db1, o)
      else LinkGroups(db1, course, documentId, groups[1..])
  }

  /** One iteration of the outer loop (the `try` block of lines 82-196). */
  function AddDocument(db: Db, course: string, d: MaterialDocument): (r: (Db, Outcome))
    ensures Extends(db, r.0)
    ensures KeyOf(d).None? ==> r == (db, Done)
  {
    var (db1, documentId) := ResolveDocument(db, course, d);
    if documentId.Err? then (db1, Aborted(documentId.error))
    else if documentId.value.Some? then LinkGroups(db1, course, documentId.value.value, d.docGroups)
    else (db1, Done)
  }

  /** `addDocumentsToDocGroup`: the documents in order, stopping at (and
      reporting) the first failure. */
  function AddDocuments(db: Db, course: string, docs: seq<MaterialDocument>): (r: (Db, Outcome))
    ensures Extends(db, r.0)
    decreases |docs|
  {
    if docs == [] then (db, Done)
    else
      var (db1, o) := AddDocument(db, course, docs[0]);
      if o.Aborted? then (db1, o)
      else AddDocuments(db1, course, docs[1..])
  }

  /** The `docs` argument as a list: a single document is a one-element list. */
  function DocsList(arg: DocsArg): seq<MaterialDocument> {
    match arg
    case One(d) => [d]
    case Many(ds) => ds
  }

  /** `appendDocGroup`'s edit: `doc_groups` with `g` added as a set element. */
  function WithDocGroup(groups: seq<string>, g: string): (r: seq<string>)
    ensures g in r
    ensures forall x :: x in r <==> x in groups || x == g
    ensures groups <= r && |r| <= |groups| + 1
    ensures g in groups ==> r == groups
  {
    if g in groups then groups else groups + [g]
  }

  /** No element occurs twice. */
  predicate NoDuplicates(s: seq<string>) {
    forall i, j :: 0 <= i < j < |s| ==> s[i] != s[j]
  }

  /** `a` is `b` with some elements left out, the rest in their order. */
  predicate SubsequenceOf(a: seq<string>, b: seq<string>)
    decreases |b|
  {
    if a == [] then true
    else if b == [] then false
    else if a[0] == b[0] then SubsequenceOf(a[1..], b[1..])
    else SubsequenceOf(a, b[1..])
  }

  /** `removeDocGroup`'s edit: `doc_groups.filter((group) => group !== g)`. */
  function WithoutDocGroup(groups: seq<string>, g: string): (r: seq<string>)
    ensures forall x :: x in r <==> x in groups && x != g
    ensures SubsequenceOf(r, groups)
    ensures g !in groups ==> r == groups
    ensures multiset(r) == multiset(groups)[g := 0]
    decreases |groups|
  {
    if groups == [] then []
    else
      var rest := WithoutDocGroup(groups[1..], g);
      assert groups == [groups[0]] + groups[1..];
      assert multiset(groups) == multiset{groups[0]} + multiset(groups[1..]);
      if groups[0] == g then
        SubsequenceDropHead(rest, groups);
        rest
      else
        assert ([groups[0]] + rest)[1..] == rest;
        assert multiset([groups[0]] + rest) == multiset{groups[0]} + multiset(rest);
        [groups[0]] + rest
  }

  lemma {:induction false} SubsequenceDropHead(a: seq<string>, b: seq<string>)
    requires b != [] && SubsequenceOf(a, b[1..])
    ensures SubsequenceOf(a, b)
    decreases |b|, 0
  {
    if a != [] && a[0] == b[0] {
      SubsequenceTail(a, b[1..]);
    }
  }

  lemma {:induction false} SubsequenceTail(a: seq<string>, b: seq<string>)
    requires a != [] && SubsequenceOf(a, b)
    ensures SubsequenceOf(a[1..], b)
    decreases |b|, 1
  {
    if b != [] && a[0] != b[0] {
      SubsequenceTail(a, b[1..]);
      SubsequenceDropHead(a[1..], b);
    } else if b != [] {
      SubsequenceDropHead(a[1..], b);
    }
  }

  /** `appendDocGroup`: only a single document's own list is edited; given
      an array the edit lands on the array object, not on its elements. */
  function AppendDocGroup(db: Db, course: string, docs: DocsArg, g: string): (r: (Db, Outcome))
    ensures Extends(db, r.0)
  {
    match docs
    case One(d) => AddDocuments(db, course, [d.(docGroups := WithDocGroup(d.docGroups, g))])
    case Many(ds) => AddDocuments(db, course, ds)
  }

  /** `removeDocGroup`: the list is filtered and the remaining groups are
      added again; no row is ever deleted. */
  function RemoveDocGroup(db: Db, course: string, docs: DocsArg, g: string): (r: (Db, Outcome))
    ensures Extends(db, r.0)
  {
    match docs
    case One(d) => AddDocuments(db, course, [d.(docGroups := WithoutDocGroup(d.docGroups, g))])
    case Many(ds) => AddDocuments(db, course, ds)
  }

  /** The rows of one course, in table order. */
  function CourseDocuments(rows: seq<DocumentRow>, course: string): (r: seq<DocumentRow>)
    ensures forall x :: x in r <==> x in rows && x.courseName == course
    ensures |r| <= |rows|
    decreases |rows|
  {
    if rows == [] then []
    else
      assert rows == [rows[0]] + rows[1..];
      var rest := CourseDocuments(rows[1..], course);
      if rows[0].courseName == course then [rows[0]] + rest else rest
  }

  /** `fetchDocumentGroups`: the course's documents; a null `data` is passed on. */
  function FetchDocuments(db: Db, course: string): (r: (Db, Result<Option<seq<DocumentRow>>, Fault>))
    ensures r.0 == Consumed(db)
    ensures r.1.Err? <==> NextReply(db) == Failed
    ensures NextReply(db) == Served ==> r.1 == Ok(Some(CourseDocuments(db.documents, course)))
  {
    match NextReply(db)
    case Failed => (Consumed(db), Err(StoreError))
    case Unreturned => (Consumed(db), Ok(None))
    case Served => (Consumed(db), Ok(Some(CourseDocuments(db.documents, course))))
  }

  predicate KnownAction(action: string) {
    action in ["addDocumentsToDocGroup", "appendDocGroup", "removeDocGroup", "getDocumentGroups"]
  }

  /** The reply to one of the three editing actions. */
  function Respond(o: Outcome): Response {
    if o.Done? then Response(200, Success)
    else Response(500, Failure("An error occurred"))
  }

  function Reply200or500(r: (Db, Outcome)): (Db, Response) {
    (r.0, Respond(r.1))
  }

  /** The route `handler`: dispatch on the HTTP method and `action`. */
  function Handle(db: Db, req: Request): (r: (Db, Response))
    ensures req.httpMethod != "POST" ==> r == (db, Response(405, Failure("Method not allowed")))
    ensures req.httpMethod == "POST" && !KnownAction(req.action) ==>
      r == (db, Response(400, Failure("Invalid action")))
    ensures req.httpMethod == "POST" && KnownAction(req.action) ==>
      (r.1.status == 200 || r.1.status == 500) &&
      (r.1.status == 500 <==> r.1.body == Failure("An error occurred"))
    ensures req.httpMethod == "POST" && req.action == "addDocumentsToDocGroup" ==>
      r.0 == AddDocuments(db, req.courseName, DocsList(req.docs)).0 &&
      (r.1.status == 200 <==> AddDocuments(db, req.courseName, DocsList(req.docs)).1.Done?)
    ensures req.httpMethod == "POST" && req.action == "appendDocGroup" ==>
      var o := AppendDocGroup(db, req.courseName, req.docs, req.docGroup);
      r.0 == o.0 && (r.1.status == 200 <==> o.1.Done?)
    ensures req.httpMethod == "POST" && req.action == "removeDocGroup" ==>
      var o := RemoveDocGroup(db, req.courseName, req.docs, req.docGroup);
      r.0 == o.0 && (r.1.status == 200 <==> o.1.Done?)
    ensures req.httpMethod == "POST" && req.action == "getDocumentGroups" ==>
      r.0 == Consumed(db) && (r.1.status == 500 <==> NextReply(db) == Failed) &&
      (NextReply(db) == Served ==>
        r.1 == Response(200, SuccessWithDocuments(Some(CourseDocuments(db.documents, req.courseName)))))
    ensures Extends(db, r.0)
  {
    if req.httpMethod != "POST" then (db, Response(405, Failure("Method not allowed")))
    else if req.action == "addDocumentsToDocGroup" then
      Reply200or500(AddDocuments(db, req.courseName, DocsList(req.docs)))
    else if req.action == "appendDocGroup" then
      Reply200or500(AppendDocGroup(db, req.courseName, req.docs, req.docGroup))
    else if req.action == "removeDocGroup" then
      Reply200or500(RemoveDocGroup(db, req.courseName, req.docs, req.docGroup))
    else if req.action == "getDocumentGroups" then
      var (db1, documents) := FetchDocuments(db, req.courseName);
      if documents.Err? then (db1, Response(500, Failure("An error occurred")))
      else (db1, Response(200, SuccessWithDocuments(documents.value)))
    else (db, Response(400, Failure("Invalid action")))
  }

  // ---------------------------------------------------------------------
  // Properties of the route

  /** A database that answers every call normally. */
  predicate Healthy(db: Db) {
    db.replies == []
  }

  /** A row found in a table is still the first one found after appending. */
  lemma {:induction false} FindDocumentAppend(rows: seq<DocumentRow>, more: seq<DocumentRow>, course: string, key: DocKey)
    ensures FindDocument(rows + more, course, key) ==
      if FindDocument(rows, course, key).Some? then FindDocument(rows, course, key)
      else FindDocument(more, course, key)
    decreases |rows|
  {
    if rows == [] {
      assert rows + more == more;
    } else {
      assert (rows + more)[0] == rows[0];
      assert (rows + more)[1..] == rows[1..] + more;
      FindDocumentAppend(rows[1..], more, course, key);
    }
  }

  lemma {:induction false} FindDocGroupAppend(rows: seq<DocGroupRow>, more: seq<DocGroupRow>, name: string, course: string)
    ensures FindDocGroup(rows + more, name, course) ==
      if FindDocGroup(rows, name, course).Some? then FindDocGroup(rows, name, course)
      else FindDocGroup(more, name, course)
    decreases |rows|
  {
    if rows == [] {
      assert rows + more == more;
    } else {
      assert (rows + more)[0] == rows[0];
      assert (rows + more)[1..] == rows[1..] + more;
      FindDocGroupAppend(rows[1..], more, name, course);
    }
  }

  /** Appending rows keeps every group that was found. */
  lemma FindDocGroupGrows(rows: seq<DocGroupRow>, rows': seq<DocGroupRow>, name: string, course: string)
    requires rows <= rows' && FindDocGroup(rows, name, course).Some?
    ensures FindDocGroup(rows', name, course) == FindDocGroup(rows, name, course)
  {
    assert rows' == rows + rows'[|rows|..];
    FindDocGroupAppend(rows, rows'[|rows|..], name, course);
  }

  lemma HasDocGroupGrows(rows: seq<DocGroupRow>, rows': seq<DocGroupRow>, name: string, course: string, id: Id)
    requires rows <= rows' && HasDocGroup(rows, name, course, id)
    ensures HasDocGroup(rows', name, course, id)
  {
    var i :| 0 <= i < |rows| && MatchesGroup(rows[i], name, course) && rows[i].id == id;
    assert rows'[i] == rows[i];
  }

  /** Once a document fails, the documents after it are never processed. */
  lemma {:induction false} AddDocumentsStopsAtAbort(
    db: Db, course: string, docs: seq<MaterialDocument>, later: seq<MaterialDocument>)
    requires AddDocuments(db, course, docs).1.Aborted?
    ensures AddDocuments(db, course, docs + later) == AddDocuments(db, course, docs)
    decreases |docs|
  {
    assert (docs + later)[0] == docs[0];
    assert (docs + later)[1..] == docs[1..] + later;
    var (db1, o) := AddDocument(db, course, docs[0]);
    if o.Done? {
      AddDocumentsStopsAtAbort(db1, course, docs[1..], later);
    }
  }

  /** The documents are processed one after the other: a successful run
      over `docs` hands its tables on to the documents after them. */
  lemma {:induction false} AddDocumentsConcat(
    db: Db, course: string, docs: seq<MaterialDocument>, later: seq<MaterialDocument>)
    requires AddDocuments(db, course, docs).1.Done?
    ensures AddDocuments(db, course, docs + later) ==
      AddDocuments(AddDocuments(db, course, docs).0, course, later)
    decreases |docs|
  {
    if docs == [] {
      assert docs + later == later;
    } else {
      assert (docs + later)[0] == docs[0];
      assert (docs + later)[1..] == docs[1..] + later;
      var (db1, o) := AddDocument(db, course, docs[0]);
      AddDocumentsConcat(db1, course, docs[1..], later);
    }
  }

  /** While no call is answered without data, the inner loop never creates a
      second row for a (name, course) pair. */
  lemma {:induction false} LinkGroupsKeepsGroupsUnique(db: Db, course: string, documentId: Id, groups: seq<string>)
    requires NeverUnreturned(db) && UniqueGroups(db.docGroups)
    ensures UniqueGroups(LinkGroups(db, course, documentId, groups).0.docGroups)
    decreases |groups|
  {
    if groups != [] {
      var (db1, o) := LinkGroup(db, course, documentId, groups[0]);
      var (db0, group) := ResolveDocGroup(db, groups[0], course);
      assert UniqueGroups(db0.docGroups);
      assert db1.docGroups == db0.docGroups;
      if o.Done? {
        LinkGroupsKeepsGroupsUnique(db1, course, documentId, groups[1..]);
      }
    }
  }

  /** If doc-group rows were unique before, repeated calls of
      `addDocumentsToDocGroup` never create a duplicate group row. */
  lemma {:induction false} AddDocumentsKeepsGroupsUnique(db: Db, course: string, docs: seq<MaterialDocument>)
    requires NeverUnreturned(db) && UniqueGroups(db.docGroups)
    ensures UniqueGroups(AddDocuments(db, course, docs).0.docGroups)
    decreases |docs|
  {
    if docs != [] {
      var (db0, documentId) := ResolveDocument(db, course, docs[0]);
      if documentId.Ok? && documentId.value.Some? {
        LinkGroupsKeepsGroupsUnique(db0, course, documentId.value.value, docs[0].docGroups);
      }
      var (db1, o) := AddDocument(db, course, docs[0]);
      if o.Done? {
        AddDocumentsKeepsGroupsUnique(db1, course, docs[1..]);
      }
    }
  }

  /** `links'` is `links` followed by one row per name of `groups`, in
      order, each naming the document and a row of that group in `rows`. */
  ghost predicate LinksFor(
    links: seq<Link>, links': seq<Link>, documentId: Id, groups: seq<string>,
    course: string, rows: seq<DocGroupRow>)
  {
    && links <= links'
    && |links'| == |links| + |groups|
    && forall k :: |links| <= k < |links'| ==> LinkNames(links'[k], documentId, groups[k - |links|], course, rows)
  }

  /** The association row names the document and a row of the group. */
  ghost predicate LinkNames(l: Link, documentId: Id, name: string, course: string, rows: seq<DocGroupRow>) {
    l.documentId == documentId && HasDocGroup(rows, name, course, l.docGroupId)
  }

  /** Every name of `groups` has a row for the course in `rows`. */
  ghost predicate AllGroupsExist(rows: seq<DocGroupRow>, groups: seq<string>, course: string) {
    forall g :: g in groups ==> FindDocGroup(rows, g, course).Some?
  }

  /** One association row followed by the rows of the later groups. */
  lemma LinksForCons(
    links: seq<Link>, links1: seq<Link>, links': seq<Link>, documentId: Id, g: string,
    groups: seq<string>, course: string, rows1: seq<DocGroupRow>, rows': seq<DocGroupRow>)
    requires links <= links1 && |links1| == |links| + 1
    requires links1[|links|].documentId == documentId
    requires HasDocGroup(rows1, g, course, links1[|links|].docGroupId)
    requires rows1 <= rows'
    requires LinksFor(links1, links', documentId, groups, course, rows')
    ensures LinksFor(links, links', documentId, [g] + groups, course, rows')
  {
    var n := |links|;
    HasDocGroupGrows(rows1, rows', g, course, links1[n].docGroupId);
    assert links'[n] == links1[n];
    forall k | n <= k < |links'|
      ensures LinkNames(links'[k], documentId, ([g] + groups)[k - n], course, rows')
    {
      if k > n {
        assert ([g] + groups)[k - n] == groups[k - |links1|];
      }
    }
  }

  /** A completed inner loop completed its first iteration, then the rest. */
  lemma LinkGroupsUnfold(db: Db, course: string, documentId: Id, groups: seq<string>)
    requires groups != [] && LinkGroups(db, course, documentId, groups).1.Done?
    ensures LinkGroup(db, course, documentId, groups[0]).1.Done?
    ensures LinkGroups(db, course, documentId, groups) ==
      LinkGroups(LinkGroup(db, course, documentId, groups[0]).0, course, documentId, groups[1..])
  {
  }

  /** When the inner loop completes, it has added one association row per
      listed group, in list order, each naming the document and a row of
      that group. */
  lemma {:induction false} LinkGroupsDone(db: Db, course: string, documentId: Id, groups: seq<string>)
    requires LinkGroups(db, course, documentId, groups).1.Done?
    ensures var db' := LinkGroups(db, course, documentId, groups).0;
      LinksFor(db.links, db'.links, documentId, groups, course, db'.docGroups)
    decreases |groups|
  {
    if groups != [] {
      LinkGroupsUnfold(db, course, documentId, groups);
      var r1 := LinkGroup(db, course, documentId, groups[0]);
      var r := LinkGroups(r1.0, course, documentId, groups[1..]);
      LinkGroupsDone(r1.0, course, documentId, groups[1..]);
      assert [groups[0]] + groups[1..] == groups;
      LinksForCons(db.links, r1.0.links, r.0.links, documentId, groups[0], groups[1..], course,
                   r1.0.docGroups, r.0.docGroups);
    }
  }

  /** With a healthy database a group is found or created, and is found
      afterwards under the id returned. */
  lemma HealthyResolveDocGroup(db: Db, name: string, course: string)
    requires Healthy(db)
    ensures var (db', group) := ResolveDocGroup(db, name, course);
      Healthy(db') && group.Ok? &&
      FindDocGroup(db'.docGroups, name, course) == Some(group.value) &&
      (FindDocGroup(db.docGroups, name, course).Some? ==> db'.docGroups == db.docGroups)
  {
    if FindDocGroup(db.docGroups, name, course).None? {
      FindDocGroupAppend(db.docGroups, [DocGroupRow(db.nextId, name, course)], name, course);
    }
  }

  /** With a healthy database the inner loop completes; afterwards every
      listed group exists, and no group row is added when all existed. */
  lemma {:induction false} HealthyLinkGroups(db: Db, course: string, documentId: Id, groups: seq<string>)
    requires Healthy(db)
    ensures var r := LinkGroups(db, course, documentId, groups);
      Healthy(r.0) && r.1.Done? && AllGroupsExist(r.0.docGroups, groups, course) &&
      (AllGroupsExist(db.docGroups, groups, course) ==> r.0.docGroups == db.docGroups)
    decreases |groups|
  {
    if groups != [] {
      HealthyResolveDocGroup(db, groups[0], course);
      var db1 := LinkGroup(db, course, documentId, groups[0]).0;
      HealthyLinkGroups(db1, course, documentId, groups[1..]);
      var db' := LinkGroups(db1, course, documentId, groups[1..]).0;
      assert LinkGroups(db, course, documentId, groups).0 == db';
      FindDocGroupGrows(db1.docGroups, db'.docGroups, groups[0], course);
      assert forall g :: g in groups ==> g == groups[0] || g in groups[1..];
      if AllGroupsExist(db.docGroups, groups, course) {
        assert db1.docGroups == db.docGroups;
        assert groups[0] in groups;
      }
    }
  }

  /** A single document is processed exactly as a one-element list. */
  lemma AddDocumentsOne(db: Db, course: string, d: MaterialDocument)
    ensures AddDocuments(db, course, [d]) == AddDocument(db, course, d)
  {
    assert [d][1..] == [];
  }

  /** With a healthy database a document that has a key is found, or
      inserted when absent; its id is the one found afterwards. */
  lemma HealthyResolveDocument(db: Db, course: string, d: MaterialDocument)
    requires Healthy(db) && KeyOf(d).Some?
    ensures var r := ResolveDocument(db, course, d);
      var key := KeyOf(d).value;
      Healthy(r.0) && r.1 == Ok(FindDocument(r.0.documents, course, key)) && r.1.value.Some? &&
      (FindDocument(db.documents, course, key).Some? ==> r.0.documents == db.documents) &&
      (FindDocument(db.documents, course, key).None? ==>
        r.0.documents == db.documents + [NewDocumentRow(db.nextId, course, key)])
  {
    var key := KeyOf(d).value;
    if FindDocument(db.documents, course, key).None? {
      FindDocumentAppend(db.documents, [NewDocumentRow(db.nextId, course, key)], course, key);
    }
  }

  /** With a healthy database a document that has a key is found or
      inserted (inserted only if absent) and gets one association row per
      listed group; a group row is created only if absent. */
  lemma HealthyAddDocument(db: Db, course: string, d: MaterialDocument)
    requires Healthy(db) && KeyOf(d).Some?
    ensures var r := AddDocument(db, course, d);
      var key := KeyOf(d).value;
      Healthy(r.0) && r.1.Done? &&
      FindDocument(r.0.documents, course, key).Some? &&
      (FindDocument(db.documents, course, key).Some? ==> r.0.documents == db.documents) &&
      (FindDocument(db.documents, course, key).None? ==>
        r.0.documents == db.documents + [NewDocumentRow(db.nextId, course, key)]) &&
      LinksFor(db.links, r.0.links, FindDocument(r.0.documents, course, key).value,
               d.docGroups, course, r.0.docGroups) &&
      AllGroupsExist(r.0.docGroups, d.docGroups, course) &&
      (AllGroupsExist(db.docGroups, d.docGroups, course) ==> r.0.docGroups == db.docGroups)
  {
    var key := KeyOf(d).value;
    HealthyResolveDocument(db, course, d);
    var r1 := ResolveDocument(db, course, d);
    var id := r1.1.value.value;
    assert AddDocument(db, course, d) == LinkGroups(r1.0, course, id, d.docGroups);
    HealthyLinkGroups(r1.0, course, id, d.docGroups);
    LinkGroupsDone(r1.0, course, id, d.docGroups);
  }

  /** Repeating the same request with a healthy database creates no new
      document or group row, but adds every association row again. */
  lemma RepeatedAddDocumentAddsOnlyLinks(db: Db, course: string, d: MaterialDocument)
    requires Healthy(db) && KeyOf(d).Some?
    ensures var db1 := AddDocuments(db, course, [d]).0;
      var db2 := AddDocuments(db1, course, [d]).0;
      db2.documents == db1.documents && db2.docGroups == db1.docGroups &&
      db1.links <= db2.links && |db2.links| == |db1.links| + |d.docGroups|
  {
    AddDocumentsOne(db, course, d);
    HealthyAddDocument(db, course, d);
    var db1 := AddDocument(db, course, d).0;
    AddDocumentsOne(db1, course, d);
    HealthyAddDocument(db1, course, d);
  }

  /** A document whose insert returns no row is kept, but its groups are
      skipped silently. */
  lemma UnreturnedDocumentSkipsGroups(db: Db, course: string, d: MaterialDocument)
    requires KeyOf(d).Some? && FindDocument(db.documents, course, KeyOf(d).value).None?
    requires |db.replies| >= 2 && db.replies[0] == Served && db.replies[1] == Unreturned
    ensures var r := AddDocument(db, course, d);
      r.1.Done? && r.0.docGroups == db.docGroups && r.0.links == db.links &&
      r.0.documents == db.documents + [NewDocumentRow(db.nextId, course, KeyOf(d).value)]
  {
    assert db.replies[1..][0] == Unreturned;
  }

  /** A doc-group insert that returns no row makes the document fail. */
  lemma UnreturnedDocGroupAborts(db: Db, course: string, documentId: Id, name: string)
    requires FindDocGroup(db.docGroups, name, course).None?
    requires |db.replies| >= 2 && db.replies[0] == Served && db.replies[1] == Unreturned
    ensures LinkGroup(db, course, documentId, name).1 == Aborted(DocGroupNotReturned)
  {
    assert db.replies[1..][0] == Unreturned;
  }

  /** `appendDocGroup` on a single document, with a healthy database: the
      group exists afterwards, and one association row is added per group
      of the edited list. */
  lemma HealthyAppendDocGroup(db: Db, course: string, d: MaterialDocument, g: string)
    requires Healthy(db) && KeyOf(d).Some?
    ensures var db' := AppendDocGroup(db, course, One(d), g).0;
      FindDocGroup(db'.docGroups, g, course).Some? &&
      db.links <= db'.links && |db'.links| == |db.links| + |WithDocGroup(d.docGroups, g)|
  {
    var d' := d.(docGroups := WithDocGroup(d.docGroups, g));
    assert KeyOf(d') == KeyOf(d);
    AddDocumentsOne(db, course, d');
    HealthyAddDocument(db, course, d');
  }

  /** `removeDocGroup` on a single document, with a healthy database: the
      existing association rows stay (none is deleted), and the new ones
      name only the remaining groups. */
  lemma HealthyRemoveDocGroup(db: Db, course: string, d: MaterialDocument, g: string)
    requires Healthy(db) && KeyOf(d).Some?
    ensures var db' := RemoveDocGroup(db, course, One(d), g).0;
      var rest := WithoutDocGroup(d.docGroups, g);
      g !in rest && FindDocument(db'.documents, course, KeyOf(d).value).Some? &&
      LinksFor(db.links, db'.links, FindDocument(db'.documents, course, KeyOf(d).value).value, rest, course, db'.docGroups)
  {
    var rest := WithoutDocGroup(d.docGroups, g);
    var d' := d.(docGroups := rest);
    assert KeyOf(d') == KeyOf(d);
    AddDocumentsOne(db, course, d');
    HealthyAddDocument(db, course, d');
  }
}
