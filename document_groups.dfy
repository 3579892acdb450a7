/** The `/api/documentGroups` route run step by step against an in-memory
    database: the Supabase tables are fields of class `Store`, and every
    method is proved to do what the matching function of DocumentGroupsSpec
    says, so the properties proved there hold of the route. */
module DocumentGroups {
  import opened Common
  import Spec = DocumentGroupsSpec

  class Store {
    var documents: seq<Spec.DocumentRow>
    var docGroups: seq<Spec.DocGroupRow>
    var links: seq<Spec.Link>
    var nextId: Spec.Id
    /** How the database will answer the coming calls, in order. */
    var replies: seq<Spec.Reply>

    function Snapshot(): Spec.Db
      reads this
    {
      Spec.Db(documents, docGroups, links, nextId, replies)
    }

    constructor (db: Spec.Db)
      ensures Snapshot() == db
    {
      documents, docGroups, links := db.documents, db.docGroups, db.links;
      nextId, replies := db.nextId, db.replies;
    }

    /** The database's answer to the next call. */
    method TakeReply() returns (reply: Spec.Reply)
      modifies this
      ensures reply == Spec.NextReply(old(Snapshot()))
      ensures Snapshot() == Spec.Consumed(old(Snapshot()))
    {
      if replies == [] {
        reply := Spec.Served;
      } else {
        reply := replies[0];
        replies := replies[1..];
      }
    }

    method SelectDocument(courseName: string, key: Spec.DocKey) returns (r: Result<Option<Spec.Id>, Spec.Fault>)
      modifies this
      ensures (Snapshot(), r) == Spec.SelectDocument(old(Snapshot()), courseName, key)
    {
      var rows := documents;
      var reply := TakeReply();
      match reply
      case Failed => r := Err(Spec.StoreError);
      case Unreturned => r := Ok(None);
      case Served => r := Ok(Spec.FindDocument(rows, courseName, key));
    }

    method InsertDocument(courseName: string, key: Spec.DocKey) returns (r: Result<Option<Spec.Id>, Spec.Fault>)
      modifies this
      ensures (Snapshot(), r) == Spec.InsertDocument(old(Snapshot()), courseName, key)
    {
      var reply := TakeReply();
      if reply == Spec.Failed {
        return Err(Spec.StoreError);
      }
      var id := nextId;
      documents := documents + [Spec.NewDocumentRow(id, courseName, key)];
      nextId := nextId + 1;
      r := if reply == Spec.Served then Ok(Some(id)) else Ok(None);
    }

    /** Find or create the document, by `s3_path` when set, else by `url`. */
    method ResolveDocument(courseName: string, doc: Spec.MaterialDocument)
      returns (r: Result<Option<Spec.Id>, Spec.Fault>)
      modifies this
      ensures (Snapshot(), r) == Spec.ResolveDocument(old(Snapshot()), courseName, doc)
    {
      var documentId: Option<Spec.Id> := None;
      var key: Spec.DocKey;
      if doc.s3Path != "" {
        key := Spec.ByS3Path(doc.s3Path);
      } else if doc.url != "" {
        key := Spec.ByUrl(doc.url);
      } else {
        return Ok(None);
      }
      var existing := SelectDocument(courseName, key);
      if existing.Err? {
        return existing;
      }
      if existing.value.Some? {
        documentId := existing.value;
      } else {
        var inserted := InsertDocument(courseName, key);
        if inserted.Err? {
          return inserted;
        }
        if inserted.value.Some? {
          documentId := inserted.value;
        }
      }
      r := Ok(documentId);
    }

    method SelectDocGroup(name: string, courseName: string) returns (r: Result<Option<Spec.Id>, Spec.Fault>)
      modifies this
      ensures (Snapshot(), r) == Spec.SelectDocGroup(old(Snapshot()), name, courseName)
    {
      var rows := docGroups;
      var reply := TakeReply();
      match reply
      case Failed => r := Err(Spec.StoreError);
      case Unreturned => r := Ok(None);
      case Served => r := Ok(Spec.FindDocGroup(rows, name, courseName));
    }

    method InsertDocGroup(name: string, courseName: string) returns (r: Result<Spec.Id, Spec.Fault>)
      modifies this
      ensures (Snapshot(), r) == Spec.InsertDocGroup(old(Snapshot()), name, courseName)
    {
      var reply := TakeReply();
      if reply == Spec.Failed {
        return Err(Spec.StoreError);
      }
      var id := nextId;
      docGroups := docGroups + [Spec.DocGroupRow(id, name, courseName)];
      nextId := nextId + 1;
      r := if reply == Spec.Served then Ok(id) else Err(Spec.DocGroupNotReturned);
    }

    /** Find or create the doc group (name, course). */
    method ResolveDocGroup(name: string, courseName: string) returns (r: Result<Spec.Id, Spec.Fault>)
      modifies this
      ensures (Snapshot(), r) == Spec.ResolveDocGroup(old(Snapshot()), name, courseName)
    {
      var existing := SelectDocGroup(name, courseName);
      if existing.Err? {
        return Err(existing.error);
      }
      if existing.value.Some? {
        return Ok(existing.value.value);
      }
      r := InsertDocGroup(name, courseName);
    }

    method InsertLink(documentId: Spec.Id, docGroupId: Spec.Id) returns (ok: bool)
      modifies this
      ensures var r := Spec.InsertLink(old(Snapshot()), documentId, docGroupId);
        Snapshot() == r.0 && ok == r.1.Done?
    {
      var reply := TakeReply();
      ok := reply != Spec.Failed;
      if ok {
        links := links + [Spec.Link(documentId, docGroupId)];
      }
    }

    /** One document: resolve it, then link it to each of its groups in
        order, stopping at the first failure. */
    method AddDocument(courseName: string, doc: Spec.MaterialDocument) returns (outcome: Spec.Outcome)
      modifies this
      ensures (Snapshot(), outcome) == Spec.AddDocument(old(Snapshot()), courseName, doc)
    {
      var documentId := ResolveDocument(courseName, doc);
      if documentId.Err? {
        return Spec.Aborted(documentId.error);
      }
      if documentId.value.None? {
        return Spec.Done;
      }
      var id := documentId.value.value;
      var groups := doc.docGroups;
      ghost var resolved := Snapshot();
      var i := 0;
      while i < |groups|
        invariant 0 <= i <= |groups|
        invariant Spec.LinkGroups(Snapshot(), courseName, id, groups[i..]) ==
                  Spec.LinkGroups(resolved, courseName, id, groups)
      {
        assert groups[i..][1..] == groups[i + 1..];
        var docGroupId := ResolveDocGroup(groups[i], courseName);
        if docGroupId.Err? {
          return Spec.Aborted(docGroupId.error);
        }
        var ok := InsertLink(id, docGroupId.value);
        if !ok {
          return Spec.Aborted(Spec.StoreError);
        }
        i := i + 1;
      }
      outcome := Spec.Done;
    }

    /** `addDocumentsToDocGroup`: every document in order; the first
        failure stops the loop and is reported. */
    method AddDocumentsToDocGroup(courseName: string, docsArg: Spec.DocsArg) returns (outcome: Spec.Outcome)
      modifies this
      ensures (Snapshot(), outcome) == Spec.AddDocuments(old(Snapshot()), courseName, Spec.DocsList(docsArg))
    {
      var docs := if docsArg.One? then [docsArg.doc] else docsArg.docs;
      var i := 0;
      while i < |docs|
        invariant 0 <= i <= |docs|
        invariant Spec.AddDocuments(Snapshot(), courseName, docs[i..]) ==
                  Spec.AddDocuments(old(Snapshot()), courseName, docs)
      {
        assert docs[i..][1..] == docs[i + 1..];
        var o := AddDocument(courseName, docs[i]);
        if o.Aborted? {
          return o;
        }
        i := i + 1;
      }
      outcome := Spec.Done;
    }

    /** `appendDocGroup`: add the group to the document's list, as a set,
        then add the document again. */
    method AppendDocGroup(courseName: string, docs: Spec.DocsArg, docGroup: string) returns (outcome: Spec.Outcome)
      modifies this
      ensures (Snapshot(), outcome) == Spec.AppendDocGroup(old(Snapshot()), courseName, docs, docGroup)
    {
      var target := docs;
      if docs.One? {
        target := Spec.One(docs.doc.(docGroups := Spec.WithDocGroup(docs.doc.docGroups, docGroup)));
      }
      outcome := AddDocumentsToDocGroup(courseName, target);
    }

    /** `removeDocGroup`: drop the group from the document's list, then add
        the document again with the groups that remain. */
    method RemoveDocGroup(courseName: string, docs: Spec.DocsArg, docGroup: string) returns (outcome: Spec.Outcome)
      modifies this
      ensures (Snapshot(), outcome) == Spec.RemoveDocGroup(old(Snapshot()), courseName, docs, docGroup)
    {
      var target := docs;
      if docs.One? {
        target := Spec.One(docs.doc.(docGroups := Spec.WithoutDocGroup(docs.doc.docGroups, docGroup)));
      }
      outcome := AddDocumentsToDocGroup(courseName, target);
    }

    /** `fetchDocumentGroups`: the course's documents. */
    method FetchDocumentGroups(courseName: string) returns (r: Result<Option<seq<Spec.DocumentRow>>, Spec.Fault>)
      modifies this
      ensures (Snapshot(), r) == Spec.FetchDocuments(old(Snapshot()), courseName)
    {
      var rows := documents;
      var reply := TakeReply();
      match reply
      case Failed => r := Err(Spec.StoreError);
      case Unreturned => r := Ok(None);
      case Served => r := Ok(Some(Spec.CourseDocuments(rows, courseName)));
    }

    /** The route `handler`. */
    method Handle(req: Spec.Request) returns (response: Spec.Response)
      modifies this
      ensures (Snapshot(), response) == Spec.Handle(old(Snapshot()), req)
    {
      if req.httpMethod != "POST" {
        return Spec.Response(405, Spec.Failure("Method not allowed"));
      }
      if req.action == "addDocumentsToDocGroup" {
        var o := AddDocumentsToDocGroup(req.courseName, req.docs);
        response := Spec.Respond(o);
      } else if req.action == "appendDocGroup" {
        var o := AppendDocGroup(req.courseName, req.docs, req.docGroup);
        response := Spec.Respond(o);
      } else if req.action == "removeDocGroup" {
        var o := RemoveDocGroup(req.courseName, req.docs, req.docGroup);
        response := Spec.Respond(o);
      } else if req.action == "getDocumentGroups" {
        var documents := FetchDocumentGroups(req.courseName);
        if documents.Err? {
          response := Spec.Response(500, Spec.Failure("An error occurred"));
        } else {
          response := Spec.Response(200, Spec.SuccessWithDocuments(documents.value));
        }
      } else {
        response := Spec.Response(400, Spec.Failure("Invalid action"));
      }
    }
  }
}
