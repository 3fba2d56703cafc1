/** The four bulk batches (create, update, index, delete): how each turns its
    documents into the newline-delimited body of one `POST /_bulk`, and how
    `push` writes the engine's per-item reply back into the documents. */
module Bulk {
  import opened Wrappers
  import opened Errors
  import opened Json
  import opened Lines
  import opened Settings

  /** A document: a Python dict. The batches read "src" and "_id" and write
      "_id" and "status". */
  type Doc = map<string, Value>

  /** Which batch class: `BulkCreate`, `BulkUpdate` (whose `action` keyword
      names the key it reads in each reply item, "update" by default),
      `BulkIndex` (an update whose verb and reply key are "index") or
      `BulkDelete`. */
  datatype Kind = Create | Update(action: string) | Index | Delete

  /** The verb of the action line. */
  function Verb(kind: Kind): string
  {
    match kind
    case Create => "create"
    case Update(_) => "update"
    case Index => "index"
    case Delete => "delete"
  }

  /** The key `push` reads in each reply item. */
  function ReplyKey(kind: Kind): string
  {
    match kind
    case Update(action) => action
    case _ => Verb(kind)
  }

  /** How many lines each document contributes: an action line, and a
      payload line unless the batch deletes. */
  function Width(kind: Kind): nat
  {
    if kind == Delete then 1 else 2
  }

  /** The keys a document must have to be serialised. */
  function RequiredKeys(kind: Kind): set<string>
  {
    match kind
    case Create => {"src"}
    case Update(_) => {"_id", "src"}
    case Index => {"_id", "src"}
    case Delete => {"_id"}
  }

  /** The action line's value: `{verb: {"_index": ..., "_type": ...}}`, with
      the document's "_id" last for every batch but create. */
  function ActionLine(config: Config, kind: Kind, doc: Doc): (r: Value)
    requires kind != Create ==> "_id" in doc
    ensures r.Obj? && |r.fields| == 1 && r.fields[0].key == Verb(kind)
  {
    var target := [Member("_index", Str(config.index)), Member("_type", Str(config.doctype))];
    var id := if kind == Create then [] else [Member("_id", doc["_id"])];
    Obj([Member(Verb(kind), Obj(target + id))])
  }

  /** The action line, read back as a parsed dict: `line[verb]` holds the
      configuration's index and type, and the document's "_id" exactly when
      the batch is not a create. */
  lemma ActionLineFields(config: Config, kind: Kind, doc: Doc)
    requires kind != Create ==> "_id" in doc
    ensures |ActionLine(config, kind, doc).fields[0].value.fields| == if kind == Create then 2 else 3
    ensures Get2(ActionLine(config, kind, doc), Verb(kind), "_index") == Success(Str(config.index))
    ensures Get2(ActionLine(config, kind, doc), Verb(kind), "_type") == Success(Str(config.doctype))
    ensures kind == Create ==> Get2(ActionLine(config, kind, doc), Verb(kind), "_id") == Failure(KeyError("_id"))
    ensures kind != Create ==> Get2(ActionLine(config, kind, doc), Verb(kind), "_id") == Success(doc["_id"])
  {
    var fields := ActionLine(config, kind, doc).fields[0].value.fields;
    FindLast(fields, "_index", 0);
    FindLast(fields, "_type", 1);
    if kind != Create {
      FindLast(fields, "_id", 2);
    }
  }

  /** The payload line's value: `{"doc": src}` for an update, the source
      itself for create and index. */
  function PayloadLine(kind: Kind, doc: Doc): (r: Value)
    requires kind != Delete && "src" in doc
    ensures kind.Update? ==> r.Obj? && |r.fields| == 1 && Get(r, "doc") == Success(doc["src"])
    ensures !kind.Update? ==> r == doc["src"]
  {
    if kind.Update? then Obj([Member("doc", doc["src"])]) else doc["src"]
  }

  /** The lines one loop iteration of `serialize` appends. The action line
      is built, and "_id" read, before "src" is read. */
  function DocLines(config: Config, kind: Kind, doc: Doc): (r: Result<seq<string>, Error>)
    ensures r.Success? <==> RequiredKeys(kind) <= doc.Keys
    ensures r.Success? ==> |r.value| == Width(kind) && NewlineFree(r.value)
    ensures r.Success? ==> r.value[0] == Dumps(ActionLine(config, kind, doc))
    ensures r.Success? && kind != Delete ==> r.value[1] == Dumps(PayloadLine(kind, doc))
    ensures r.Failure? ==> r.error == if kind != Create && "_id" !in doc then KeyError("_id") else KeyError("src")
  {
    if kind != Create && "_id" !in doc then Failure(KeyError("_id"))
    else if kind == Delete then Success([Dumps(ActionLine(config, kind, doc))])
    else if "src" !in doc then Failure(KeyError("src"))
    else Success([Dumps(ActionLine(config, kind, doc)), Dumps(PayloadLine(kind, doc))])
  }

  /** The `lines` list `serialize` builds, or the `KeyError` of the first
      document that lacks a key. */
  function SerialLines(config: Config, kind: Kind, docs: seq<Doc>): (r: Result<seq<string>, Error>)
    ensures |docs| == 0 ==> r == Success([])
  {
    if |docs| == 0 then Success([])
    else match DocLines(config, kind, docs[0])
      case Failure(e) => Failure(e)
      case Success(first) =>
        match SerialLines(config, kind, docs[1..])
        case Failure(e) => Failure(e)
        case Success(rest) => Success(first + rest)
  }

  /** `serialize()`: the lines joined by "\n", plus the final "\n" the
      engine requires. Delete reads the index and type from the
      configuration here (see `SerializeDeleteAsWritten`). */
  function Serialize(config: Config, kind: Kind, docs: seq<Doc>): (r: Result<string, Error>)
    ensures r.Success? <==> forall i :: 0 <= i < |docs| ==> RequiredKeys(kind) <= docs[i].Keys
    ensures r.Success? ==> |r.value| > 0 && r.value[|r.value| - 1] == '\n'
  {
    SerialLinesOk(config, kind, docs);
    match SerialLines(config, kind, docs)
    case Failure(e) => Failure(e)
    case Success(lines) => Success(Join(lines, "\n") + "\n")
  }

  /** `BulkDelete.serialize` as written: the action line reads `self.index`,
      which the batch never sets, so the first document raises an
      `AttributeError` before its "_id" is looked at. */
  function SerializeDeleteAsWritten(docs: seq<Doc>): (r: Result<string, Error>)
    ensures |docs| == 0 ==> r == Success("\n")
  {
    if |docs| == 0 then Success("\n") else Failure(AttributeError("index"))
  }

  /** A delete of even one well-formed document fails as written, where the
      configuration-scoped serialiser produces its one action line. */
  lemma DeleteAsWrittenFails(config: Config, id: Value)
    ensures SerializeDeleteAsWritten([map["_id" := id]]) == Failure(AttributeError("index"))
    ensures Serialize(config, Delete, [map["_id" := id]])
      == Success(Dumps(ActionLine(config, Delete, map["_id" := id])) + "\n")
  {
    var doc: Doc := map["_id" := id];
    assert SerialLines(config, Delete, [doc][1..]) == Success([]);
  }

  /** `BulkDelete.push` as written: an empty list returns None at once;
      any other list raises in `serialize` before a request is built. The
      pair is (body posted, outcome). */
  function PushDeleteAsWritten(docs: seq<Doc>): (r: (Option<string>, Result<Pushed, Error>))
    ensures r.0 == None
    ensures r.1.Success? <==> |docs| == 0
    ensures |docs| == 0 ==> r.1 == Success(ReturnedNone)
  {
    if |docs| == 0 then (None, Success(ReturnedNone))
    else match SerializeDeleteAsWritten(docs)
      case Failure(e) => (None, Failure(e))
      case Success(_) => (None, Failure(AttributeError("http_headers")))
  }

  /** As written, every non-empty delete push posts nothing and raises on
      the unset `self.index`, whatever its documents hold. */
  lemma PushDeleteAsWrittenFails(docs: seq<Doc>)
    requires |docs| > 0
    ensures PushDeleteAsWritten(docs) == (None, Failure(AttributeError("index")))
  {
  }

  /** `BulkDelete.push` with only its serialiser corrected: the headers are
      still read from `self.http_headers`, which the batch never sets, so a
      body that serialises is never posted. */
  function PushDeleteSerializeFixed(config: Config, docs: seq<Doc>): (r: (Option<string>, Result<Pushed, Error>))
    ensures r.0 == None
    ensures |docs| == 0 ==> r.1 == Success(ReturnedNone)
    ensures |docs| > 0 && Serialize(config, Delete, docs).Failure? ==> r.1 == Failure(Serialize(config, Delete, docs).error)
    ensures |docs| > 0 && Serialize(config, Delete, docs).Success? ==> r.1 == Failure(AttributeError("http_headers"))
  {
    if |docs| == 0 then (None, Success(ReturnedNone))
    else match Serialize(config, Delete, docs)
      case Failure(e) => (None, Failure(e))
      case Success(_) => (None, Failure(AttributeError("http_headers")))
  }

  /** With the serialiser corrected, a delete of one well-formed document
      still posts nothing, where `Batch.Push`, which takes the headers from
      the configuration, posts that body. */
  lemma DeleteHeadersAsWrittenFails(config: Config, id: Value)
    ensures Serialize(config, Delete, [map["_id" := id]]).Success?
    ensures PushDeleteSerializeFixed(config, [map["_id" := id]]) == (None, Failure(AttributeError("http_headers")))
  {
    var doc: Doc := map["_id" := id];
    assert SerialLines(config, Delete, [doc][1..]) == Success([]);
  }

  /** Serialisation succeeds exactly when every document has the keys its
      batch reads. */
  lemma {:induction false} SerialLinesOk(config: Config, kind: Kind, docs: seq<Doc>)
    ensures SerialLines(config, kind, docs).Success?
        <==> forall i :: 0 <= i < |docs| ==> RequiredKeys(kind) <= docs[i].Keys
  {
    if |docs| > 0 {
      SerialLinesOk(config, kind, docs[1..]);
      assert forall i :: 1 <= i < |docs| ==> docs[1..][i - 1] == docs[i];
    }
  }

  /** When document k is the first that lacks a key, serialisation raises
      that document's `KeyError` and nothing else. */
  lemma {:induction false} SerialLinesFailsAt(config: Config, kind: Kind, docs: seq<Doc>, k: nat)
    requires k < |docs| && !(RequiredKeys(kind) <= docs[k].Keys)
    requires forall j :: 0 <= j < k ==> RequiredKeys(kind) <= docs[j].Keys
    ensures SerialLines(config, kind, docs) == Failure(DocLines(config, kind, docs[k]).error)
    ensures Serialize(config, kind, docs) == Failure(DocLines(config, kind, docs[k]).error)
  {
    if k > 0 {
      var tail := docs[1..];
      assert forall j :: 0 <= j < |tail| ==> tail[j] == docs[j + 1];
      SerialLinesFailsAt(config, kind, tail, k - 1);
    }
  }

  /** With its keys present, the first document's lines come first. */
  lemma SerialLinesCons(config: Config, kind: Kind, docs: seq<Doc>)
    requires |docs| > 0 && RequiredKeys(kind) <= docs[0].Keys
    requires SerialLines(config, kind, docs[1..]).Success?
    ensures SerialLines(config, kind, docs)
      == Success(DocLines(config, kind, docs[0]).value + SerialLines(config, kind, docs[1..]).value)
  {
  }

  /** When every document has its keys, serialisation succeeds with
      `Width` newline-free lines per document. */
  lemma {:induction false} SerialLinesShape(config: Config, kind: Kind, docs: seq<Doc>)
    requires forall i :: 0 <= i < |docs| ==> RequiredKeys(kind) <= docs[i].Keys
    ensures SerialLines(config, kind, docs).Success?
    ensures |SerialLines(config, kind, docs).value| == Width(kind) * |docs|
    ensures NewlineFree(SerialLines(config, kind, docs).value)
  {
    if |docs| > 0 {
      var tail := docs[1..];
      assert forall i :: 0 <= i < |tail| ==> tail[i] == docs[i + 1];
      SerialLinesShape(config, kind, tail);
      SerialLinesCons(config, kind, docs);
      var first := DocLines(config, kind, docs[0]).value;
      var rest := SerialLines(config, kind, tail).value;
      var lines := first + rest;
      forall i | 0 <= i < |lines|
        ensures '\n' !in lines[i]
      {
        if i >= |first| { assert lines[i] == rest[i - |first|]; }
      }
    }
  }

  /** Document i owns lines `Width*i` onwards of `lines`: its action line,
      then (except for delete) its payload line. */
  ghost predicate Owns(config: Config, kind: Kind, docs: seq<Doc>, lines: seq<string>)
  {
    && (forall i :: 0 <= i < |docs| ==> RequiredKeys(kind) <= docs[i].Keys)
    && |lines| == Width(kind) * |docs|
    && forall i :: 0 <= i < |docs| ==>
      && lines[Width(kind) * i] == Dumps(ActionLine(config, kind, docs[i]))
      && (kind != Delete ==> lines[Width(kind) * i + 1] == Dumps(PayloadLine(kind, docs[i])))
  }

  /** One more document's lines in front keep the ownership layout. */
  lemma OwnsCons(config: Config, kind: Kind, doc: Doc, tail: seq<Doc>, first: seq<string>, rest: seq<string>)
    requires RequiredKeys(kind) <= doc.Keys && |first| == Width(kind)
    requires first[0] == Dumps(ActionLine(config, kind, doc))
    requires kind != Delete ==> first[1] == Dumps(PayloadLine(kind, doc))
    requires Owns(config, kind, tail, rest)
    ensures Owns(config, kind, [doc] + tail, first + rest)
  {
    var docs := [doc] + tail;
    var lines := first + rest;
    var w := Width(kind);
    forall i | 1 <= i < |docs|
      ensures lines[w * i] == Dumps(ActionLine(config, kind, docs[i]))
      ensures kind != Delete ==> lines[w * i + 1] == Dumps(PayloadLine(kind, docs[i]))
    {
      assert docs[i] == tail[i - 1];
      assert w * i == w + w * (i - 1);
      OffsetAt(first, rest, w, i);
    }
  }

  /** Line `w*i` of `first + rest`, where `first` has `w` lines, is line
      `w*(i-1)` of `rest`. */
  lemma OffsetAt(first: seq<string>, rest: seq<string>, w: nat, i: nat)
    requires |first| == w > 0 && 1 <= i && w * i == w + w * (i - 1)
    requires w * (i - 1) + w <= |rest|
    ensures (first + rest)[w * i] == rest[w * (i - 1)]
    ensures w > 1 ==> (first + rest)[w * i + 1] == rest[w * (i - 1) + 1]
  {
  }

  /** When every document has its keys, serialisation succeeds and document
      i owns lines `Width*i` onwards of its result. */
  lemma {:induction false} SerialLinesAt(config: Config, kind: Kind, docs: seq<Doc>)
    requires forall i :: 0 <= i < |docs| ==> RequiredKeys(kind) <= docs[i].Keys
    ensures SerialLines(config, kind, docs).Success?
    ensures Owns(config, kind, docs, SerialLines(config, kind, docs).value)
  {
    SerialLinesOk(config, kind, docs);
    if |docs| > 0 {
      var tail := docs[1..];
      assert forall i :: 0 <= i < |tail| ==> tail[i] == docs[i + 1];
      SerialLinesAt(config, kind, tail);
      SerialLinesCons(config, kind, docs);
      var first := DocLines(config, kind, docs[0]).value;
      OwnsCons(config, kind, docs[0], tail, first, SerialLines(config, kind, tail).value);
      assert [docs[0]] + tail == docs;
    }
  }

  /** The wire shape of create, update and index: for N >= 1 documents the
      body splits on "\n" into 2N + 1 pieces, the last one empty; piece 2i is
      document i's action line and piece 2i + 1 its payload. */
  lemma SerializePairs(config: Config, kind: Kind, docs: seq<Doc>)
    requires kind != Delete && |docs| > 0
    ensures Serialize(config, kind, docs).Success?
        <==> forall i :: 0 <= i < |docs| ==> RequiredKeys(kind) <= docs[i].Keys
    ensures Serialize(config, kind, docs).Success? ==>
      var pieces := Split(Serialize(config, kind, docs).value);
      && |pieces| == 2 * |docs| + 1
      && pieces[2 * |docs|] == ""
      && forall i :: 0 <= i < |docs| ==>
        && pieces[2 * i] == Dumps(ActionLine(config, kind, docs[i]))
        && pieces[2 * i + 1] == Dumps(PayloadLine(kind, docs[i]))
  {
    SerialLinesOk(config, kind, docs);
    if SerialLines(config, kind, docs).Success? {
      SerialLinesShape(config, kind, docs);
      SerialLinesAt(config, kind, docs);
      SplitTerminated(SerialLines(config, kind, docs).value);
    }
  }

  /** The wire shape of delete: for N >= 1 documents the body splits into
      N action lines and one empty piece, with no payload lines. */
  lemma SerializeDeletes(config: Config, docs: seq<Doc>)
    requires |docs| > 0
    ensures Serialize(config, Delete, docs).Success?
        <==> forall i :: 0 <= i < |docs| ==> "_id" in docs[i]
    ensures Serialize(config, Delete, docs).Success? ==>
      var pieces := Split(Serialize(config, Delete, docs).value);
      && |pieces| == |docs| + 1
      && pieces[|docs|] == ""
      && forall i :: 0 <= i < |docs| ==> pieces[i] == Dumps(ActionLine(config, Delete, docs[i]))
  {
    SerialLinesOk(config, Delete, docs);
    if SerialLines(config, Delete, docs).Success? {
      SerialLinesShape(config, Delete, docs);
      SerialLinesAt(config, Delete, docs);
      SplitTerminated(SerialLines(config, Delete, docs).value);
    }
  }

  /** With no documents every batch serialises to a lone "\n". */
  lemma SerializeEmpty(config: Config, kind: Kind)
    ensures Serialize(config, kind, []) == Success("\n")
    ensures Split(Serialize(config, kind, []).value) == ["", ""]
  {
    assert SerialLines(config, kind, []) == Success([]);
    assert Join([], "\n") + "\n" == "\n";
    SplitEmptyTerminated();
  }

  /** The parsed reply of `POST /_bulk`: the batch-level `errors` flag and
      the per-item results in request order. */
  datatype BulkReply = BulkReply(errors: bool, items: seq<Value>)

  /** What a push that raises nothing returns: the batch's own document
      list (create, update, index) or None (delete). */
  datatype Pushed = ReturnedDocs | ReturnedNone

  function Returned(kind: Kind): Pushed
  {
    if kind == Delete then ReturnedNone else ReturnedDocs
  }

  function AsResult(o: Outcome<Error>, kind: Kind): Result<Pushed, Error>
  {
    match o
    case Pass => Success(Returned(kind))
    case Fail(e) => Failure(e)
  }

  /** A create reply item holds `item["create"]["_id"]` and
      `item["create"]["status"]`. */
  predicate CreateItemOk(item: Value)
  {
    Get2(item, "create", "_id").Success? && Get2(item, "create", "status").Success?
  }

  /** A document once a create reply item is written into it. */
  function Created(doc: Doc, item: Value): (r: Doc)
    requires CreateItemOk(item)
    ensures r.Keys == doc.Keys + {"_id", "status"}
    ensures r["_id"] == Get2(item, "create", "_id").value && r["status"] == Get2(item, "create", "status").value
    ensures OnlyWrites(doc, r, {"_id", "status"})
  {
    doc["_id" := Get2(item, "create", "_id").value]["status" := Get2(item, "create", "status").value]
  }

  /** `after` differs from `before` at most in the keys `written`. */
  ghost predicate OnlyWrites(before: Doc, after: Doc, written: set<string>)
  {
    forall k :: k !in written ==> (k in after <==> k in before) && (k in before ==> after[k] == before[k])
  }

  /** The documents and outcome the create loop reaches from item i on: each
      item writes "_id" and then "status" into the document at its index,
      and a malformed item raises at the first lookup that fails. */
  function CreateFrom(docs: seq<Doc>, items: seq<Value>, i: nat): (r: (seq<Doc>, Outcome<Error>))
    requires |items| == |docs| && i <= |items|
    ensures |r.0| == |docs|
    decreases |items| - i
  {
    if i == |items| then (docs, Pass)
    else match Get2(items[i], "create", "_id")
      case Failure(e) => (docs, Fail(e))
      case Success(id) =>
        var withId := docs[i := docs[i]["_id" := id]];
        match Get2(items[i], "create", "status")
        case Failure(e) => (withId, Fail(e))
        case Success(st) => CreateFrom(withId[i := withId[i]["status" := st]], items, i + 1)
  }

  /** A well-formed item moves the create loop one document on. */
  lemma CreateStep(docs: seq<Doc>, items: seq<Value>, i: nat)
    requires |items| == |docs| && i < |items| && CreateItemOk(items[i])
    ensures CreateFrom(docs, items, i) == CreateFrom(docs[i := Created(docs[i], items[i])], items, i + 1)
  {
    var id := Get2(items[i], "create", "_id").value;
    var st := Get2(items[i], "create", "status").value;
    var withId := docs[i := docs[i]["_id" := id]];
    assert withId[i := withId[i]["status" := st]] == docs[i := Created(docs[i], items[i])];
  }

  /** The create loop succeeds exactly when every item from i on is well
      formed, and then document j ends with item j's "_id" and "status"
      written into it; documents before i are not touched. */
  lemma {:induction false} CreateFromWrites(docs: seq<Doc>, items: seq<Value>, i: nat)
    requires |items| == |docs| && i <= |items|
    ensures CreateFrom(docs, items, i).1 == Pass <==> forall j :: i <= j < |items| ==> CreateItemOk(items[j])
    ensures CreateFrom(docs, items, i).1 == Pass ==>
      forall j :: 0 <= j < |docs| ==>
        CreateFrom(docs, items, i).0[j] == if j < i then docs[j] else Created(docs[j], items[j])
    decreases |items| - i
  {
    if i < |items| && CreateItemOk(items[i]) {
      CreateStep(docs, items, i);
      CreateFromWrites(docs[i := Created(docs[i], items[i])], items, i + 1);
    }
  }

  /** Whatever the outcome, the create loop changes no key of any document
      but "_id" and "status": the source payload survives. */
  lemma {:induction false} CreateFromKeepsOtherKeys(docs: seq<Doc>, items: seq<Value>, i: nat)
    requires |items| == |docs| && i <= |items|
    ensures forall j :: 0 <= j < |docs| ==> OnlyWrites(docs[j], CreateFrom(docs, items, i).0[j], {"_id", "status"})
    decreases |items| - i
  {
    if i < |items| && CreateItemOk(items[i]) {
      var next := docs[i := Created(docs[i], items[i])];
      CreateStep(docs, items, i);
      CreateFromKeepsOtherKeys(next, items, i + 1);
      forall j | 0 <= j < |docs|
        ensures OnlyWrites(docs[j], CreateFrom(docs, items, i).0[j], {"_id", "status"})
      {
        assert OnlyWrites(docs[j], next[j], {"_id", "status"});
      }
    }
  }

  /** When item k is the first malformed one, documents i..k-1 are fully
      written, document k has at most its "_id" written, and the documents
      after k are untouched. */
  lemma {:induction false} CreateFromFailsAt(docs: seq<Doc>, items: seq<Value>, i: nat, k: nat)
    requires |items| == |docs| && i <= k < |items|
    requires forall j :: i <= j < k ==> CreateItemOk(items[j])
    requires !CreateItemOk(items[k])
    ensures
      var id := Get2(items[k], "create", "_id");
      CreateFrom(docs, items, i).1 == Fail(if id.Failure? then id.error else Get2(items[k], "create", "status").error)
    ensures forall j :: 0 <= j < |docs| ==>
      var id := Get2(items[k], "create", "_id");
      CreateFrom(docs, items, i).0[j] ==
        if i <= j < k then Created(docs[j], items[j])
        else if j == k && id.Success? then docs[k]["_id" := id.value]
        else docs[j]
    decreases k - i
  {
    if i < k {
      CreateStep(docs, items, i);
      CreateFromFailsAt(docs[i := Created(docs[i], items[i])], items, i + 1, k);
    }
  }

  /** The documents and outcome the update/index loop reaches from item i
      on: item j's `[key]["status"]` becomes document j's "status". The
      value is looked up before the document, so a malformed item raises a
      lookup error and an item past the last document an `IndexError`. */
  function StatusFrom(docs: seq<Doc>, items: seq<Value>, key: string, i: nat): (r: (seq<Doc>, Outcome<Error>))
    requires i <= |items| && i <= |docs|
    ensures |r.0| == |docs|
    decreases |items| - i
  {
    if i == |items| then (docs, Pass)
    else match Get2(items[i], key, "status")
      case Failure(e) => (docs, Fail(e))
      case Success(st) =>
        if i == |docs| then (docs, Fail(IndexError))
        else StatusFrom(docs[i := docs[i]["status" := st]], items, key, i + 1)
  }

  /** The update/index loop succeeds exactly when there are no more items
      than documents and every item from i on is well formed; it then sets
      document j's "status" from item j, and leaves the documents before i
      and those without an item as they were. */
  lemma {:induction false} StatusFromWrites(docs: seq<Doc>, items: seq<Value>, key: string, i: nat)
    requires i <= |items| && i <= |docs|
    ensures StatusFrom(docs, items, key, i).1 == Pass
        <==> |items| <= |docs| && forall j :: i <= j < |items| ==> Get2(items[j], key, "status").Success?
    ensures StatusFrom(docs, items, key, i).1 == Pass ==>
      forall j :: 0 <= j < |docs| ==>
        StatusFrom(docs, items, key, i).0[j]
          == if i <= j < |items| then docs[j]["status" := Get2(items[j], key, "status").value] else docs[j]
    decreases |items| - i
  {
    if i < |items| && Get2(items[i], key, "status").Success? && i < |docs| {
      StatusFromWrites(docs[i := docs[i]["status" := Get2(items[i], key, "status").value]], items, key, i + 1);
    }
  }

  /** Whatever the outcome, documents without a reply item are untouched,
      and no key but "status" changes: the loop never writes "_id". */
  lemma {:induction false} StatusFromKeepsOtherKeys(docs: seq<Doc>, items: seq<Value>, key: string, i: nat)
    requires i <= |items| && i <= |docs|
    ensures forall j :: 0 <= j < |docs| && (j < i || |items| <= j) ==> StatusFrom(docs, items, key, i).0[j] == docs[j]
    ensures forall j :: 0 <= j < |docs| ==> OnlyWrites(docs[j], StatusFrom(docs, items, key, i).0[j], {"status"})
    decreases |items| - i
  {
    if i < |items| && Get2(items[i], key, "status").Success? && i < |docs| {
      var next := docs[i := docs[i]["status" := Get2(items[i], key, "status").value]];
      StatusFromKeepsOtherKeys(next, items, key, i + 1);
      forall j | 0 <= j < |docs|
        ensures OnlyWrites(docs[j], StatusFrom(docs, items, key, i).0[j], {"status"})
      {
        assert OnlyWrites(docs[j], next[j], {"status"});
      }
    }
  }

  /** When item k is the first whose status cannot be written, because
      `item[key]["status"]` fails or because there is no document k, the
      loop raises that lookup error or `IndexError`; documents i..k-1 have
      their "status" written and every other document is untouched. */
  lemma {:induction false} StatusFromFailsAt(docs: seq<Doc>, items: seq<Value>, key: string, i: nat, k: nat)
    requires i <= k < |items| && k <= |docs|
    requires forall j :: i <= j < k ==> Get2(items[j], key, "status").Success?
    requires Get2(items[k], key, "status").Failure? || k == |docs|
    ensures
      var st := Get2(items[k], key, "status");
      StatusFrom(docs, items, key, i).1 == Fail(if st.Failure? then st.error else IndexError)
    ensures forall j :: 0 <= j < |docs| ==>
      StatusFrom(docs, items, key, i).0[j] ==
        if i <= j < k then docs[j]["status" := Get2(items[j], key, "status").value] else docs[j]
    decreases k - i
  {
    if i < k {
      StatusFromFailsAt(docs[i := docs[i]["status" := Get2(items[i], key, "status").value]], items, key, i + 1, k);
    }
  }

  /** A bulk batch: the configuration, the batch class and the caller's own
      document list, which `push` updates in place. */
  class Batch {
    const config: Config
    const kind: Kind
    const docs: array<Doc>

    /** `BulkCreate(config, docs)` and its siblings keep the list they are
        given, not a copy. */
    constructor (config: Config, kind: Kind, docs: array<Doc>)
      ensures this.config == config && this.kind == kind && this.docs == docs
    {
      this.config := config;
      this.kind := kind;
      this.docs := docs;
    }

    /** The create loop of `push`. */
    method WriteCreated(items: seq<Value>) returns (o: Outcome<Error>)
      requires |items| == docs.Length
      modifies docs
      ensures (docs[..], o) == CreateFrom(old(docs[..]), items, 0)
    {
      var i := 0;
      while i < |items|
        invariant 0 <= i <= |items| == docs.Length
        invariant CreateFrom(docs[..], items, i) == CreateFrom(old(docs[..]), items, 0)
      {
        var id := Get2(items[i], "create", "_id");
        if id.Failure? {
          return Fail(id.error);
        }
        docs[i] := docs[i]["_id" := id.value];
        var st := Get2(items[i], "create", "status");
        if st.Failure? {
          return Fail(st.error);
        }
        docs[i] := docs[i]["status" := st.value];
        i := i + 1;
      }
      o := Pass;
    }

    /** The update/index loop of `push`. */
    method WriteStatuses(items: seq<Value>, key: string) returns (o: Outcome<Error>)
      modifies docs
      ensures (docs[..], o) == StatusFrom(old(docs[..]), items, key, 0)
    {
      var i := 0;
      while i < |items|
        invariant 0 <= i <= |items| && i <= docs.Length
        invariant StatusFrom(docs[..], items, key, i) == StatusFrom(old(docs[..]), items, key, 0)
      {
        var st := Get2(items[i], key, "status");
        if st.Failure? {
          return Fail(st.error);
        }
        if i == docs.Length {
          return Fail(IndexError);
        }
        docs[i] := docs[i]["status" := st.value];
        i := i + 1;
      }
      o := Pass;
    }

    /** `push()` given the transport status of the POST and its parsed reply.
        `posted` is the body of the one request sent, None when none is. */
    method Push(status: int, reply: BulkReply) returns (posted: Option<string>, r: Result<Pushed, Error>)
      modifies docs
      ensures docs.Length == 0 ==> posted == None && r == Success(Returned(kind)) && docs[..] == old(docs[..])
      ensures docs.Length > 0 && Serialize(config, kind, old(docs[..])).Failure? ==>
        && posted == None
        && r == Failure(Serialize(config, kind, old(docs[..])).error)
        && docs[..] == old(docs[..])
      ensures docs.Length > 0 && Serialize(config, kind, old(docs[..])).Success? ==>
        posted == Some(Serialize(config, kind, old(docs[..])).value)
      ensures posted.Some? && status != HttpOk ==>
        r == Failure(AssertionError("")) && docs[..] == old(docs[..])
      ensures posted.Some? && status == HttpOk && kind == Create ==>
        if |reply.items| != docs.Length then
          r == Failure(AssertionError("")) && docs[..] == old(docs[..])
        else
          var (out, o) := CreateFrom(old(docs[..]), reply.items, 0);
          docs[..] == out && r == AsResult(o, kind)
      ensures posted.Some? && status == HttpOk && (kind.Update? || kind == Index) ==>
        var (out, o) := StatusFrom(old(docs[..]), reply.items, ReplyKey(kind), 0);
        docs[..] == out && r == AsResult(o, kind)
      ensures posted.Some? && status == HttpOk && kind == Delete ==>
        r == Success(ReturnedNone) && docs[..] == old(docs[..])
    {
      if docs.Length == 0 {
        return None, Success(Returned(kind));
      }
      var data := Serialize(config, kind, docs[..]);
      if data.Failure? {
        return None, Failure(data.error);
      }
      posted := Some(data.value);
      if status != HttpOk {
        return posted, Failure(AssertionError(""));
      }
      // The reply's `errors` flag is only logged.
      var o: Outcome<Error>;
      match kind {
        case Delete =>
          return posted, Success(ReturnedNone);
        case Create =>
          if |reply.items| != docs.Length {
            return posted, Failure(AssertionError(""));
          }
          o := WriteCreated(reply.items);
        case Update(_) =>
          o := WriteStatuses(reply.items, ReplyKey(kind));
        case Index =>
          o := WriteStatuses(reply.items, ReplyKey(kind));
      }
      r := AsResult(o, kind);
    }
  }
}
