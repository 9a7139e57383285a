/** The document controller's own logic: the deep-understanding flags written
    into each listed document's `meta`, the attribute projection and content
    truncation of `filter_documents_by_conditions`, and the parameter
    defaults of `show_by_tag_and_content`. */
module DocumentsController {
  import opened JsonValues
  import opened ApiController

  type Params = map<string, Json>

  // ---------------------------------------------------------------- deep understanding

  /** The five keys `deep_understanding` writes. */
  const FlagKeys: set<string> :=
    {"needs_deep_understanding", "needs_approval", "is_deep_understanding", "is_approved", "form_schema_id"}

  /** The five flags, with the request's `needs_approval` and `form_schema_id`
      (a nil `form_schema_id` is kept as a key with a nil value). */
  function DeepFlags(needsApproval: Json, formSchemaId: Json): (r: map<string, Json>)
    ensures r.Keys == FlagKeys
  {
    map["needs_deep_understanding" := JBool(true), "needs_approval" := needsApproval,
        "is_deep_understanding" := JBool(false), "is_approved" := JBool(false),
        "form_schema_id" := formSchemaId]
  }

  /** Meta the flags can be written into: a blank meta is replaced, a hash is
      patched key by key. Any other value raises on the first `[]=` (a number
      or true has no `[]=`, an array wants an integer index, and a string
      either does not contain the key or refuses `true` as a replacement). */
  predicate Patchable(meta: Json)
  {
    Blank(meta) || meta.JObj?
  }

  /** One document's meta after `deep_understanding`: exactly the five flags
      when it was blank; otherwise the five flags overwrite their keys and
      every other key keeps its value. Meta that cannot be patched is
      returned as it was (the action raises there). */
  function DeepMeta(meta: Json, needsApproval: Json, formSchemaId: Json): (r: Json)
    ensures Blank(meta) ==> r == JObj(DeepFlags(needsApproval, formSchemaId))
    ensures Patchable(meta) ==> r.JObj? && Present(r)
    ensures Patchable(meta) ==> forall k :: k in FlagKeys ==> k in r.fields && r.fields[k] == DeepFlags(needsApproval, formSchemaId)[k]
    ensures meta.JObj? && Present(meta) ==> r.fields.Keys == meta.fields.Keys + FlagKeys
    ensures meta.JObj? && Present(meta) ==> forall k :: k in meta.fields && k !in FlagKeys ==> r.fields[k] == meta.fields[k]
    ensures !Patchable(meta) ==> r == meta
  {
    var flags := DeepFlags(needsApproval, formSchemaId);
    assert "is_approved" in flags;
    if Blank(meta) then JObj(flags)
    else if meta.JObj? then JObj(meta.fields + flags)
    else meta
  }

  /** Running `deep_understanding` again with the same parameters leaves
      every document's meta as the first run left it. */
  lemma DeepMetaIdempotent(meta: Json, needsApproval: Json, formSchemaId: Json)
    ensures DeepMeta(DeepMeta(meta, needsApproval, formSchemaId), needsApproval, formSchemaId)
         == DeepMeta(meta, needsApproval, formSchemaId)
  {
    var flags := DeepFlags(needsApproval, formSchemaId);
    var once := DeepMeta(meta, needsApproval, formSchemaId);
    if Patchable(meta) {
      assert once.fields + flags == once.fields;
    }
  }

  /** `params[:needs_approval] || false`. */
  function NeedsApproval(params: Params): (r: Json)
    ensures Truthy(Get(params, "needs_approval")) ==> r == params["needs_approval"]
    ensures !Truthy(Get(params, "needs_approval")) ==> r == JBool(false)
  {
    Or(Get(params, "needs_approval"), JBool(false))
  }

  /** `params[:document_items] || []`, as something `each` can walk: none when
      a truthy value that is not an array is given. */
  function DocumentItems(params: Params): (r: Option<seq<Json>>)
    ensures !Truthy(Get(params, "document_items")) ==> r == Some([])
    ensures Get(params, "document_items").JArr? ==> r == Some(params["document_items"].items)
    ensures r.None? <==> Truthy(Get(params, "document_items")) && !Get(params, "document_items").JArr?
  {
    var given := Get(params, "document_items");
    if !Truthy(given) then Some([])
    else if given.JArr? then Some(given.items)
    else None
  }

  /** The exception `Document.find` raises for an unknown id. */
  function NotFound(item: Json): Exception
  {
    Exception(if item.JStr? then "Couldn't find Document with 'id'=" + item.s else "Couldn't find Document")
  }

  /** The exception the first `meta[...] =` raises on meta that is not a hash. */
  function MetaNotHash(meta: Json): Exception
  {
    Exception(match meta
              case JArr(_) => "no implicit conversion of String into Integer"
              case JStr(_) => "string not matched"
              case _ => "undefined method `[]='")
  }

  /** `each` on a truthy `document_items` that is not an array. */
  const NoEach: Exception := Exception("undefined method `each'")

  /** A second `render` in one request. */
  const DoubleRender: Exception := Exception("Render and/or redirect were called multiple times in this action.")

  /** `:unprocessable_entity`. */
  const UnprocessableEntity: int := 422

  /** The body the guard renders for an item that is not a document. */
  function NotADocumentBody(item: Json): (r: Body)
    ensures r.Keys == {"success", "error"} && r["success"] == JBool(false)
    ensures item.JStr? ==> r["error"] == JStr("Document " + item.s + " is not a document")
  {
    map["success" := JBool(false),
        "error" := JStr("Document " + (if item.JStr? then item.s else "") + " is not a document")]
  }

  // ---------------------------------------------------------------- the guard

  /** How the walk of `checkDocumentItemsIsDocument` over the items ends:
      every item is a document; an unknown id raised; exactly one 422 was
      rendered; or a second failing item came after a 422 had been
      rendered, which raises a double render. */
  datatype Screening = Pass | Missing(item: Json) | NotADocument(item: Json) | RenderedTwice

  /** An item the guard objects to: no such document, or a document whose
      `is_document` is false. `kinds` maps each id to `is_document`. */
  predicate Rejected(kinds: map<Json, bool>, item: Json)
  {
    item !in kinds || !kinds[item]
  }

  predicate AllAccepted(items: seq<Json>, kinds: map<Json, bool>)
  {
    forall i :: 0 <= i < |items| ==> !Rejected(kinds, items[i])
  }

  /** The guard's walk from some item on; `rendered` is the item whose 422
      has already been rendered, if any. */
  function ScreenFrom(items: seq<Json>, kinds: map<Json, bool>, rendered: Option<Json>): Screening
    decreases |items|
  {
    if items == [] then (if rendered.None? then Pass else NotADocument(rendered.value))
    else if items[0] !in kinds then (if rendered.None? then Missing(items[0]) else RenderedTwice)
    else if !kinds[items[0]] then
      (if rendered.None? then ScreenFrom(items[1..], kinds, Some(items[0])) else RenderedTwice)
    else ScreenFrom(items[1..], kinds, rendered)
  }

  lemma AllAcceptedCons(items: seq<Json>, kinds: map<Json, bool>)
    requires items != []
    ensures AllAccepted(items, kinds) <==> !Rejected(kinds, items[0]) && AllAccepted(items[1..], kinds)
  {
    if !Rejected(kinds, items[0]) && AllAccepted(items[1..], kinds) {
      forall i | 0 <= i < |items|
        ensures !Rejected(kinds, items[i])
      {
        if i > 0 {
          assert items[i] == items[1..][i - 1];
        }
      }
    }
  }

  /** The guard's walk passes iff every item names a document that is a
      document; once a 422 has been rendered it ends in that 422 iff every
      remaining item is accepted, and in a double render otherwise. */
  lemma {:induction false} ScreenPasses(items: seq<Json>, kinds: map<Json, bool>, rendered: Option<Json>)
    ensures ScreenFrom(items, kinds, rendered).Pass? <==> rendered.None? && AllAccepted(items, kinds)
    ensures rendered.Some? ==>
              ScreenFrom(items, kinds, rendered)
              == if AllAccepted(items, kinds) then NotADocument(rendered.value) else RenderedTwice
    decreases |items|
  {
    if items != [] {
      AllAcceptedCons(items, kinds);
      if items[0] in kinds {
        ScreenPasses(items[1..], kinds, if kinds[items[0]] then rendered else Some(items[0]));
      }
    }
  }

  /** An unknown id raises only when every item before it was accepted. */
  lemma {:induction false} ScreenMissing(items: seq<Json>, kinds: map<Json, bool>)
    requires ScreenFrom(items, kinds, None).Missing?
    ensures exists k :: 0 <= k < |items| && items[k] == ScreenFrom(items, kinds, None).item
                     && items[k] !in kinds && AllAccepted(items[..k], kinds)
    decreases |items|
  {
    var rest := items[1..];
    if items[0] !in kinds {
      assert items[..0] == [];
    } else if kinds[items[0]] {
      ScreenMissing(rest, kinds);
      var k :| 0 <= k < |rest| && rest[k] == ScreenFrom(rest, kinds, None).item
               && rest[k] !in kinds && AllAccepted(rest[..k], kinds);
      assert items[k + 1] == rest[k];
      assert items[..k + 1][1..] == rest[..k];
      AllAcceptedCons(items[..k + 1], kinds);
    } else {
      ScreenPasses(rest, kinds, Some(items[0]));
    }
  }

  /** A 422 is rendered for exactly one rejected item: it names a document
      that is not a document, and every other item is accepted. */
  lemma {:induction false} ScreenNotADocument(items: seq<Json>, kinds: map<Json, bool>)
    requires ScreenFrom(items, kinds, None).NotADocument?
    ensures exists k :: 0 <= k < |items| && items[k] == ScreenFrom(items, kinds, None).item
                     && items[k] in kinds && !kinds[items[k]]
                     && AllAccepted(items[..k], kinds) && AllAccepted(items[k + 1..], kinds)
    decreases |items|
  {
    var rest := items[1..];
    assert items[0] in kinds;
    if !kinds[items[0]] {
      ScreenPasses(rest, kinds, Some(items[0]));
      assert items[..0] == [];
    } else {
      ScreenNotADocument(rest, kinds);
      var k :| 0 <= k < |rest| && rest[k] == ScreenFrom(rest, kinds, None).item
               && rest[k] in kinds && !kinds[rest[k]]
               && AllAccepted(rest[..k], kinds) && AllAccepted(rest[k + 1..], kinds);
      assert items[k + 1] == rest[k];
      assert items[..k + 1][1..] == rest[..k];
      assert items[k + 2..] == rest[k + 1..];
      AllAcceptedCons(items[..k + 1], kinds);
    }
  }

  /** A double render needs two rejected items. */
  lemma {:induction false} ScreenRenderedTwice(items: seq<Json>, kinds: map<Json, bool>)
    requires ScreenFrom(items, kinds, None).RenderedTwice?
    ensures exists i, j :: 0 <= i < j < |items| && Rejected(kinds, items[i]) && Rejected(kinds, items[j])
    decreases |items|
  {
    var rest := items[1..];
    assert items[0] in kinds;
    if !kinds[items[0]] {
      ScreenPasses(rest, kinds, Some(items[0]));
      var j :| 0 <= j < |rest| && Rejected(kinds, rest[j]);
      assert Rejected(kinds, items[j + 1]);
    } else {
      ScreenRenderedTwice(rest, kinds);
      var i, j :| 0 <= i < j < |rest| && Rejected(kinds, rest[i]) && Rejected(kinds, rest[j]);
      assert items[i + 1] == rest[i] && items[j + 1] == rest[j];
    }
  }

  /** How `checkDocumentItemsIsDocument` ends the request, if it does: none
      when the action may run. */
  function GuardOutcome(kinds: map<Json, bool>, params: Params): (r: Option<Outcome>)
    ensures r.None? <==> DocumentItems(params).Some? && AllAccepted(DocumentItems(params).value, kinds)
    ensures r.Some? ==> !r.value.Rendered?
    ensures r.Some? && r.value.Halted? ==>
              r.value.httpStatus == UnprocessableEntity && "success" in r.value.body && r.value.body["success"] == JBool(false)
  {
    match DocumentItems(params)
    case None => Some(Raised(NoEach))
    case Some(items) =>
      ScreenPasses(items, kinds, None);
      match ScreenFrom(items, kinds, None)
      case Pass => None
      case Missing(item) => Some(Raised(NotFound(item)))
      case NotADocument(item) => Some(Halted(NotADocumentBody(item), UnprocessableEntity))
      case RenderedTwice => Some(Raised(DoubleRender))
  }

  // ---------------------------------------------------------------- the action

  /** Does the item stop the action's walk: no such document, or meta that
      cannot be patched? */
  predicate StopsAt(metas: map<Json, Json>, item: Json)
  {
    item !in metas || !Patchable(metas[item])
  }

  /** Where the walk over the items stops: the first item that fails, or the
      end of the list. */
  function Stop(items: seq<Json>, metas: map<Json, Json>): (k: nat)
    ensures k <= |items|
    ensures forall j :: 0 <= j < k ==> !StopsAt(metas, items[j])
    ensures k < |items| ==> StopsAt(metas, items[k])
    decreases |items|
  {
    if items == [] || StopsAt(metas, items[0]) then 0
    else 1 + Stop(items[1..], metas)
  }

  /** What the action's walk over the items answers, given the documents'
      metas before it: `{success: true}` exactly when every item is
      processed, else the exception of the first failing item. */
  function WalkOutcome(metas: map<Json, Json>, items: seq<Json>): (r: Outcome)
    ensures r.Rendered? <==> Stop(items, metas) == |items|
    ensures r.Rendered? ==> r.body == map["success" := JBool(true)]
    ensures !r.Halted?
  {
    var k := Stop(items, metas);
    if k == |items| then Rendered(map["success" := JBool(true)])
    else if items[k] !in metas then Raised(NotFound(items[k]))
    else Raised(MetaNotHash(metas[items[k]]))
  }

  /** What a `deep_understanding` request ends with, given the documents'
      metas and `is_document` flags before it: the guard's answer when it
      halts, else the answer of the action's walk. */
  function DeepUnderstandingOutcome(metas: map<Json, Json>, kinds: map<Json, bool>, params: Params): (r: Outcome)
    ensures GuardOutcome(kinds, params).Some? ==> r == GuardOutcome(kinds, params).value
    ensures GuardOutcome(kinds, params).None? ==>
              (r.Rendered? <==> Stop(DocumentItems(params).value, metas) == |DocumentItems(params).value|)
    ensures r.Rendered? ==> r.body == map["success" := JBool(true)]
    ensures DocumentItems(params).None? || !AllAccepted(DocumentItems(params).value, kinds) ==> !r.Rendered?
  {
    match GuardOutcome(kinds, params)
    case Some(halt) => halt
    case None => WalkOutcome(metas, DocumentItems(params).value)
  }

  /** The walk stops where the first failing item is, and the answer is
      chosen by that item. */
  lemma OutcomeAtStop(metas: map<Json, Json>, items: seq<Json>, k: nat)
    requires k <= |items|
    requires forall j :: 0 <= j < k ==> !StopsAt(metas, items[j])
    requires k < |items| ==> StopsAt(metas, items[k])
    ensures Stop(items, metas) == k
    ensures WalkOutcome(metas, items)
            == if k == |items| then Rendered(map["success" := JBool(true)])
               else if items[k] !in metas then Raised(NotFound(items[k]))
               else Raised(MetaNotHash(metas[items[k]]))
  {
  }

  /** A Document row: its `meta` column is rewritten here, and its
      `is_document` column is what the guard checks. */
  class Document {
    var meta: Json
    const isDocument: bool

    constructor (meta: Json, isDocument: bool)
      ensures this.meta == meta && this.isDocument == isDocument
    {
      this.meta := meta;
      this.isDocument := isDocument;
    }
  }

  /** The documents' metas by id, as `Document.find` reaches them. */
  function Metas(docs: map<Json, Document>): (r: map<Json, Json>)
    reads set d | d in docs.Values
    ensures r.Keys == docs.Keys
    ensures forall id :: id in docs ==> r[id] == docs[id].meta
  {
    map id | id in docs :: docs[id].meta
  }

  /** The documents' `is_document` flags by id. */
  function Kinds(docs: map<Json, Document>): (r: map<Json, bool>)
    ensures r.Keys == docs.Keys
    ensures forall id :: id in docs ==> r[id] == docs[id].isDocument
  {
    map id | id in docs :: docs[id].isDocument
  }

  /** Was the document reached by one of the first `k` items? */
  ghost predicate Reached(docs: map<Json, Document>, items: seq<Json>, k: nat, d: Document)
  {
    exists j :: 0 <= j < k && j < |items| && items[j] in docs && docs[items[j]] == d
  }

  /** `checkDocumentItemsIsDocument`, the `before_action` of
      `deep_understanding`: finds every item's document, renders a 422 for
      one that is not a document, and changes nothing. */
  method CheckDocumentItemsIsDocument(docs: map<Json, Document>, params: Params) returns (halt: Option<Outcome>)
    ensures halt == GuardOutcome(Kinds(docs), params)
  {
    var documentItems := DocumentItems(params);
    if documentItems.None? {
      return Some(Raised(NoEach));
    }
    var items := documentItems.value;
    ghost var kinds := Kinds(docs);
    var rendered: Option<Json> := None;
    var i := 0;
    while i < |items|
      invariant 0 <= i <= |items|
      invariant ScreenFrom(items[i..], kinds, rendered) == ScreenFrom(items, kinds, None)
    {
      var item := items[i];
      assert items[i..][1..] == items[i + 1..];
      if item !in docs {
        if rendered.None? {
          return Some(Raised(NotFound(item)));
        }
        return Some(Raised(DoubleRender));
      }
      if !docs[item].isDocument {
        if rendered.Some? {
          return Some(Raised(DoubleRender));
        }
        rendered := Some(item);
      }
      i := i + 1;
    }
    if rendered.Some? {
      return Some(Halted(NotADocumentBody(rendered.value), UnprocessableEntity));
    }
    return None;
  }

  /** `deep_understanding` behind its guard: when the guard halts, nothing is
      written and its answer stands; otherwise the action runs. */
  method DeepUnderstanding(docs: map<Json, Document>, params: Params) returns (outcome: Outcome)
    modifies set d | d in docs.Values
    ensures outcome == DeepUnderstandingOutcome(old(Metas(docs)), Kinds(docs), params)
    ensures GuardOutcome(Kinds(docs), params).Some? ==> forall id :: id in docs ==> docs[id].meta == old(docs[id].meta)
    ensures GuardOutcome(Kinds(docs), params).None? ==>
              var items := DocumentItems(params).value;
              var k := Stop(items, old(Metas(docs)));
              forall id :: id in docs ==>
                docs[id].meta == if Reached(docs, items, k, docs[id])
                                 then DeepMeta(old(docs[id].meta), NeedsApproval(params), Get(params, "form_schema_id"))
                                 else old(docs[id].meta)
  {
    var halt := CheckDocumentItemsIsDocument(docs, params);
    if halt.Some? {
      return halt.value;
    }
    outcome := WriteFlags(docs, DocumentItems(params).value, NeedsApproval(params), Get(params, "form_schema_id"));
  }

  /** The action itself, once the guard let it run: walks the items in
      order, writing the five flags into each document's meta and saving
      it. Meta that is not a hash raises there, and the documents reached
      before stay updated. A document listed twice ends as if listed once. */
  method WriteFlags(docs: map<Json, Document>, items: seq<Json>, needsApproval: Json, formSchemaId: Json)
    returns (outcome: Outcome)
    requires forall i :: 0 <= i < |items| ==> items[i] in docs
    modifies set d | d in docs.Values
    ensures outcome == WalkOutcome(old(Metas(docs)), items)
    ensures var k := Stop(items, old(Metas(docs)));
            forall id :: id in docs ==>
              docs[id].meta == if Reached(docs, items, k, docs[id])
                               then DeepMeta(old(docs[id].meta), needsApproval, formSchemaId)
                               else old(docs[id].meta)
  {
    ghost var before := Metas(docs);
    var i := 0;
    while i < |items|
      invariant 0 <= i <= Stop(items, before)
      invariant forall id :: id in docs ==>
                  docs[id].meta == if Reached(docs, items, i, docs[id])
                                   then DeepMeta(before[id], needsApproval, formSchemaId)
                                   else before[id]
    {
      var item := items[i];
      var document := docs[item];
      if !Patchable(document.meta) {
        assert !Reached(docs, items, i, document);
        OutcomeAtStop(before, items, i);
        return Raised(MetaNotHash(document.meta));
      }
      document.meta := DeepMeta(document.meta, needsApproval, formSchemaId);
      DeepMetaIdempotent(before[item], needsApproval, formSchemaId);
      forall id | id in docs
        ensures docs[id].meta == if Reached(docs, items, i + 1, docs[id])
                                 then DeepMeta(before[id], needsApproval, formSchemaId)
                                 else before[id]
      {
        if docs[id] == document {
          assert Reached(docs, items, i + 1, docs[id]);
        } else {
          assert Reached(docs, items, i + 1, docs[id]) == Reached(docs, items, i, docs[id]);
        }
      }
      i := i + 1;
    }
    OutcomeAtStop(before, items, i);
    outcome := Rendered(map["success" := JBool(true)]);
  }

  // ---------------------------------------------------------------- projection

  /** Is there no whitespace in the word? */
  predicate NoSpace(w: string)
  {
    forall i :: 0 <= i < |w| ==> !IsSpace(w[i])
  }

  /** The length of the leading run of non-whitespace. */
  function SpanLength(s: string): (n: nat)
    ensures n <= |s|
    ensures forall i :: 0 <= i < n ==> !IsSpace(s[i])
    ensures n < |s| ==> IsSpace(s[n])
  {
    if s == [] || IsSpace(s[0]) then 0 else 1 + SpanLength(s[1..])
  }

  /** `String#split(' ')`: the maximal runs of non-whitespace, in order;
      leading, trailing and repeated whitespace yield no empty words. */
  function Words(s: string): (r: seq<string>)
    ensures forall i :: 0 <= i < |r| ==> r[i] != [] && NoSpace(r[i])
    decreases |s|
  {
    if s == [] then []
    else if IsSpace(s[0]) then Words(s[1..])
    else
      var n := SpanLength(s);
      [s[..n]] + Words(s[n..])
  }

  /** The words joined back with single spaces. */
  function JoinWords(ws: seq<string>): string
  {
    if ws == [] then ""
    else if |ws| == 1 then ws[0]
    else ws[0] + " " + JoinWords(ws[1..])
  }

  lemma {:induction false} SpanOfWord(w: string, t: string)
    requires NoSpace(w)
    requires t == [] || IsSpace(t[0])
    ensures SpanLength(w + t) == |w|
    decreases |w|
  {
    if w != [] {
      assert (w + t)[1..] == w[1..] + t;
      SpanOfWord(w[1..], t);
    }
  }

  lemma WordThenRest(w: string, t: string)
    requires w != [] && NoSpace(w)
    requires t == [] || IsSpace(t[0])
    ensures Words(w + t) == [w] + Words(t)
  {
    SpanOfWord(w, t);
    assert (w + t)[..|w|] == w;
    assert (w + t)[|w|..] == t;
  }

  /** Splitting undoes joining: a list of non-empty words without whitespace
      comes back unchanged from `split(' ')`. */
  lemma {:induction false} WordsOfJoin(ws: seq<string>)
    requires forall i :: 0 <= i < |ws| ==> ws[i] != [] && NoSpace(ws[i])
    ensures Words(JoinWords(ws)) == ws
    decreases |ws|
  {
    if |ws| == 1 {
      WordThenRest(ws[0], []);
      assert ws[0] + [] == ws[0];
    } else if |ws| > 1 {
      var rest := JoinWords(ws[1..]);
      WordsOfJoin(ws[1..]);
      WordThenRest(ws[0], " " + rest);
      assert ws[0] + " " + rest == ws[0] + (" " + rest);
      assert (" " + rest)[1..] == rest;
      assert ws == [ws[0]] + ws[1..];
    }
  }

  /** Array difference `a - b`: the elements of `a` not in `b`, in order and
      with their multiplicity. */
  function Subtract(a: seq<string>, b: seq<string>): (r: seq<string>)
    ensures forall x :: x in r <==> x in a && x !in b
    ensures forall x :: multiset(r)[x] == if x in b then 0 else multiset(a)[x]
    ensures |r| <= |a|
  {
    if a == [] then []
    else
      assert a == [a[0]] + a[1..];
      (if a[0] in b then [] else [a[0]]) + Subtract(a[1..], b)
  }

  /** The except list `filter_documents_by_conditions` uses by default. */
  const DefaultExceptFields: string := "label_list"

  /** The columns `show_by_tag_and_content` hides. */
  const TagAndContentExcepts: seq<string> :=
    ["label_list", "folder_id", "user", "labels", "meta", "updated_at", "approval_status", "approval_user_id",
     "approval_at", "upload_local_path", "is_classified", "status", "is_classifier_trained", "is_embedded",
     "error_message", "retry_count"]

  /** The except list `show_by_tag_and_content` passes: those columns,
      separated by single spaces. */
  const TagAndContentExceptFields: string := JoinWords(TagAndContentExcepts)

  /** The default except list is the single word `label_list`. */
  lemma DefaultExceptIsLabelList()
    ensures Words(DefaultExceptFields) == ["label_list"]
  {
    var w := "label_list";
    assert NoSpace(w);
    assert JoinWords([w]) == w;
    WordsOfJoin([w]);
  }

  /** Each of the sixteen names is a non-empty word without whitespace. */
  lemma ExceptWordsA()
    ensures forall i :: 0 <= i < 6 ==> TagAndContentExcepts[i] != [] && NoSpace(TagAndContentExcepts[i])
  {
  }

  lemma ExceptWordsB()
    ensures forall i :: 6 <= i < 11 ==> TagAndContentExcepts[i] != [] && NoSpace(TagAndContentExcepts[i])
  {
  }

  lemma ExceptWordsC()
    ensures forall i :: 11 <= i < |TagAndContentExcepts| ==> TagAndContentExcepts[i] != [] && NoSpace(TagAndContentExcepts[i])
  {
  }

  /** The except list of `show_by_tag_and_content` splits into its sixteen
      column names. */
  lemma TagAndContentExceptWords()
    ensures Words(TagAndContentExceptFields) == TagAndContentExcepts
  {
    ExceptWordsA();
    ExceptWordsB();
    ExceptWordsC();
    WordsOfJoin(TagAndContentExcepts);
  }

  const TruncateLength: nat := 500
  const Omission: string := "..."

  /** `String#truncate(500)`: a longer string keeps its first 497 characters
      and ends in "...", 500 characters in all. */
  function Truncate(s: string): (r: string)
    ensures |r| <= TruncateLength
    ensures |s| <= TruncateLength ==> r == s
    ensures |s| > TruncateLength ==>
              |r| == TruncateLength && r[..TruncateLength - |Omission|] == s[..TruncateLength - |Omission|]
              && r[TruncateLength - |Omission|..] == Omission
  {
    if |s| <= TruncateLength then s
    else
      var kept := s[..TruncateLength - |Omission|];
      assert (kept + Omission)[..|kept|] == kept;
      kept + Omission
  }

  /** One document as `filter_documents_by_conditions` returns it: the
      attributes named in `attributeNames` but not in the except list, with
      a truthy string content truncated. */
  function DocumentJson(row: map<string, Json>, attributeNames: seq<string>, exceptFields: string): (r: map<string, Json>)
    ensures forall k :: k in r <==> k in row && k in attributeNames && k !in Words(exceptFields)
    ensures forall k :: k in r && k != "content" ==> r[k] == row[k]
    ensures "content" in r && row["content"].JStr? ==> r["content"] == JStr(Truncate(row["content"].s))
    ensures "content" in r && !row["content"].JStr? ==> r["content"] == row["content"]
  {
    var selected := Subtract(attributeNames, Words(exceptFields));
    var projected := map k | k in row && k in selected :: row[k];
    var content := Get(projected, "content");
    if Truthy(content) && content.JStr? then projected["content" := JStr(Truncate(content.s))]
    else projected
  }

  /** Every document of the page, in the order the query gave them. */
  function FilterDocuments(rows: seq<map<string, Json>>, attributeNames: seq<string>, exceptFields: string): (r: seq<map<string, Json>>)
    ensures |r| == |rows|
    ensures forall i :: 0 <= i < |r| ==> r[i].Keys <= rows[i].Keys
    ensures forall i :: 0 <= i < |r| ==> "content" in r[i] && r[i]["content"].JStr? ==> |r[i]["content"].s| <= TruncateLength
    ensures forall i :: 0 <= i < |r| ==> forall k :: k in Words(exceptFields) ==> k !in r[i]
  {
    seq(|rows|, i requires 0 <= i < |rows| => DocumentJson(rows[i], attributeNames, exceptFields))
  }

  /** With the default except list, no document shows `label_list`. */
  lemma DefaultHidesLabelList(rows: seq<map<string, Json>>, attributeNames: seq<string>)
    ensures forall i :: 0 <= i < |rows| ==> "label_list" !in FilterDocuments(rows, attributeNames, DefaultExceptFields)[i]
  {
    DefaultExceptIsLabelList();
  }

  /** `show_by_tag_and_content` shows none of the sixteen hidden columns. */
  lemma TagAndContentHides(rows: seq<map<string, Json>>, attributeNames: seq<string>)
    ensures forall i, k :: 0 <= i < |rows| && k in TagAndContentExcepts ==>
              k !in FilterDocuments(rows, attributeNames, TagAndContentExceptFields)[i]
  {
    TagAndContentExceptWords();
  }

  // ---------------------------------------------------------------- search window

  /** What `show_by_tag_and_content` queries with. `folderFilter` is none when
      no folder condition is added. */
  datatype Search = Search(content: Json, from: string, to: string, folderFilter: Option<seq<Json>>)

  /** A computation that may raise. */
  datatype Attempt<T> = Done(value: T) | Fails(exception: Exception)

  const Epoch: string := "1970-01-01"

  /** `Kernel#Array`: nil is empty, an array is itself, anything else is
      wrapped. */
  function ArrayOf(j: Json): (r: seq<Json>)
    ensures j == JNull ==> r == []
    ensures j.JArr? ==> r == j.items
    ensures j != JNull && !j.JArr? ==> r == [j]
  {
    match j
    case JNull => []
    case JArr(a) => a
    case _ => [j]
  }

  /** `x == '' ? default : x` followed by `.to_date`: only a string can be
      read as a date, so nil (an absent bound) raises. */
  function DateBound(j: Json, default: string): (r: Attempt<string>)
    ensures j == JStr("") ==> r == Done(default)
    ensures j.JStr? && j.s != "" ==> r == Done(j.s)
    ensures r.Fails? <==> !j.JStr?
  {
    if j == JStr("") then Done(default)
    else if j.JStr? then Done(j.s)
    else Fails(Exception("undefined method `to_date'"))
  }

  /** The parameters of `show_by_tag_and_content` after defaulting: content
      `|| ''`, an empty `from` is the epoch, an empty `to` is tomorrow, and the
      folder condition is added only for a non-empty `Array(folder_ids)`. */
  function SearchWindow(params: Params, tomorrow: string): (r: Attempt<Search>)
    ensures r.Done? <==> Get(params, "from").JStr? && Get(params, "to").JStr?
    ensures r.Done? ==> r.value.content == Or(Get(params, "content"), JStr(""))
    ensures r.Done? && Get(params, "from") == JStr("") ==> r.value.from == Epoch
    ensures r.Done? && Get(params, "from") != JStr("") ==> r.value.from == Get(params, "from").s
    ensures r.Done? && Get(params, "to") == JStr("") ==> r.value.to == tomorrow
    ensures r.Done? && Get(params, "to") != JStr("") ==> r.value.to == Get(params, "to").s
    ensures r.Done? ==> (r.value.folderFilter.Some? <==> ArrayOf(Get(params, "folder_ids")) != [])
    ensures r.Done? && r.value.folderFilter.Some? ==> r.value.folderFilter.value == ArrayOf(Get(params, "folder_ids"))
  {
    var content := Or(Get(params, "content"), JStr(""));
    var folderIds := ArrayOf(Get(params, "folder_ids"));
    match DateBound(Get(params, "from"), Epoch)
    case Fails(e) => Fails(e)
    case Done(from) =>
      match DateBound(Get(params, "to"), tomorrow)
      case Fails(e) => Fails(e)
      case Done(to) => Done(Search(content, from, to, if folderIds == [] then None else Some(folderIds)))
  }
}
