/**
 * The data the migration pipeline passes around: the parsed export row (a
 * Python dictionary, here a map from key to a small JSON-like value), the
 * entity record the builder produces and the collector buffers, the entity
 * the target tracker reports as created, and a row of the imported-entities
 * ledger.
 */
module Values {
  import opened Common
  import Decimal

  /** A target-tracker member id (a UUID string). */
  type UserId = string

  /** A file attached to a source comment. */
  datatype Attachment = Attachment(filename: string, contentType: string)

  /**
   * One comment: `author` is the source user name ("" when the comment has
   * none), `authorId` the target member id (None when absent or null).
   */
  datatype Comment = Comment(author: string, authorId: Option<UserId>, text: string, attachments: seq<Attachment>)

  /** A story task: its title and whether the source marked it completed. */
  datatype Task = Task(description: string, complete: bool)

  /** A custom-field value of a story (the source priority). */
  datatype CustomField = CustomField(fieldId: string, valueId: Option<string>)

  /** The values a row or a payload holds under a key. */
  datatype Value =
    | Null
    | Str(str: string)
    | Num(num: int)
    | Strs(strs: seq<string>)
    | Labels(names: seq<string>)
    | Comments(comments: seq<Comment>)
    | Tasks(tasks: seq<Task>)
    | UserIds(ids: seq<Option<UserId>>)
    | CustomFields(fields: seq<CustomField>)

  /** A dictionary: a parsed row, or a payload sent to the target tracker. */
  type Row = map<string, Value>

  /** Python truthiness of a value. */
  predicate Truthy(v: Value) {
    match v
    case Null => false
    case Str(s) => s != ""
    case Num(n) => n != 0
    case Strs(xs) => xs != []
    case Labels(xs) => xs != []
    case Comments(xs) => xs != []
    case Tasks(xs) => xs != []
    case UserIds(xs) => xs != []
    case CustomFields(xs) => xs != []
  }

  /** `d.get(k)` is truthy. */
  predicate TruthyAt(d: Row, k: string) {
    k in d && Truthy(d[k])
  }

  /** `d.get(k, [])` for a list of strings. */
  function StrsAt(d: Row, k: string): seq<string> {
    if k in d && d[k].Strs? then d[k].strs else []
  }

  /** The label names under `"labels"` (`d.setdefault("labels", [])`). */
  function LabelsAt(d: Row): seq<string> {
    if "labels" in d && d["labels"].Labels? then d["labels"].names else []
  }

  /** `d.get("comments", [])`. */
  function CommentsAt(d: Row): seq<Comment> {
    if "comments" in d && d["comments"].Comments? then d["comments"].comments else []
  }

  /** The text under `k`, when it is a string. */
  function TextAt(d: Row, k: string): Option<string> {
    if k in d && d[k].Str? then Some(d[k].str) else None
  }

  /** An entity as the target tracker (or the dry-run backend) reports it created. */
  datatype Imported = Imported(id: nat, entityType: string, appUrl: string, attrs: Row)

  /**
   * The record the pipeline works on: its type, the payload, the iteration
   * key and source iteration id of a story, the parsed row, and, after the
   * backend has answered, the created entity or the error.
   */
  datatype EntityRecord = EntityRecord(
    kind: string,
    entity: Row,
    iteration: Option<string>,
    ptIterationId: Option<string>,
    parsedRow: Row,
    importedEntity: Option<Imported>,
    errorMessage: Option<string>)

  /** A fresh record of the given type and payload, with nothing else set. */
  function Record(kind: string, entity: Row): EntityRecord {
    EntityRecord(kind, entity, None, None, map[], None, None)
  }

  /** Every record has been answered for by the emitter: it carries its created entity. */
  predicate AllImported(records: seq<EntityRecord>) {
    forall i :: 0 <= i < |records| ==> records[i].importedEntity.Some?
  }

  /** One row of the imported-entities ledger (`type,id`, the id as text). */
  datatype LedgerRow = LedgerRow(kind: string, id: string)

  /** The ledger row written for a created entity: its reported type and `str(id)`. */
  function LedgerRowOf(e: Imported): LedgerRow {
    LedgerRow(e.entityType, Decimal.DecimalString(e.id))
  }

  /** Ledger rows of distinct entities (type and id) are distinct. */
  lemma LedgerRowOfInjective(a: Imported, b: Imported)
    requires LedgerRowOf(a) == LedgerRowOf(b)
    ensures a.entityType == b.entityType && a.id == b.id
  {
    Decimal.DecimalStringInjective(a.id, b.id);
  }
}
