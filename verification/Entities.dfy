/** `Task` and its JSON document (ai4s/jobq/entities.py).

    JSON text is modelled as the `Document` it denotes, and the MD5 digest of
    the document without its id as an arbitrary function `md5`. */
module Entities {
  import opened Basics

  /** A JSON value; only equality of values matters here. */
  datatype Json = JNull | JText(text: string) | JOther(token: int)

  type Kwargs = map<string, Json>

  /** The dictionary built by `_dict_without_id`. */
  datatype Body = Body(replyRequested: bool, kwargs: Kwargs, numRetries: int)

  /** A hexadecimal MD5 digest. */
  type Digest = d: string | |d| == 32 witness "00000000000000000000000000000000"

  type Md5 = Body -> Digest

  /** The text of a message: a version 1 or 0 document, or text that
      `Task.deserialize` refuses with an exception. */
  datatype Document =
    | V1(id: string, body: Body)
    | V0(id: string, kwargs: Kwargs, numRetries: int)
    | Unreadable

  datatype Task = Task(
    kwargs: Kwargs,
    numRetries: int,
    error: Option<string>,
    replyRequested: bool,
    id: Option<string>)
  {
    function DictWithoutId(): Body {
      Body(replyRequested, kwargs, numRetries)
    }

    /** `_id`: the explicit id unless it is absent or empty. */
    function Id(md5: Md5): (r: string)
      ensures r != ""
    {
      if id.Some? && id.value != "" then id.value else md5(DictWithoutId())
    }

    function Serialize(md5: Md5): Document {
      V1(Id(md5), DictWithoutId())
    }
  }

  function Deserialize(d: Document): Option<Task> {
    match d
    case V1(id, body) => Some(Task(body.kwargs, body.numRetries, None, body.replyRequested, Some(id)))
    case V0(id, kwargs, numRetries) => Some(Task(kwargs, numRetries, None, false, Some(id)))
    case Unreadable => None
  }

  /** Serializing loses the error text and nothing else; an explicit id stays, a computed one becomes explicit. */
  lemma SerializeRoundTrip(md5: Md5, t: Task)
    ensures Deserialize(t.Serialize(md5)) == Some(t.(error := None, id := Some(t.Id(md5))))
    ensures Deserialize(t.Serialize(md5)).value.Serialize(md5) == t.Serialize(md5)
    ensures t.id.Some? && t.id.value != "" ==> Deserialize(t.Serialize(md5)).value.id == t.id
    ensures t.id.None? || t.id.value == "" ==> Deserialize(t.Serialize(md5)).value.id == Some(md5(t.DictWithoutId()))
  {
    assert t.Id(md5) != "";
  }

  /** What is read from a document is written back: a version 0 document becomes a version 1 document with
      the same id, arguments and retries that wants no reply, and nothing else is readable. */
  lemma DeserializeRoundTrip(md5: Md5, d: Document)
    ensures Deserialize(d).None? <==> d == Unreadable
    ensures d.V1? && d.id != "" ==> Deserialize(d).value.Serialize(md5) == d
    ensures d.V0? && d.id != "" ==>
              Deserialize(d).value.Serialize(md5) == V1(d.id, Body(false, d.kwargs, d.numRetries))
  {
    if d.V0? && d.id != "" {
      assert Deserialize(d).value.DictWithoutId() == Body(false, d.kwargs, d.numRetries);
    }
  }

  /** A dead-letter copy carries no trace of the error it was made for. */
  lemma ErrorIsNotSerialized(md5: Md5, t: Task, e: Option<string>)
    ensures t.(error := e).Serialize(md5) == t.Serialize(md5)
  {
    assert t.(error := e).DictWithoutId() == t.DictWithoutId();
  }

  // ---- what one delivery may change ----

  const LEAKED_KEYS: set<string> := {"_job_id", "_worker_id"}

  /** Which bookkeeping arguments the callback asks for by name. */
  datatype Signature = Signature(jobId: bool, workerId: bool)

  /** `kwargs` is the dictionary inside the task, so these assignments change the task. */
  function InjectArguments(t: Task, sig: Signature, worker: Json): Task {
    var own := if t.id.Some? then JText(t.id.value) else JNull;
    var k1 := if sig.jobId then t.kwargs["_job_id" := own] else t.kwargs;
    var k2 := if sig.workerId then k1["_worker_id" := worker] else k1;
    t.(kwargs := k2)
  }

  /** What the callback receives: its own id and the worker under the names it asks for, and every other
      argument, a bookkeeping name it does not ask for included, as it is in the message. */
  lemma CallbackArguments(t: Task, sig: Signature, worker: Json, id: string, key: string)
    requires t.id == Some(id)
    ensures var u := InjectArguments(t, sig, worker);
            && u == t.(kwargs := u.kwargs)
            && (sig.jobId ==> "_job_id" in u.kwargs && u.kwargs["_job_id"] == JText(id))
            && (sig.workerId ==> "_worker_id" in u.kwargs && u.kwargs["_worker_id"] == worker)
            && ((key == "_job_id" ==> !sig.jobId) && (key == "_worker_id" ==> !sig.workerId) ==>
                  && (key in u.kwargs <==> key in t.kwargs)
                  && (key in t.kwargs ==> u.kwargs[key] == t.kwargs[key]))
  {
    assert "_job_id" != "_worker_id";
  }

  /** What makes a document the job it is: everything but `num_retries` and the leaked arguments. */
  datatype Job = Job(kwargs: Kwargs, replyRequested: bool, id: string)

  ghost function JobOf(md5: Md5, d: Document): Option<Job> {
    match Deserialize(d)
    case Some(t) => Some(Job(t.kwargs - LEAKED_KEYS, t.replyRequested, t.Id(md5)))
    case None => None
  }

  /** Documents whose id is explicit; everything `push` stores is one. */
  ghost predicate Identified(d: Document) {
    match d
    case V1(id, _) => id != ""
    case V0(id, _, _) => id != ""
    case Unreadable => true
  }

  /** Once an id is explicit, the job survives a delivery that leaks arguments into
      `kwargs` and changes `num_retries`, although both feed the default hash. */
  lemma DeliveryKeepsJob(md5: Md5, d: Document, sig: Signature, worker: Json, retries: int)
    requires Deserialize(d).Some? && Identified(d)
    ensures var u := InjectArguments(Deserialize(d).value, sig, worker).(numRetries := retries);
            && JobOf(md5, u.Serialize(md5)) == JobOf(md5, d)
            && Identified(u.Serialize(md5))
  {
    var t := Deserialize(d).value;
    var u := InjectArguments(t, sig, worker);
    assert u.kwargs - LEAKED_KEYS == t.kwargs - LEAKED_KEYS;
    assert u.id == t.id && t.id.Some? && t.id.value != "";
  }

  /** Before the first serialization the default id does depend on `num_retries`:
      unless the two digests collide, pushes that differ only there are two jobs. */
  lemma FreshIdDependsOnRetries(md5: Md5, t: Task, retries: int)
    requires t.id.None? || t.id == Some("")
    requires md5(t.DictWithoutId()) == md5(t.(numRetries := retries).DictWithoutId())
             ==> t.DictWithoutId() == t.(numRetries := retries).DictWithoutId()
    ensures t.Id(md5) == t.(numRetries := retries).Id(md5) <==> retries == t.numRetries
  {
    assert t.(numRetries := retries).DictWithoutId() == Body(t.replyRequested, t.kwargs, retries);
  }
}
