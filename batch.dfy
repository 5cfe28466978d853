/**
 One reconciliation run as seen from the records: the `data` array is read
 from the envelope, and each record is normalised and merged in order; the
 first exception ends the run.
 */
module Batch {
  import opened Wrappers
  import opened Py

  /**
   `data.get("data", [])` iterated by `for p in ...`: a list yields its items;
   an empty string or dict yields nothing, a non-empty one yields strings whose
   `.get` raises; `None`, booleans and numbers are not iterable; an envelope
   that is not a dict has no `.get`.
   */
  function Envelope(envelope: Json): (r: Result<seq<Json>, PyError>)
    ensures envelope.Obj? && "data" !in envelope.fields ==> r == Ok([])
    ensures r.Ok? && r.value != [] ==> envelope.Obj? && "data" in envelope.fields && envelope.fields["data"] == Arr(r.value)
    ensures !envelope.Obj? ==> r == Err(AttributeError)
    ensures envelope.Obj? && "data" in envelope.fields && envelope.fields["data"].Arr? ==>
      r == Ok(envelope.fields["data"].items)
    ensures envelope.Obj? && "data" in envelope.fields && envelope.fields["data"].Str? ==>
      r == if envelope.fields["data"].s == "" then Ok([]) else Err(AttributeError)
    ensures envelope.Obj? && "data" in envelope.fields && envelope.fields["data"].Obj? ==>
      r == if envelope.fields["data"].fields == map[] then Ok([]) else Err(AttributeError)
    ensures envelope.Obj? && "data" in envelope.fields ==>
      var d := envelope.fields["data"];
      d.Null? || d.Bool? || d.Int? ==> r == Err(TypeError)
  {
    match envelope
    case Obj(m) =>
      (match GetOr(m, "data", Arr([]))
       case Arr(items) => Ok(items)
       case Str(s) => if s == "" then Ok([]) else Err(AttributeError)
       case Obj(d) => if d == map[] then Ok([]) else Err(AttributeError)
       case _ => Err(TypeError))
    case _ => Err(AttributeError)
  }

  /**
   An exception raised while a record is read and its row built. A NOT NULL
   violation is not one: the row is built and merged, and the store refuses it
   only when the session next flushes.
   */
  predicate Immediate(e: PyError) {
    !e.NotNullViolation?
  }

  /**
   The run from some record on, with the NOT NULL violation of the row merged
   just before, if any, still pending. `session.merge` flushes the session
   before it loads, and so does the commit: a pending violation is raised
   once the next record has been read, at its merge, or at the commit.
   */
  function RunFrom<T>(items: seq<Json>, f: Json --> Result<T, PyError>, pending: Option<PyError>): (r: Result<seq<T>, PyError>)
    requires forall i :: 0 <= i < |items| ==> f.requires(items[i])
    ensures pending.None? ==> (r.Ok? <==> forall i :: 0 <= i < |items| ==> f(items[i]).Ok?)
    ensures pending.Some? ==> r.Err?
    ensures r.Ok? ==> |r.value| == |items| && forall i :: 0 <= i < |items| ==> f(items[i]) == Ok(r.value[i])
    ensures pending.Some? && items != [] && f(items[0]).Err? && Immediate(f(items[0]).error) ==>
      r.error == f(items[0]).error
    ensures pending.Some? && (items == [] || f(items[0]).Ok? || !Immediate(f(items[0]).error)) ==>
      r.error == pending.value
    decreases |items|
  {
    if items == [] then
      (if pending.Some? then Err(pending.value) else Ok([]))
    else
      var rest := items[1..];
      assert forall i :: 0 <= i < |rest| ==> rest[i] == items[i + 1];
      match f(items[0])
      case Err(e) =>
        if Immediate(e) then Err(e)
        else if pending.Some? then Err(pending.value)
        else RunFrom(rest, f, Some(e))
      case Ok(row) =>
        if pending.Some? then Err(pending.value)
        else
          match RunFrom(rest, f, None)
          case Err(e) => Err(e)
          case Ok(rows) => Ok([row] + rows)
  }

  /**
   Normalise and merge every record in order, then commit. The run succeeds
   exactly when every record does, and then yields one row per record.
   */
  function Traverse<T>(items: seq<Json>, f: Json --> Result<T, PyError>): (r: Result<seq<T>, PyError>)
    requires forall i :: 0 <= i < |items| ==> f.requires(items[i])
    ensures r.Ok? <==> forall i :: 0 <= i < |items| ==> f(items[i]).Ok?
    ensures r.Ok? ==> |r.value| == |items| && forall i :: 0 <= i < |items| ==> f(items[i]) == Ok(r.value[i])
  {
    RunFrom(items, f, None)
  }

  /**
   The exception a failed run reports, given its first failing record `i`:
   the exception raised while reading that record; for a NOT NULL violation,
   an exception raised while reading the next record, which comes before the
   flush; otherwise the violation itself.
   */
  function Reported<T>(items: seq<Json>, f: Json --> Result<T, PyError>, i: nat): PyError
    requires forall k :: 0 <= k < |items| ==> f.requires(items[k])
    requires i < |items| && f(items[i]).Err?
  {
    var e := f(items[i]).error;
    if !Immediate(e) && i + 1 < |items| && f(items[i + 1]).Err? && Immediate(f(items[i + 1]).error)
    then f(items[i + 1]).error
    else e
  }

  /** A failed run reports what `Reported` says about its first failing record. */
  lemma {:induction false} TraverseFirstError<T>(items: seq<Json>, f: Json --> Result<T, PyError>, i: nat)
    requires forall k :: 0 <= k < |items| ==> f.requires(items[k])
    requires i < |items| && f(items[i]).Err?
    requires forall j :: 0 <= j < i ==> f(items[j]).Ok?
    ensures Traverse(items, f) == Err(Reported(items, f, i))
    decreases i
  {
    var rest := items[1..];
    assert forall k :: 0 <= k < |rest| ==> rest[k] == items[k + 1];
    if i > 0 {
      TraverseFirstError(rest, f, i - 1);
      assert Reported(rest, f, i - 1) == Reported(items, f, i);
    }
  }

  /** Every record normalised to the given rows: the run yields exactly those rows. */
  lemma TraverseAllOk<T>(items: seq<Json>, f: Json --> Result<T, PyError>, rows: seq<T>)
    requires forall k :: 0 <= k < |items| ==> f.requires(items[k])
    requires |rows| == |items| && forall k :: 0 <= k < |items| ==> f(items[k]) == Ok(rows[k])
    ensures Traverse(items, f) == Ok(rows)
  {
    var r := Traverse(items, f);
    assert r.Ok?;
    assert r.value == rows;
  }

  /** The rows merged so far in front of the outcome of the rest of the run. */
  function Prepend<T>(rows: seq<T>, r: Result<seq<T>, PyError>): Result<seq<T>, PyError> {
    if r.Ok? then Ok(rows + r.value) else r
  }

  /** Prepending two runs of rows is prepending their concatenation. */
  lemma PrependTwice<T>(rows: seq<T>, more: seq<T>, r: Result<seq<T>, PyError>)
    ensures Prepend(rows, Prepend(more, r)) == Prepend(rows + more, r)
  {
    if r.Ok? {
      assert rows + (more + r.value) == rows + more + r.value;
    }
  }

  /** The rows of one run over an envelope. */
  function Run<T>(envelope: Json, f: Json --> Result<T, PyError>): (r: Result<seq<T>, PyError>)
    requires Envelope(envelope).Ok? ==> forall i :: 0 <= i < |Envelope(envelope).value| ==> f.requires(Envelope(envelope).value[i])
    ensures Envelope(envelope).Err? ==> r == Err(Envelope(envelope).error)
    ensures r.Ok? <==>
      && Envelope(envelope).Ok?
      && forall i :: 0 <= i < |Envelope(envelope).value| ==> f(Envelope(envelope).value[i]).Ok?
    ensures r.Ok? ==>
      && Envelope(envelope).Ok? && |r.value| == |Envelope(envelope).value|
      && forall i :: 0 <= i < |r.value| ==> f(Envelope(envelope).value[i]) == Ok(r.value[i])
  {
    match Envelope(envelope)
    case Err(e) => Err(e)
    case Ok(items) => Traverse(items, f)
  }
}
