/**
 The ingestion routine: for each of parks, campgrounds and alerts, read the
 `data` array of an already-fetched envelope, normalise each record into a
 row, merge the row into the session by primary key and commit once at the
 end. An exception before the commit leaves the stored table as it was.

 `fetch` (the HTTP call) is not modelled: the envelope it returns is an input.
 `float()` and `int()` on strings are parameters.
 */
module NpsFetcher {
  import opened Wrappers
  import opened Py
  import opened PyStr
  import opened Models
  import opened Table
  import opened Batch
  import opened Coordinates

  /** Python's `int()` on a string: a value, or `None` where it raises `ValueError`. */
  type IntParser = string -> Option<int>

  /** How one call ends: the session committed, or an exception escaped it. */
  datatype Outcome = Committed | Raised(error: PyError)

  function OutcomeOf<T>(batch: Result<seq<T>, PyError>): Outcome {
    if batch.Ok? then Committed else Raised(batch.error)
  }

  /** The upstream fields each ingestion copies into a text column. */
  const ParkTextFields: set<string> := {"parkCode", "fullName", "states", "description", "url"}
  const CampgroundTextFields: set<string> := {"id", "parkCode", "name", "reservationUrl"}
  const AlertTextFields: set<string> := {"id", "parkCode", "title", "category", "description", "dateCreated"}

  /** Every record of the envelope carries text (or nothing) in those fields. */
  predicate EnvelopeText(envelope: Json, keys: set<string>) {
    Envelope(envelope).Ok? ==>
      forall i :: 0 <= i < |Envelope(envelope).value| ==> TextFields(Envelope(envelope).value[i], keys)
  }

  /** The text of field `key` of a record, `None` when absent or null. */
  function Field(m: map<string, Json>, key: string): Option<string>
    requires IsText(Get(m, key))
  {
    Text(Get(m, key))
  }

  /** A required (NOT NULL) column: the store refuses the row when it is `None`. */
  function Required(v: Option<string>, column: string): (r: Result<string, PyError>)
    ensures r.Ok? <==> v.Some?
    ensures r.Ok? ==> r.value == v.value
    ensures r.Err? ==> r.error == NotNullViolation(column)
  {
    match v
    case Some(s) => Ok(s)
    case None => Err(NotNullViolation(column))
  }

  // ---------------------------------------------------------------- parks

  /**
   One park record: `parkCode` is the key, `fullName` the name, `states`,
   `description` and `url` are copied, and the coordinates come from `latLong`.
   The row is produced exactly when the record is a dict, its `latLong` does
   not raise, and both required columns are present: a coordinate that fails
   to parse never costs the record.
   */
  function NormalizePark(item: Json, parseFloat: FloatParser): (r: Result<Park, PyError>)
    requires TextFields(item, ParkTextFields)
    ensures r.Ok? <==>
      && item.Obj?
      && ParseLatLong(GetOr(item.fields, "latLong", Str("")), parseFloat).Ok?
      && Field(item.fields, "parkCode").Some?
      && Field(item.fields, "fullName").Some?
    ensures r.Ok? ==>
      var m := item.fields;
      var c := ParseLatLong(GetOr(m, "latLong", Str("")), parseFloat).value;
      && r.value.parkId == Field(m, "parkCode").value
      && r.value.name == Field(m, "fullName").value
      && r.value.states == Field(m, "states")
      && r.value.latitude == c.latitude && r.value.longitude == c.longitude
      && r.value.description == Field(m, "description")
      && r.value.url == Field(m, "url")
    ensures !item.Obj? ==> r == Err(AttributeError)
    ensures item.Obj? && ParseLatLong(GetOr(item.fields, "latLong", Str("")), parseFloat).Err? ==>
      r == Err(TypeError)
    ensures item.Obj? && ParseLatLong(GetOr(item.fields, "latLong", Str("")), parseFloat).Ok? ==>
      && (Field(item.fields, "parkCode").None? ==> r == Err(NotNullViolation("park_id")))
      && (Field(item.fields, "parkCode").Some? && Field(item.fields, "fullName").None? ==>
            r == Err(NotNullViolation("name")))
  {
    if !item.Obj? then Err(AttributeError)
    else
      var m := item.fields;
      match ParseLatLong(GetOr(m, "latLong", Str("")), parseFloat)
      case Err(e) => Err(e)
      case Ok(c) =>
        match Required(Field(m, "parkCode"), "park_id")
        case Err(e) => Err(e)
        case Ok(parkId) =>
          match Required(Field(m, "fullName"), "name")
          case Err(e) => Err(e)
          case Ok(name) =>
            Ok(Park(parkId, name, Field(m, "states"), c.latitude, c.longitude,
                    Field(m, "description"), Field(m, "url")))
  }

  function ParkNormalizer(parseFloat: FloatParser): Json --> Result<Park, PyError> {
    x requires TextFields(x, ParkTextFields) => NormalizePark(x, parseFloat)
  }

  /**
   The park rows of one run, or the exception that ends it: one row per
   record, in order, exactly when every record normalises.
   */
  function ParkBatch(envelope: Json, parseFloat: FloatParser): (r: Result<seq<Park>, PyError>)
    requires EnvelopeText(envelope, ParkTextFields)
    ensures Envelope(envelope).Err? ==> r == Err(Envelope(envelope).error)
    ensures r.Ok? <==>
      && Envelope(envelope).Ok?
      && forall i :: 0 <= i < |Envelope(envelope).value| ==> NormalizePark(Envelope(envelope).value[i], parseFloat).Ok?
    ensures r.Ok? ==>
      && Envelope(envelope).Ok? && |r.value| == |Envelope(envelope).value|
      && forall i :: 0 <= i < |r.value| ==> NormalizePark(Envelope(envelope).value[i], parseFloat) == Ok(r.value[i])
  {
    Run(envelope, ParkNormalizer(parseFloat))
  }

  /**
   No label, no coordinates: a park whose `latLong` is absent, null, empty or
   lacks `"lat:"` is stored with neither latitude nor longitude.
   */
  lemma ParkWithoutLabel(item: Json, parseFloat: FloatParser)
    requires TextFields(item, ParkTextFields) && item.Obj?
    requires var v := GetOr(item.fields, "latLong", Str(""));
      v.Null? || (v.Str? && !Contains(v.s, "lat:"))
    ensures NormalizePark(item, parseFloat).Ok? ==>
      NormalizePark(item, parseFloat).value.latitude.None? &&
      NormalizePark(item, parseFloat).value.longitude.None?
  {
  }

  /**
   Partial failure isolation: when every record is a dict with its key and
   name, and its `latLong` is text (well formed or not), absent or null, the
   run commits one row per record and every record's key is in the table.
   */
  lemma ParksAllStored(envelope: Json, parseFloat: FloatParser, t: map<string, Park>)
    requires EnvelopeText(envelope, ParkTextFields)
    requires Envelope(envelope).Ok?
    requires forall i :: 0 <= i < |Envelope(envelope).value| ==>
      var item := Envelope(envelope).value[i];
      && item.Obj?
      && "parkCode" in item.fields && item.fields["parkCode"].Str?
      && "fullName" in item.fields && item.fields["fullName"].Str?
      && ("latLong" in item.fields ==> item.fields["latLong"].Str? || item.fields["latLong"].Null?)
    ensures ParkBatch(envelope, parseFloat).Ok?
    ensures |ParkBatch(envelope, parseFloat).value| == |Envelope(envelope).value|
    ensures forall i :: 0 <= i < |Envelope(envelope).value| ==>
      Envelope(envelope).value[i].fields["parkCode"].s in Reconcile(t, ParkBatch(envelope, parseFloat), ParkKey)
  {
    var items := Envelope(envelope).value;
    var f := ParkNormalizer(parseFloat);
    forall i | 0 <= i < |items| ensures f(items[i]).Ok? {
      var m := items[i].fields;
      assert GetOr(m, "latLong", Str("")).Str? || GetOr(m, "latLong", Str("")).Null?;
    }
    var rows := Traverse(items, f).value;
    forall i | 0 <= i < |items|
      ensures items[i].fields["parkCode"].s in Reconcile(t, ParkBatch(envelope, parseFloat), ParkKey)
    {
      assert f(items[i]) == Ok(rows[i]);
      assert ParkKey(rows[i]) in BatchKeys(rows, ParkKey);
    }
  }

  /**
   A NOT NULL violation yields to an exception raised while the next record is
   read: a park without a name followed by one whose `latLong` is a number
   ends the run with the `TypeError`, which comes before the flush that would
   refuse the first row.
   */
  lemma NullNameThenBadLatLong(envelope: Json, first: Json, second: Json, parseFloat: FloatParser)
    requires EnvelopeText(envelope, ParkTextFields) && Envelope(envelope) == Ok([first, second])
    requires first.Obj? && "parkCode" in first.fields && first.fields["parkCode"].Str?
    requires first.Obj? && "fullName" !in first.fields && "latLong" !in first.fields
    requires second.Obj? && "latLong" in second.fields && second.fields["latLong"] == Int(5)
    ensures TextFields(first, ParkTextFields) && NormalizePark(first, parseFloat) == Err(NotNullViolation("name"))
    ensures ParkBatch(envelope, parseFloat) == Err(TypeError)
  {
    var items := [first, second];
    assert TextFields(items[0], ParkTextFields) && TextFields(items[1], ParkTextFields);
    assert NormalizePark(second, parseFloat) == Err(TypeError);
    TraverseFirstError(items, ParkNormalizer(parseFloat), 0);
  }

  // ---------------------------------------------------------------- campgrounds

  /** Python's `int(v)` on a decoded JSON value. */
  function ToInt(v: Json, parseInt: IntParser): (r: Result<int, PyError>)
    ensures v.Int? ==> r == Ok(v.i)
    ensures v.Bool? ==> r == Ok(if v.b then 1 else 0)
    ensures v.Str? ==> r == (if parseInt(v.s).Some? then Ok(parseInt(v.s).value) else Err(ValueError))
    ensures v.Null? || v.Arr? || v.Obj? ==> r == Err(TypeError)
  {
    match v
    case Int(i) => Ok(i)
    case Bool(b) => Ok(if b then 1 else 0)
    case Str(s) => (match parseInt(s) case Some(n) => Ok(n) case None => Err(ValueError))
    case _ => Err(TypeError)
  }

  /**
   `int(c.get("campsites", {}).get("totalSites", 0))`, given the value of
   `c.get("campsites", {})`: 0 when the count or its container is absent;
   a container that is not a dict has no `.get`.
   */
  function SiteCount(campsites: Json, parseInt: IntParser): (r: Result<int, PyError>)
    ensures campsites.Obj? && "totalSites" !in campsites.fields ==> r == Ok(0)
    ensures !campsites.Obj? ==> r == Err(AttributeError)
    ensures campsites.Obj? && "totalSites" in campsites.fields ==> r == ToInt(campsites.fields["totalSites"], parseInt)
  {
    match campsites
    case Obj(m) => ToInt(GetOr(m, "totalSites", Int(0)), parseInt)
    case _ => Err(AttributeError)
  }

  /**
   One campground record: `id` is the key, `parkCode` the park reference,
   `name` the name, the site count as `SiteCount` gives it, `reservationUrl`
   copied. The row is produced exactly when the record is a dict, its site
   count converts, and the three required columns are present.
   */
  function NormalizeCampground(item: Json, parseInt: IntParser): (r: Result<Campground, PyError>)
    requires TextFields(item, CampgroundTextFields)
    ensures r.Ok? <==>
      && item.Obj?
      && SiteCount(GetOr(item.fields, "campsites", Obj(map[])), parseInt).Ok?
      && Field(item.fields, "id").Some?
      && Field(item.fields, "parkCode").Some?
      && Field(item.fields, "name").Some?
    ensures r.Ok? ==>
      var m := item.fields;
      && r.value.campgroundId == Field(m, "id").value
      && r.value.parkId == Field(m, "parkCode").value
      && r.value.name == Field(m, "name").value
      && r.value.totalSites == Some(SiteCount(GetOr(m, "campsites", Obj(map[])), parseInt).value)
      && r.value.reservationUrl == Field(m, "reservationUrl")
    ensures item.Obj? && SiteCount(GetOr(item.fields, "campsites", Obj(map[])), parseInt).Err? ==>
      r == Err(SiteCount(GetOr(item.fields, "campsites", Obj(map[])), parseInt).error)
    ensures !item.Obj? ==> r == Err(AttributeError)
    ensures item.Obj? && SiteCount(GetOr(item.fields, "campsites", Obj(map[])), parseInt).Ok? ==>
      var m := item.fields;
      && (Field(m, "id").None? ==> r == Err(NotNullViolation("campground_id")))
      && (Field(m, "id").Some? && Field(m, "parkCode").None? ==> r == Err(NotNullViolation("park_id")))
      && (Field(m, "id").Some? && Field(m, "parkCode").Some? && Field(m, "name").None? ==>
            r == Err(NotNullViolation("name")))
  {
    if !item.Obj? then Err(AttributeError)
    else
      var m := item.fields;
      match SiteCount(GetOr(m, "campsites", Obj(map[])), parseInt)
      case Err(e) => Err(e)
      case Ok(sites) =>
        match Required(Field(m, "id"), "campground_id")
        case Err(e) => Err(e)
        case Ok(campgroundId) =>
          match Required(Field(m, "parkCode"), "park_id")
          case Err(e) => Err(e)
          case Ok(parkId) =>
            match Required(Field(m, "name"), "name")
            case Err(e) => Err(e)
            case Ok(name) =>
              Ok(Campground(campgroundId, parkId, name, Some(sites), Field(m, "reservationUrl")))
  }

  function CampgroundNormalizer(parseInt: IntParser): Json --> Result<Campground, PyError> {
    x requires TextFields(x, CampgroundTextFields) => NormalizeCampground(x, parseInt)
  }

  /**
   The campground rows of one run, or the exception that ends it: one row per
   record, in order, exactly when every record normalises.
   */
  function CampgroundBatch(envelope: Json, parseInt: IntParser): (r: Result<seq<Campground>, PyError>)
    requires EnvelopeText(envelope, CampgroundTextFields)
    ensures Envelope(envelope).Err? ==> r == Err(Envelope(envelope).error)
    ensures r.Ok? <==>
      && Envelope(envelope).Ok?
      && forall i :: 0 <= i < |Envelope(envelope).value| ==> NormalizeCampground(Envelope(envelope).value[i], parseInt).Ok?
    ensures r.Ok? ==>
      && Envelope(envelope).Ok? && |r.value| == |Envelope(envelope).value|
      && forall i :: 0 <= i < |r.value| ==> NormalizeCampground(Envelope(envelope).value[i], parseInt) == Ok(r.value[i])
  {
    Run(envelope, CampgroundNormalizer(parseInt))
  }

  /**
   A missing count is 0, where the schema's own default for the column is
   `None`: the two conventions differ.
   */
  lemma SiteCountDefaultsToZero(item: Json, parseInt: IntParser)
    requires TextFields(item, CampgroundTextFields) && item.Obj?
    requires "campsites" !in item.fields ||
      (item.fields["campsites"].Obj? && "totalSites" !in item.fields["campsites"].fields)
    requires NormalizeCampground(item, parseInt).Ok?
    ensures NormalizeCampground(item, parseInt).value.totalSites == Some(0)
    ensures var c := NormalizeCampground(item, parseInt).value;
      NewCampground(c.campgroundId, c.parkId, c.name).totalSites != c.totalSites
  {
  }

  /**
   One site count `int()` rejects sinks the whole run: nothing of that batch
   reaches the table, whatever the other records hold.
   */
  lemma BadSiteCountAbortsRun(envelope: Json, parseInt: IntParser, t: map<string, Campground>, i: nat)
    requires EnvelopeText(envelope, CampgroundTextFields)
    requires Envelope(envelope).Ok? && i < |Envelope(envelope).value|
    requires var item := Envelope(envelope).value[i];
      && item.Obj? && "campsites" in item.fields
      && item.fields["campsites"].Obj? && "totalSites" in item.fields["campsites"].fields
      && item.fields["campsites"].fields["totalSites"].Str?
      && parseInt(item.fields["campsites"].fields["totalSites"].s).None?
    ensures CampgroundBatch(envelope, parseInt).Err?
    ensures Reconcile(t, CampgroundBatch(envelope, parseInt), CampgroundKey) == t
  {
    var items := Envelope(envelope).value;
    var f := CampgroundNormalizer(parseInt);
    assert f(items[i]) == Err(ValueError);
  }

  // ---------------------------------------------------------------- alerts

  /**
   One alert record: `id` is the key, `parkCode` the park reference, `title`
   the title; `category`, `description` and `dateCreated` are copied as they
   are, without any check of their content. The row is produced exactly when
   the record is a dict with its three required columns.
   */
  function NormalizeAlert(item: Json): (r: Result<Alert, PyError>)
    requires TextFields(item, AlertTextFields)
    ensures r.Ok? <==>
      && item.Obj?
      && Field(item.fields, "id").Some?
      && Field(item.fields, "parkCode").Some?
      && Field(item.fields, "title").Some?
    ensures r.Ok? ==>
      var m := item.fields;
      && r.value.alertId == Field(m, "id").value
      && r.value.parkId == Field(m, "parkCode").value
      && r.value.title == Field(m, "title").value
      && r.value.category == Field(m, "category")
      && r.value.description == Field(m, "description")
      && r.value.dateCreated == Field(m, "dateCreated")
    ensures !item.Obj? ==> r == Err(AttributeError)
    ensures item.Obj? ==>
      var m := item.fields;
      && (Field(m, "id").None? ==> r == Err(NotNullViolation("alert_id")))
      && (Field(m, "id").Some? && Field(m, "parkCode").None? ==> r == Err(NotNullViolation("park_id")))
      && (Field(m, "id").Some? && Field(m, "parkCode").Some? && Field(m, "title").None? ==>
            r == Err(NotNullViolation("title")))
  {
    if !item.Obj? then Err(AttributeError)
    else
      var m := item.fields;
      match Required(Field(m, "id"), "alert_id")
      case Err(e) => Err(e)
      case Ok(alertId) =>
        match Required(Field(m, "parkCode"), "park_id")
        case Err(e) => Err(e)
        case Ok(parkId) =>
          match Required(Field(m, "title"), "title")
          case Err(e) => Err(e)
          case Ok(title) =>
            Ok(Alert(alertId, parkId, title, Field(m, "category"), Field(m, "description"), Field(m, "dateCreated")))
  }

  function AlertNormalizer(): Json --> Result<Alert, PyError> {
    x requires TextFields(x, AlertTextFields) => NormalizeAlert(x)
  }

  /**
   The alert rows of one run, or the exception that ends it: one row per
   record, in order, exactly when every record normalises.
   */
  function AlertBatch(envelope: Json): (r: Result<seq<Alert>, PyError>)
    requires EnvelopeText(envelope, AlertTextFields)
    ensures Envelope(envelope).Err? ==> r == Err(Envelope(envelope).error)
    ensures r.Ok? <==>
      && Envelope(envelope).Ok?
      && forall i :: 0 <= i < |Envelope(envelope).value| ==> NormalizeAlert(Envelope(envelope).value[i]).Ok?
    ensures r.Ok? ==>
      && Envelope(envelope).Ok? && |r.value| == |Envelope(envelope).value|
      && forall i :: 0 <= i < |r.value| ==> NormalizeAlert(Envelope(envelope).value[i]) == Ok(r.value[i])
  {
    Run(envelope, AlertNormalizer())
  }

  // ---------------------------------------------------------------- all tables

  /** An envelope without `"data"` commits an empty batch: no table changes. */
  lemma NoDataChangesNothing(envelope: Json, parseFloat: FloatParser, parseInt: IntParser,
                             parks: map<string, Park>, campgrounds: map<string, Campground>, alerts: map<string, Alert>)
    requires envelope.Obj? && "data" !in envelope.fields
    ensures Reconcile(parks, ParkBatch(envelope, parseFloat), ParkKey) == parks
    ensures Reconcile(campgrounds, CampgroundBatch(envelope, parseInt), CampgroundKey) == campgrounds
    ensures Reconcile(alerts, AlertBatch(envelope), AlertKey) == alerts
  {
  }

  /**
   One session's merge loop: normalise each record in order and merge its row
   by primary key, then commit. A row with a NULL in a required column stays
   pending in the session until the next flush, at the next merge or at the
   commit, and is refused there; any other exception abandons the session at
   once. The result is the session's table, ready to publish, or the
   exception.
   */
  method MergeBatch<R>(t: map<string, R>, data: seq<Json>, normalize: Json --> Result<R, PyError>, key: R -> string)
    returns (r: Result<map<string, R>, PyError>)
    requires forall k :: 0 <= k < |data| ==> normalize.requires(data[k])
    ensures r.Ok? <==> Traverse(data, normalize).Ok?
    ensures r.Ok? ==> r.value == Upsert(t, Traverse(data, normalize).value, key)
    ensures r.Err? ==> r.error == Traverse(data, normalize).error
  {
    var session := t;
    var pending: Option<PyError> := None;
    ghost var rows: seq<R> := [];
    assert data[0..] == data;
    assert Traverse(data, normalize).Ok? ==> [] + Traverse(data, normalize).value == Traverse(data, normalize).value;
    for i := 0 to |data|
      invariant Traverse(data, normalize) == Prepend(rows, RunFrom(data[i..], normalize, pending))
      invariant session == Upsert(t, rows, key)
    {
      var row := normalize(data[i]);
      assert data[i..][0] == data[i] && data[i..][1..] == data[i + 1..];
      if row.Err? && Immediate(row.error) {
        return Err(row.error);
      }
      if pending.Some? {
        return Err(pending.value);
      }
      if row.Err? {
        pending := Some(row.error);
      } else {
        PrependTwice(rows, [row.value], RunFrom(data[i + 1..], normalize, None));
        UpsertStep(t, rows, row.value, key);
        rows := rows + [row.value];
        session := session[key(row.value) := row.value];
      }
    }
    if pending.Some? {
      return Err(pending.value);
    }
    assert rows + [] == rows;
    return Ok(session);
  }

  /**
   The relational store: one map per table, keyed by primary key. Each upsert
   method opens a session on the committed table, merges the batch row by row
   and publishes the session at its single commit.
   */
  class Store {
    var parks: map<string, Park>
    var campgrounds: map<string, Campground>
    var alerts: map<string, Alert>

    /** Primary keys are unique and every row sits under its own key. */
    ghost predicate Valid()
      reads this
    {
      KeyedBy(parks, ParkKey) && KeyedBy(campgrounds, CampgroundKey) && KeyedBy(alerts, AlertKey)
    }

    constructor ()
      ensures Valid()
      ensures parks == map[] && campgrounds == map[] && alerts == map[]
    {
      parks, campgrounds, alerts := map[], map[], map[];
    }

    method UpsertParks(envelope: Json, parseFloat: FloatParser) returns (outcome: Outcome)
      requires Valid() && EnvelopeText(envelope, ParkTextFields)
      modifies this
      ensures Valid()
      ensures parks == Reconcile(old(parks), ParkBatch(envelope, parseFloat), ParkKey)
      ensures outcome == OutcomeOf(ParkBatch(envelope, parseFloat))
      ensures campgrounds == old(campgrounds) && alerts == old(alerts)
    {
      var env := Envelope(envelope);
      if env.Err? {
        return Raised(env.error);
      }
      var merged := MergeBatch(parks, env.value, ParkNormalizer(parseFloat), ParkKey);
      if merged.Err? {
        return Raised(merged.error);
      }
      UpsertKeyed(parks, ParkBatch(envelope, parseFloat).value, ParkKey);
      parks := merged.value;
      return Committed;
    }

    method UpsertCampgrounds(envelope: Json, parseInt: IntParser) returns (outcome: Outcome)
      requires Valid() && EnvelopeText(envelope, CampgroundTextFields)
      modifies this
      ensures Valid()
      ensures campgrounds == Reconcile(old(campgrounds), CampgroundBatch(envelope, parseInt), CampgroundKey)
      ensures outcome == OutcomeOf(CampgroundBatch(envelope, parseInt))
      ensures parks == old(parks) && alerts == old(alerts)
    {
      var env := Envelope(envelope);
      if env.Err? {
        return Raised(env.error);
      }
      var merged := MergeBatch(campgrounds, env.value, CampgroundNormalizer(parseInt), CampgroundKey);
      if merged.Err? {
        return Raised(merged.error);
      }
      UpsertKeyed(campgrounds, CampgroundBatch(envelope, parseInt).value, CampgroundKey);
      campgrounds := merged.value;
      return Committed;
    }

    method UpsertAlerts(envelope: Json) returns (outcome: Outcome)
      requires Valid() && EnvelopeText(envelope, AlertTextFields)
      modifies this
      ensures Valid()
      ensures alerts == Reconcile(old(alerts), AlertBatch(envelope), AlertKey)
      ensures outcome == OutcomeOf(AlertBatch(envelope))
      ensures parks == old(parks) && campgrounds == old(campgrounds)
    {
      var env := Envelope(envelope);
      if env.Err? {
        return Raised(env.error);
      }
      var merged := MergeBatch(alerts, env.value, AlertNormalizer(), AlertKey);
      if merged.Err? {
        return Raised(merged.error);
      }
      UpsertKeyed(alerts, AlertBatch(envelope).value, AlertKey);
      alerts := merged.value;
      return Committed;
    }
  }
}
