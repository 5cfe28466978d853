/**
 The three tables of the relational store. Each row is a value; a table is a
 map from primary key to row. Coordinates are reals: the float parser is a
 parameter of the ingestion, so no IEEE arithmetic enters the model.
 */
module Models {
  import opened Wrappers

  /** A park, keyed by its park code. */
  datatype Park = Park(
    parkId: string,
    name: string,
    states: Option<string>,
    latitude: Option<real>,
    longitude: Option<real>,
    description: Option<string>,
    url: Option<string>)

  /**
   A campground, keyed by its upstream id. `parkId` is declared as a
   reference to a park but is a plain string here: nothing requires it to name
   a stored park.
   */
  datatype Campground = Campground(
    campgroundId: string,
    parkId: string,
    name: string,
    totalSites: Option<int>,
    reservationUrl: Option<string>)

  /** An alert, keyed by its upstream id; `dateCreated` is opaque text. */
  datatype Alert = Alert(
    alertId: string,
    parkId: string,
    title: string,
    category: Option<string>,
    description: Option<string>,
    dateCreated: Option<string>)

  function ParkKey(p: Park): string { p.parkId }
  function CampgroundKey(c: Campground): string { c.campgroundId }
  function AlertKey(a: Alert): string { a.alertId }

  /** Every row of a table is stored under its own primary key. */
  ghost predicate KeyedBy<R>(t: map<string, R>, key: R -> string) {
    forall k :: k in t ==> key(t[k]) == k
  }

  /**
   A park built from its required columns alone: every optional column takes
   its schema default, `None`.
   */
  function NewPark(parkId: string, name: string): (p: Park)
    ensures ParkKey(p) == parkId && p.name == name
    ensures p.states.None? && p.latitude.None? && p.longitude.None?
    ensures p.description.None? && p.url.None?
  {
    Park(parkId, name, None, None, None, None, None)
  }

  /**
   A campground built from its required columns alone. The schema default of
   `totalSites` is `None`, not the 0 the ingestion writes for a missing count.
   */
  function NewCampground(campgroundId: string, parkId: string, name: string): (c: Campground)
    ensures CampgroundKey(c) == campgroundId && c.parkId == parkId && c.name == name
    ensures c.totalSites.None? && c.reservationUrl.None?
  {
    Campground(campgroundId, parkId, name, None, None)
  }

  /** An alert built from its required columns alone. */
  function NewAlert(alertId: string, parkId: string, title: string): (a: Alert)
    ensures AlertKey(a) == alertId && a.parkId == parkId && a.title == title
    ensures a.category.None? && a.description.None? && a.dateCreated.None?
  {
    Alert(alertId, parkId, title, None, None, None)
  }
}
