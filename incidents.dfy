/** The incidents service: the incident list read cache-first and sorted
    by distance from the user, the service status, the incident
    subscriptions kept in the cache, the address search and the duration
    formatters. The great-circle distance is a parameter of the service. */
module Incidents {
  import opened Wrappers
  import opened Records
  import opened Strings
  import opened JsMath
  import opened Storage
  import opened Sorting
  import opened Lists

  const INCIDENTS_CACHE_KEY: string := "incidents_data"
  const SERVICE_STATUS_CACHE_KEY: string := "service_status"
  const NOTIFICATIONS_CACHE_KEY: string := "incident_notifications"

  /** 0.25 h, 0.083 h and 7 * 24 h in milliseconds (0.083 h is 298.8 s). */
  const INCIDENTS_TTL_MS: nat := HOUR_MS / 4
  const STATUS_TTL_MS: nat := 298800
  const NOTIFICATIONS_TTL_MS: nat := 7 * 24 * HOUR_MS

  /** The user id every subscription records. */
  const CURRENT_USER: string := "current_user"

  /* ---------------- the sample incidents ---------------- */

  const BASTOS_DESCRIPTION: string :=
    "Coupure générale suite à un problème technique sur le transformateur principal du quartier."
  const AKWA_DESCRIPTION: string :=
    "Travaux de maintenance préventive sur le réseau haute tension pour améliorer la stabilité."
  const MENDONG_DESCRIPTION: string :=
    "Interruption due à des travaux routiers ayant endommagé une ligne électrique."
  const BONAPRISO_DESCRIPTION: string :=
    "Installation de nouveaux équipements pour améliorer la capacité et la fiabilité du réseau."

  /** The four incidents `getIncidents` builds on a miss at `now`. */
  function SampleIncidents(now: int): seq<Incident> {
    [ Incident("1", "outage", "Panne Électrique Secteur", BASTOS_DESCRIPTION,
        "Quartier Bastos", "Bastos, Yaoundé, Cameroun", "Depuis 14:30",
        Some(now + 3 * MS_PER_HOUR), 1250, 3.8667, 11.5167, "active", "high",
        now - 4 * MS_PER_HOUR, now - 30 * MS_PER_MINUTE),
      Incident("2", "maintenance", "Maintenance Programmée", AKWA_DESCRIPTION,
        "Akwa", "Akwa, Douala, Cameroun", "Demain 08:00 - 12:00",
        None, 800, 4.0511, 9.7679, "scheduled", "medium",
        now - 24 * MS_PER_HOUR, now - 24 * MS_PER_HOUR),
      Incident("3", "outage", "Panne Locale", MENDONG_DESCRIPTION,
        "Mendong", "Mendong, Yaoundé, Cameroun", "Depuis 16:45",
        Some(now + 2 * MS_PER_HOUR), 650, 3.8480, 11.4914, "active", "medium",
        now - 2 * MS_PER_HOUR, now - 15 * MS_PER_MINUTE),
      Incident("4", "maintenance", "Mise à Niveau Réseau", BONAPRISO_DESCRIPTION,
        "Bonapriso", "Bonapriso, Douala, Cameroun", "Samedi 06:00 - 14:00",
        None, 1100, 4.0469, 9.7069, "scheduled", "low",
        now - 48 * MS_PER_HOUR, now - 48 * MS_PER_HOUR) ]
  }

  /** The sort key of an incident: its distance from the user. */
  function DistanceFrom(user: GeoPoint, distance: (GeoPoint, GeoPoint) -> real): Incident -> real {
    (i: Incident) => distance(user, GeoPoint(i.lat, i.lng))
  }

  /** The list a miss builds from the sample incidents: sorted by distance
      when the user's position is known. */
  function BuiltIncidents(samples: seq<Incident>, location: Option<GeoPoint>, distance: (GeoPoint, GeoPoint) -> real): seq<Incident> {
    match location
    case None => samples
    case Some(user) => SortByKey(samples, DistanceFrom(user, distance))
  }

  /** With a position, the built list holds exactly the sample incidents,
      nearest first, incidents at the same distance in their original order;
      without one, it is the sample list itself. */
  lemma BuiltIncidentsByDistance(samples: seq<Incident>, location: Option<GeoPoint>, distance: (GeoPoint, GeoPoint) -> real, d: real)
    ensures multiset(BuiltIncidents(samples, location, distance)) == multiset(samples)
    ensures location.Some? ==> SortedBy(BuiltIncidents(samples, location, distance), DistanceFrom(location.value, distance))
    ensures location.Some? ==>
      var key := DistanceFrom(location.value, distance);
      WithKey(BuiltIncidents(samples, location, distance), key, d) == WithKey(samples, key, d)
    ensures location.None? ==> BuiltIncidents(samples, location, distance) == samples
  {
    if location.Some? {
      var key := DistanceFrom(location.value, distance);
      SortByKeySorted(samples, key);
      SortByKeyStable(samples, key, d);
    }
  }

  function SampleStatus(now: int): ServiceStatus {
    ServiceStatus("active", now, 98.5, Some(now + 7 * MS_PER_DAY))
  }

  /* ---------------- subscriptions ---------------- */

  /** `getIncidentNotifications` at `now`: the cached list, or the empty list. */
  function StoredSubscriptions(items: Items, now: int): seq<IncidentNotification> {
    match CachedValue(items, NOTIFICATIONS_CACHE_KEY, now)
    case SubscriptionList(l) => l
    case _ => []
  }

  function NewSubscription(incidentId: string, now: int): IncidentNotification {
    IncidentNotification(incidentId, CURRENT_USER, true, now)
  }

  /** `isSubscribedToIncident`'s test on a list. */
  predicate SubscribedIn(l: seq<IncidentNotification>, incidentId: string) {
    exists n :: n in l && n.incidentId == incidentId && n.enabled
  }

  predicate OtherIncident(incidentId: string, n: IncidentNotification) {
    n.incidentId != incidentId
  }

  /** The list `unsubscribeFromIncidentNotifications` stores. */
  function WithoutIncident(l: seq<IncidentNotification>, incidentId: string): (r: seq<IncidentNotification>)
    ensures SubsequenceOf(r, l)
    ensures forall n :: n in r <==> n in l && n.incidentId != incidentId
    ensures forall n :: multiset(r)[n] == if n.incidentId != incidentId then multiset(l)[n] else 0
  {
    FilterIsSubsequence(l, n => OtherIncident(incidentId, n));
    FilterCounts(l, n => OtherIncident(incidentId, n));
    Filter(l, n => OtherIncident(incidentId, n))
  }

  /** Unsubscribing keeps the subscriptions to the other incidents as they
      were, in their order: subscribing to `a` then unsubscribing from `b`
      is unsubscribing from `b` then subscribing to `a`, for `a != b`. */
  lemma UnsubscribeOther(l: seq<IncidentNotification>, a: string, b: string, now: int)
    requires a != b
    ensures WithoutIncident(l + [NewSubscription(a, now)], b) == WithoutIncident(l, b) + [NewSubscription(a, now)]
  {
    FilterAppend(l, [NewSubscription(a, now)], n => OtherIncident(b, n));
  }

  /* ---------------- search ---------------- */

  /** The search test: the location or the address contains the query,
      both lower-cased. */
  predicate MatchesAddress(query: string, i: Incident) {
    Contains(ToLower(i.location), ToLower(query)) || Contains(ToLower(i.address), ToLower(query))
  }

  function SearchIn(incidents: seq<Incident>, query: string): (r: seq<Incident>)
    ensures SubsequenceOf(r, incidents)
    ensures forall i :: i in r <==> i in incidents && MatchesAddress(query, i)
    ensures forall i :: multiset(r)[i] == if MatchesAddress(query, i) then multiset(incidents)[i] else 0
  {
    FilterIsSubsequence(incidents, i => MatchesAddress(query, i));
    FilterCounts(incidents, i => MatchesAddress(query, i));
    Filter(incidents, i => MatchesAddress(query, i))
  }

  /** The search ignores the query's case. */
  lemma SearchIgnoresCase(incidents: seq<Incident>, query: string)
    ensures SearchIn(incidents, ToLower(query)) == SearchIn(incidents, query)
  {
    ToLowerIdempotent(query);
    FilterSamePredicate(incidents, i => MatchesAddress(ToLower(query), i), i => MatchesAddress(query, i));
  }

  /** "AKWA" typed with the Kelvin sign K as its K searches as "Akwa" does. */
  lemma KelvinSignQuery(incidents: seq<Incident>)
    ensures SearchIn(incidents, "A\U{212A}WA") == SearchIn(incidents, "Akwa")
  {
    assert ToLower("A\U{212A}WA") == ToLower("Akwa") == "akwa";
    FilterSamePredicate(incidents, i => MatchesAddress("A\U{212A}WA", i), i => MatchesAddress("Akwa", i));
  }

  /** A query written anywhere in an incident's location, in any case, finds it. */
  lemma SearchFindsLocation(incidents: seq<Incident>, k: nat, before: string, query: string, after: string)
    requires k < |incidents| && incidents[k].location == before + query + after
    ensures incidents[k] in SearchIn(incidents, query)
  {
    ContainsLowerInfix(before, query, after);
  }

  /* ---------------- labels ---------------- */

  const INCIDENT_STATUS_LABELS: map<string, string> := map[
    "active" := "En cours", "resolved" := "Résolu", "scheduled" := "Programmé"]

  const INCIDENT_TYPE_LABELS: map<string, string> := map[
    "outage" := "Panne", "maintenance" := "Maintenance"]

  const INCIDENT_PRIORITY_COLORS: map<string, string> := map[
    "high" := "text-red-600 bg-red-100", "medium" := "text-orange-600 bg-orange-100",
    "low" := "text-green-600 bg-green-100"]

  function IncidentStatusLabel(status: string): (r: string)
    ensures status !in INCIDENT_STATUS_LABELS ==> r == status
    ensures status in INCIDENT_STATUS_LABELS ==> r != status
  {
    if status in INCIDENT_STATUS_LABELS then INCIDENT_STATUS_LABELS[status] else status
  }

  function IncidentTypeLabel(kind: string): (r: string)
    ensures kind !in INCIDENT_TYPE_LABELS ==> r == kind
    ensures kind == "outage" ==> r == "Panne"
  {
    if kind in INCIDENT_TYPE_LABELS then INCIDENT_TYPE_LABELS[kind] else kind
  }

  function IncidentPriorityColor(priority: string): (r: string)
    ensures priority !in INCIDENT_PRIORITY_COLORS ==> r == "text-gray-600 bg-gray-100"
    ensures priority in INCIDENT_PRIORITY_COLORS ==> r != "text-gray-600 bg-gray-100"
  {
    if priority in INCIDENT_PRIORITY_COLORS then INCIDENT_PRIORITY_COLORS[priority] else "text-gray-600 bg-gray-100"
  }

  /* ---------------- durations ---------------- */

  /** A span in milliseconds split as the formatters split it:
      `Math.floor(ms / 3600000)` hours and
      `Math.floor((ms % 3600000) / 60000)` minutes, `%` truncating. */
  function HoursAndMinutes(ms: int): (r: (int, int))
    ensures ms >= 0 ==> 0 <= r.1 < 60 && r.0 >= 0
    ensures ms >= 0 ==> r.0 * MS_PER_HOUR + r.1 * MS_PER_MINUTE <= ms < r.0 * MS_PER_HOUR + (r.1 + 1) * MS_PER_MINUTE
  {
    (FloorDiv(ms, MS_PER_HOUR), FloorDiv(Rem(ms, MS_PER_HOUR), MS_PER_MINUTE))
  }

  /** `${h}h${m > 0 ? m + 'min' : ''}` when `h > 0`, else `${m}min`. */
  function SpanText(hm: (int, int)): string {
    if hm.0 > 0 then IntToString(hm.0) + "h" + (if hm.1 > 0 then IntToString(hm.1) + "min" else "")
    else IntToString(hm.1) + "min"
  }

  /** `formatDuration`: the announced window of a scheduled incident, else
      the time since it started. */
  function FormatDuration(incident: Incident, now: int): (r: string)
    ensures incident.status == "scheduled" ==> r == incident.duration
    ensures incident.status != "scheduled" ==> r == "Depuis " + SpanText(HoursAndMinutes(now - incident.createdAt))
  {
    if incident.status == "scheduled" then incident.duration
    else "Depuis " + SpanText(HoursAndMinutes(now - incident.createdAt))
  }

  /** `getEstimatedResolutionText`. */
  function EstimatedResolutionText(incident: Incident, now: int): (r: Option<string>)
    ensures r.None? <==> incident.estimatedResolution.None?
    ensures incident.estimatedResolution.Some? && incident.estimatedResolution.value <= now ==>
      r == Some("Résolution imminente")
    ensures incident.estimatedResolution.Some? && incident.estimatedResolution.value > now ==>
      r == Some("Résolution estimée dans " + SpanText(HoursAndMinutes(incident.estimatedResolution.value - now)))
  {
    match incident.estimatedResolution
    case None => None
    case Some(resolution) =>
      var diff := resolution - now;
      if diff <= 0 then Some("Résolution imminente")
      else Some("Résolution estimée dans " + SpanText(HoursAndMinutes(diff)))
  }

  /** A span of `h` hours, `m` minutes and `s` milliseconds splits into
      exactly `h` and `m`. */
  lemma HoursAndMinutesOf(h: nat, m: nat, s: nat)
    requires m < 60 && s < MS_PER_MINUTE
    ensures HoursAndMinutes(h * MS_PER_HOUR + m * MS_PER_MINUTE + s) == (h, m)
  {
    var rest := m * MS_PER_MINUTE + s;
    assert 0 <= rest < MS_PER_HOUR;
    var ms := h * MS_PER_HOUR + rest;
    assert ms / MS_PER_HOUR == h;
    assert Rem(ms, MS_PER_HOUR) == rest;
    assert rest / MS_PER_MINUTE == m;
  }

  /** An incident that has lasted `h` hours and `m` minutes (plus less than
      a minute) shows "Depuis {h}h{m}min", without the minutes when there
      are none and without the hours when there are none. */
  lemma DurationText(incident: Incident, now: int, h: nat, m: nat, s: nat)
    requires incident.status != "scheduled"
    requires m < 60 && s < MS_PER_MINUTE
    requires now - incident.createdAt == h * MS_PER_HOUR + m * MS_PER_MINUTE + s
    ensures h > 0 && m > 0 ==> FormatDuration(incident, now) == "Depuis " + IntToString(h) + "h" + IntToString(m) + "min"
    ensures h > 0 && m == 0 ==> FormatDuration(incident, now) == "Depuis " + IntToString(h) + "h"
    ensures h == 0 ==> FormatDuration(incident, now) == "Depuis " + IntToString(m) + "min"
  {
    HoursAndMinutesOf(h, m, s);
  }

  /** An estimate `h` hours and `m` minutes (plus less than a minute) ahead
      shows "Résolution estimée dans {h}h{m}min", shortened the same way. */
  lemma ResolutionText(incident: Incident, now: int, h: nat, m: nat, s: nat)
    requires incident.estimatedResolution.Some?
    requires m < 60 && s < MS_PER_MINUTE && (h > 0 || m > 0 || s > 0)
    requires incident.estimatedResolution.value - now == h * MS_PER_HOUR + m * MS_PER_MINUTE + s
    ensures h > 0 && m > 0 ==>
      EstimatedResolutionText(incident, now) == Some("Résolution estimée dans " + IntToString(h) + "h" + IntToString(m) + "min")
    ensures h > 0 && m == 0 ==>
      EstimatedResolutionText(incident, now) == Some("Résolution estimée dans " + IntToString(h) + "h")
    ensures h == 0 ==>
      EstimatedResolutionText(incident, now) == Some("Résolution estimée dans " + IntToString(m) + "min")
  {
    HoursAndMinutesOf(h, m, s);
    assert h * MS_PER_HOUR >= 0 && m * MS_PER_MINUTE >= 0;
    assert h > 0 ==> h * MS_PER_HOUR > 0;
    assert m > 0 ==> m * MS_PER_MINUTE > 0;
    var diff := incident.estimatedResolution.value - now;
    assert diff > 0;
    assert EstimatedResolutionText(incident, now) == Some("Résolution estimée dans " + SpanText((h, m)));
    var prefix := "Résolution estimée dans ";
    if h > 0 && m > 0 {
      assert prefix + SpanText((h, m)) == prefix + IntToString(h) + "h" + IntToString(m) + "min";
    } else if h > 0 {
      assert prefix + SpanText((h, m)) == prefix + IntToString(h) + "h";
    } else {
      assert prefix + SpanText((h, m)) == prefix + IntToString(m) + "min";
    }
  }

  /** An incident that started 90 minutes ago has lasted "1h30min", and one
      that started exactly two hours ago "2h". */
  lemma DurationExamples(incident: Incident, now: int)
    requires incident.status == "active"
    ensures incident.createdAt == now - 90 * MS_PER_MINUTE ==> FormatDuration(incident, now) == "Depuis 1h30min"
    ensures incident.createdAt == now - 2 * MS_PER_HOUR ==> FormatDuration(incident, now) == "Depuis 2h"
  {
    if incident.createdAt == now - 90 * MS_PER_MINUTE {
      assert HoursAndMinutes(90 * MS_PER_MINUTE) == (1, 30);
      assert IntToString(1) == "1" && IntToString(30) == "30";
    }
    if incident.createdAt == now - 2 * MS_PER_HOUR {
      assert HoursAndMinutes(2 * MS_PER_HOUR) == (2, 0);
      assert IntToString(2) == "2";
    }
  }

  /* ---------------- the service ---------------- */

  class IncidentsService {
    const storage: StorageService
    /** `calculateDistance`, in kilometres. */
    const distance: (GeoPoint, GeoPoint) -> real
    /** The incidents `getIncidents` builds on a miss at a given instant. */
    const sampleIncidents: int -> seq<Incident>

    constructor (storage: StorageService, distance: (GeoPoint, GeoPoint) -> real)
      ensures this.storage == storage && this.distance == distance && sampleIncidents == SampleIncidents
    {
      this.storage := storage;
      this.distance := distance;
      this.sampleIncidents := SampleIncidents;
    }

    /** `getIncidents(userLocation)`: the cached list as it is, whatever the
        position; on a miss, the sample incidents sorted by distance when
        the position is given, cached for a quarter of an hour. */
    method GetIncidents(location: Option<GeoPoint>, now: int) returns (incidents: seq<Incident>)
      requires storage.Valid()
      modifies storage
      ensures storage.Valid()
      ensures (IncidentList(incidents), storage.items)
        == CacheFirst(old(storage.items), INCIDENTS_CACHE_KEY, IncidentList(BuiltIncidents(sampleIncidents(now), location, distance)),
                      INCIDENTS_TTL_MS, now)
    {
      var cached := storage.GetCachedData(INCIDENTS_CACHE_KEY, now);
      if cached.IncidentList? {
        incidents := cached.incidents;
        return;
      }
      incidents := sampleIncidents(now);
      if location.Some? {
        incidents := SortByKey(incidents, DistanceFrom(location.value, distance));
      }
      storage.SetCachedData(INCIDENTS_CACHE_KEY, IncidentList(incidents), INCIDENTS_TTL_MS, now);
    }

    /** `getIncidentById`: the first incident with the id, or none. */
    method GetIncidentById(id: string, now: int) returns (incident: Option<Incident>)
      requires storage.Valid()
      modifies storage
      ensures storage.Valid()
      ensures var (listed, items) :=
        CacheFirst(old(storage.items), INCIDENTS_CACHE_KEY, IncidentList(sampleIncidents(now)), INCIDENTS_TTL_MS, now);
        && storage.items == items
        && (incident.Some? ==> incident.value.id == id && exists i ::
              && 0 <= i < |listed.incidents|
              && listed.incidents[i] == incident.value
              && forall j :: 0 <= j < i ==> listed.incidents[j].id != id)
        && (incident.None? <==> forall i :: i in listed.incidents ==> i.id != id)
    {
      var incidents := GetIncidents(None, now);
      match FirstIndex(incidents, (i: Incident) => i.id == id)
      case Some(k) => incident := Some(incidents[k]);
      case None => incident := None;
    }

    /** `getServiceStatus`: cached for 0.083 hours. */
    method GetServiceStatus(now: int) returns (status: ServiceStatus)
      requires storage.Valid()
      modifies storage
      ensures storage.Valid()
      ensures (StatusData(status), storage.items)
        == CacheFirst(old(storage.items), SERVICE_STATUS_CACHE_KEY, StatusData(SampleStatus(now)), STATUS_TTL_MS, now)
    {
      var cached := storage.GetCachedData(SERVICE_STATUS_CACHE_KEY, now);
      if cached.StatusData? {
        status := cached.status;
      } else {
        status := SampleStatus(now);
        storage.SetCachedData(SERVICE_STATUS_CACHE_KEY, StatusData(status), STATUS_TTL_MS, now);
      }
    }

    /** `refreshServiceStatus`: invalidates, then reads, so the status is
        always rebuilt and cached anew. */
    method RefreshServiceStatus(now: int) returns (status: ServiceStatus)
      requires storage.Valid()
      modifies storage
      ensures storage.Valid()
      ensures status == SampleStatus(now)
      ensures storage.items == Written(old(storage.items), SERVICE_STATUS_CACHE_KEY, StatusData(status), STATUS_TTL_MS, now)
    {
      storage.SetCachedData(SERVICE_STATUS_CACHE_KEY, Null, 0, now);
      ghost var invalidated := storage.items;
      CacheFirstAfterInvalidation(old(storage.items), SERVICE_STATUS_CACHE_KEY, now, StatusData(SampleStatus(now)), STATUS_TTL_MS, now);
      status := GetServiceStatus(now);
      assert AfterRead(invalidated, SERVICE_STATUS_CACHE_KEY, now) == invalidated;
      assert storage.items == Written(invalidated, SERVICE_STATUS_CACHE_KEY, StatusData(status), STATUS_TTL_MS, now);
    }

    /** `getIncidentNotifications`. */
    method GetIncidentNotifications(now: int) returns (notifications: seq<IncidentNotification>)
      requires storage.Valid()
      modifies storage
      ensures storage.Valid()
      ensures notifications == StoredSubscriptions(old(storage.items), now)
      ensures storage.items == AfterRead(old(storage.items), NOTIFICATIONS_CACHE_KEY, now)
    {
      var cached := storage.GetCachedData(NOTIFICATIONS_CACHE_KEY, now);
      if cached.SubscriptionList? {
        notifications := cached.subscriptions;
      } else {
        notifications := [];
      }
    }

    /** `subscribeToIncidentNotifications`: appends an enabled subscription,
        even when one exists already, and stores the list for a week. */
    method Subscribe(incidentId: string, now: int)
      requires storage.Valid()
      modifies storage
      ensures storage.Valid()
      ensures storage.items == Written(AfterRead(old(storage.items), NOTIFICATIONS_CACHE_KEY, now), NOTIFICATIONS_CACHE_KEY,
        SubscriptionList(StoredSubscriptions(old(storage.items), now) + [NewSubscription(incidentId, now)]),
        NOTIFICATIONS_TTL_MS, now)
    {
      var notifications := GetIncidentNotifications(now);
      notifications := notifications + [NewSubscription(incidentId, now)];
      storage.SetCachedData(NOTIFICATIONS_CACHE_KEY, SubscriptionList(notifications), NOTIFICATIONS_TTL_MS, now);
    }

    /** `unsubscribeFromIncidentNotifications`: drops every subscription to
        the incident and stores the rest, in order, for a week. */
    method Unsubscribe(incidentId: string, now: int)
      requires storage.Valid()
      modifies storage
      ensures storage.Valid()
      ensures storage.items == Written(AfterRead(old(storage.items), NOTIFICATIONS_CACHE_KEY, now), NOTIFICATIONS_CACHE_KEY,
        SubscriptionList(WithoutIncident(StoredSubscriptions(old(storage.items), now), incidentId)),
        NOTIFICATIONS_TTL_MS, now)
    {
      var notifications := GetIncidentNotifications(now);
      var filtered := Filter(notifications, n => OtherIncident(incidentId, n));
      storage.SetCachedData(NOTIFICATIONS_CACHE_KEY, SubscriptionList(filtered), NOTIFICATIONS_TTL_MS, now);
    }

    /** `isSubscribedToIncident`. */
    method IsSubscribed(incidentId: string, now: int) returns (subscribed: bool)
      requires storage.Valid()
      modifies storage
      ensures storage.Valid()
      ensures subscribed == SubscribedIn(StoredSubscriptions(old(storage.items), now), incidentId)
      ensures storage.items == AfterRead(old(storage.items), NOTIFICATIONS_CACHE_KEY, now)
    {
      var notifications := GetIncidentNotifications(now);
      subscribed := exists n :: n in notifications && n.incidentId == incidentId && n.enabled;
    }

    /** `searchIncidentsByAddress`: the incidents `getIncidents()` returns
        whose location or address contains the query. */
    method SearchIncidentsByAddress(query: string, now: int) returns (found: seq<Incident>)
      requires storage.Valid()
      modifies storage
      ensures storage.Valid()
      ensures var (listed, items) :=
        CacheFirst(old(storage.items), INCIDENTS_CACHE_KEY, IncidentList(sampleIncidents(now)), INCIDENTS_TTL_MS, now);
        storage.items == items && found == SearchIn(listed.incidents, query)
    {
      var incidents := GetIncidents(None, now);
      found := Filter(incidents, i => MatchesAddress(query, i));
    }
  }

  /* ---------------- properties across calls ---------------- */

  /** After subscribing at `t`, the incident counts as subscribed until the
      list expires a week later. */
  lemma SubscribeThenSubscribed(items: Items, incidentId: string, t: int, later: int)
    requires later <= t + NOTIFICATIONS_TTL_MS
    ensures var l := StoredSubscriptions(items, t) + [NewSubscription(incidentId, t)];
      var after := Written(AfterRead(items, NOTIFICATIONS_CACHE_KEY, t), NOTIFICATIONS_CACHE_KEY,
                           SubscriptionList(l), NOTIFICATIONS_TTL_MS, t);
      && StoredSubscriptions(after, later) == l
      && |l| == |StoredSubscriptions(items, t)| + 1
      && SubscribedIn(StoredSubscriptions(after, later), incidentId)
  {
    var l := StoredSubscriptions(items, t) + [NewSubscription(incidentId, t)];
    WriteThenRead(AfterRead(items, NOTIFICATIONS_CACHE_KEY, t), NOTIFICATIONS_CACHE_KEY, SubscriptionList(l), NOTIFICATIONS_TTL_MS, t, later);
    assert l[|l| - 1] == NewSubscription(incidentId, t);
  }

  /** After unsubscribing at `t`, the incident is not subscribed until the
      list expires, and no other incident's subscriptions change. */
  lemma UnsubscribeThenNotSubscribed(items: Items, incidentId: string, t: int, later: int)
    requires later <= t + NOTIFICATIONS_TTL_MS
    ensures var l := WithoutIncident(StoredSubscriptions(items, t), incidentId);
      var after := Written(AfterRead(items, NOTIFICATIONS_CACHE_KEY, t), NOTIFICATIONS_CACHE_KEY,
                           SubscriptionList(l), NOTIFICATIONS_TTL_MS, t);
      && StoredSubscriptions(after, later) == l
      && !SubscribedIn(StoredSubscriptions(after, later), incidentId)
  {
    var l := WithoutIncident(StoredSubscriptions(items, t), incidentId);
    WriteThenRead(AfterRead(items, NOTIFICATIONS_CACHE_KEY, t), NOTIFICATIONS_CACHE_KEY, SubscriptionList(l), NOTIFICATIONS_TTL_MS, t, later);
  }

  /** The cached list is returned as it is: within the quarter of an hour
      after a miss, a read with any position, or none, returns the list
      the miss built. */
  lemma CachedIncidentsIgnorePosition(items: Items, samples: seq<Incident>, location: Option<GeoPoint>,
                                      laterSamples: seq<Incident>, other: Option<GeoPoint>,
                                      distance: (GeoPoint, GeoPoint) -> real, now: int, later: int)
    requires !CachedValue(items, INCIDENTS_CACHE_KEY, now).IncidentList?
    requires later <= now + INCIDENTS_TTL_MS
    ensures var built := IncidentList(BuiltIncidents(samples, location, distance));
      var after := CacheFirst(items, INCIDENTS_CACHE_KEY, built, INCIDENTS_TTL_MS, now).1;
      CacheFirst(after, INCIDENTS_CACHE_KEY, IncidentList(BuiltIncidents(laterSamples, other, distance)), INCIDENTS_TTL_MS, later).0
      == built
  {
    var built := IncidentList(BuiltIncidents(samples, location, distance));
    var second := IncidentList(BuiltIncidents(laterSamples, other, distance));
    assert Kind(CachedValue(items, INCIDENTS_CACHE_KEY, now)) != Kind(built);
    CacheFirstMissStores(items, INCIDENTS_CACHE_KEY, built, INCIDENTS_TTL_MS, now, second, INCIDENTS_TTL_MS, later);
  }
}
