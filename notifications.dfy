/** `notifications.service.ts`: the customer's notification preferences,
    read from and written to local storage, and the page a notification
    action opens. The push and local notification plugins are not part of
    this model. */
module Notifications {
  import opened Wrappers
  import opened Records
  import opened Strings
  import opened Storage

  /** The preferences assumed when none are stored: everything but
      promotions. */
  const DEFAULT_PREFERENCES: NotificationPreferences :=
    NotificationPreferences(billing := true, outages := true, promotions := false,
                            maintenance := true, tickets := true)

  /** `keyof NotificationPreferences`. */
  datatype PreferenceKind = Billing | Outages | Promotions | Maintenance | Tickets

  function Preference(prefs: NotificationPreferences, kind: PreferenceKind): bool {
    match kind
    case Billing => prefs.billing
    case Outages => prefs.outages
    case Promotions => prefs.promotions
    case Maintenance => prefs.maintenance
    case Tickets => prefs.tickets
  }

  /** `prefs[type] = enabled`: the field `kind` set, every other field kept. */
  function WithPreference(prefs: NotificationPreferences, kind: PreferenceKind, enabled: bool)
    : (r: NotificationPreferences)
    ensures Preference(r, kind) == enabled
    ensures forall other :: other != kind ==> Preference(r, other) == Preference(prefs, other)
  {
    match kind
    case Billing => prefs.(billing := enabled)
    case Outages => prefs.(outages := enabled)
    case Promotions => prefs.(promotions := enabled)
    case Maintenance => prefs.(maintenance := enabled)
    case Tickets => prefs.(tickets := enabled)
  }

  /** Two preference records with the same fields are the same record. */
  lemma PreferencesExtensional(a: NotificationPreferences, b: NotificationPreferences)
    requires forall kind :: Preference(a, kind) == Preference(b, kind)
    ensures a == b
  {
    assert Preference(a, Billing) == Preference(b, Billing);
    assert Preference(a, Outages) == Preference(b, Outages);
    assert Preference(a, Promotions) == Preference(b, Promotions);
    assert Preference(a, Maintenance) == Preference(b, Maintenance);
    assert Preference(a, Tickets) == Preference(b, Tickets);
  }

  /** Setting a field to the value it has changes nothing. */
  lemma WithSamePreference(prefs: NotificationPreferences, kind: PreferenceKind)
    ensures WithPreference(prefs, kind, Preference(prefs, kind)) == prefs
  {
    PreferencesExtensional(WithPreference(prefs, kind, Preference(prefs, kind)), prefs);
  }

  /** After setting two different fields, in either order, each field reads
      the same. */
  lemma WithPreferenceCommutesAt(prefs: NotificationPreferences, kind: PreferenceKind, other: PreferenceKind,
                                 enabled: bool, otherEnabled: bool, k: PreferenceKind)
    requires kind != other
    ensures Preference(WithPreference(WithPreference(prefs, kind, enabled), other, otherEnabled), k)
            == Preference(WithPreference(WithPreference(prefs, other, otherEnabled), kind, enabled), k)
  {
    if k == kind {
      assert Preference(WithPreference(prefs, kind, enabled), k) == enabled;
    } else if k == other {
      assert Preference(WithPreference(prefs, other, otherEnabled), k) == otherEnabled;
    }
  }

  /** Setting two different fields gives the same record in either order. */
  lemma WithPreferenceCommutes(prefs: NotificationPreferences, kind: PreferenceKind, other: PreferenceKind,
                               enabled: bool, otherEnabled: bool)
    requires kind != other
    ensures WithPreference(WithPreference(prefs, kind, enabled), other, otherEnabled)
            == WithPreference(WithPreference(prefs, other, otherEnabled), kind, enabled)
  {
    var a := WithPreference(WithPreference(prefs, kind, enabled), other, otherEnabled);
    var b := WithPreference(WithPreference(prefs, other, otherEnabled), kind, enabled);
    forall k ensures Preference(a, k) == Preference(b, k) {
      WithPreferenceCommutesAt(prefs, kind, other, enabled, otherEnabled, k);
    }
    PreferencesExtensional(a, b);
  }

  /** `getNotificationPreferences`, on the stored items. */
  function PreferencesOf(items: Items): (prefs: NotificationPreferences)
    requires ValidItems(items)
    ensures NOTIFICATION_PREFS_KEY !in items ==> prefs == DEFAULT_PREFERENCES
    ensures NOTIFICATION_PREFS_KEY in items ==> prefs == items[NOTIFICATION_PREFS_KEY].doc.prefs
  {
    match StoredPreferencesOf(items)
    case Some(p) => p
    case None => DEFAULT_PREFERENCES
  }

  /** What the preferences are read back as after `setNotificationPreferences`. */
  lemma SetThenGet(items: Items, prefs: NotificationPreferences)
    requires ValidItems(items)
    ensures ValidItems(items[NOTIFICATION_PREFS_KEY := Json(PrefsDoc(prefs))])
    ensures PreferencesOf(items[NOTIFICATION_PREFS_KEY := Json(PrefsDoc(prefs))]) == prefs
  {
  }

  /* ---------------- notification actions ---------------- */

  const DASHBOARD_PATH: string := "/dashboard"
  const INCIDENTS_PATH: string := "/incidents"
  const TICKET_PATH_PREFIX: string := "/ticket/"

  /** The path of `/ticket/${data.ticketId}`; an absent id is written
      "undefined". */
  function TicketPath(ticketId: Option<string>): (path: string)
    ensures |path| >= |TICKET_PATH_PREFIX| && path[..|TICKET_PATH_PREFIX|] == TICKET_PATH_PREFIX
    ensures path[|TICKET_PATH_PREFIX|..] == if ticketId.Some? then ticketId.value else "undefined"
  {
    TICKET_PATH_PREFIX + (match ticketId case Some(id) => id case None => "undefined")
  }

  /** The page a notification action opens. */
  function ActionPath(actionId: string, ticketId: Option<string>): (path: string)
    ensures actionId == "pay_bill" ==> path == DASHBOARD_PATH
    ensures actionId == "view_incident" ==> path == INCIDENTS_PATH
    ensures actionId == "view_ticket" ==> path == TicketPath(ticketId)
    ensures actionId !in {"pay_bill", "view_incident", "view_ticket"} ==> path == DASHBOARD_PATH
  {
    if actionId == "pay_bill" then DASHBOARD_PATH
    else if actionId == "view_incident" then INCIDENTS_PATH
    else if actionId == "view_ticket" then TicketPath(ticketId)
    else DASHBOARD_PATH
  }

  /** Only `view_ticket` opens a ticket page, and the page names the ticket:
      different tickets open different pages. */
  lemma TicketPagesIdentifyTickets(actionId: string, a: string, b: string)
    ensures ActionPath(actionId, Some(a))[..1] == "/"
    ensures actionId != "view_ticket" ==> ActionPath(actionId, Some(a)) in {DASHBOARD_PATH, INCIDENTS_PATH}
    ensures actionId == "view_ticket" && ActionPath(actionId, Some(a)) == ActionPath(actionId, Some(b)) ==> a == b
  {
    if actionId == "view_ticket" && ActionPath(actionId, Some(a)) == ActionPath(actionId, Some(b)) {
      assert a == TicketPath(Some(a))[|TICKET_PATH_PREFIX|..];
      assert b == TicketPath(Some(b))[|TICKET_PATH_PREFIX|..];
    }
  }

  class NotificationsService {
    const storage: StorageService
    /** `window.location.href`, the page the application shows. */
    var href: string

    constructor (storage: StorageService, href: string)
      ensures this.storage == storage && this.href == href
    {
      this.storage := storage;
      this.href := href;
    }

    method GetNotificationPreferences() returns (prefs: NotificationPreferences)
      requires storage.Valid()
      ensures prefs == PreferencesOf(storage.items)
    {
      match StoredPreferencesOf(storage.items)
      case Some(p) => prefs := p;
      case None => prefs := DEFAULT_PREFERENCES;
    }

    method SetNotificationPreferences(prefs: NotificationPreferences)
      requires storage.Valid()
      modifies storage
      ensures storage.Valid()
      ensures storage.items == old(storage.items)[NOTIFICATION_PREFS_KEY := Json(PrefsDoc(prefs))]
      ensures PreferencesOf(storage.items) == prefs
    {
      storage.SetNotificationPreferences(prefs);
    }

    /** `updateNotificationPreference`: reads the preferences, sets one
        field and writes them back. */
    method UpdateNotificationPreference(kind: PreferenceKind, enabled: bool)
      requires storage.Valid()
      modifies storage
      ensures storage.Valid()
      ensures storage.items == old(storage.items)[NOTIFICATION_PREFS_KEY :=
        Json(PrefsDoc(WithPreference(PreferencesOf(old(storage.items)), kind, enabled)))]
      ensures Preference(PreferencesOf(storage.items), kind) == enabled
      ensures forall other :: other != kind ==>
        Preference(PreferencesOf(storage.items), other) == Preference(PreferencesOf(old(storage.items)), other)
    {
      var prefs := GetNotificationPreferences();
      prefs := WithPreference(prefs, kind, enabled);
      SetNotificationPreferences(prefs);
    }

    /** `handleNotificationAction`: opens the page of the action. */
    method HandleNotificationAction(actionId: string, ticketId: Option<string>)
      modifies this
      ensures href == ActionPath(actionId, ticketId)
    {
      if actionId == "pay_bill" {
        href := DASHBOARD_PATH;
      } else if actionId == "view_incident" {
        href := INCIDENTS_PATH;
      } else if actionId == "view_ticket" {
        href := TicketPath(ticketId);
      } else {
        href := DASHBOARD_PATH;
      }
    }
  }
}
