/** The records the services exchange (the TypeScript interfaces of the
    service files), and the documents the services write to local storage.
    Instants (`Date`) are integer milliseconds since the epoch. */
module Records {
  import opened Wrappers

  /* ---------------- auth.service.ts ---------------- */

  datatype LoginCredentials = LoginCredentials(compteur: string, password: string)

  datatype User = User(id: string, name: string, compteur: string, email: string, phone: string)

  datatype AuthResponse = AuthResponse(user: User, token: string, refreshToken: string)

  /* ---------------- support.service.ts ---------------- */

  datatype Sender = UserSender | AgentSender | BotSender

  /** A chat or ticket message. Attachments are never filled in by the
      services and are not modelled. */
  datatype Message = Message(
    id: string,
    ticketId: Option<string>,
    content: string,
    sender: Sender,
    senderName: Option<string>,
    timestamp: int,
    isRead: bool)

  datatype Agent = Agent(id: string, name: string, department: string, isOnline: bool)

  /** A support ticket. Status, priority and category are the strings the
      caller supplied (`createTicket` casts them with `as any`). */
  datatype Ticket = Ticket(
    id: string,
    title: string,
    description: string,
    status: string,
    priority: string,
    category: string,
    assignedAgent: Option<Agent>,
    messages: seq<Message>,
    createdAt: int,
    updatedAt: int,
    resolvedAt: Option<int>,
    rating: Option<int>,
    feedback: Option<string>)

  datatype ChatSession = ChatSession(
    id: string,
    messages: seq<Message>,
    isActive: bool,
    startedAt: int,
    endedAt: Option<int>)

  /** The chat bot's answer; an absent `requiresHuman` or `createTicket` is false. */
  datatype BotResponse = BotResponse(
    message: string,
    suggestions: Option<seq<string>>,
    requiresHuman: bool,
    createTicket: bool)

  /* ---------------- incidents.service.ts ---------------- */

  datatype GeoPoint = GeoPoint(lat: real, lng: real)

  datatype Incident = Incident(
    id: string,
    kind: string,
    title: string,
    description: string,
    location: string,
    address: string,
    duration: string,
    estimatedResolution: Option<int>,
    affectedUsers: nat,
    lat: real,
    lng: real,
    status: string,
    priority: string,
    createdAt: int,
    updatedAt: int)

  datatype ServiceStatus = ServiceStatus(
    status: string,
    lastCheck: int,
    uptime: real,
    nextMaintenance: Option<int>)

  datatype IncidentNotification = IncidentNotification(
    incidentId: string,
    userId: string,
    enabled: bool,
    createdAt: int)

  /* ---------------- consumption.service.ts ---------------- */

  datatype Unit = KWh | XAF

  datatype ConsumptionData = ConsumptionData(
    current: real,
    limit: real,
    unit: Unit,
    period: string,
    lastUpdate: int)

  datatype ConsumptionHistory = ConsumptionHistory(date: string, consumption: int, cost: int)

  datatype Trend = Up | Down

  datatype ConsumptionComparison = ConsumptionComparison(value: int, trend: Trend, period: string)

  datatype BillData = BillData(
    id: string,
    amount: int,
    currency: string,
    dueDate: int,
    issueDate: int,
    status: string,
    period: string,
    downloadUrl: Option<string>)

  /* ---------------- notifications.service.ts ---------------- */

  datatype NotificationPreferences = NotificationPreferences(
    billing: bool,
    outages: bool,
    promotions: bool,
    maintenance: bool,
    tickets: bool)

  /* ---------------- what local storage holds ---------------- */

  /** The `data` of a cache entry: JSON `null` or one of the values the
      services cache. */
  datatype CachePayload =
    | Null
    | TicketList(tickets: seq<Ticket>)
    | ChatSessionData(session: ChatSession)
    | IncidentList(incidents: seq<Incident>)
    | StatusData(status: ServiceStatus)
    | SubscriptionList(subscriptions: seq<IncidentNotification>)
    | ConsumptionSnapshot(consumption: ConsumptionData)
    | BillSnapshot(bill: BillData)

  /** A JSON document written with `JSON.stringify`. A cache entry whose
      `expiry` is absent or falsy has expiry 0. */
  datatype Doc =
    | CacheEntry(data: CachePayload, expiry: int)
    | UserDoc(user: User)
    | CredentialsDoc(credentials: LoginCredentials)
    | PrefsDoc(prefs: NotificationPreferences)

  /** A local storage value: either the text of one of the documents above,
      or any other text (a plain string the services store as is, or text
      that does not parse as one of the documents). */
  datatype Stored = Text(text: string) | Json(doc: Doc)
}
