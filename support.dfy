/** The support service: tickets read cache-first, ticket mutations that
    invalidate the ticket cache, the keyword chat bot, the chat session
    kept in the cache, and the label and time formatters. */
module Support {
  import opened Wrappers
  import opened Records
  import opened Strings
  import opened JsMath
  import opened Calendar
  import opened Storage
  import opened Lists

  const TICKETS_CACHE_KEY: string := "support_tickets"
  const CHAT_CACHE_KEY: string := "chat_session"

  /** The tickets are cached for half an hour, the chat session for 24 hours. */
  const TICKETS_TTL_MS: nat := HOUR_MS / 2
  const CHAT_TTL_MS: nat := 24 * HOUR_MS

  /* ---------------- the sample tickets ---------------- */

  function AgentMessage(id: string, ticketId: string, content: string, agent: string, at: int): Message {
    Message(id, Some(ticketId), content, AgentSender, Some(agent), at, true)
  }

  function UserTicketMessage(id: string, ticketId: string, content: string, at: int): Message {
    Message(id, Some(ticketId), content, UserSender, None, at, true)
  }

  /** The two tickets `getTickets` builds on a miss; their dates are local
      wall-clock times, so their instants depend on the zone. */
  function SampleTickets(zone: int): seq<Ticket> {
    [ Ticket(
        "T001",
        "Problème de facturation - Montant incorrect",
        "Ma dernière facture indique un montant de 45,000 XAF alors que ma consommation habituelle est de 25,000 XAF. Pourriez-vous vérifier ?",
        "resolved", "high", "billing",
        Some(Agent("agent_1", "Marie Koukou", "Facturation", true)),
        [ UserTicketMessage("msg_1", "T001",
            "Ma dernière facture indique un montant de 45,000 XAF alors que ma consommation habituelle est de 25,000 XAF.",
            LocalInstant(2024, 1, 15, 10, 30, zone)),
          AgentMessage("msg_2", "T001",
            "Bonjour, je vais vérifier votre dossier. Pouvez-vous me donner la période de facturation concernée ?",
            "Marie Koukou", LocalInstant(2024, 1, 15, 14, 20, zone)),
          UserTicketMessage("msg_3", "T001",
            "Il s'agit de la période du 15 décembre au 15 janvier.",
            LocalInstant(2024, 1, 15, 14, 35, zone)),
          AgentMessage("msg_4", "T001",
            "Après vérification, il y avait effectivement une erreur dans le relevé. Votre facture a été corrigée à 24,750 XAF. Un avoir sera appliqué sur votre prochaine facture.",
            "Marie Koukou", LocalInstant(2024, 1, 18, 9, 15, zone)) ],
        LocalInstant(2024, 1, 15, 10, 30, zone),
        LocalInstant(2024, 1, 18, 9, 15, zone),
        Some(LocalInstant(2024, 1, 18, 9, 15, zone)),
        Some(5),
        None),
      Ticket(
        "T002",
        "Demande de raccordement nouveau compteur",
        "Je souhaite faire installer un nouveau compteur pour ma nouvelle construction.",
        "in-progress", "medium", "connection",
        Some(Agent("agent_2", "Jean Mballa", "Technique", false)),
        [ UserTicketMessage("msg_5", "T002",
            "Je souhaite faire installer un nouveau compteur pour ma nouvelle construction à Douala.",
            LocalInstant(2024, 1, 10, 9, 0, zone)),
          AgentMessage("msg_6", "T002",
            "Bonjour, pour traiter votre demande, j'ai besoin de l'adresse exacte et du plan de situation.",
            "Jean Mballa", LocalInstant(2024, 1, 10, 11, 30, zone)),
          UserTicketMessage("msg_7", "T002",
            "Voici l'adresse : Rue de la Paix, Akwa, Douala. Je peux vous envoyer le plan par email.",
            LocalInstant(2024, 1, 10, 14, 0, zone)) ],
        LocalInstant(2024, 1, 10, 9, 0, zone),
        LocalInstant(2024, 1, 12, 16, 0, zone),
        None, None, None) ]
  }

  /* ---------------- the ticket that createTicket builds ---------------- */

  /** `s.slice(-n)`: the last `n` characters, or all of them when there are fewer. */
  function LastChars(s: string, n: nat): (r: string)
    ensures |r| == if |s| < n then |s| else n
    ensures s == s[..|s| - |r|] + r
  {
    if |s| < n then s else s[|s| - n..]
  }

  function NewTicket(title: string, description: string, category: string, priority: string, now: int): Ticket {
    Ticket(
      "T" + LastChars(IntToString(now), 3),
      title, description, "open", priority, category, None,
      [Message("msg_" + IntToString(now), None, description, UserSender, None, now, true)],
      now, now, None, None, None)
  }

  /** A new ticket is open, unassigned and unrated, and holds exactly one
      message: the user's, whose content is the description. Its id is
      "T" followed by at most three characters. */
  lemma NewTicketShape(title: string, description: string, category: string, priority: string, now: int)
    ensures var t := NewTicket(title, description, category, priority, now);
      && t.status == "open" && t.assignedAgent.None? && t.rating.None? && t.resolvedAt.None?
      && |t.messages| == 1 && t.messages[0].sender == UserSender
      && t.messages[0].content == description && t.description == description
      && t.createdAt == now == t.updatedAt
      && 2 <= |t.id| <= 4 && t.id[0] == 'T'
  {
  }

  /* ---------------- the chat bot ---------------- */

  /** The topics the bot recognises, in the order it tests them. */
  datatype Topic = Billing | Outage | Meter | Urgency | Other

  function Rank(t: Topic): nat {
    match t
    case Billing => 0
    case Outage => 1
    case Meter => 2
    case Urgency => 3
    case Other => 4
  }

  function Keywords(t: Topic): seq<string> {
    match t
    case Billing => ["facture", "payer", "montant"]
    case Outage => ["panne", "coupure", "électricité"]
    case Meter => ["compteur", "installation", "raccordement"]
    case Urgency => ["urgent", "problème grave"]
    case Other => []
  }

  /** The lower-cased message contains one of the topic's keywords. */
  predicate Mentions(m: string, t: Topic) {
    exists w :: w in Keywords(t) && Contains(m, w)
  }

  /** The topic of a message: the first topic, in the bot's order, one of
      whose keywords the lower-cased message contains. */
  function TopicOf(userMessage: string): (t: Topic)
    ensures t != Other ==> Mentions(ToLower(userMessage), t)
    ensures forall u: Topic :: Rank(u) < Rank(t) && u != Other ==> !Mentions(ToLower(userMessage), u)
  {
    var m := ToLower(userMessage);
    if Mentions(m, Billing) then Billing
    else if Mentions(m, Outage) then Outage
    else if Mentions(m, Meter) then Meter
    else if Mentions(m, Urgency) then Urgency
    else Other
  }

  const BILLING_ANSWER: string :=
    "Je peux vous aider avec votre facture. Votre dernière facture est de 25,430 XAF. Souhaitez-vous procéder au paiement ou avez-vous une question spécifique ?"
  const OUTAGE_ANSWER: string :=
    "Je vois que vous rencontrez un problème d'alimentation. Puis-je avoir votre adresse exacte pour vérifier s'il y a des incidents signalés dans votre zone ?"
  const METER_ANSWER: string :=
    "Pour les questions relatives au compteur, je peux vous aider avec la lecture, le remplacement ou la maintenance. Quel est votre besoin spécifique ?"
  const URGENT_ANSWER: string :=
    "Je comprends que votre situation est urgente. Je vais vous mettre en relation avec un agent disponible immédiatement."
  const DEFAULT_ANSWER: string :=
    "Merci pour votre message. Un de nos agents va examiner votre demande et vous répondre sous peu. Voulez-vous que je crée un ticket de support pour un suivi personnalisé ?"

  const BILLING_SUGGESTIONS: seq<string> := ["Payer ma facture", "Contester le montant", "Télécharger la facture"]
  const OUTAGE_SUGGESTIONS: seq<string> := ["Voir la carte des pannes", "Signaler une panne", "Parler à un agent"]
  const METER_SUGGESTIONS: seq<string> := ["Nouveau raccordement", "Problème de compteur", "Relevé de compteur"]
  const DEFAULT_SUGGESTIONS: seq<string> := ["Créer un ticket", "Parler à un agent", "Voir mes tickets"]

  /** The bot's answer for each topic. */
  function ResponseFor(t: Topic): (r: BotResponse)
    ensures r.createTicket <==> t == Urgency || t == Other
    ensures r.requiresHuman <==> t == Meter || t == Urgency
    ensures r.suggestions.None? <==> t == Urgency
  {
    match t
    case Billing => BotResponse(BILLING_ANSWER, Some(BILLING_SUGGESTIONS), false, false)
    case Outage => BotResponse(OUTAGE_ANSWER, Some(OUTAGE_SUGGESTIONS), false, false)
    case Meter => BotResponse(METER_ANSWER, Some(METER_SUGGESTIONS), true, false)
    case Urgency => BotResponse(URGENT_ANSWER, None, true, true)
    case Other => BotResponse(DEFAULT_ANSWER, Some(DEFAULT_SUGGESTIONS), false, true)
  }

  /** `generateBotResponse`: the answer for the message's topic. A ticket
      is offered exactly when the message names no billing, outage or meter
      keyword, and a human is asked for exactly when a meter or urgency
      keyword decides the topic. */
  function GenerateBotResponse(userMessage: string): (r: BotResponse)
    ensures var m := ToLower(userMessage);
      r.message == BILLING_ANSWER <==> Mentions(m, Billing)
    ensures var m := ToLower(userMessage);
      r.createTicket <==> !Mentions(m, Billing) && !Mentions(m, Outage) && !Mentions(m, Meter)
    ensures var m := ToLower(userMessage);
      r.requiresHuman <==> !Mentions(m, Billing) && !Mentions(m, Outage) && (Mentions(m, Meter) || Mentions(m, Urgency))
  {
    ResponseFor(TopicOf(userMessage))
  }

  /** The bot ignores case: a message and its lower-cased form get the same topic. */
  lemma TopicIgnoresCase(userMessage: string)
    ensures TopicOf(ToLower(userMessage)) == TopicOf(userMessage)
  {
    ToLowerIdempotent(userMessage);
  }

  /** A keyword of a topic, written in any case anywhere in a message,
      decides the topic unless the message mentions a topic tested before it. */
  lemma KeywordDecidesTopic(before: string, word: string, after: string, t: Topic)
    requires ToLower(word) in Keywords(t)
    requires forall u: Topic :: Rank(u) < Rank(t) ==> !Mentions(ToLower(before + word + after), u)
    ensures TopicOf(before + word + after) == t
  {
    var m := ToLower(before + word + after);
    ContainsLowerInfix(before, word, after);
    assert Mentions(m, t);
    var r := TopicOf(before + word + after);
    assert Rank(r) < Rank(t) ==> !Mentions(m, r);
    assert t != Other;
  }

  /** A billing keyword wins over every other topic. */
  lemma BillingWordWins(before: string, word: string, after: string)
    requires ToLower(word) in Keywords(Billing)
    ensures TopicOf(before + word + after) == Billing
    ensures GenerateBotResponse(before + word + after).suggestions.Some?
  {
    KeywordDecidesTopic(before, word, after, Billing);
  }

  /** A message that mentions no keyword at all gets the default answer,
      which offers to create a ticket. */
  lemma DefaultOffersTicket(userMessage: string)
    requires forall t: Topic :: !Mentions(ToLower(userMessage), t)
    ensures TopicOf(userMessage) == Other
    ensures GenerateBotResponse(userMessage).createTicket
    ensures !GenerateBotResponse(userMessage).requiresHuman
  {
    assert !Mentions(ToLower(userMessage), TopicOf(userMessage));
  }

  /* ---------------- chat sessions ---------------- */

  const WELCOME_MESSAGE: string :=
    "Bonjour ! Je suis votre assistant virtuel Eneo. Comment puis-je vous aider aujourd'hui ?"

  function NewSession(now: int): ChatSession {
    ChatSession("chat_" + IntToString(now),
      [Message("welcome_msg", None, WELCOME_MESSAGE, BotSender, None, now, true)],
      true, now, None)
  }

  /** The session after `saveChatMessage(message)`: the message is appended
      and the session is active again. */
  function WithMessage(s: ChatSession, m: Message): (r: ChatSession)
    ensures |r.messages| == |s.messages| + 1 && r.isActive
    ensures r.messages[..|s.messages|] == s.messages && r.messages[|s.messages|] == m
    ensures r.id == s.id && r.startedAt == s.startedAt && r.endedAt == s.endedAt
  {
    s.(messages := s.messages + [m], isActive := true)
  }

  /** The session after `endChatSession`. */
  function Ended(s: ChatSession, now: int): (r: ChatSession)
    ensures !r.isActive && r.endedAt == Some(now)
    ensures r.messages == s.messages && r.id == s.id && r.startedAt == s.startedAt
  {
    s.(isActive := false, endedAt := Some(now))
  }

  function UserChatMessage(content: string, now: int): Message {
    Message("msg_" + IntToString(now), None, content, UserSender, None, now, true)
  }

  function BotChatMessage(content: string, now: int): Message {
    Message("msg_" + IntToString(now + 1), None, content, BotSender, None, now, true)
  }

  /** The session stored under the chat key at `now`, if any. */
  function StoredSession(items: Items, now: int): Option<ChatSession> {
    match CachedValue(items, CHAT_CACHE_KEY, now)
    case ChatSessionData(s) => Some(s)
    case _ => None
  }

  /** The storage after `saveChatMessage(message)` at `now`. */
  function AfterSave(items: Items, message: Message, now: int): Items {
    match StoredSession(items, now)
    case Some(s) => Written(items, CHAT_CACHE_KEY, ChatSessionData(WithMessage(s, message)), CHAT_TTL_MS, now)
    case None => AfterRead(items, CHAT_CACHE_KEY, now)
  }

  /** Saving two messages at the same instant appends both, in order, to a
      stored session, and stores nothing when there is no session. */
  lemma SaveTwice(items: Items, first: Message, second: Message, now: int)
    ensures match StoredSession(items, now)
      case Some(s) =>
        var s' := WithMessage(WithMessage(s, first), second);
        && s'.messages == s.messages + [first, second] && s'.isActive
        && StoredSession(AfterSave(AfterSave(items, first, now), second, now), now) == Some(s')
        && AfterSave(AfterSave(items, first, now), second, now)
           == Written(items, CHAT_CACHE_KEY, ChatSessionData(s'), CHAT_TTL_MS, now)
      case None => AfterSave(AfterSave(items, first, now), second, now) == AfterRead(items, CHAT_CACHE_KEY, now)
  {
    match StoredSession(items, now)
    case Some(s) =>
      var s1 := WithMessage(s, first);
      var s2 := WithMessage(s1, second);
      var middle := Written(items, CHAT_CACHE_KEY, ChatSessionData(s1), CHAT_TTL_MS, now);
      WriteThenRead(items, CHAT_CACHE_KEY, ChatSessionData(s1), CHAT_TTL_MS, now, now);
      assert StoredSession(middle, now) == Some(s1);
      var last := Written(middle, CHAT_CACHE_KEY, ChatSessionData(s2), CHAT_TTL_MS, now);
      assert last == Written(items, CHAT_CACHE_KEY, ChatSessionData(s2), CHAT_TTL_MS, now);
      WriteThenRead(items, CHAT_CACHE_KEY, ChatSessionData(s2), CHAT_TTL_MS, now, now);
      assert s2.messages == s.messages + [first, second];
    case None =>
      ReadTwice(items, CHAT_CACHE_KEY, now);
  }

  /* ---------------- labels ---------------- */

  const STATUS_LABELS: map<string, string> := map[
    "open" := "Ouvert", "assigned" := "Assigné", "in-progress" := "En cours",
    "resolved" := "Résolu", "closed" := "Fermé"]

  const STATUS_COLORS: map<string, string> := map[
    "open" := "text-blue-600 bg-blue-100", "assigned" := "text-orange-600 bg-orange-100",
    "in-progress" := "text-yellow-600 bg-yellow-100", "resolved" := "text-green-600 bg-green-100",
    "closed" := "text-gray-600 bg-gray-100"]

  const PRIORITY_LABELS: map<string, string> := map[
    "low" := "Faible", "medium" := "Moyenne", "high" := "Haute", "urgent" := "Urgente"]

  const PRIORITY_COLORS: map<string, string> := map[
    "low" := "text-green-600 bg-green-100", "medium" := "text-yellow-600 bg-yellow-100",
    "high" := "text-orange-600 bg-orange-100", "urgent" := "text-red-600 bg-red-100"]

  const CATEGORY_LABELS: map<string, string> := map[
    "billing" := "Facturation", "technical" := "Technique", "connection" := "Raccordement",
    "complaint" := "Réclamation", "other" := "Autre"]

  const DEFAULT_COLOR: string := "text-gray-600 bg-gray-100"

  /** A switch over the known values whose default returns the input. */
  function LabelOr(labels: map<string, string>, value: string): (r: string)
    ensures value !in labels ==> r == value
    ensures value in labels ==> r == labels[value]
  {
    if value in labels then labels[value] else value
  }

  /** A switch over the known values whose default is the grey colour. */
  function ColorOr(colors: map<string, string>, value: string): (r: string)
    ensures value !in colors ==> r == DEFAULT_COLOR
    ensures value in colors ==> r == colors[value]
  {
    if value in colors then colors[value] else DEFAULT_COLOR
  }

  function TicketStatusLabel(status: string): string { LabelOr(STATUS_LABELS, status) }
  function TicketStatusColor(status: string): string { ColorOr(STATUS_COLORS, status) }
  function TicketPriorityLabel(priority: string): string { LabelOr(PRIORITY_LABELS, priority) }
  function TicketPriorityColor(priority: string): string { ColorOr(PRIORITY_COLORS, priority) }
  function CategoryLabel(category: string): string { LabelOr(CATEGORY_LABELS, category) }

  /** Unknown statuses are shown as they are; every known status gets a
      French label different from the status itself, and no two known
      statuses share a label. */
  lemma StatusLabelsTranslate(value: string, other: string)
    ensures value !in STATUS_LABELS ==> TicketStatusLabel(value) == value
    ensures value in STATUS_LABELS ==> TicketStatusLabel(value) != value
    ensures value in STATUS_LABELS && other in STATUS_LABELS && value != other ==>
      TicketStatusLabel(value) != TicketStatusLabel(other)
  {
  }

  /** The same for priorities. */
  lemma PriorityLabelsTranslate(value: string, other: string)
    ensures value !in PRIORITY_LABELS ==> TicketPriorityLabel(value) == value
    ensures value in PRIORITY_LABELS ==> TicketPriorityLabel(value) != value
    ensures value in PRIORITY_LABELS && other in PRIORITY_LABELS && value != other ==>
      TicketPriorityLabel(value) != TicketPriorityLabel(other)
  {
  }

  /** The same for categories. */
  lemma CategoryLabelsTranslate(value: string, other: string)
    ensures value !in CATEGORY_LABELS ==> CategoryLabel(value) == value
    ensures value in CATEGORY_LABELS ==> CategoryLabel(value) != value
    ensures value in CATEGORY_LABELS && other in CATEGORY_LABELS && value != other ==>
      CategoryLabel(value) != CategoryLabel(other)
  {
  }

  /** Unknown statuses and priorities are grey. */
  lemma UnknownValuesAreGrey(value: string)
    ensures value !in STATUS_COLORS ==> TicketStatusColor(value) == "text-gray-600 bg-gray-100"
    ensures value !in PRIORITY_COLORS ==> TicketPriorityColor(value) == "text-gray-600 bg-gray-100"
  {
  }

  /* ---------------- formatMessageTime ---------------- */

  /** How long ago a message was sent, as `formatMessageTime` words it;
      `OnDate` stands for the locale date it prints after a week. */
  datatype Elapsed = JustNow | MinutesAgo(minutes: int) | HoursAgo(hours: int) | DaysAgo(days: int) | OnDate

  function FormatMessageTime(timestamp: int, now: int): (r: Elapsed)
    ensures r == JustNow <==> now - timestamp < MS_PER_MINUTE
    ensures r.MinutesAgo? ==>
      1 <= r.minutes < 60 && r.minutes * MS_PER_MINUTE <= now - timestamp < (r.minutes + 1) * MS_PER_MINUTE
    ensures r.HoursAgo? ==>
      1 <= r.hours < 24 && r.hours * MS_PER_HOUR <= now - timestamp < (r.hours + 1) * MS_PER_HOUR
    ensures r.DaysAgo? ==>
      1 <= r.days < 7 && r.days * MS_PER_DAY <= now - timestamp < (r.days + 1) * MS_PER_DAY
    ensures r == OnDate <==> now - timestamp >= 7 * MS_PER_DAY
  {
    var diff := now - timestamp;
    var minutes := FloorDiv(diff, MS_PER_MINUTE);
    var hours := FloorDiv(diff, MS_PER_HOUR);
    var days := FloorDiv(diff, MS_PER_DAY);
    if minutes < 1 then JustNow
    else if minutes < 60 then MinutesAgo(minutes)
    else if hours < 24 then HoursAgo(hours)
    else if days < 7 then DaysAgo(days)
    else OnDate
  }

  /** The words of a relative time; the locale date is not modelled. */
  function ElapsedText(e: Elapsed): (r: Option<string>)
    ensures r.None? <==> e == OnDate
    ensures e.MinutesAgo? ==> r == Some("Il y a " + IntToString(e.minutes) + "min")
    ensures e.HoursAgo? ==> r == Some("Il y a " + IntToString(e.hours) + "h")
    ensures e.DaysAgo? ==> r == Some("Il y a " + IntToString(e.days) + "j")
  {
    match e
    case JustNow => Some("À l'instant")
    case MinutesAgo(m) => Some("Il y a " + IntToString(m) + "min")
    case HoursAgo(h) => Some("Il y a " + IntToString(h) + "h")
    case DaysAgo(d) => Some("Il y a " + IntToString(d) + "j")
    case OnDate => None
  }

  /** A message sent `m` whole minutes ago, for `m` under an hour, reads
      "Il y a {m}min". */
  lemma MinutesAgoText(timestamp: int, now: int, m: int, s: int)
    requires 1 <= m < 60 && 0 <= s < MS_PER_MINUTE
    requires now - timestamp == m * MS_PER_MINUTE + s
    ensures ElapsedText(FormatMessageTime(timestamp, now)) == Some("Il y a " + IntToString(m) + "min")
  {
    assert (now - timestamp) / MS_PER_MINUTE == m;
  }

  /** A message sent `h` whole hours ago, for `h` under a day, reads
      "Il y a {h}h". */
  lemma HoursAgoText(timestamp: int, now: int, h: int, s: int)
    requires 1 <= h < 24 && 0 <= s < MS_PER_HOUR
    requires now - timestamp == h * MS_PER_HOUR + s
    ensures ElapsedText(FormatMessageTime(timestamp, now)) == Some("Il y a " + IntToString(h) + "h")
  {
    assert (now - timestamp) / MS_PER_MINUTE >= 60;
    assert (now - timestamp) / MS_PER_HOUR == h;
  }

  /** A message sent `d` whole days ago, for `d` under a week, reads
      "Il y a {d}j". */
  lemma DaysAgoText(timestamp: int, now: int, d: int, s: int)
    requires 1 <= d < 7 && 0 <= s < MS_PER_DAY
    requires now - timestamp == d * MS_PER_DAY + s
    ensures ElapsedText(FormatMessageTime(timestamp, now)) == Some("Il y a " + IntToString(d) + "j")
  {
    assert (now - timestamp) / MS_PER_MINUTE >= 60;
    assert (now - timestamp) / MS_PER_HOUR >= 24;
    assert (now - timestamp) / MS_PER_DAY == d;
  }

  /* ---------------- the service ---------------- */

  class SupportService {
    const storage: StorageService
    /** The tickets `getTickets` builds on a miss, in the local time zone
        `zone` (milliseconds east of UTC). */
    const sampleTickets: seq<Ticket>

    constructor (storage: StorageService, zone: int)
      ensures this.storage == storage && sampleTickets == SampleTickets(zone)
    {
      this.storage := storage;
      this.sampleTickets := SampleTickets(zone);
    }

    /** `getTickets`: the cached tickets, or the sample tickets, cached for
        half an hour. */
    method GetTickets(now: int) returns (tickets: seq<Ticket>)
      requires storage.Valid()
      modifies storage
      ensures storage.Valid()
      ensures (TicketList(tickets), storage.items)
        == CacheFirst(old(storage.items), TICKETS_CACHE_KEY, TicketList(sampleTickets), TICKETS_TTL_MS, now)
    {
      var cached := storage.GetCachedData(TICKETS_CACHE_KEY, now);
      if cached.TicketList? {
        tickets := cached.tickets;
      } else {
        tickets := sampleTickets;
        storage.SetCachedData(TICKETS_CACHE_KEY, TicketList(tickets), TICKETS_TTL_MS, now);
      }
    }

    /** `getTicketById`: the first ticket with the id, or none. */
    method GetTicketById(id: string, now: int) returns (ticket: Option<Ticket>)
      requires storage.Valid()
      modifies storage
      ensures storage.Valid()
      ensures var (listed, items) :=
        CacheFirst(old(storage.items), TICKETS_CACHE_KEY, TicketList(sampleTickets), TICKETS_TTL_MS, now);
        && storage.items == items
        && (ticket.Some? ==> ticket.value.id == id && exists i ::
              && 0 <= i < |listed.tickets|
              && listed.tickets[i] == ticket.value
              && forall j :: 0 <= j < i ==> listed.tickets[j].id != id)
        && (ticket.None? <==> forall t :: t in listed.tickets ==> t.id != id)
    {
      var tickets := GetTickets(now);
      match FirstIndex(tickets, (t: Ticket) => t.id == id)
      case Some(i) => ticket := Some(tickets[i]);
      case None => ticket := None;
    }

    /** `createTicket`: the new open ticket; the ticket cache is invalidated. */
    method CreateTicket(title: string, description: string, category: string, priority: string, now: int)
      returns (ticket: Ticket)
      requires storage.Valid()
      modifies storage
      ensures storage.Valid()
      ensures ticket == NewTicket(title, description, category, priority, now)
      ensures storage.items == Written(old(storage.items), TICKETS_CACHE_KEY, Null, 0, now)
    {
      ticket := NewTicket(title, description, category, priority, now);
      storage.SetCachedData(TICKETS_CACHE_KEY, Null, 0, now);
    }

    /** `addMessageToTicket`: the user's new message; the ticket cache is
        invalidated. Attachments are not modelled. */
    method AddMessageToTicket(ticketId: string, content: string, now: int) returns (message: Message)
      requires storage.Valid()
      modifies storage
      ensures storage.Valid()
      ensures message == Message("msg_" + IntToString(now), Some(ticketId), content, UserSender, None, now, true)
      ensures storage.items == Written(old(storage.items), TICKETS_CACHE_KEY, Null, 0, now)
    {
      message := Message("msg_" + IntToString(now), Some(ticketId), content, UserSender, None, now, true);
      storage.SetCachedData(TICKETS_CACHE_KEY, Null, 0, now);
    }

    /** `reopenTicket`: only invalidates the ticket cache. */
    method ReopenTicket(ticketId: string, reason: string, now: int)
      requires storage.Valid()
      modifies storage
      ensures storage.Valid()
      ensures storage.items == Written(old(storage.items), TICKETS_CACHE_KEY, Null, 0, now)
    {
      storage.SetCachedData(TICKETS_CACHE_KEY, Null, 0, now);
    }

    /** `rateTicket`: only invalidates the ticket cache. */
    method RateTicket(ticketId: string, rating: int, feedback: Option<string>, now: int)
      requires storage.Valid()
      modifies storage
      ensures storage.Valid()
      ensures storage.items == Written(old(storage.items), TICKETS_CACHE_KEY, Null, 0, now)
    {
      storage.SetCachedData(TICKETS_CACHE_KEY, Null, 0, now);
    }

    /** `getChatSession`: the cached session, if any. */
    method GetChatSession(now: int) returns (session: Option<ChatSession>)
      requires storage.Valid()
      modifies storage
      ensures storage.Valid()
      ensures session == StoredSession(old(storage.items), now)
      ensures storage.items == AfterRead(old(storage.items), CHAT_CACHE_KEY, now)
    {
      var cached := storage.GetCachedData(CHAT_CACHE_KEY, now);
      if cached.ChatSessionData? {
        session := Some(cached.session);
      } else {
        session := None;
      }
    }

    /** `startChatSession`: a new active session holding the welcome message,
        cached for 24 hours. */
    method StartChatSession(now: int) returns (session: ChatSession)
      requires storage.Valid()
      modifies storage
      ensures storage.Valid()
      ensures session == NewSession(now)
      ensures storage.items == Written(old(storage.items), CHAT_CACHE_KEY, ChatSessionData(session), CHAT_TTL_MS, now)
    {
      session := NewSession(now);
      storage.SetCachedData(CHAT_CACHE_KEY, ChatSessionData(session), CHAT_TTL_MS, now);
    }

    /** `saveChatMessage`: appends to the stored session, if there is one,
        and marks it active. */
    method SaveChatMessage(message: Message, now: int)
      requires storage.Valid()
      modifies storage
      ensures storage.Valid()
      ensures storage.items == AfterSave(old(storage.items), message, now)
    {
      var session := GetChatSession(now);
      if session.Some? {
        storage.SetCachedData(CHAT_CACHE_KEY, ChatSessionData(WithMessage(session.value, message)), CHAT_TTL_MS, now);
      }
    }

    /** `sendChatMessage`: the bot's answer; with a stored session, the
        user's message and then the bot's are appended to it. */
    method SendChatMessage(message: string, now: int) returns (response: BotResponse)
      requires storage.Valid()
      modifies storage
      ensures storage.Valid()
      ensures response == GenerateBotResponse(message)
      ensures match StoredSession(old(storage.items), now)
        case Some(s) =>
          var s' := WithMessage(WithMessage(s, UserChatMessage(message, now)), BotChatMessage(response.message, now));
          && s'.messages == s.messages + [UserChatMessage(message, now), BotChatMessage(response.message, now)]
          && StoredSession(storage.items, now) == Some(s')
          && storage.items == Written(old(storage.items), CHAT_CACHE_KEY, ChatSessionData(s'), CHAT_TTL_MS, now)
        case None => storage.items == AfterRead(old(storage.items), CHAT_CACHE_KEY, now)
    {
      response := GenerateBotResponse(message);
      SaveChatMessage(UserChatMessage(message, now), now);
      SaveChatMessage(BotChatMessage(response.message, now), now);
      SaveTwice(old(storage.items), UserChatMessage(message, now), BotChatMessage(response.message, now), now);
    }

    /** `endChatSession`: marks the stored session ended, if there is one. */
    method EndChatSession(now: int)
      requires storage.Valid()
      modifies storage
      ensures storage.Valid()
      ensures match StoredSession(old(storage.items), now)
        case Some(s) => storage.items == Written(old(storage.items), CHAT_CACHE_KEY,
                                                  ChatSessionData(Ended(s, now)), CHAT_TTL_MS, now)
        case None => storage.items == AfterRead(old(storage.items), CHAT_CACHE_KEY, now)
    {
      var session := GetChatSession(now);
      if session.Some? {
        storage.SetCachedData(CHAT_CACHE_KEY, ChatSessionData(Ended(session.value, now)), CHAT_TTL_MS, now);
      }
    }
  }

  /* ---------------- properties across calls ---------------- */

  /** After any ticket mutation (each writes `null` with expiry 0), the next
      `getTickets` misses and rebuilds the sample tickets. */
  lemma MutationForcesRefetch(items: Items, t: int, samples: seq<Ticket>, now: int)
    ensures CacheFirst(Written(items, TICKETS_CACHE_KEY, Null, 0, t), TICKETS_CACHE_KEY,
                       TicketList(samples), TICKETS_TTL_MS, now).0
            == TicketList(samples)
  {
    CacheFirstAfterInvalidation(items, TICKETS_CACHE_KEY, t, TicketList(samples), TICKETS_TTL_MS, now);
  }

  /** A session started at `t` receives the messages sent while it is
      cached: within 24 hours it is found again. */
  lemma StartedSessionIsFound(items: Items, t: int, later: int)
    requires later <= t + CHAT_TTL_MS
    ensures StoredSession(Written(items, CHAT_CACHE_KEY, ChatSessionData(NewSession(t)), CHAT_TTL_MS, t), later)
            == Some(NewSession(t))
  {
    WriteThenRead(items, CHAT_CACHE_KEY, ChatSessionData(NewSession(t)), CHAT_TTL_MS, t, later);
  }
}
