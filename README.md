# Eneo customer app: the service layer and two screens, in Dafny

This project models the logic of a mobile customer application for an
electricity utility. Customers use it to follow their consumption, pay
their bill, report and follow outages, and talk to support. All of that
logic sits in a service layer over the browser's local storage, and in the
state of two screens:

- **Storage** (`storage.dfy`):
  - the key-value store, modelled as a map field of `StorageService`;
  - typed accessors for the session, the biometric settings, the
    notification preferences and the language;
  - a cache that keeps `{data, expiry}` under `eneo_cache_<key>`, evicts an
    entry lazily when it is read after its expiry, and is cleared by prefix.
- **The cache-first services**. Each read returns the cached value, or
  builds a value, caches it with a time-to-live and returns it. Each
  mutation invalidates its cache by writing `null` with expiry 0.
  - `support.dfy`: support tickets, the keyword chat bot, the chat session
    kept in the cache, and the label and elapsed-time formatters.
  - `incidents.dfy`: outages, sorted by distance when a position is known;
    the service status; the incident subscriptions; address search.
  - `consumption.dfy`: the current consumption and bill, the monthly
    history and its month-on-month comparison, the kWh and franc (XAF)
    conversion, and payment.
- **Authentication** (`auth.dfy`): `AuthService` and its in-memory user and
  token, mirrored in storage, moving through login, biometric login,
  logout and token refresh.
- **Notifications** (`notifications.dfy`): the preference record with
  per-field update, and the page a notification action opens.
- **Screens**:
  - `chat_support.dfy`: the chat screen. It appends the message, then the
    reply as a later step, and shows a progress timeline per ticket.
  - `dashboard.dfy`: the dashboard. It has a refresh spinner, a bill that
    goes from unpaid to paying to paid, and a kWh/XAF unit toggle.

Shared modules:

- `records.dfy`: the records;
- `strings.dfy`: JavaScript's `includes`, `trim` and decimal printing, and
  `toLowerCase` on the capitals that lower to one character;
- `js_math.dfy`: `Math.round` and the truncating `%`;
- `calendar.dfy`: civil dates and month arithmetic;
- `sorting.dfy`: a stable sort by key;
- `lists.dfy`: `find` and `filter`;
- `wrappers.dfy`: `Option` and `Result`.

Conventions:

- Time is an integer count of milliseconds, passed in as `now`.
- Where the source calls `Math.random`, a platform plugin or a timer, the
  model takes the outcome as a parameter or as a separate step.
- A method that changes state states its new state outright, as a function
  of the old one: `Storage.Written`, `Storage.AfterRead`,
  `Storage.WithoutPrefix`, `Storage.CacheFirst`, `Auth.WithAuthData`,
  `Auth.WithoutAuthData`. The lemmas about those functions carry what the
  source promises across calls. Examples:
  - a write reads back until it expires;
  - invalidation forces the next read to rebuild;
  - a hit keeps returning the same list, whatever position is asked for;
  - logging out after logging in leaves what logging out alone leaves;
  - a refresh after a logout fails.

Two ways the sources disagree:

- The notification service's own default preferences
  (`notifications.service.ts:386-392`) enable maintenance and ticket
  notices.
- The storage service's default (`storage.service.ts:154-158`) sets only
  billing, outages and promotions, so those two fields are absent, which
  this model reads as false.

The model keeps both, as `Notifications.DEFAULT_PREFERENCES` and
`Storage.STORAGE_DEFAULT_PREFERENCES`.

## Model

| member | source | states |
|---|---|---|
| Storage.CacheKey | src/services/storage.service.ts:176 | a cache key is the prefix `eneo_cache_` followed by the key, which can be recovered from it |
| Storage.CacheKeyInjective | src/services/storage.service.ts:176-198 | different keys are cached under different storage keys |
| Storage.CacheKeyIsNotFixed | src/services/storage.service.ts:176-198 | no cache entry can overwrite one of the accessors' fixed keys |
| Storage.CachePrefixExtendsAppPrefix | src/services/storage.service.ts:204-223 | every key `clearCache` matches starts with `eneo_` too |
| Storage.CachedValue | src/services/storage.service.ts:175-191 | a read is null when the key is absent or empty, when the entry's expiry is non-zero and strictly past, or when the text is not a cache entry; otherwise it is the stored data |
| Storage.AfterRead | src/services/storage.service.ts:182-184 | a read removes exactly the entry it finds expired and nothing else; an unparseable entry stays |
| Storage.Written | src/services/storage.service.ts:193-199 | a write stores `{data, expiry = now + ttl}` under the cache key and leaves every other key as it was |
| Storage.WithoutPrefix | src/services/storage.service.ts:201-226 | the keys kept are exactly those not starting with the prefix, with their values |
| Storage.WriteThenRead | src/services/storage.service.ts:182-199 | up to and including the expiry (and always, when the expiry is 0) a written value reads back unchanged and the read removes nothing |
| Storage.WriteThenReadExpired | src/services/storage.service.ts:182-184 | strictly after the expiry the written value reads as null and only its key is removed |
| Storage.InvalidateThenRead | src/services/storage.service.ts:186-199 | after writing `(null, 0)` every read is null, even at the expiry instant |
| Storage.WriteOtherKey | src/services/storage.service.ts:198 | writing one cache key never changes what another reads |
| Storage.ClearAllSubsumesClearCache | src/services/storage.service.ts:201-226 | `clearAll` removes every key `clearCache` removes, and clearing the cache first makes no difference to it |
| Storage.ReadAfterClearCache | src/services/storage.service.ts:201-208 | after `clearCache` every cache read is null |
| Storage.CacheOperationsKeepValid | src/services/storage.service.ts:175-208 | cache reads, writes and prefix clears keep the accessors' fixed keys holding what they expect |
| Storage.CacheFirst | src/services/support.service.ts:75-78 | a cache-first read returns a value of the kind it builds |
| Storage.CacheFirstHit | src/services/support.service.ts:75-78 | a hit returns the cached value and leaves the storage alone |
| Storage.CacheFirstMissStores | src/services/support.service.ts:75-78 | a miss returns the built value; until it expires every later read returns that value, whatever it would build, and changes nothing |
| Storage.CacheFirstIdempotent | src/services/support.service.ts:75-78 | reading twice at the same instant gives the same value and storage as reading once |
| Storage.CacheFirstAfterInvalidation | src/services/support.service.ts:75-78 | after an invalidation the next cache-first read returns the freshly built value |
| Storage.ReadTwice | src/services/storage.service.ts:182-186 | a second read at the same instant finds nothing more to evict and returns the same value |
| Storage.TextAt | src/services/storage.service.ts:39-51 | reading a plain-text key gives a value exactly when the key is stored |
| Storage.LanguageOf | src/services/storage.service.ts:165-168 | the language is never empty: the stored one, or 'fr' when none or an empty one is stored |
| Storage.AuthStatusRoundTrip | src/services/storage.service.ts:119-126 | `setAuthStatus(b)` then `getAuthStatus()` gives `b` |
| Storage.LanguageRoundTrip | src/services/storage.service.ts:165-172 | a non-empty language set is read back |
| Storage.StorageService.constructor | src/services/storage.service.ts:20-22 | the service works over the local storage as it finds it, whatever it already holds |
| Storage.StorageService.GetAuthToken | src/services/storage.service.ts:80-82 | returns the stored token, or none |
| Storage.StorageService.SetAuthToken | src/services/storage.service.ts:84-86 | stores the token under `eneo_auth_token`, nothing else changes |
| Storage.StorageService.ClearAuthToken | src/services/storage.service.ts:88-90 | removes exactly that key |
| Storage.StorageService.GetRefreshToken | src/services/storage.service.ts:92-94 | returns the stored refresh token, or none |
| Storage.StorageService.SetRefreshToken | src/services/storage.service.ts:96-98 | stores the refresh token, nothing else changes |
| Storage.StorageService.ClearRefreshToken | src/services/storage.service.ts:100-102 | removes exactly that key |
| Storage.StorageService.GetUserData | src/services/storage.service.ts:105-108 | returns the stored user, or none |
| Storage.StorageService.SetUserData | src/services/storage.service.ts:110-112 | stores the user document, nothing else changes |
| Storage.StorageService.ClearUserData | src/services/storage.service.ts:114-116 | removes exactly that key |
| Storage.StorageService.GetAuthStatus | src/services/storage.service.ts:119-122 | true exactly when the stored text is "true" |
| Storage.StorageService.SetAuthStatus | src/services/storage.service.ts:124-126 | stores "true" or "false", which reads back as the status given |
| Storage.StorageService.GetBiometricCredentials | src/services/storage.service.ts:129-132 | returns the stored credentials, or none |
| Storage.StorageService.SetBiometricCredentials | src/services/storage.service.ts:134-136 | stores the credentials document, nothing else changes |
| Storage.StorageService.ClearBiometricCredentials | src/services/storage.service.ts:138-140 | removes exactly that key |
| Storage.StorageService.GetBiometricEnabled | src/services/storage.service.ts:142-145 | true exactly when the stored text is "true" |
| Storage.StorageService.SetBiometricEnabled | src/services/storage.service.ts:147-149 | stores "true" or "false", nothing else changes |
| Storage.StorageService.GetNotificationPreferences | src/services/storage.service.ts:152-159 | the stored preferences, or billing and outages on, promotions off |
| Storage.StorageService.SetNotificationPreferences | src/services/storage.service.ts:161-163 | stores the preference document, nothing else changes |
| Storage.StorageService.GetLanguage | src/services/storage.service.ts:165-168 | the stored language, or 'fr' |
| Storage.StorageService.SetLanguage | src/services/storage.service.ts:170-172 | stores the language, nothing else changes |
| Storage.StorageService.GetCachedData | src/services/storage.service.ts:175-191 | returns the cached value and leaves the storage as the lazy eviction leaves it |
| Storage.StorageService.SetCachedData | src/services/storage.service.ts:193-199 | the storage becomes the written storage |
| Storage.StorageService.RemoveKeysWithPrefix | src/services/storage.service.ts:202-226 | the loop over the keys removes exactly those starting with the prefix |
| Storage.StorageService.ClearCache | src/services/storage.service.ts:201-208 | removes exactly the keys starting with `eneo_cache_` |
| Storage.StorageService.ClearAll | src/services/storage.service.ts:211-227 | removes exactly the keys starting with `eneo_` |
| Strings.LowerChar | src/services/support.service.ts:332 | the Latin, Latin-1, Greek and Cyrillic capitals, Œ, Ÿ and the Kelvin, Ohm and Ångström signs lower to one character, and the result is never a capital again |
| Strings.ToLower | src/services/support.service.ts:332 | lower-casing keeps the length and maps each character on its own |
| Strings.ToLowerIdempotent | src/services/support.service.ts:332 | lower-casing twice is lower-casing once |
| Strings.ContainsIff | src/services/support.service.ts:334 | `includes` holds exactly when the text occurs at some position |
| Strings.ContainsLowerInfix | src/services/support.service.ts:332-334 | a word written in any case inside a message is found in the lower-cased message |
| Strings.TrimEmptyIff | src/components/ChatSupport.tsx:65 | `trim()` is empty exactly when every character is white space |
| Strings.DecimalRoundTrip | src/services/consumption.service.ts:195 | the decimal digits of a number read back as that number |
| JsMath.Round | src/services/consumption.service.ts:142-144 | `Math.round(x)` is the integer r with r - 0.5 <= x < r + 0.5, so halves round up |
| JsMath.Rem | src/services/incidents.service.ts:320 | the truncating `%` has the sign of the dividend and satisfies a = trunc(a/b)·b + r |
| JsMath.RoundOfQuotient150 | src/services/consumption.service.ts:144 | for an integer v, `Math.round(v/150)` is `(v+75)/150` with floor division |
| Calendar.MonthIndexRoundTrip | src/services/consumption.service.ts:85 | a month's index converts back to the month |
| Calendar.MonthsBefore | src/services/consumption.service.ts:85 | `new Date(y, m - i, 1)` is the valid month i before, with carries into the year |
| Calendar.MonthLabelRoundTrip | src/services/consumption.service.ts:89 | a "YYYY-MM" label is seven characters and parses back to its month |
| Sorting.SortByKey | src/services/incidents.service.ts:130-134 | sorting is a permutation |
| Sorting.SortByKeySorted | src/services/incidents.service.ts:130-134 | the sorted list is in non-decreasing key order |
| Sorting.SortByKeyStable | src/services/incidents.service.ts:130-134 | entries with equal keys keep their relative order |
| Sorting.SortByKeyOfSorted | src/services/incidents.service.ts:130-134 | an already sorted list is left as it is |
| Lists.FirstIndex | src/services/support.service.ts:197 | `find` returns the first position satisfying the test, or none exactly when none does |
| Lists.Filter | src/services/incidents.service.ts:247-250 | an element is in the result of `filter` exactly when it is in the input and satisfies the test |
| Lists.FilterCounts | src/services/incidents.service.ts:247-250 | `filter` keeps every copy of each element satisfying the test and no copy of the others |
| Lists.FilterIsSubsequence | src/services/incidents.service.ts:247-250 | `filter` keeps the elements in their order |
| Lists.FilterAppend | src/services/incidents.service.ts:221 | filtering a concatenation filters each part |
| Support.LastChars | src/services/support.service.ts:216 | `slice(-3)` keeps the last three characters, or all when there are fewer |
| Support.NewTicketShape | src/services/support.service.ts:215-233 | a new ticket is open with exactly one user message whose content is the description, and an id of "T" and at most three characters |
| Support.TopicOf | src/services/support.service.ts:331-368 | the topic is one the lower-cased message mentions, and no topic tested before it is mentioned |
| Support.ResponseFor | src/services/support.service.ts:334-368 | the default and urgent answers offer a ticket, the meter and urgent answers ask for a human, only the urgent answer has no suggestions |
| Support.TopicIgnoresCase | src/services/support.service.ts:332 | the answer does not depend on the message's case |
| Support.KeywordDecidesTopic | src/services/support.service.ts:331-362 | a keyword of a topic, in any case, anywhere in the message, decides that topic unless an earlier topic is mentioned |
| Support.BillingWordWins | src/services/support.service.ts:334-339 | "facture", "payer" or "montant" always gets the billing answer, with suggestions |
| Support.DefaultOffersTicket | src/services/support.service.ts:364-368 | a message naming no topic gets the default answer, which offers a ticket and needs no human |
| Support.WithMessage | src/services/support.service.ts:398-399 | saving a message appends it last, keeps the earlier messages and marks the session active |
| Support.Ended | src/services/support.service.ts:407-408 | ending a session deactivates it and stamps the end, keeping its messages |
| Support.SaveTwice | src/services/support.service.ts:305-322 | two saves append both messages in order to a stored session; with no session nothing is stored |
| Support.LabelOr | src/services/support.service.ts:414-493 | a label switch maps known values to their label and returns unknown values unchanged |
| Support.ColorOr | src/services/support.service.ts:431-476 | a colour switch maps unknown values to grey |
| Support.StatusLabelsTranslate | src/services/support.service.ts:414-429 | unknown statuses are returned unchanged; known ones get distinct labels that differ from the status |
| Support.PriorityLabelsTranslate | src/services/support.service.ts:448-461 | unknown priorities are returned unchanged; known ones get distinct labels that differ from the priority |
| Support.CategoryLabelsTranslate | src/services/support.service.ts:478-493 | unknown categories are returned unchanged; known ones get distinct labels that differ from the category |
| Support.UnknownValuesAreGrey | src/services/support.service.ts:431-476 | unknown statuses and priorities are grey |
| Support.GenerateBotResponse | src/services/support.service.ts:331-368 | the billing answer exactly when a billing keyword appears in the lower-cased message; a ticket offered exactly when no billing, outage or meter keyword appears; a human asked for exactly when a meter or urgency keyword decides |
| Support.ElapsedText | src/services/support.service.ts:502-505 | the minutes, hours and days read "Il y a {n}min", "{n}h" and "{n}j"; only the date case has no fixed words |
| Support.MinutesAgoText | src/services/support.service.ts:495-503 | a message sent m whole minutes ago (1 ≤ m < 60) reads "Il y a {m}min" |
| Support.HoursAgoText | src/services/support.service.ts:495-504 | a message sent h whole hours ago (1 ≤ h < 24) reads "Il y a {h}h" |
| Support.DaysAgoText | src/services/support.service.ts:495-505 | a message sent d whole days ago (1 ≤ d < 7) reads "Il y a {d}j" |
| Support.FormatMessageTime | src/services/support.service.ts:495-508 | under a minute is "just now"; then whole minutes under an hour, whole hours under a day, whole days under a week, each the floor of the elapsed time; a week or more prints the date |
| Support.SupportService.constructor | src/services/support.service.ts:84-182 | the service builds the sample tickets in the local time zone |
| Support.SupportService.GetTickets | src/services/support.service.ts:72-192 | a cache-first read of the ticket list with a half-hour TTL |
| Support.SupportService.GetTicketById | src/services/support.service.ts:194-202 | the first ticket of the listed tickets with the id, or none exactly when no ticket has it |
| Support.SupportService.CreateTicket | src/services/support.service.ts:204-243 | returns the new ticket and invalidates the ticket cache |
| Support.SupportService.AddMessageToTicket | src/services/support.service.ts:245-270 | returns the user's message for the ticket and invalidates the ticket cache |
| Support.SupportService.ReopenTicket | src/services/support.service.ts:272-283 | invalidates the ticket cache |
| Support.SupportService.RateTicket | src/services/support.service.ts:285-296 | invalidates the ticket cache |
| Support.SupportService.GetChatSession | src/services/support.service.ts:371-373 | the cached session, if any |
| Support.SupportService.StartChatSession | src/services/support.service.ts:375-393 | a new active session holding the welcome message, cached for 24 hours |
| Support.SupportService.SaveChatMessage | src/services/support.service.ts:395-402 | appends the message to a stored session, else stores nothing |
| Support.SupportService.SendChatMessage | src/services/support.service.ts:299-329 | returns the bot's answer; with a stored session it appends exactly the user's message and then the bot's |
| Support.SupportService.EndChatSession | src/services/support.service.ts:404-411 | marks the stored session ended; without one, stores nothing |
| Support.MutationForcesRefetch | src/services/support.service.ts:236-291 | after any ticket mutation the next `getTickets` rebuilds the list |
| Support.StartedSessionIsFound | src/services/support.service.ts:371-393 | a started session is found again for 24 hours |
| Incidents.BuiltIncidentsByDistance | src/services/incidents.service.ts:129-135 | with a position, the built list is a stable permutation in non-decreasing distance; without one, the list as written |
| Incidents.WithoutIncident | src/services/incidents.service.ts:221 | unsubscribing keeps, in order, every copy of each record of another incident, and no record of this one |
| Incidents.UnsubscribeOther | src/services/incidents.service.ts:206-221 | unsubscribing from one incident keeps a subscription to another |
| Incidents.SearchIn | src/services/incidents.service.ts:247-250 | the search keeps, in order, every copy of each incident whose location or address contains the query, both lower-cased by Strings.ToLower, and nothing else |
| Incidents.SearchIgnoresCase | src/services/incidents.service.ts:248-249 | the query's case does not matter |
| Incidents.SearchFindsLocation | src/services/incidents.service.ts:248 | an incident whose location contains the query is found |
| Incidents.IncidentStatusLabel | src/services/incidents.service.ts:274-285 | unknown statuses are returned unchanged, known ones translated |
| Incidents.IncidentTypeLabel | src/services/incidents.service.ts:287-296 | unknown types are returned unchanged; an outage is "Panne" |
| Incidents.IncidentPriorityColor | src/services/incidents.service.ts:298-309 | exactly the unknown priorities are grey |
| Incidents.HoursAndMinutes | src/services/incidents.service.ts:319-320 | whole hours and the remaining whole minutes bracket the elapsed time |
| Incidents.FormatDuration | src/services/incidents.service.ts:311-327 | a scheduled incident shows its stored duration; any other shows the hours and minutes since it was created |
| Incidents.EstimatedResolutionText | src/services/incidents.service.ts:329-346 | no estimate gives null, a past or present estimate "imminent", a future one the hours and minutes left |
| Incidents.HoursAndMinutesOf | src/services/incidents.service.ts:319-320 | a span of h hours, m minutes and under a minute more splits into exactly h and m |
| Incidents.DurationText | src/services/incidents.service.ts:311-327 | an incident that has lasted h hours and m minutes shows "Depuis {h}h{m}min", "Depuis {h}h" when m is 0, and "Depuis {m}min" when h is 0 |
| Incidents.ResolutionText | src/services/incidents.service.ts:329-346 | an estimate h hours and m minutes ahead shows "Résolution estimée dans" followed by the same text |
| Incidents.DurationExamples | src/services/incidents.service.ts:322-326 | 90 minutes shows "Depuis 1h30min", two hours "Depuis 2h" |
| Incidents.IncidentsService.constructor | src/services/incidents.service.ts:59-126 | the service builds the sample incidents and measures distance with the function given |
| Incidents.IncidentsService.GetIncidents | src/services/incidents.service.ts:45-145 | a cache-first read, with a quarter-hour TTL, of the incidents sorted by distance from the position |
| Incidents.IncidentsService.GetIncidentById | src/services/incidents.service.ts:147-155 | the first listed incident with the id, or none exactly when none has it |
| Incidents.IncidentsService.GetServiceStatus | src/services/incidents.service.ts:157-184 | a cache-first read of the status with a 0.083-hour TTL |
| Incidents.IncidentsService.RefreshServiceStatus | src/services/incidents.service.ts:186-190 | always regenerates the status and caches it |
| Incidents.IncidentsService.GetIncidentNotifications | src/services/incidents.service.ts:229-232 | the stored subscriptions, or none |
| Incidents.IncidentsService.Subscribe | src/services/incidents.service.ts:192-212 | appends one enabled record, without deduplicating, cached for a week |
| Incidents.IncidentsService.Unsubscribe | src/services/incidents.service.ts:214-227 | stores WithoutIncident of the stored list: every record of the other incidents, duplicates included, in order, and none of this incident's |
| Incidents.IncidentsService.IsSubscribed | src/services/incidents.service.ts:234-237 | true exactly when an enabled record for the incident is stored |
| Incidents.KelvinSignQuery | src/services/incidents.service.ts:247-250 | "AKWA" typed with the Kelvin sign searches as "Akwa" does |
| Incidents.IncidentsService.SearchIncidentsByAddress | src/services/incidents.service.ts:239-255 | SearchIn over the incidents `getIncidents()` returns: every matching incident, duplicates included, in order |
| Incidents.SubscribeThenSubscribed | src/services/incidents.service.ts:198-237 | after subscribing, the list has one more record and the incident is subscribed for a week |
| Incidents.UnsubscribeThenNotSubscribed | src/services/incidents.service.ts:220-237 | after unsubscribing, the incident is not subscribed for a week |
| Incidents.CachedIncidentsIgnorePosition | src/services/incidents.service.ts:48-51 | within the TTL after a miss, a read with any position or none returns the list that the miss built |
| Consumption.ConvertUnit | src/services/consumption.service.ts:135-148 | the same unit is the identity; kWh to XAF is the whole number nearest v·150 and XAF to kWh the one nearest v/150, halves rounding up |
| Consumption.ConvertToKWhOfInteger | src/services/consumption.service.ts:143-144 | whole francs convert to `(v+75)/150` kWh |
| Consumption.ConvertRoundTrip | src/services/consumption.service.ts:139-145 | whole kWh convert to francs and back unchanged |
| Consumption.ConvertFromFrancsLoses | src/services/consumption.service.ts:141-145 | francs need not survive the round trip: 100 XAF comes back as 150 |
| Consumption.HistoryEntry | src/services/consumption.service.ts:85-92 | an entry is labelled "YYYY-MM" for its month; a draw in [0, 1) gives 200 to 300 kWh costing 30000 to 45000 XAF |
| Consumption.GetConsumptionHistory | src/services/consumption.service.ts:74-100 | the loop returns exactly `months` entries (none when not positive), entry j being the month `months-1-j` before the current one |
| Consumption.HistoryInOrder | src/services/consumption.service.ts:84-93 | the entries are consecutive months, oldest first, ending with the current month, each within the drawn bounds |
| Consumption.WrittenLabelSkipsBack | src/services/consumption.service.ts:85-89 | as written, at UTC+1 the entry for January 2024 is labelled December 2023 |
| Consumption.Comparison | src/services/consumption.service.ts:102-133 | with fewer than two entries {0, down}; otherwise the trend is up exactly when the last month exceeds the one before, and the value is the size of the change in per cent of the month before, rounded half up |
| Consumption.ComparisonBound | src/services/consumption.service.ts:117-118 | between months of 200 to 300 kWh the change is at most 50 percent |
| Consumption.ComparisonOfEqualMonths | src/services/consumption.service.ts:117-123 | equal months compare as {0, down} |
| Consumption.SampleBill | src/services/consumption.service.ts:163-172 | the built bill is unpaid, issued before now and due after it, twelve days apart |
| Consumption.SampleConsumption | src/services/consumption.service.ts:56-62 | the built reading is in kWh, below its limit, stamped now |
| Consumption.TransactionId | src/services/consumption.service.ts:195 | "TXN_" followed by the digits of the instant |
| Consumption.TransactionIdsDiffer | src/services/consumption.service.ts:195 | payments at different instants get different transaction ids |
| Consumption.DownloadUrl | src/services/consumption.service.ts:217 | the bill's id sits between the host and the suffix of the URL |
| Consumption.DownloadUrlInjective | src/services/consumption.service.ts:217 | different bills get different URLs |
| Consumption.BillStatusLabel | src/services/consumption.service.ts:245-256 | unknown statuses are returned unchanged, known ones translated |
| Consumption.BillStatusColor | src/services/consumption.service.ts:258-269 | exactly the unknown statuses are grey |
| Consumption.ConsumptionService.GetCurrentConsumption | src/services/consumption.service.ts:43-72 | a cache-first read of the reading with a one-hour TTL |
| Consumption.ConsumptionService.GetConsumptionComparison | src/services/consumption.service.ts:102-124 | the comparison of last month's and this month's drawn entries; the change is at most 50 percent, and up exactly when this month's consumption exceeds last month's |
| Consumption.ConsumptionService.GetCurrentBill | src/services/consumption.service.ts:150-182 | a cache-first read of the bill with a six-hour TTL |
| Consumption.ConsumptionService.PayBill | src/services/consumption.service.ts:184-208 | succeeds with the transaction id of the instant and invalidates the bill cache |
| Consumption.PaymentForcesRefetch | src/services/consumption.service.ts:153-198 | after a payment the next `getCurrentBill` rebuilds the bill |
| Consumption.CachedBillIsKept | src/services/consumption.service.ts:153-176 | within six hours of a miss, the same bill is returned |
| Auth.MockResponse | src/services/auth.service.ts:40-50 | the signed-in user has the meter number given, and the token and refresh token are distinct and non-empty |
| Auth.NewToken | src/services/auth.service.ts:120 | a refreshed token starts with "new_mock_token_" |
| Auth.PresentToken | src/services/auth.service.ts:110-137 | an absent or empty stored token counts as no token |
| Auth.WithAuthDataStored | src/services/auth.service.ts:176-188 | after `setAuthData` the tokens and user read back, the status is true, and no other key changes |
| Auth.WithoutAuthDataCleared | src/services/auth.service.ts:190-202 | after `clearAuthData` no token, refresh token or user is stored, the status is false, and no other key changes |
| Auth.ClearAuthDataIdempotent | src/services/auth.service.ts:99-103 | clearing twice is clearing once, and signing in then out leaves what signing out alone leaves |
| Auth.AuthService.constructor | src/services/auth.service.ts:34-35 | no user and no token in memory |
| Auth.AuthService.SetAuthData | src/services/auth.service.ts:176-188 | sets the user and token in memory and in the API client, and stores the session |
| Auth.AuthService.ClearAuthData | src/services/auth.service.ts:190-202 | clears the user and token in memory and in the API client, and clears the stored session |
| Auth.AuthService.Login | src/services/auth.service.ts:37-66 | returns the mock response and sets it as the session |
| Auth.AuthService.LoginWithBiometric | src/services/auth.service.ts:68-92 | fails with its own message when biometrics are unavailable, when authentication fails, or when no credentials are saved, changing nothing; otherwise logs in with the saved credentials |
| Auth.AuthService.Logout | src/services/auth.service.ts:94-105 | no user or token afterwards, and the stored session is cleared |
| Auth.AuthService.RefreshToken | src/services/auth.service.ts:107-132 | without a stored refresh token, fails and logs out; with one, stores and uses a new token, keeping the user |
| Auth.AuthService.IsAuthenticated | src/services/auth.service.ts:134-150 | true exactly when a non-empty token is stored, which then becomes the service's token |
| Auth.AuthService.GetCurrentUser | src/services/auth.service.ts:152-174 | the user in memory, else the stored user, kept in memory, else none |
| Auth.LoginThenLogout | src/services/auth.service.ts:37-105 | after login a token and the meter's user are stored; after logout neither token nor user is |
| Auth.RefreshAfterLogoutFails | src/services/auth.service.ts:94-112 | a refresh right after a logout finds no refresh token |
| Notifications.WithPreference | src/services/notifications.service.ts:404 | `prefs[type] = enabled` sets that field and keeps every other |
| Notifications.PreferencesExtensional | src/services/notifications.service.ts:384-393 | two preference records with the same fields are equal |
| Notifications.WithSamePreference | src/services/notifications.service.ts:404 | setting a field to its own value changes nothing |
| Notifications.WithPreferenceCommutes | src/services/notifications.service.ts:402-406 | updating two different fields gives the same record in either order |
| Notifications.PreferencesOf | src/services/notifications.service.ts:384-393 | the stored record, or everything enabled except promotions |
| Notifications.SetThenGet | src/services/notifications.service.ts:384-400 | preferences set are read back |
| Notifications.TicketPath | src/services/notifications.service.ts:298 | a ticket page is `/ticket/` followed by exactly the id, or by "undefined" when there is none |
| Notifications.ActionPath | src/services/notifications.service.ts:287-303 | pay_bill opens /dashboard, view_incident /incidents, view_ticket the ticket's page, anything else /dashboard |
| Notifications.TicketPagesIdentifyTickets | src/services/notifications.service.ts:287-303 | only view_ticket opens a ticket page, and different tickets open different pages |
| Notifications.NotificationsService.GetNotificationPreferences | src/services/notifications.service.ts:384-393 | returns the stored or the default preferences |
| Notifications.NotificationsService.SetNotificationPreferences | src/services/notifications.service.ts:395-400 | stores the record, which then reads back |
| Notifications.NotificationsService.UpdateNotificationPreference | src/services/notifications.service.ts:402-406 | the field reads back as set and every other field as before |
| Notifications.NotificationsService.HandleNotificationAction | src/services/notifications.service.ts:281-304 | the page shown becomes the action's path |
| ChatSupport.ReplyTopicOf | src/components/ChatSupport.tsx:91-103 | invoice words beat power-cut words, which beat the meter word, matched in the lower-cased input |
| ChatSupport.BotReply | src/components/ChatSupport.tsx:91-103 | the default answer is given exactly when no keyword is found |
| ChatSupport.BotReplyIgnoresCase | src/components/ChatSupport.tsx:92 | the reply does not depend on the input's case |
| ChatSupport.InvoiceWordWins | src/components/ChatSupport.tsx:94-95 | "facture" or "payer" anywhere, in any case, gets the invoice answer |
| ChatSupport.MeterWordAnswered | src/components/ChatSupport.tsx:98-99 | "compteur" gets the meter answer unless an invoice or power-cut word is present |
| ChatSupport.CountFrom | src/components/ChatSupport.tsx:22-29 | a sender's messages are at most all the messages |
| ChatSupport.CountFromAppend | src/components/ChatSupport.tsx:74-86 | appending a message counts one more for its sender only |
| ChatSupport.ChatScreen.constructor | src/components/ChatSupport.tsx:22-31 | the screen opens with the assistant's welcome, an empty input and no reply pending |
| ChatSupport.ChatScreen.SetInputText | src/components/ChatSupport.tsx:30 | the input holds the text typed |
| ChatSupport.ChatScreen.SendMessage | src/components/ChatSupport.tsx:64-77 | a blank input changes nothing; otherwise the user's message is appended, the input cleared, typing shown and the reply scheduled, keeping every message answered or pending |
| ChatSupport.ChatScreen.ReplyArrives | src/components/ChatSupport.tsx:79-88 | exactly one bot message, the answer to the oldest pending input, is appended and typing stops |
| ChatSupport.StatusText | src/components/ChatSupport.tsx:120-128 | unknown statuses are returned unchanged, known ones translated |
| ChatSupport.PriorityColor | src/components/ChatSupport.tsx:130-137 | exactly the unknown priorities are grey |
| ChatSupport.Stage | src/components/ChatSupport.tsx:191-203 | a ticket's progress is one of four stages |
| ChatSupport.TimelineDots | src/components/ChatSupport.tsx:189-203 | four dots, the first always lit, the last exactly when resolved, and a lit dot implies every earlier one |
| ChatSupport.DotsShowStage | src/components/ChatSupport.tsx:191-203 | the lit dots are exactly the first stage-plus-one |
| Dashboard.Toggled | src/components/Dashboard.tsx:34-40 | from kWh the unit becomes XAF with both figures times 150; from XAF it becomes kWh with both divided by 150 and rounded |
| Dashboard.ToggleTwiceFromKWh | src/components/Dashboard.tsx:35-38 | toggling whole kWh twice restores the reading |
| Dashboard.ToggleTwiceFromFrancsLoses | src/components/Dashboard.tsx:35-38 | from francs it need not: 100 XAF comes back as 150 |
| Dashboard.ToggleAgreesWithConvertUnit | src/components/Dashboard.tsx:34-40 | on whole kWh the toggle converts as the consumption service does |
| Dashboard.BillStep | src/components/Dashboard.tsx:27-32 | the bill never moves back, and becomes paid only from paying when the payment completes |
| Dashboard.BillRunNeverUnpays | src/components/Dashboard.tsx:27-32 | once paying the bill never shows unpaid again, and once paid it stays paid |
| Dashboard.PayThenWaitPays | src/components/Dashboard.tsx:27-32 | pressing pay and then waiting pays the bill |
| Dashboard.DashboardScreen.constructor | src/components/Dashboard.tsx:13-16 | the dashboard opens unpaid, not refreshing, at 245 of 300 kWh |
| Dashboard.DashboardScreen.RefreshStatus | src/components/Dashboard.tsx:19-25 | the spinner starts, and a refresh already running is not restarted |
| Dashboard.DashboardScreen.RefreshCompletes | src/components/Dashboard.tsx:21-24 | the refresh timer updates the last check and stops the spinner |
| Dashboard.DashboardScreen.PayBill | src/components/Dashboard.tsx:27-32 | an unpaid bill starts paying; the button is offered only then |
| Dashboard.DashboardScreen.PaymentCompletes | src/components/Dashboard.tsx:29-31 | the payment timer marks the bill paid |
| Dashboard.DashboardScreen.ToggleUnit | src/components/Dashboard.tsx:34-40 | the reading becomes the toggled reading |

## Findings

| source | as written | input that shows it | evidently intended | confidence | as-written member | corrected member |
|---|---|---|---|---|---|---|
| src/services/consumption.service.ts:85-89 | each history entry is labelled with `toISOString().slice(0, 7)` of local midnight on the first of the month, which is a UTC instant | at UTC+1 (Cameroon), the first of January 2024 at 00:00 local is 31 December 2023 at 23:00 UTC, so the January entry is labelled "2023-12" | each entry is labelled with its own local month, "2024-01" | not executed | Consumption.WrittenLabelSkipsBack | Consumption.HistoryInOrder |

## Left out

- The Capacitor secure-storage branch and its plugin initialisation (`storage.service.ts:24-77,212-218`) are platform I/O. Only the local storage path is modelled.
- JSON serialisation is modelled as the stored document itself. Text that does not parse as a cache entry reads as null and is not removed. Storage.ValidItems assumes the user, credentials and preference keys hold their own documents: text that would make `JSON.parse` throw there is not modelled.
- Storage.StorageService.GetNotificationPreferences: the default record sets only three fields; the two fields it leaves absent are modelled as false.
- `console.error` logging and the `catch` blocks for errors that the mock code cannot raise are not modelled. Such errors are a storage failure or a missing `notification.data`.
- Every network call still marked TODO, the API client, and its token are left out. The client's token is the ghost field `Auth.AuthService.apiToken`.
- Clock readings are the `now` parameter. Timers are separate steps: the chat reply, the dashboard refresh and payment, the payment delay and the login delay. Each delay's duration is not modelled.
- The Haversine distance (`incidents.service.ts:258-272`) is floating-point trigonometry. It is an uninterpreted function given to `IncidentsService`.
- `Math.random` in the consumption history is the `draws` parameter, one value in [0, 1) per month.
- Consumption.GetConsumptionHistory: the current month's year must be between 0 and 9999, and `months` at most the number of months since year 0. The model needs that for the "YYYY-MM" label, and `toISOString` prints years outside it in an expanded form. It also labels each entry with its own month: the as-written label is the finding above.
- Consumption.GetConsumptionComparison: takes the current month and two draws. Its requirements come from the history's.
- Consumption.Comparison: the percentage is computed in exact rational arithmetic, not in IEEE doubles. The two can round differently: from 200 to 229 kWh, `29 / 200 * 100` is 14.499999999999998 in doubles, so JavaScript reports 14 where the model reports 15. ComparisonBound holds for both. On whole numbers, Consumption.ConvertUnit and Dashboard.Toggled agree with doubles, because `v * 150` is exact there.
- Consumption.Comparison: the previous month's consumption must be non-zero. JavaScript would give Infinity or NaN there; the history never yields it, since every month is at least 200 kWh.
- Strings.ToLower: lowers only the capitals that map to one character regardless of context: Basic Latin, Latin-1, Œ, Ÿ, the Kelvin, Ohm and Ångström signs, and the unaccented Greek and basic Cyrillic capitals. The rest of Unicode's case mappings is not modelled (Latin Extended-A and B, accented Greek capitals, other scripts), nor 'İ', which JavaScript lowers to two characters, nor the final sigma, which becomes ς at the end of a word.
- Incidents.SearchIn: inherits Strings.ToLower's coverage. A query or address holding one of the unmodelled capitals can match in JavaScript and not in the model.
- Incidents.IncidentsService.SearchIncidentsByAddress: returns SearchIn's result, so it inherits the same gap in case folding.
- `formatConsumption` and `formatAmount` (`Intl.NumberFormat`) and the locale date that `formatMessageTime` prints after a week are locale formatting. The week case is `OnDate`.
- The notifications service's permission requests, plugin setup, local and scheduled notifications, push token, `handleNotificationReceived` and the `notify*` builders are foreign plugin calls and logging. So are the per-kind handlers (`notifications.service.ts:46-380`).
- `getStatusIcon` in the chat screen returns icons. The screen's `showTickets` toggle, its scroll effect and its fixed ticket list are rendering only.
- The dashboard's `serviceStatus` and `comparison` state never change, so they are not modelled.
- A cache entry of the wrong kind under a service's key is treated as a miss. Such an entry is `Storage.Kind` differing from the kind built; the services never write one.
- Identifiers built from `Date.now()` are modelled from `now` with the decimal digits of the instant. `Date` objects are instants in milliseconds, and the local time zone is a fixed offset without daylight saving.
