# Vehicle registry backend: reminder job, location channel and lookup

A Dafny model of the decision logic of a small Express/MongoDB vehicle
registry backend. Three pieces are modelled:

- **The daily expiry-reminder run** (`reminder.dfy`, module `Reminder`). It
  selects every vehicle whose insurance or PUC expiry is at or before now + 3
  days. It skips vehicles with no owner email. It skips vehicles already sent a
  reminder since local midnight. For every other vehicle it composes a subject
  and a body, sends them, and appends one `sent` or `failed` EmailLog entry.
  `RunReminders` runs the loop `ProcessSelected`, and `ProcessVehicle` is the
  loop's body. They are proved equal to the specification functions `Run`,
  `RunPrefix` and `Step`. These functions take the reminder text as a
  function of the vehicle, so each property of a run holds for any message
  text. `RunReminders` uses `BodyOf(dateString)`, the text the job composes. The job's
  properties are lemmas about those functions: the log is append-only, every
  entry belongs to a selected vehicle with an email, and at most one `sent`
  entry exists per vehicle number per day, across any number of runs.
- **The live-location channel** (`location_channel.dfy`, module
  `LocationChannel`). A `sendLocation` event upserts `lastLocation` on the
  first vehicle with exactly that number. It then broadcasts a
  `locationUpdate` to every connected client, even when the store write
  failed. `/api/getLocation` reads the position back. The class `Channel`
  holds the store and the clients' inboxes and updates them in place.
- **The `POST /find` lookup** (`vehicle_routes.dfy`, module `VehicleRoutes`).
  It uppercases the requested number (ASCII letters only) and returns the
  first record with exactly that number. It answers 404 when there is none,
  and 500 when the body has no string number or the store throws.

`models.dfy` (module `Models`) holds the Vehicle and EmailLog documents and
`FindFirst`. `FindFirst` is the store's `findOne({ number })`: the first
record whose number matches exactly. Dates are integer millisecond counts.

What the environment does is given as parameters. Each selected vehicle gets
a `Trial`, which holds:

- the outcome of the dedupe query;
- the outcome of `sendMail`;
- the outcome of the `sent` log write;
- the outcome of the `failed` log write;
- the entry's creation timestamp.

The clock readings `now` and `startOfDay` are parameters. So is
`toDateString`, as an uninterpreted `int -> string`. The location handler gets
the two clock readings it makes, and a flag saying whether the store write
succeeded.

Points of the code that the model follows closely:

- Per-vehicle failures do not always stay inside the per-vehicle handler. Two
  store calls sit outside the per-vehicle `try`, and either one throwing ends
  the run through the outer `catch`. One is the dedupe `findOne`. The other is
  the `failed` log write inside the `catch`. `Step` returns `Aborted` in both
  cases.
- Only `POST /find` uppercases its key. For a string number, the socket
  handler and `/api/getLocation` match the number exactly.
- A `sent` entry needs both the send and the `sent` log write to succeed.
  When the send succeeds but the write throws, the `catch` records a `failed`
  entry that carries the write's error message.

## Model

| member | source | states |
|---|---|---|
| `Models.FindFirst` | server.js:101 | The result is the position of the first record whose number equals the key exactly, or None iff no record has that number |
| `Reminder.Select` | reminder.js:15-25 | A vehicle is selected iff it is in the store and its insurance or PUC expiry is present and at or before the window end; the selection is no longer than the store |
| `Reminder.SelectKeepsCopies` | reminder.js:15-25 | The query returns every qualifying record as often as the store holds it, and no other record |
| `Reminder.ExpiredStaysSelected` | reminder.js:20-25 | With no lower bound, a vehicle selected once is selected again on every later run |
| `Reminder.DisplayName` | reminder.js:59 | The greeting name is the owner's name when present and non-empty, otherwise "User"; it is never empty |
| `Reminder.BodyFrame` | reminder.js:59-65 | The body starts with the greeting, follows it with the introduction naming the vehicle number, and ends with the closing lines |
| `Reminder.InsuranceLineIff` | reminder.js:61-62 | The body has an insurance line right after the introduction iff the insurance expiry is present; that line is the prefix, the formatted insurance expiry date and a newline |
| `Reminder.PucLineIff` | reminder.js:63-64 | The body has a PUC line right after the optional insurance line iff the PUC expiry is present; that line is the prefix, the formatted PUC expiry date and a newline |
| `Reminder.ComposeMessage` | reminder.js:58-65 | The subject is "Vehicle Expiry Reminder: " followed by the number, and the appended body equals the message specification `Body` |
| `Reminder.Step` | reminder.js:38-95 | Processing one vehicle keeps the log, or appends exactly one entry and keeps every earlier one |
| `Reminder.StepOutcome` | reminder.js:38-95 | A vehicle with no email changes nothing. A vehicle already sent today changes nothing. Otherwise exactly one entry is appended, carrying the vehicle's address, number, subject and body and the store's timestamp, unless the run aborts. The entry is `sent` iff the send and the log write both succeed, and it carries the receipt, the send's error, or, for a delivered send whose `sent` write throws, that write's error. The run aborts iff the dedupe query throws, or the `failed` write throws for an attempted vehicle |
| `Reminder.ProcessVehicle` | reminder.js:37-96 | One loop iteration yields exactly the state `Step` specifies |
| `Reminder.ProcessSelected` | reminder.js:37-96 | The loop's final log and completion flag equal the specification `RunPrefix` over the whole selection, which stops at the first abort |
| `Reminder.RunReminders` | reminder.js:14-101 | The run's final log and completion flag equal the specification `Run`. Earlier entries are kept. At most one `sent` entry per number per day is preserved |
| `Reminder.AbortIsFinal` | reminder.js:99-101 | Once an exception reaches the outer handler, no later vehicle is processed |
| `Reminder.RunAppendOnly` | reminder.js:73-93 | Every entry present before a run is unchanged after it; the run only appends |
| `Reminder.RunEntriesDescribeSelectedVehicles` | reminder.js:37-93 | Every appended entry was written for a store vehicle the query selects, which has an owner email, with that vehicle's address, number, subject and body; no vehicle without an email ever gets an entry |
| `Reminder.StepKeepsAtMostOneSentPerNumber` | reminder.js:44-55 | Processing one vehicle never creates a second `sent` entry since midnight for a number |
| `Reminder.RunKeepsAtMostOneSentPerNumber` | reminder.js:44-80 | After a run, each number still has at most one `sent` entry since midnight, even when several records share the number |
| `Reminder.RunCompletesDespiteSendFailures` | reminder.js:84-95 | When the dedupe queries and the `failed` writes succeed for the selected vehicles, the run processes every one of them, whatever the sends do |
| `Reminder.RunNoopWhenAllSentToday` | reminder.js:32-55 | When every selected vehicle with an email already has a `sent` entry today, the run appends nothing; this includes an empty selection |
| `Reminder.DayKeepsAtMostOneSentPerNumber` | reminder.js:44-80 | Over any number of runs on the same day, each over the store as it stands at that run, each number has at most one `sent` entry dated that day, and earlier entries are unchanged |
| `Reminder.ExampleTwoRunsOneDay` | reminder.js:14-101 | Take a vehicle expiring in two days that has an email. The first run appends one `sent` entry to that address. A second run the same day appends nothing |
| `LocationChannel.Upsert` | server.js:70-76 | A number that is absent gets exactly one new record `{number, lastLocation}`. Otherwise only the first matching record changes, and only in `lastLocation`. Every other record is unchanged |
| `LocationChannel.Broadcast` | server.js:82-87 | Every connected client's inbox grows by exactly the one event; no client is added or dropped |
| `LocationChannel.GetLocation` | server.js:98-107 | The reply is not-found iff no record has exactly the number or the first such record has no location; otherwise it is that record's stored location |
| `LocationChannel.UpsertThenGet` | server.js:70-106 | After a successful upsert, the lookup for that number returns exactly the position just written |
| `LocationChannel.UpsertKeepsOtherLookups` | server.js:70-76 | An upsert for one number leaves the lookup of every other number unchanged |
| `LocationChannel.UpsertCount` | server.js:70-76 | The upsert never duplicates. A number already present keeps its count of records. An absent number ends with exactly one record |
| `LocationChannel.UpsertTwice` | server.js:70-76 | Two upserts of a number leave as many records as one does, and the lookup returns the second position |
| `LocationChannel.BroadcastTwice` | server.js:82-87 | Two broadcasts leave every client's inbox extended by both events in order, and the set of clients unchanged |
| `LocationChannel.Channel.SendLocation` | server.js:64-88 | When the write succeeds, the store becomes the upsert of the old store. When it fails, the store is unchanged. Either way every client receives the event, with the broadcast's own timestamp |
| `LocationChannel.Channel.SendLocationTwice` | server.js:64-88 | Two identical events leave one record count for the number and the lookup showing the position. Every client, the sender included, gets two more events |
| `VehicleRoutes.Upper` | routes/vehicleRoutes.js:9 | The result has the same length and no lowercase ASCII letter, and every character that is not a lowercase letter is kept |
| `VehicleRoutes.UpperEqualIff` | routes/vehicleRoutes.js:9 | Two numbers uppercase to the same key iff they differ only in the case of letters |
| `VehicleRoutes.Find` | routes/vehicleRoutes.js:6-15 | A missing number or a store failure gives 500. Otherwise the reply is the first record whose number equals the uppercased key, or 404 iff there is none. A record whose number contains a lowercase letter is never returned |
| `VehicleRoutes.FindIgnoresCase` | routes/vehicleRoutes.js:9 | Two requests whose numbers differ only in letter case get the same reply |

## Left out

- The cron schedule (`reminder.js:11`) and the 2-second pause between sends (`reminder.js:83`) are timers. One run is modelled, and the pause is dropped.
- Console logging is left out throughout.
- Reminder.Upcoming: the window end is `now + 3 * 86400000` ms. The code adds three calendar days with `setDate`, which differs by an hour across a daylight-saving change.
- Reminder.RunReminders: `startOfDay` is one value per run. The code reads the clock again for each vehicle, so a run that crosses midnight is not modelled.
- The `info` payload of a `sent` entry is reduced to a receipt string. The rest of the transport's delivery object is not modelled.
- `email.js` is reduced to the `Delivery` outcome of each send. The transport pool and the `verify` check at startup are not part of this model.
- `Date.prototype.toDateString` is an uninterpreted parameter.
- The Vehicle schema (`models/Vehicle.js:3-12`) declares no `lastLocation` path. Under the store's default strict mode the socket handler's update would be discarded. The model follows the handler's evident intent and keeps `lastLocation` as an optional field.
- LocationChannel.GetLocation: the handler is `async` and has no `try`, so a store failure rejects its promise. Depending on the Express and Node versions, the request then gets the default 500 reply, or the process exits; neither is modelled. A missing `number` query parameter is not modelled either, nor a non-string one: the query parser turns `?number[$ne]=x` into an object and a repeated `?number=` into an array, and `findOne({ number })` then applies an operator filter rather than an exact match. The model takes `number` as a string.
- LocationChannel.Channel.SendLocation: coordinates are carried as `real` values and never computed with, so JavaScript number semantics are not modelled. A malformed event payload is not modelled.
- Socket connect and disconnect events are left out. The set of clients is fixed when a `Channel` is constructed.
- VehicleRoutes.Upper: only ASCII letters are folded. JavaScript's `toUpperCase` also maps other Unicode letters, and some of them change the string's length.
- Reminder.Step: send attempts are not an output of the model; only log entries and aborts are. On the path where a send is delivered and then both the `sent` write and the `failed` write throw (reminder.js:69-93), the mail has gone out, nothing is logged and the run aborts, so a later run the same day sends to that vehicle again. The model shows this path only as an abort with the log unchanged.
- Concurrency is left out: overlapping runs, and races between socket events and HTTP writes. Each handler is one atomic step.
- Authentication routes, insurance payment and receipt PDFs, and the remaining `/api/vehicles` routes are not part of this model. The same goes for MongoDB connection setup, CORS and the server start.
