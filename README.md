# Telegram history crawl and contacts query, modelled in Dafny

This project models two pieces of a service that crawls conversation
histories from Telegram and answers cached queries about a user's account.

- **The history crawl job** (`GetMessages.ForPeer`). One run turns a peer id
  and peer type into a remote peer reference. It asks for one page of 100
  messages at the job's `(offset, maxId)` cursor and hands the parsed batch to
  the event hub, whether the batch is empty or not. Only when the batch is
  non-empty does it schedule its own continuation: same peer and session,
  `offset + 100`, `maxId = 0`, after a random delay of 5 to 19 whole seconds.
  The model has three layers:
  - the pure function `Jobs.Step` states what one run does;
  - the class `Jobs.GetMessages` keeps the log of published batches and the
    scheduler's job queue, and its method `ForPeer` is proved against `Step`;
  - the function `Jobs.Crawl` chains runs, and lemmas about it state the
    invariants of a whole crawl.
- **The GetContacts query.** The model covers its validator (the user id must
  not be empty), its cache key (built from the user id only), its fixed
  24-hour lifetime, and the projection of the remote user list to `Contact`
  records, one per user and in order (module `GetContacts`).

Files: `common.dfy` (optional values, results, 32-bit `int` wrap-around),
`jobs.dfy` (the crawl job), `contacts.dfy` (the contacts query).

Collaborators whose code is not part of this model appear as parameters:
- `fetch(session, request)` is building the session client from the
  phone hash id plus the rate-limited history call. It either fails or yields
  an opaque response.
- `parse` is the message parser.
- `send` is the event hub. It either acknowledges or throws.
- `remote(userId)` is building the session and fetching the contact list.
- `build` is the cache-key builder.

The random delay is a nondeterministic choice in `[5, 20)`.

Faithfulness notes:
- C# `int` arithmetic is unchecked, so `offset + 100` wraps at 2^31.
  The model writes this out (`Common.Wrap32`). Offsets are proved to strictly
  increase only while they stay below `int.MaxValue`.
- A C# enum can hold values other than its named members. `PeerType.Unnamed`
  stands for them. The switch has no default branch, so for such a value the
  peer stays null (`None`) and is passed to the fetch as is.
- FluentValidation's `NotEmpty` on a string rejects `null`, `""` and strings
  made only of white space. The model follows that library rule, using the
  .NET white-space characters. This is slightly stronger than "null or empty".
- `user.As<TUser>()` on an entry that is not a `TUser` fails, whether by a
  failed cast or by reading a field of a null result; which of the two is not
  visible. The model turns either into a `Failure` of the whole projection.
- The published log records every hand-over to the event hub. A failing
  send still counts as the one publish of that run. It throws, so nothing is
  scheduled.

## Model

| member | source | states |
|---|---|---|
| `Common.Wrap32` | FWT.Api/Jobs/GetMessages.cs:72 | the `int` result of `offset + 100` differs from the exact sum by a multiple of 2^32, and equals it when the sum is in `int` range |
| `Jobs.BuildPeer` | FWT.Api/Jobs/GetMessages.cs:31-58 | a peer is built exactly for the three named peer types; it has the matching kind (Channal→channel, Chat→chat, User→user) and carries `id`; any other value leaves it null |
| `Jobs.BuildPeerRoundTrip` | FWT.Api/Jobs/GetMessages.cs:31-58 | every peer reference is the one the switch builds from its own id and kind |
| `Jobs.RequestFor` | FWT.Api/Jobs/GetMessages.cs:61-64 | the history request uses the caller's `offset` and `maxId`, a page size of exactly 100, and the peer built from `id` and `peerType` |
| `Jobs.NextJob` | FWT.Api/Jobs/GetMessages.cs:71-72 | the continuation keeps `id`, `peerType` and `phoneHashId`, has `maxId = 0`, and its offset is `offset + 100` modulo 2^32 (exactly `offset + 100` without overflow) |
| `Jobs.Step` | FWT.Api/Jobs/GetMessages.cs:60-74 | the parsed batch is published exactly when the fetch completes, empty or not; a continuation (the `NextJob` one) is scheduled exactly when the publish succeeded and the batch is non-empty; a failed fetch publishes and schedules nothing; a failed publish schedules nothing; the outcome tells fetch failure, publish failure, reschedule and normal end apart |
| `Jobs.Crawl` | FWT.Api/Jobs/GetMessages.cs:69-73 | a chain of at most n runs whose first run is the starting job's step |
| `Jobs.CrawlSteps` | FWT.Api/Jobs/GetMessages.cs:29-75 | every run of a crawl, not only the first, is the `Step` of its own job against the same remote, parser and event hub |
| `Jobs.CrawlStopsAtEmptyPage` | FWT.Api/Jobs/GetMessages.cs:66-74 | if the remote answers run k's request with a page that parses to no messages, run k is the last run, publishes the empty batch and schedules nothing |
| `Jobs.CrawlJobs` | FWT.Api/Jobs/GetMessages.cs:69-73 | run k of a crawl has the starting peer and session, offset `o + 100·k` (as an `int`) and, for k > 0, maxId 0 |
| `Jobs.CrawlLinks` | FWT.Api/Jobs/GetMessages.cs:66-74 | each run but the last published a non-empty batch and scheduled exactly the next run; a crawl cut short ends at a run that scheduled nothing (an empty page or a failure) |
| `Jobs.CrawlOffsetsIncrease` | FWT.Api/Jobs/GetMessages.cs:72 | without overflow, run k's offset is exactly `o + 100·k` and offsets strictly increase across the crawl |
| `Jobs.ExampleCrawl` | FWT.Api/Jobs/GetMessages.cs:29-74 | chat 42 from cursor (0, 0) with pages of 100, 37 and 0 messages: runs at offsets 0, 100 and 200, the last publishing the empty batch and scheduling nothing |
| `Jobs.GetMessages.ForPeer` | FWT.Api/Jobs/GetMessages.cs:29-75 | the published log grows by exactly the batch `Step` publishes, the job queue by exactly the continuation it schedules (old entries unchanged), and every queued continuation has maxId 0 and a delay d with 5 ≤ d < 20; the method throws exactly on a fetch or publish failure |
| `GetContacts.Validate` | FWTL.Telegram/Controllers/Contacts/GetContacts.cs:76-82 | no failure exactly when `UserId` is not null, not empty and not only white space; otherwise one failure, on `UserId` and the NotEmpty rule |
| `GetContacts.ValidatorRejectsMissingUserId` | FWTL.Telegram/Controllers/Contacts/GetContacts.cs:80 | a null, empty or all-white-space user id is refused; a user id with a visible character is accepted |
| `GetContacts.KeySourceOf` | FWTL.Telegram/Controllers/Contacts/GetContacts.cs:26-29 | the only projected field handed to the key builder is `UserId` |
| `GetContacts.SameUserIdSameKey` | FWTL.Telegram/Controllers/Contacts/GetContacts.cs:26-29 | two queries with equal `UserId` get equal cache keys, whatever the key builder |
| `GetContacts.CacheKey` | FWTL.Telegram/Controllers/Contacts/GetContacts.cs:26-29 | the key is the builder applied to the user-id projection `KeySourceOf(q)`, so every query with the same user id gets this same key |
| `GetContacts.Ttl` | FWTL.Telegram/Controllers/Contacts/GetContacts.cs:32-35 | the lifetime is present and is 24 hours (86 400 s) |
| `GetContacts.TtlIndependentOfQuery` | FWTL.Telegram/Controllers/Contacts/GetContacts.cs:32-35 | every query gets the same 24-hour lifetime |
| `GetContacts.ContactOf` | FWTL.Telegram/Controllers/Contacts/GetContacts.cs:57-64 | a contact copies `FirstName`, `Id`, `LastName` and `Username`→`UserName` unchanged from its user |
| `GetContacts.ToContacts` | FWTL.Telegram/Controllers/Contacts/GetContacts.cs:55-65 | succeeds exactly when every entry is a `TUser`, and then gives one contact per entry, in the same order, each copied from its user |
| `GetContacts.ToContactsAppend` | FWTL.Telegram/Controllers/Contacts/GetContacts.cs:55-65 | the projection of a concatenation is the concatenation of the projections |
| `GetContacts.Handle` | FWTL.Telegram/Controllers/Contacts/GetContacts.cs:47-68 | a remote failure is passed on; otherwise one contact per returned user, in order, with the copied fields, or a failure if some entry is not a `TUser` |
| `GetContacts.HandleUsesOwnSession` | FWTL.Telegram/Controllers/Contacts/GetContacts.cs:49 | only the session built from `query.UserId` is consulted: remotes that agree on it give the same answer |

## Left out

- Session building, the rate-limit retry of the remote request, the message parser, the cache-key builder and the event hub send: their code is not part of this model. Each is an opaque parameter, and no retry count, key format or delivery guarantee is assumed.
- The Redis cache decorator (hit/miss, storage, expiry) and the query/command dispatcher are not part of this model; only the key function and the lifetime the decorator is given are modelled.
- Jobs.GetMessages.ForPeer: a failure of `BackgroundJob.Schedule` itself is not modelled; scheduling always succeeds.
- Jobs.Crawl: the fuel `n` bounds how many runs are looked at, because a remote that never returns an empty page gives an endless crawl.
- Asynchrony and concurrency: each run is one sequential step; at-least-once redelivery and duplicate concurrent runs of the same job are out of scope.
- Randomness: the delay is a nondeterministic choice in 5..19, not a random-number generator.
- Application startup, the HTTP dialogs endpoint and the database connector interface: configuration and wiring with no logic of the core.
- The integer values behind the `PeerType` enum names are not visible, so `Unnamed` carries an arbitrary `int`; an `Unnamed` value equal to a named member's integer stands for nothing.
