# Email relay with a vote tally: a Dafny model of the request rules

The server relays a `{subject, message}` payload as an email through a mail
provider. When a message has been sent, it keeps a two-counter tally
(`jopi`, `doki`) in a JSON file, picking one counter by a keyword in the
message. This project models the deterministic rules inside the
`/send-email` and `/stats` handlers of `server.js` and proves what they
guarantee:

- **Validation** (`Router.Validate`). A missing or empty `subject` or
  `message` is answered with 400 and `success: false`. Nothing is sent and
  the tally is left alone.
- **Keyword choice** (`Votes.Choice`). The message is upper-cased (ASCII
  letters only). If it contains `JOPI` the choice is `jopi`, even when `DOKI`
  is there too. Otherwise it is `doki` if it contains `DOKI`. Otherwise there
  is no choice.
- **Tally update** (`Votes.Tally` and the method `Votes.CounterStore.RecordVote`).
  The backing file is an `Option<FileContent>`. The step starts from
  `{jopi: 0, doki: 0}` when there is no file, and from the parsed record
  otherwise. It increments the chosen counter only if that key is in the
  record, and writes the whole record back only then. A read or parse
  failure is reported as `StorageFailed` and goes no further. A write can
  succeed, be refused at open (the file stays as it was), or fail after the
  file was truncated or created (the file is left unreadable, so every later
  tally fails and `/stats` answers zeros with the error).
- **Failure classification** (`Delivery.Classify`). The first matching
  case-sensitive substring test wins: `timeout`, then `authentication`, then
  `network` or `ENOTFOUND`. Anything else shows the raw error text. Every
  delivery failure is answered with 500 and `success: false`.
- **Response shaping** (`Router.SendEmail`, `Router.Reply`). A successful
  send is answered with 200, `success: true` and the message id, whatever the
  tally step reports.
- **Stats** (`Votes.CounterStore.Stats`). `/stats` returns the stored record.
  With no file it returns zeros. With an unreadable file it returns zeros and
  the error text.

`includes` is modelled by a left-to-right search (`Text.Includes`). It is
proved equal to a reference definition by position (`Text.Occurs`), and
every contract on choice and classification is stated with `Occurs`.

Environment inputs are parameters of the model:

- how the provider answers the connection check and the send, held by the
  `Router.Mailer` object; a failed check ends the request before anything is
  submitted;
- what a write to the file does, the `write` constant of the store
  (`Votes.WriteResult`);
- the file's content, including the case where it cannot be read.

The model does not use clocks, the network or the file system.

Details of the code's behaviour that the model keeps:

- The stored record need not hold both counters, and they need not be
  non-negative. The code accepts any parsed JSON object. It increments a
  chosen key only when that key is present, and carries any other keys along
  unchanged. The model does the same: `Record` is a `map<string, int>`, and
  non-negativity is proved to be preserved (`Votes.TallyKeepsCounters`), not
  assumed.
- `/stats` answers with the parsed file as it is, not a normalised
  two-counter record.
- The initial `errorMessage` default in the failure path can never be
  returned, because every branch of the classification overwrites it. The
  model therefore has no fifth message.

Files: `wrappers.dfy` (Option, Result), `text.dfy` (case folding,
substring search), `votes.dfy` (choice, tally, counter store, stats),
`delivery.dfy` (provider outcome, failure classification), `router.dfy`
(validation, replies, the `/send-email` handler and a sequential
scenario).

## Model

| member | source | states |
|---|---|---|
| Text.Includes | server.js:162-163 | the search for `includes` finds only strings no longer than the text, always finds the empty string, and finds the text itself |
| Text.IncludesIff | server.js:162-163 | the left-to-right `includes` search succeeds exactly when the keyword occurs at some position of the string |
| Text.Upper | server.js:162 | `toUpperCase` on ASCII keeps the length, capitalises each letter in place and leaves no lower-case letter |
| Text.UpperForgetsCase | server.js:162 | upper-casing a lower-cased or upper-cased string gives the same result as upper-casing the original |
| Votes.Load | server.js:155-160 | with no file the start record is exactly `{jopi: 0, doki: 0}`; a parsed file gives its record; an unreadable file gives a failure carrying its error, and only it does |
| Votes.Choice | server.js:162-163 | the choice is `jopi` iff the upper-cased message contains JOPI, `doki` iff it contains DOKI but not JOPI, none iff it contains neither |
| Votes.JopiTakesPriority | server.js:162 | when both keywords occur, JOPI is chosen |
| Votes.ChoiceIgnoresCase | server.js:162 | lower-casing or upper-casing the message never changes the choice |
| Votes.KeywordInAnyCase | server.js:162-163 | a keyword spelled in any mix of cases at any position gives a choice, and JOPI gives `jopi` |
| Votes.DokiWithoutJ | server.js:162-163 | a message with DOKI in any case and no letter J anywhere is a vote for `doki` |
| Votes.Bump | server.js:166 | the increment raises the chosen counter by exactly one and keeps every other key and value |
| Votes.Tally | server.js:154-172 | an update stores exactly the reported record and happens only on a successful write; an unchanged step leaves the file as it was; an unreadable file makes the step fail without touching it |
| Votes.TallyCountsOneVote | server.js:155-167 | a vote written successfully stores a record with the loaded keys, the chosen counter one higher and every other counter unchanged |
| Votes.TallyWritesIffAttempted | server.js:154-172 | an update is reported iff the file loads, a choice exists, its key is in the record and the write succeeds; the file changes iff such a write gets past its open; a write failing after truncation leaves the file unreadable |
| Votes.TallyFromNoFile | server.js:155-167 | with no file the step starts from zeros: a successful write stores one vote for the choice and zero for the other, a refused write leaves no file, a write failing after creation leaves an unreadable file |
| Votes.TallyKeepsCounters | server.js:154-172 | a file that is absent or holds non-negative counters holds non-negative counters after the step, unless a write failed after truncating; whenever the result still loads, the keys stay the same and no counter decreases |
| Votes.UnreadableFileBlocksTally | server.js:157-159 | once the file is unreadable, every tally step fails and leaves it unchanged |
| Votes.CounterStore.RecordVote | server.js:154-172 | the new file and the reported outcome are exactly those of one tally step on the old file |
| Votes.CounterStore.Stats | server.js:221-233 | `/stats` gives the stored record, zeros when no file exists, and zeros with the error text when the file cannot be read or parsed |
| Delivery.Classify | server.js:189-199 | first match wins: timeout iff the text contains `timeout`; authentication iff it contains `authentication` but not `timeout`; network iff it contains `network` or `ENOTFOUND` and neither earlier word; otherwise the raw text |
| Delivery.FailureMessage | server.js:189-199 | the message shown follows the first matching test: the timeout message if the text contains `timeout`; otherwise the authentication message if it contains `authentication`; otherwise the network message if it contains `network` or `ENOTFOUND`; otherwise the error text itself |
| Delivery.KnownMessagesDistinct | server.js:192-196 | the timeout, authentication and network messages are pairwise different |
| Delivery.InternalTimeoutsClassified | server.js:120-145 | both timer failures ("SMTP verification timeout", "Email sending timeout") classify as timeout |
| Router.Validate | server.js:90-96 | the request passes iff subject and message are both present and non-empty, and then the mail carries them; otherwise the reply is 400, `success: false`, with the fixed message |
| Router.Reply | server.js:176-206 | success iff delivered; a delivery gives 200 with the message id and no error type, a failure gives 500 with the classified message and the error's class name |
| Router.Mailer.Send | server.js:143-148 | the message is appended to what was submitted to the provider, and the provider's answer is returned |
| Router.SendEmail | server.js:82-208 | an invalid body gives its 400 reply with nothing submitted and the file unchanged; a valid one is submitted once unless the connection check fails, and is answered by `Reply` of the overall outcome; after a delivery the file is that of one tally step; after a failure it is unchanged |
| Router.VoteForDoki | server.js:162-163 | the message "I vote DOKI" is a vote for `doki` |

## Left out

- Express middleware is not modelled: request and response timeouts, body parsing, static files, CORS headers, the OPTIONS preflight and logging. It is framework plumbing.
- The nodemailer transporter, `verify`, `sendMail` and the `Promise.race` timers are not modelled. They are a foreign library and asynchronous timing. Their combined result is the abstract `Delivery.Outcome`; the two timer error texts are constants.
- File system calls and `JSON.parse` are not modelled. The file is an abstract `Option<FileContent>`, and a failed read or parse is the `Unreadable` content. A write that fails after truncating is assumed to leave text that does not parse, which holds for every proper prefix of the written JSON.
- Votes.Bump, Votes.TallyCountsOneVote: counters are unbounded integers. In the source they are JavaScript numbers (doubles), so from 2^53 on `data[choice]++` no longer adds exactly one (2^53 + 1 rounds back to 2^53), while the record is still written.
- JSON values other than an object with integer values are not modelled: `null`, numbers or arrays as the whole file, and non-integer or non-numeric counters. A `null` file makes the tally step fail when a keyword is chosen and leaves it unchanged otherwise; a number or array leaves it unchanged.
- A `subject` or `message` that is not a string (a number, an object) is not modelled. Fields are absent, null (both `None`) or strings.
- Text.Upper: only ASCII letters are case-folded. Unicode mappings that `toUpperCase` also performs are missing. One of them turns the dotless `ı` into `I`, which would make `jopı` a vote.
- `/test`, `/test-post`, `/test-email-fake` and `/health` are not modelled. They are echoes, a timer delay and process introspection.
- The 404 handler, the global error handler, `listen`, the server timeout and the process signal handlers are not modelled. They are process lifecycle.
- Concurrent requests and lost updates to the file are not modelled. Each request is handled sequentially.
- Timestamps, the HTML `<pre>` body, the `from`/`to` addresses and the credentials are not modelled.
- The provider's answers (`Router.Mailer`'s `verifyFault` and `sendAnswer`) and the result of a write (`Votes.CounterStore`'s `write`) are fixed for the object's lifetime. A run of several requests therefore cannot mix a successful write with a failed one, and every successful send reports the same message id.
- Console logging is not modelled. The tally step's `TallyOutcome` stands for what would be logged.
