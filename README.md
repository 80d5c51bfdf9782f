# Pushwoosh notification channel — a Dafny model

This project models the core of a PHP notification channel for the
Pushwoosh push service:

- `PushwooshMessage`, a builder whose chainable setters change a record of
  optional properties in place, and `jsonSerialize`, which turns that record
  into the payload of one notification (`message.dfy`, module `Message`);
- `Pushwoosh`, the API client: `createMessage` sends one pending batch to
  the `createMessage` endpoint, retries once when the transport error came
  from the Pushwoosh server, checks the status code and the unknown devices
  of the decoded response, marks the batch as sent and translates the
  returned message ids (`client.dfy`, module `Client`);
- `PushwooshPendingMessage`, the batch `send` returns, reduced to its queue,
  the number of `wasSent` calls, and an explicit `Flush` standing for the
  destructor that calls `createMessage` when the queue is not empty.

`values.dfy` holds the decoded-JSON value type and PHP string truthiness.
`errors.dfy` holds the exceptions, rendered as values. `scenarios.dfy`
replays the repository's unit tests, each as a method that makes the same
calls and asserts the same results. Its proofs use the methods' contracts
and the pure functions those contracts name. A few of its methods check
cases the tests do not, such as a rejected platform.

The builder is a `class` with one field per PHP property. `State()` reads
those fields into a `Fields` value. Every setter keeps the invariant
`Valid()` and states its whole new state as `old(State())` with the fields
it writes replaced. Most setters write one field. `url` and `deliverAt`
write two, and `with` writes up to three maps. A rejected
`apnsTrimContent`, `iosSilent` or `with` writes none. The PHP defaults are
kept as default arguments: the constructor's empty content, `url`'s
`shorten = true`, and the `null` language, timezone and platform of
`content`, `deliverAt` and `with`. Setters with rules of their own are
specified by pure functions: `SendRate`, `WithContent`, `Associated` and `Route`. The payload is the pure
function `Payload`. The transport is an `HttpClient` whose n-th reply is
fixed in advance by `script(n)` and which logs every request. This lets
`CreateMessage` be proved equal to the pure `CreateMessageResult` of its
first and second replies.

Behaviour follows the code as written:

- PHP truthiness. `if (!$this->identifier)`, `if ($language)` and
  `$this->url ? … : null` treat both `""` and `"0"` as false (`Truthy`).
  So `associate` also overwrites an identifier of `"0"`, `content` with
  language `"0"` sets plain content, and a URL of `"0"` produces no
  `minimize_link`.
- `with` validates its platform with a loose `in_array` against
  `[null, 'ios', 'android']`. Under that comparison `""` equals `null`, so an
  empty platform is accepted and, through `?:`, writes all three maps.
- When the retry of a server error also fails, the inner `catch` rebinds
  `$e`. The "Failed to create message(s)" exception therefore wraps the
  second error, not the first; this model follows the code (`Retry`).
- A response whose status is not 200 and that has no `status_message`
  raises an exception constructed with `null`, whose message is `""`.

## Model

| member | source | states |
|---|---|---|
| Message.PushwooshMessage.constructor | src/PushwooshMessage.php:43-48 | a new message holds the given content (empty by default), uses the sender's timezone, is delivered "now" and has every other property unset |
| Message.FreshPayload | src/PushwooshMessage.php:43-48 | a fresh message serialises to exactly `content`, `ignore_user_timezone` true and `send_date` "now" |
| Message.PushwooshMessage.Associate | src/PushwooshMessage.php:56-63 | the identifier becomes the notification's id only when it was falsy; nothing else changes |
| Message.Associated | src/PushwooshMessage.php:56-63 | a truthy identifier is kept, a falsy one is replaced; the result is truthy iff the old identifier or the id is |
| Message.AssociationIsFirstWriteWins | src/PushwooshMessage.php:56-63 | once the identifier is truthy, later associations leave it unchanged |
| Message.PushwooshMessage.ApnsTrimContent | src/PushwooshMessage.php:71-80 | only 0 and 1 are stored; any other value is rejected with "Invalid platform <n>" and the message is left unchanged |
| Message.PushwooshMessage.Campaign | src/PushwooshMessage.php:88-93 | sets the campaign and nothing else |
| Message.PushwooshMessage.Content | src/PushwooshMessage.php:102-115 | the content becomes `WithContent` of the old content; nothing else changes |
| Message.WithContent | src/PushwooshMessage.php:102-115 | without a truthy language the content becomes the plain text; with one, the text is stored under that language, plain content is discarded and other languages are kept with their texts |
| Message.LanguagesAccumulate | src/PushwooshMessage.php:102-115 | texts set for two different languages both survive |
| Message.PlainContentOverwrites | src/PushwooshMessage.php:102-115 | setting content without a language discards every translation |
| Message.PushwooshMessage.DeliverAt | src/PushwooshMessage.php:124-139 | a text moment is stored with the given timezone (clearing it when none is given); a date-time brings its own formatted time and zone name, which override the timezone argument |
| Message.PushwooshMessage.Identifier | src/PushwooshMessage.php:147-152 | sets the identifier unconditionally and nothing else |
| Message.PushwooshMessage.IosBadges | src/PushwooshMessage.php:160-165 | sets `iosBadges` and nothing else |
| Message.PushwooshMessage.IosCategoryId | src/PushwooshMessage.php:173-178 | sets `iosCategoryId` and nothing else |
| Message.PushwooshMessage.IosCritical | src/PushwooshMessage.php:186-191 | sets `iosCritical` and nothing else |
| Message.PushwooshMessage.IosSilent | src/PushwooshMessage.php:199-208 | only 0 and 1 are stored; any other value is rejected with "Invalid platform <n>" and the message is left unchanged |
| Message.PushwooshMessage.IosSound | src/PushwooshMessage.php:216-221 | sets `iosSound` and nothing else |
| Message.PushwooshMessage.IosSubtitle | src/PushwooshMessage.php:229-234 | sets `iosSubtitle` and nothing else |
| Message.PushwooshMessage.IosThreadId | src/PushwooshMessage.php:242-247 | sets `iosThreadId` and nothing else |
| Message.PushwooshMessage.IosTitle | src/PushwooshMessage.php:255-260 | sets `iosTitle` and nothing else |
| Message.PushwooshMessage.IosTtl | src/PushwooshMessage.php:268-273 | sets `iosTtl` and nothing else |
| Message.KeyNamed | src/PushwooshMessage.php:283-305 | a wire name is read as a key only when that key's wire name is exactly it |
| Message.WireNamesRoundTrip | src/PushwooshMessage.php:283-305 | every key's wire name reads back as that key |
| Message.WireNamesDistinct | src/PushwooshMessage.php:283-305 | no two keys share a wire name, so the key-indexed payload stands for PHP's string-keyed array |
| Message.Payload | src/PushwooshMessage.php:280-311 | a key is in the payload iff its property's entry is not null, with that entry as its value; `ignore_user_timezone`, `content` and `send_date` are always present |
| Message.DropNulls | src/PushwooshMessage.php:308-310 | keeps exactly the non-null entries, each with its value |
| Message.LocalizedContentPayload | src/PushwooshMessage.php:286 | localised content serialises to a map with the same languages, each mapped to its text |
| Message.LinkFields | src/PushwooshMessage.php:299-300 | `link` is present iff a URL is set; `minimize_link` is present iff that URL is truthy, and then carries the shorten flag |
| Message.ScheduleFields | src/PushwooshMessage.php:302-305 | `send_date` always carries the delivery moment; `timezone` is present iff a zone is set, with its name |
| Message.IdentifierField | src/PushwooshMessage.php:304 | `transactionId` is present iff an identifier is set, with that identifier |
| Message.PushwooshMessage.Preset | src/PushwooshMessage.php:319-324 | sets the preset and nothing else |
| Message.PushwooshMessage.Throttle | src/PushwooshMessage.php:332-337 | the send rate becomes `SendRate(limit)`; nothing else changes |
| Message.SendRate | src/PushwooshMessage.php:332-337 | the rate always lies in [100, 1000]: a limit within the range is kept, a lower one gives 100, a higher one 1000 |
| Message.PushwooshMessage.Url | src/PushwooshMessage.php:346-352 | sets the URL and the shorten flag together, the flag being true unless given, and nothing else |
| Message.PushwooshMessage.With | src/PushwooshMessage.php:362-378 | an unknown platform is rejected with "Invalid platform <p>" before anything is written; otherwise the key is set in the Android root parameters and `data` (for Android or no platform) and in the iOS root parameters (for iOS or no platform), earlier keys kept, nothing else changed |
| Message.Route | src/PushwooshMessage.php:364-376 | the platform is accepted iff it is absent, "", "ios" or "android"; Android is written iff the platform is absent, "" or "android", and iOS iff absent, "" or "ios" |
| Message.RoutingIsExclusive | src/PushwooshMessage.php:368-376 | an explicit platform writes the maps of exactly one side; no platform writes both |
| Message.PushwooshMessage.UseRecipientTimezone | src/PushwooshMessage.php:385-390 | sets the recipient-timezone flag, after which `ignore_user_timezone` serialises as false |
| Client.Pushwoosh.constructor | src/Pushwoosh.php:29-34 | keeps the transport, the application code and the token |
| Client.HttpClient.Send | src/Pushwoosh.php:49 | each request is logged and receives the scripted reply for its position |
| Client.Pushwoosh.CreateMessage | src/Pushwoosh.php:42-74 | exactly `CreateMessageResult` of the transport's next two replies; one request is sent, or two when the first fails with a server error, each for the batch's messages; `wasSent` is called exactly when the result is a success; the queue is untouched |
| Client.CreateMessageResult | src/Pushwoosh.php:42-74 | success iff a response was obtained and accepted; a communication failure iff no response was obtained, wrapping the last transport error |
| Client.SendCount | src/Pushwoosh.php:48-52 | one or two requests, two exactly when the first attempt fails with a server error |
| Client.Deliver | src/Pushwoosh.php:48-52 | a response is obtained iff the first attempt succeeds, or it fails with a server error and the retry succeeds; the response is that attempt's |
| Client.RetryRecovers | src/Pushwoosh.php:48-52 | a server error followed by a good reply gives the same result as that reply received first |
| Client.Interpret | src/Pushwoosh.php:56-73 | a status other than 200 fails with the status message; otherwise unknown devices fail with those devices; otherwise success with the translated ids, or none when the response lists none |
| Client.StatusCheckedFirst | src/Pushwoosh.php:56-62 | a bad status wins over unknown devices |
| Client.MapIdentifiers | src/Pushwoosh.php:66-71 | same length; position by position the sentinel "CODE_NOT_AVAILABLE" becomes null and every other id passes through |
| Client.RestoreIdentifiers | src/Pushwoosh.php:66-71 | the inverse translation keeps the length |
| Client.IdentifiersRoundTrip | src/Pushwoosh.php:66-71 | restoring the translated ids gives back the API's list |
| Client.IdentifiersRoundTripBack | src/Pushwoosh.php:66-71 | every result list without a literal sentinel id is the translation of the list restored from it |
| Client.Pushwoosh.Send | src/Pushwoosh.php:102-105 | returns a new pending batch for this client holding just the message, not yet sent |
| Client.PushwooshPendingMessage.Queue | src/Pushwoosh.php:104 | appends the message to the queue |
| Client.PushwooshPendingMessage.WasSent | src/Pushwoosh.php:64 | counts one more `wasSent` call; the queue is untouched |
| Client.Pushwoosh.TryAgainIfCausedByPushwooshServerError | src/Pushwoosh.php:114-125 | equals `Retry` of the transport's next reply; the request is sent again only for a server error |
| Client.Retry | src/Pushwoosh.php:114-125 | success iff the error came from the server and the second attempt returns a response; otherwise "Failed to create message(s)" wrapping the second error after a retry, or the first error without one |
| Client.PushwooshPendingMessage.constructor | tests/Unit/PushwooshPendingMessageTest.php:49-54 | a new batch is empty and not sent |
| Client.PushwooshPendingMessage.Flush | tests/Unit/PushwooshPendingMessageTest.php:34-54 | an empty batch makes no call and changes nothing; any other batch calls `createMessage` exactly once and yields its result |

## Left out

- The source of `PushwooshPendingMessage` is not part of this model. Its queue, `wasSent` and destructor are reconstructed from their callers and tests. The destructor becomes the explicit `Flush`, so when PHP runs it is not modelled.
- `causedByPushwooshServerError` is defined outside the modelled files. The classification is a field of the transport error, read by `CausedByPushwooshServerError`.
- The HTTP transport is a scripted reply sequence. JSON encoding of the request and decoding of the response are not modelled: a request carries the batch's message objects, and a response carries the four fields the client reads.
- `CreateMessage` checks `status_code !== 200` on a decoded integer. A status that decodes to another JSON type is not modelled.
- The `Pushwoosh` mock used by the tests is replaced by the ghost counter `createMessageCalls`.
- Exceptions are returned as `Outcome` and `Result` values. Setters return nothing instead of `$this`, so chaining is written as consecutive calls.
- `Message.PushwooshMessage.JsonSerialize`: it has no contract of its own; it returns `Payload` of the current state, and `Payload` carries the properties.
- The payload is an unordered map, so PHP's array key order is not modelled.
- PHP turns numeric-string keys such as "1" into integers in the content and root-parameter arrays. Keys are kept as strings here.
- `deliverAt` receives date-times and zones already reduced to their formatted text and zone name. Date formatting and time zones themselves are not modelled.
- A notification passed to `associate` is reduced to its id.
- `Client.Pushwoosh.GetApiToken` and `Client.Pushwoosh.GetApplicationCode` are plain field reads with no contract beyond their bodies.
- `Client.PushwooshPendingMessage.Flush` states how often `wasSent` was called, but not that it happens before `createMessage` returns.
