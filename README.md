# Teams webhook message sender, modelled in Dafny

This project models the core of a small Go service that posts a notification to a
Microsoft Teams channel through an incoming-webhook URL. Four pieces are modelled:

- **The message card** (`messageCard/message_card.go`). This is a legacy Office 365
  connector card with the fixed `@type` `MessageCard`, the fixed `@context`
  `https://schema.org/extensions`, and `title`, `text` and `color`. `Validate` checks
  the two required fields, the title first. `Prepare` serialises the card to JSON
  (RFC 8259) into the card's private payload buffer. It allocates the buffer on the
  first call and resets it on later calls. `Payload` returns that buffer.
- **The webhook URL check** (`ValidateWebhook`). The URL must parse. Then the raw
  string must match the start-anchored pattern
  `^https:\/\/(?:.*\.webhook|outlook)\.office(?:365)?\.com`. The code walks a
  one-element pattern list and returns at the first match.
- **The response classifier** (`processResponse`). It is a pure function of the HTTP
  status and the body text.
- **The send pipeline** (`sendWithContext`). The steps are: check the URL, validate
  the card, prepare it, build the POST request, issue it, and process the response.
  The first failing step ends the send. The response body is closed after every
  response that arrived.

Files:

- `wrappers.dfy`: `Option`, `Outcome` (a Go `error` result) and `Result`.
- `json.dfy`: the JSON text encoding/json writes for an object whose values are all
  strings, with its escaping rules, plus a decoder of that compact form. The
  encoder is proved against the decoder.
- `message_card.dfy`: the `Card` value (the serialisable fields) and `Validate`.
  The members written under `omitempty` and `Marshal`. The `Buffer` and
  `MessageCard` classes with `Prepare` and `Payload`.
- `webhook_pattern.dfy`: what the URL pattern means, the scanner that decides it,
  and the two proved equal.
- `send_message.dfy`: `ValidateWebhook`, `processResponse`, `prepareRequest`, the
  pipeline as a specification function, and the `Send` method proved against it.

`url.Parse` and the HTTP client are not modelled. They are parameters of the model:

- `urlParses: string -> bool` stands for `url.Parse`. The same predicate is used by
  `ValidateWebhook` and by request building, as in the code.
- `transport: Request -> Exchange` stands for `client.HTTPClient().Do`. It answers a
  request with a transport failure or with a status and a body. The body either
  was read in full or failed to read.

In three places the code behaves differently from what a reader might expect, and the model follows the code:

- The code trims the constant `"1"`, not the response body
  (`messageCard/send_message.go:145`). So a body of `"1\n"` or `" 1"` is rejected
  (`SendMessage.BodyIsNotTrimmed`).
- The 5-second request context bounds both `Do` and the read of the response body
  (`messageCard/send_message.go:135`). A timeout that fires before the response
  arrives is an error returned by `Do`, treated like any other transport failure:
  the model has one `TransportError` kind for all of them. A timeout that fires
  while the body is being read is a read failure, `Responded(status, ReadFailed)`,
  which ends in `ResponseRejected(BodyReadFailed)` with the body closed.
- A body-read failure in `processResponse` is reported before the status is
  looked at, as the code does.

## Model

| member | source | states |
|---|---|---|
| `MessageCards.MessageCard.Create` | messageCard/message_card.go:73-79 | A new card has `@type` `MessageCard`, `@context` `https://schema.org/extensions`, empty title, text and color, and a nil payload buffer, which `Payload()` reports as None. |
| `MessageCards.Card.Validate` | messageCard/message_card.go:37-46 | Passes exactly when title and text are both non-empty. An empty title gives "title required" even when the text is empty too. "Text required" is returned exactly when the title is non-empty and the text empty. |
| `MessageCards.Card.Members` | messageCard/message_card.go:17-35 | The serialised members start with `@type` and `@context` carrying the card's values. Keys follow struct-field order with no key repeated. Every key is one of the five JSON field names. |
| `MessageCards.MemberKeys` | messageCard/message_card.go:20-34 | A key is present in a card's members exactly when it is `@type` or `@context`, or it is `title`, `text` or `color` and that field is non-empty. |
| `MessageCards.KeysPresent` | messageCard/message_card.go:20-34 | `@type` and `@context` are always written. `title`, `text` and `color` are written exactly when non-empty (`omitempty`). `payload` is never written (`json:"-"`). |
| `MessageCards.Lookup` | messageCard/message_card.go:20-34 | Reading a key back yields "" when the key is absent, and otherwise the value of a member with that key. |
| `MessageCards.RankedLookup` | messageCard/message_card.go:20-34 | In members ordered by struct field, each key names exactly one member, so reading the key back gives that member's value. |
| `MessageCards.MembersDetermineCard` | messageCard/message_card.go:20-34 | Every card field can be read back from the members. An omitted member stands for an empty field. |
| `MessageCards.Marshal` | messageCard/message_card.go:50 | `json.Marshal(card)`: the JSON text decodes as exactly the card's members, in order. |
| `MessageCards.MarshalRoundTrip` | messageCard/message_card.go:50 | Reading the card back from the JSON text Marshal wrote gives the same card. Present fields appear verbatim and nothing is lost. |
| `MessageCards.MarshalInjective` | messageCard/message_card.go:50 | Two cards with the same JSON text are equal. |
| `MessageCards.MessageCard.Prepare` | messageCard/message_card.go:48-66 | Afterwards the payload holds exactly the JSON text of the current fields, and earlier contents are gone. The old buffer is reused (reset) if there was one, otherwise a fresh one is allocated. No card field changes. |
| `MessageCards.MessageCard.Payload` | messageCard/message_card.go:68-71 | None while the `*bytes.Buffer` field is nil, that is before the first Prepare; otherwise the text the buffer holds and nobody has read yet. |
| `MessageCards.PrepareTwice` | messageCard/message_card.go:49-66 | Prepare is idempotent: a second call with unchanged fields leaves the same text in the same buffer (the card's own, or the one the first call allocated), and that text reads back as the card. |
| `MessageCards.Buffer.constructor` | messageCard/message_card.go:55 | A new buffer is empty. |
| `MessageCards.Buffer.Reset` | messageCard/message_card.go:57 | Reset empties the buffer. |
| `MessageCards.Buffer.Write` | messageCard/message_card.go:60 | Write appends its argument and reports its length. |
| `MessageCards.Buffer.ReadAll` | messageCard/send_message.go:183 | Reading the buffer to its end, as the HTTP client does with a request body, returns all the unread text and leaves none. |
| `Json.HexDigit` | messageCard/message_card.go:50 | Each lower-case hex digit written in a `\u` escape reads back as its value. |
| `Json.UnicodeEscape` | messageCard/message_card.go:50 | The six-character `\uXXXX` escape of a character below U+10000 reads back as that character's code. |
| `Json.EscapeChar` | messageCard/message_card.go:50 | An escaped character never starts with a bare quote, never contains a raw control character, `<`, `>`, `&`, U+2028 or U+2029, and is either the character itself or an escape sequence. |
| `Json.EscapeString` | messageCard/message_card.go:50 | The escaped body of a string holds no raw control character, no `<`, `>` or `&`, and no U+2028 or U+2029. |
| `Json.EncodeObject` | messageCard/message_card.go:50 | The object text starts with `{` and ends with `}`; `Json.ObjectRoundTrip` reads it back. |
| `Json.EscapeCharRoundTrip` | messageCard/message_card.go:50 | Decoding one escaped character gives the character back and leaves the rest of the text untouched. |
| `Json.EscapeStringRoundTrip` | messageCard/message_card.go:50 | Decoding an escaped string up to its closing quote gives the string back, whatever follows. |
| `Json.MemberRoundTrip` | messageCard/message_card.go:50 | Decoding an encoded `"key":"value"` member gives the member back. |
| `Json.MembersRoundTrip` | messageCard/message_card.go:50 | Decoding a comma-separated member list up to the closing brace gives the same members in the same order. |
| `Json.ObjectRoundTrip` | messageCard/message_card.go:50 | Decoding an encoded object gives the same members in the same order. |
| `WebhookPattern.MatchWebhookPattern` | messageCard/send_message.go:23 | The scan returns true exactly for the strings in the pattern's language: `https://`, then `outlook` or newline-free text ending in `.webhook`, then `.office`, an optional `365`, `.com`, and anything after. |
| `WebhookPattern.ScanWebhookFinds` | messageCard/send_message.go:23 | Scanning from position i finds `.webhook.office[365].com` exactly when it starts at some k ≥ i with no line feed between i and k (Go's `.` does not match a newline). |
| `WebhookPattern.AnySuffixKeepsMatch` | messageCard/send_message.go:23 | The pattern is anchored only at the start: appending any text to a matching string keeps it matching. |
| `WebhookPattern.WebhookHostMatches` | messageCard/send_message.go:23 | `https://<sub>.webhook.office.com` and `https://<sub>.webhook.office365.com` match for any newline-free `<sub>`, `/` included, whatever follows. |
| `WebhookPattern.OutlookHostMatches` | messageCard/send_message.go:23 | `https://outlook.office.com` and `https://outlook.office365.com` match, whatever follows. |
| `WebhookPattern.SchemeRequired` | messageCard/send_message.go:23 | A string that does not start with `https://` never matches. |
| `WebhookPattern.PlainHttpRejected` | messageCard/send_message.go:23 | `http://x.webhook.office.com` does not match. |
| `WebhookPattern.SlashInsideHostPart` | messageCard/send_message.go:23 | `https://a/b.webhook.office.com` matches: `.*` spans the slash. |
| `WebhookPattern.LineFeedBlocksWebhook` | messageCard/send_message.go:23 | A line feed before `.webhook` cannot be crossed, so `https://a\n.webhook.office.com` does not match. |
| `WebhookPattern.ForeignHostRejected` | messageCard/send_message.go:23 | `https://evil.com/webhook` does not match. |
| `SendMessage.WebhookVerdict` | messageCard/send_message.go:101-120 | The verdict is nil exactly when the URL parses and the raw string matches the pattern. A parse failure is reported whatever the string. A parsed URL that matches no pattern gives the pattern-mismatch error. |
| `SendMessage.ValidateWebhook` | messageCard/send_message.go:101-120 | Parsing comes first, then the loop over the pattern list with an early return. The result equals the verdict above. |
| `SendMessage.IsSpace` | messageCard/send_message.go:145 | `unicode.IsSpace`: in the Latin-1 range, exactly tab, line feed, vertical tab, form feed, carriage return, space, U+0085 and U+00A0; above it, the Unicode space separators and U+2028, U+2029. |
| `SendMessage.TrimSpace` | messageCard/send_message.go:145 | The result is the input with exactly its leading and trailing white space removed: it is the slice between a prefix and a suffix that are all white space, and it neither starts nor ends with white space. |
| `SendMessage.ProcessResponse` | messageCard/send_message.go:133-151 | A body-read failure is an error. Any status ≥ 299 is an error carrying the status and body, whatever the body. Below 299 the send succeeds exactly when the body equals `1`, and then returns the body unchanged. Otherwise the error is `ErrInvalidResponseText` carrying the body. |
| `SendMessage.TrimmingTheTokenIsANoOp` | messageCard/send_message.go:145 | Trimming the constant `1` leaves `1`, so the body is compared untrimmed. |
| `SendMessage.BodyIsNotTrimmed` | messageCard/send_message.go:145-147 | `1\n` and ` 1` trim to `1` but are rejected with `ErrInvalidResponseText`. |
| `SendMessage.StatusBoundary` | messageCard/send_message.go:142-150 | Status 298 with body `1` succeeds. Status 299 with body `1` is an error. |
| `SendMessage.PrepareRequest` | messageCard/send_message.go:122-131 | Building the request fails exactly when the URL does not parse. Otherwise the request is a POST to the URL with content type `application/json;charset=utf-8` and the payload as body. |
| `SendMessage.Send` | messageCard/send_message.go:162-203 | The outcome and the steps run equal the pipeline function for the card's fields. No card field changes. If Prepare ran and no response came, the payload still holds the card's JSON. If a response came, the client has read the payload buffer to its end, so it holds nothing. If Prepare ran, a buffer the card already had is reused, and otherwise a fresh one was allocated. The steps are recorded one at a time as they run. If Prepare did not run, the buffer and its contents are untouched. |
| `SendMessage.SendValidated` | messageCard/send_message.go:172-203 | Once both checks passed, the remaining steps are appended to the two already run, and the send ends as `Delivery` says for the transport's answer to the POST of the card's JSON. No card field changes. After a transport failure the payload holds the JSON; after a response it is drained. The card's buffer is reused, or a fresh one allocated. |
| `SendMessage.DeliverySteps` | messageCard/send_message.go:183-193 | Every issued request went through Prepare, and the response body is closed exactly when the transport answered. |
| `SendMessage.Pipeline` | messageCard/send_message.go:163-203 | `sendWithContext` as a function: every run starts with the URL check, and a send succeeds only when the URL was accepted and the card validated. |
| `SendMessage.Delivery` | messageCard/send_message.go:183-203 | How a send ends once its request was issued: a `TransportError` exactly when `Do` failed, and success only for a response with status below 299 and body `1`. |
| `SendMessage.PipelineCases` | messageCard/send_message.go:163-203 | A send ends in one of four ways: a URL error after one step, a card error after two, a transport error after five, or a processed response after all seven, the last being the body close. |
| `SendMessage.StepsRunInOrder` | messageCard/send_message.go:163-203 | The steps run are always a prefix of the fixed order URL check, Validate, Prepare, request, transport, response, close. |
| `SendMessage.UrlCheckedFirst` | messageCard/send_message.go:164-166 | An invalid URL ends the send after the URL check, with the URL error, whatever the card holds. |
| `SendMessage.RequestOnlyForValidInput` | messageCard/send_message.go:164-186 | A request is issued exactly when the URL is valid and the card has a title and a text. The request body then reads back as the card. |
| `SendMessage.RequestAlwaysBuilt` | messageCard/send_message.go:176-180 | The request-building error never occurs: it would need a parse failure of a URL validation already parsed. |
| `SendMessage.OnlyThePreparedRequestIsSent` | messageCard/send_message.go:177-183 | The outcome depends on the transport only through its answer to the POST of the card's JSON to the URL. |
| `SendMessage.BodyClosedOnceWhenResponded` | messageCard/send_message.go:188-193 | The response body is closed exactly when the transport answered, once, and as the last step, on the success and the failure paths alike. |
| `SendMessage.SendSucceedsIff` | messageCard/send_message.go:163-203 | A send succeeds exactly when the URL parses and matches, title and text are non-empty, and the endpoint answers the POST with status below 299 and body `1` read in full. |
| `SendMessage.FailureNamesItsStep` | messageCard/send_message.go:163-203 | Each error kind identifies the step that failed, and no later step ran. |

## Left out

- `main.go`: argument checks, reading and decoding the input file, `log.Fatal`, `os.Exit` and console output. This is I/O with no logic of its own.
- The HTTP transport: `http.Client`, `CreateTeamsClient`, `HTTPClient` and `Do`. The client holds nothing but the transport, which is the `transport` parameter.
- `Send`'s 5-second `context.WithTimeout` and its cancellation. These are timing behaviour. A timeout is a transport failure when it fires before the response arrives, and a body-read failure when it fires while the body is read; both are answers the `transport` parameter can give.
- `url.Parse`: its RFC 3986 rules are a library's. The `urlParses` parameter stands for it.
- The `err` result of `regexp.MatchString`. It is non-nil only when the pattern fails to compile, and the one constant pattern compiles.
- `Prepare`'s two error returns. `json.Marshal` cannot fail on a struct of strings, and `bytes.Buffer.Write` always returns a nil error. The model's `Prepare` has no error result, so a send has no "failed to prepare" outcome.
- Bytes: the payload, the body and the URL are sequences of Unicode characters. UTF-8 encoding is not modelled. encoding/json's replacement of invalid UTF-8 by U+FFFD cannot arise in that model.
- `Json.EscapeChar` follows encoding/json before Go 1.22, which writes backspace and form feed as `\u0008` and `\u000c`. Go 1.22 writes them as `\b` and `\f`.
- `MessageCards.MessageCard.Payload` returns the buffer's unread contents rather than an `io.Reader` aliasing the buffer. None stands for the nil `*bytes.Buffer` field. Go's `Payload()` then returns a non-nil `io.Reader` holding a nil pointer, and reading it panics. The model never reads it in that state, because `Send` calls `Prepare` first.
- `SendMessage.Send` and `SendMessage.SendValidated` take the request body as read to its end whenever the endpoint answered, and as unread after a transport failure. Go's client may have read part or all of the body before failing; how much is the transport's business and is not modelled.
- `Json.DecodeObject` reads only the compact form encoding/json writes, with no insignificant whitespace. It does not read surrogate-pair `\u` escapes. It is the reference the encoder is proved against, not part of the service.
- The response's `Status` text and the exact wording of wrapped error messages. Errors are identified by kind. `log.Printf` output is not modelled.
