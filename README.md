# e7api in Dafny

A Dafny model of the core of `e7`, the Go client library for the EpicSevenDB
API, together with proofs about that model. It covers four parts:

- **The enumerations** `Attribute`, `Role`, `Stat` and `Topic`, with their
  JSON codec. Each one has two tables, one from variant to wire token and
  one from wire token to variant. `String` and `MarshalJSON` write the
  token. `UnmarshalJSON` unquotes the bytes, looks the token up, and stores
  the variant only when both steps succeed. The shared pattern is written
  once in module `Enum`. Modules `Attributes`, `Roles`, `Stats` and `Topics`
  each supply their own tables and their own unknown-token error.
- **Client.NewRequest.** It checks that the base URL's path ends in a
  trailing slash, resolves the path against the base URL, and sets the
  Content-Type header (modules `Urls` and `Api`).
- **Client.Do and CheckResponse.** Do handles a nil context, prefers the
  context's error, classifies the status, restores the body of an error
  response, decodes into the destination or writes to it, drains the body,
  and closes it after a successful status (module `Api`). The transport's answer is a parameter of
  the client. Each response body carries the reading that encoding/json
  makes of a byte sequence.
- **HeroesService.GetByID** (module `Heroes`).

`Json` holds the part of JSON the library relies on: quoting, unquoting a
string, whitespace and values. `Wrappers` holds `Option` and `Result`.

The `e7api.go` code, not its doc comment, decides the status range. The
comment on CheckResponse says that 202 Accepted is an error. The code accepts
every status from 200 to 299, so the model does too (`Api.AcceptedIsSuccess`).

## Model

| member | source | states |
|---|---|---|
| Enum.MarshalJSON | e7/attribute.go:45-55 | never fails; writes the variant's token between quotation marks; a value outside the table is written as `""` |
| Enum.Cell.UnmarshalJSON | e7/attribute.go:58-70 | returns no error exactly when the bytes unquote to a token in the table, and then stores that token's variant; on an unquoting error or an unknown token it returns that error and leaves the receiver unchanged |
| Enum.String | e7/attribute.go:40-42 | a variant in the table gets its token, and for mutually inverse tables that token reads back as the variant; a value outside the table gets "" |
| Enum.Parse | e7/attribute.go:58-70 | succeeds exactly when the bytes unquote to a token in the table, and then gives that token's variant; an unquoting failure gives json.Unmarshal's error, and an unknown token gives the type's own error |
| Enum.ParseMarshal | e7/attribute.go:40-70 | for well-formed tables, unmarshalling what MarshalJSON writes for a defined variant gives that variant back |
| Enum.ParseRejectsUnknown | e7/attribute.go:64-67 | a quoted string that is not a token is rejected with the type's own unknown-token error |
| Enum.ParseDecodeError | e7/attribute.go:59-62 | bytes that do not unquote give json.Unmarshal's error, which is never the unknown-token error |
| Enum.ParseSound | e7/attribute.go:58-70 | a successful unmarshal yields a defined variant whose token is exactly the unquoted text |
| Enum.TokensDistinct | e7/attribute.go:22-38 | mutually inverse tables give distinct variants distinct tokens |
| Json.WriteStringBuffer | e7/attribute.go:50-55 | a fresh buffer that holds the string between two quotation marks |
| Json.Quoted | e7/attribute.go:50-54 | the text is the string between two quotation marks, two characters longer |
| Json.Unquote | e7/attribute.go:76-80 | the JSON null reads as the empty string; anything else that succeeds is a string literal once trimmed; the value is never longer than the input |
| Json.QuoteRoundTrip | e7/attribute.go:76-80 | unquoting a quoted string gives the string back exactly when it needs no escape |
| Json.UnquoteIgnoresWhitespace | e7/attribute.go:76-80 | any run of JSON whitespace before and after the bytes leaves what unmarshalJSON reads unchanged |
| Json.DecodeSafeBody | e7/attribute.go:76-80 | a string literal body without escapes decodes to itself |
| Json.FixedBodyIsSafe | e7/attribute.go:76-80 | a body that decodes to itself contains no escape |
| Json.DecodeBodyLength | e7/attribute.go:76-80 | decoding a string literal body never makes it longer |
| Attributes.AttributeTables | e7/attribute.go:22-38 | attributeStrings and attributes are mutual inverses over the six variants; every token can be quoted without escaping |
| Attributes.DefinedAttributes | e7/attribute.go:13-20 | a value is a defined attribute exactly when it is -1 (None) or lies in 1..5 (Fire to Dark) |
| Attributes.ZeroIsNotAnAttribute | e7/attribute.go:13-20 | because Fire is 1, the zero value is not an attribute, and its marshalled form `""` is rejected with ErrUnknownAttribute |
| Attributes.UndefinedAttribute | e7/attribute.go:40-48 | an integer outside the table has String "", marshals to `""`, and does not survive a round trip |
| Attributes.AttributeRoundTrip | e7/attribute.go:45-70 | UnmarshalJSON of MarshalJSON's bytes gives back every defined attribute |
| Attributes.AttributeWireNames | e7/attribute.go:26 | Earth goes on the wire as "wind", and "wind" comes back as Earth |
| Attributes.UnknownAttribute | e7/attribute.go:64-74 | any quoted string that is not an attribute token gives ErrUnknownAttribute |
| Attributes.TestIsUnknownAttribute | e7/attribute_test.go:80-90 | the quoted string "test" gives ErrUnknownAttribute |
| Roles.RoleTables | e7/roles.go:20-36 | rolesStrings and roles are mutual inverses over the six roles, with tokens that need no escape |
| Roles.DefinedRoles | e7/roles.go:9-18 | a value is a defined role exactly when it lies in 0..5 (Warrior to SoulWeaver) |
| Roles.RoleRoundTrip | e7/roles.go:43-61 | UnmarshalJSON of MarshalJSON's bytes gives back every defined role |
| Roles.RoleWireNames | e7/roles.go:12-26 | Thief goes on the wire as "assassin" and SoulWeaver as "manauser", in both directions |
| Roles.UnknownRole | e7/roles.go:56-65 | any quoted string that is not a role token gives ErrUnknownRole |
| Roles.TestIsUnknownRole | e7/roles_test.go:80-90 | the quoted string "test" gives ErrUnknownRole |
| Stats.StatTables | e7/stat.go:28-56 | statStrings and stats are mutual inverses over the twelve stats, with tokens that need no escape |
| Stats.DefinedStats | e7/stat.go:9-22 | a value is a defined stat exactly when it lies in 0..11 |
| Stats.StatRoundTrip | e7/stat.go:59-77 | UnmarshalJSON of MarshalJSON's bytes gives back every defined stat |
| Stats.StatWireNames | e7/stat.go:37-54 | Effectiveness, EffectResistance and DualAttackChance go on the wire as "acc", "res" and "coop", in both directions |
| Stats.UnknownStat | e7/stat.go:72-81 | any quoted string that is not a stat token gives ErrUnknownStat |
| Stats.TestIsUnknownStat | e7/stat_test.go:98-108 | the quoted string "test" gives ErrUnknownStat |
| Topics.TopicTables | e7/topic.go:35-83 | topicStrings and topics are mutual inverses over the twenty-two topics, with tokens that need no escape |
| Topics.DefinedTopics | e7/topic.go:10-33 | a value is a defined topic exactly when it lies in 0..21 |
| Topics.TopicRoundTrip | e7/topic.go:90-108 | UnmarshalJSON of MarshalJSON's bytes gives back every defined topic |
| Topics.TopicWireNames | e7/topic.go:35-83 | RealityCheck and SelfIndulgent go on the wire as "Reality Check" and "Self-Indulgent", in both directions |
| Topics.UnknownTopic | e7/topic.go:103-112 | any quoted string that is not a topic token gives ErrUnknownTopic |
| Topics.TestIsUnknownTopic | e7/topic_test.go:128-138 | the quoted string "test" gives ErrUnknownTopic |
| Urls.IndexOf | e7/e7api.go:58 | the index of the first occurrence, or -1 exactly when the character is absent |
| Urls.Cut | e7/e7api.go:58 | the text splits around the first occurrence of the separator; without one, the text is returned whole |
| Urls.ParseReference | e7/e7api.go:58 | a reference that parses has a path and a fragment with valid escapes and a path without '?' or '#'; it has a query exactly when there is a '?' before the fragment; a relative path has no ':' in its first segment |
| Urls.ControlCharacterRejected | e7/e7api.go:58 | a control character before the fragment is the error url.Parse reports, ahead of every other check |
| Urls.ResolvePath | e7/e7api.go:58 | the resolved path is empty only when the base path and the reference path both are, and otherwise starts with '/' |
| Urls.Resolve | e7/e7api.go:58 | scheme and host come from the base and the path is the resolved path. A reference with a path or a query keeps its own query and fragment. One with neither takes the base's query, and also the base's fragment when it has none of its own |
| Urls.ReferenceReassembles | e7/e7api.go:58 | a parsed reference is its path, then `?` and its query when it has one, then `#` and its fragment when it has one |
| Urls.PlainReference | e7/e7api.go:58 | a reference made only of path characters parses as that path, with no query and no fragment |
| Urls.DotLoopPlain | e7/e7api.go:58 | without "." or ".." segments, resolving dot segments only joins the path back together |
| Urls.ResolveAbsolutePlain | e7/e7api.go:58 | an absolute path without dot segments replaces the base path |
| Urls.ResolveRelativePlain | e7/e7api.go:58 | a relative path without dot segments is appended to a base path that ends in '/' |
| Api.Client.NewClient | e7/e7api.go:40-49 | a fresh transport that has sent nothing, and defaultBaseURL as the base URL |
| Api.DefaultBaseURLString | e7/e7api.go:17 | the default base URL reads back as "https://api.epicsevendb.com/", and its path ends in '/' |
| Api.Client.NewRequest | e7/e7api.go:54-69 | succeeds exactly when the base path has a trailing slash, urlStr parses and the method is a token. A missing slash gives that error before anything is parsed, and a parse error is returned as it is. On success the request has the method, the resolved URL and Content-Type: application/json |
| Api.NewRequestAppendsPath | e7/e7api.go:54-69 | a relative path of plain characters is appended to the base path |
| Api.NewRequestAbsolutePath | e7/e7api.go:54-69 | an absolute path of plain characters replaces the base path |
| Api.NewRequestMissingScheme | e7/e7api_test.go:85-100 | NewRequest("GET", ":") fails with a URL parse error, as url.Parse reports a missing scheme |
| Api.NewRequestBadMethod | e7/e7api_test.go:102-108 | NewRequest("bad method", ".") fails because the method is not a token |
| Api.NewRequestNeedsTrailingSlash | e7/e7api_test.go:117-138 | with base path "/api/v3", or with the empty path, NewRequest fails with the trailing-slash error for any reference without a scheme or authority |
| Api.GetIsValid | e7/e7api.go:63 | "GET" is a valid method and http.NewRequest keeps it as it is |
| Api.CheckResponse | e7/e7api.go:139-156 | a status in 200..299 is no error and leaves the body untouched. Any other status gives an ErrorResponse built from what encoding/json reads in the rest of the body, and replaces the body with a fresh NopCloser over the same bytes at offset 0; the original body is read to its end and not closed |
| Api.AcceptedIsSuccess | e7/e7api.go:136-142 | a status is a success exactly when it lies in 200..299, so 202 counts as success while 199, 300 and 400 do not |
| Api.ErrorDetails | e7/e7api.go:143-149 | a body that is not exactly one JSON object leaves Message, Stack and Metadata empty. Otherwise Message and Stack are the strings under "error" and "stack" ("" when a member is missing or not a string), and Metadata is empty without "meta" |
| Api.ErrorBodyRoundTrip | e7/e7api.go:143-149 | the message, stack and metadata of an error body written under "error", "stack" and "meta" are the ones the ErrorResponse gets |
| Api.MetadataRoundTrip | e7/e7api.go:164-171 | Metadata written with its omitempty tags decodes back from "meta", and under no other key |
| Api.EmptyErrorBody | e7/e7api.go:146-149 | a body that is not exactly one JSON value, such as the empty body, leaves Message, Stack and Metadata empty |
| Api.Body.ReadAll | e7/e7api.go:146 | returns the unread rest of the body and leaves the body at its end |
| Api.Body.CopyN | e7/e7api.go:108 | skips at most n bytes, never past the end |
| Api.Body.Close | e7/e7api.go:111 | closes the body, except that a NopCloser's Close does nothing |
| Api.Deliver | e7/e7api.go:119-131 | nil reads nothing; a writer gets the whole body; a HeroesResponse or a document is decoded from the body; io.EOF from an empty body is not reported, other decode errors are |
| Api.Drained | e7/e7api.go:105-109 | the drain moves forward by at most 2048 bytes and never past the end. It moves nowhere when ContentLength exceeds 2048, and otherwise reads a rest of at most 2048 bytes to its end |
| Api.FailureError | e7/e7api.go:86-96 | the error is ctx.Err() exactly when the context is done, with the context's cause; otherwise it is the transport's own error |
| Api.DrainAndClose | e7/e7api.go:99-112 | reads up to 2048 more bytes when ContentLength is -1 or at most 2048, and otherwise reads none; then closes the body |
| Api.Client.Do | e7/e7api.go:80-134 | a nil context fails with ErrNilContext and sends nothing. Otherwise it sends the request with the context attached. A transport failure reports ctx.Err() once the context is done, and the transport error otherwise, with no response. A failed status returns the response with the ErrorResponse. The drain then reads CheckResponse's NopCloser, whose Close does nothing, and the original body, read to its end, is never closed. A success delivers the body to v. On success the body is drained and closed |
| Api.DecodeHeroesStream | e7/heroes.go:373-376 | with Metadata under its tag as written, "metadata": an empty body gives io.EOF and malformed JSON a syntax error, both leaving the value unchanged. Otherwise neither error occurs; null changes nothing; a "results" array gives as many results as it has elements, and a missing member leaves its field as it was |
| Api.HeroesResponse.Decode | e7/heroes.go:373-376 | the new Results and Metadata are what json.Decoder.Decode makes of the first value in the body, with the tags as written |
| Api.Document.Decode | e7/e7api.go:123-129 | an empty body gives io.EOF and malformed JSON a syntax error, and both leave the value unchanged; otherwise the value is the first JSON value read, with null as nil |
| Api.HeroesRoundTrip | e7/heroes.go:373-376 | with Metadata tagged "meta" (the corrected decode), every results list and metadata that the API writes decode back unchanged, with no type error |
| Api.ResultsFollowArray | e7/heroes.go:374 | the decoded results have as many elements as the "results" array. An element is nil exactly when it is null, and an object becomes the hero it describes. Any other element becomes a zero hero and is a type error |
| Api.MetadataTagAsWrittenLosesMetadata | e7/heroes.go:375 | with the tag as written, "metadata", an API answer's results decode but its metadata stays empty, both in DecodeHeroes and in the decoder Do runs |
| Heroes.HeroPath | e7/heroes.go:381 | the path "hero/"+id is never read as an absolute URL or a network path |
| Heroes.FirstResultAsWritten | e7/heroes.go:393 | indexing Results[0] panics exactly when there is no result, and otherwise gives the first one |
| Heroes.FirstResult | e7/heroes.go:393 | fails exactly when there is no result, and then with EmptyResult; otherwise gives the first result |
| Heroes.FirstResultCorrects | e7/heroes.go:393 | the guarded lookup reports EmptyResult exactly where indexing Results[0] as written panics, and agrees with it everywhere else |
| Heroes.EmptyAnswerPanics | e7/heroes.go:387-393 | a 200 answer with an empty body, or with `{"results": []}`, decodes with no reported error and no heroes, so Results[0] as written is out of range |
| Heroes.OneHeroAnswer | e7/heroes_test.go:12-47 | as written, the test's answer with one hero and its metadata under "meta" yields that hero with no error, but empty metadata. With Metadata tagged "meta" the metadata comes through as well |
| Heroes.Answer | e7/heroes.go:389-393 | after a successful status: the decode error if one is reported; otherwise EmptyResult when no hero came; otherwise the first hero |
| Heroes.HeroesService.GetByID | e7/heroes.go:380-394 | when NewRequest fails: no hero, no response, and NewRequest's error, with nothing sent. Otherwise the request for "hero/"+id is sent through Do. Do's response and error are returned when Do fails; on success the first decoded hero is returned, or EmptyResult when there is none |
| Heroes.HeroesService.Fetch | e7/heroes.go:387-393 | Do into a new HeroesResponse: Do's response and error when Do fails, otherwise its response with the first hero or EmptyResult |

## Left out

- The hero schema: a `Hero` is the JSON object it was read from. The per-field decoding of heroes.go's `Hero` type is not modelled, and with it goes an error path. An unknown token in an enumerated hero field makes that field's UnmarshalJSON fail, and the error aborts json.Decoder.Decode. Examples are `"role": "healer"` for the `Role` field (e7/heroes.go:21) and the `Attribute`, `Stat` and `Topic` fields. Do and GetByID then return that error. The model returns the hero with no error.
- The network, net/http's transport, redirects and TLS: the client's transport gives back one fixed answer, that is, a response or a failure.
- Concurrency and cancellation timing: a context is either live or done with a cause. Do reads it once, when the transport has failed.
- encoding/json's reading of bytes into values is a function that each body carries. The model only constrains it so that finding no value means the bytes are all whitespace. UnmarshalJSON's own unquoting is modelled in `Json.Unquote`, but on characters, not bytes. Bytes that are not valid UTF-8 become U+FFFD when Go unquotes them, and then fail as an unknown token; the model cannot express that input. Case-insensitive matching of member names is not modelled.
- Json.JsonValue: an object keeps the last value of a repeated member name. For a repeated member whose value is an object decoded into a struct, encoding/json decodes the second object into the struct the first one filled, so the fields merge. For example `{"meta":{"requestDate":"a"},"meta":{"apiVersion":"b"}}` gives Metadata{"a", "b"} in Go, but only the second object's fields in the model.
- Api.HttpClient.Ready: the transport's body is one whose Close really closes it. net/http hands back http.NoBody for a response without content, such as a 204, and its Close does nothing. The `closed` flag the model sets after Do is therefore not Go's behaviour for such a response.
- A body read error from ioutil.ReadAll or the decoder is not modelled: reads always succeed.
- Api.Deliver: the decoder reads the whole body; how far json.Decoder reads ahead is not modelled.
- Api.Deliver: io.Copy's count and error are ignored, as Do ignores them.
- Api.ErrorDetails: a "Response" member in an error body, which json.Unmarshal would try to decode into the untagged `*http.Response` field, is not modelled.
- Api.HeroesResponse.Decode: a fresh HeroesResponse, as GetByID uses, is modelled up to the hero schema and the per-field errors above. For a slice that already holds elements, encoding/json decodes each array element into the existing *Hero; the model replaces the elements instead.
- Api.Client.NewRequest: the relative reference must contain no scheme and must not start with "//" (requires `!Unmodelled(urlStr)`). Paths are kept as written. Go resolves over EscapedPath, so in Go "a b" becomes "a%20b". The base URL has no userinfo and no opaque part. http.NewRequest's second parse of `u.String()` and its removal of an empty port are not modelled, and neither is the port check.
- The Client.Heroes and common service wiring of NewClient: a `HeroesService` is built over a `Client` explicitly.
- ErrorResponse.Error() and the text of every other error: errors are datatype values.
- The examples and integration tests, and the test helpers.

## Findings

| source | as written | input that shows it | evidently intended | confidence | as-written member | corrected member |
|---|---|---|---|---|---|---|
| e7/heroes.go:393 | `response.Results[0]` is indexed without a length check | a 200 answer with an empty body, or with body `{"results": []}` | GetByID reports an empty-result error instead of panicking | high, not executed | Heroes.EmptyAnswerPanics | Heroes.FirstResultCorrects |
| e7/heroes.go:375 | HeroesResponse.Metadata is tagged `json:"metadata,omitempty"` | the answer in e7/heroes_test.go:17-31, whose metadata is under "meta" | the tag "meta", which the API writes and ErrorResponse reads (e7/e7api.go:164) | medium, not executed | Api.MetadataTagAsWrittenLosesMetadata | Api.HeroesRoundTrip |
