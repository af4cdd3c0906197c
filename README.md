# CCM Yacht Party NFT metadata server, modelled in Dafny

The server issues NFT metadata documents for tickets to the Ceylon Crypto
Meetup yacht party. `POST /create-metadata` takes `{id, ticketType, ccmCount}`,
checks that all three are truthy, builds the record with
`generateNFTMetadata` and writes it to `./metadata/${id}.json`.
`GET /metadata/:id` returns that file's record, or 404.

The model has four modules:

- `Wrappers` (`wrappers.dfy`): `Option`.
- `JsValues` (`js_values.dfy`): the values a JSON body field can hold
  (`Undefined` for a missing field, `Null`, `Bool`, `Num` and `Str`).
  `Truthy` is JavaScript's `!x` test. `ToText` is the `${x}` interpolation,
  with integers written in decimal by `IntText`. `ParseInt` is an independent
  decimal reader used to prove that the text of a number gives that number back.
- `NftMetadata` (`nft_metadata.dfy`): the record, `Generate` (the generator),
  and lookups of a trait by name (`TraitTypes`, `TraitValue`).
- `MetadataServer` (`metadata_server.dfy`): the metadata directory is a
  `map<string, Metadata>` keyed by the path `./metadata/${id}.json`.
  `HandleCreate` and `HandleRead` are pure functions that specify the two
  handlers. `Server` is a class holding that map; its methods `CreateMetadata`
  and `GetMetadata` are proved against those functions. The filesystem's answer
  (the write or read succeeded or failed) is a parameter of each handler. A path holding a NUL character is refused by Node before any I/O; the exception escapes the handler and Express answers 500 with its error page (`ErrorPage`).

## Model

| member | source | states |
|---|---|---|
| `JsValues.ToText` | script/index.js:58-60 | for the modelled values (undefined, null, booleans, safe integers, strings), a truthy value never interpolates to the empty string; a string interpolates to itself |
| `JsValues.NatText` | script/index.js:60 | a number's text is a non-empty run of decimal digits with no leading zero (zero is the single digit "0") |
| `JsValues.IntText` | script/index.js:60 | an integer's text is non-empty and starts with a minus sign exactly when the integer is negative |
| `JsValues.IntTextRoundTrip` | script/index.js:60 | reading an integer's interpolated text as a decimal gives the integer back |
| `JsValues.IntTextInjective` | script/index.js:60 | distinct integers interpolate to distinct texts |
| `NftMetadata.GeneratedTraitOrder` | script/index.js:51-61 | every record has exactly 8 attributes, named Event ID, Event Type, Location, Participation, Ticket ID, Ticket Type, CCM Count, Block Height, in that order |
| `NftMetadata.GeneratedTraitValues` | script/index.js:51-61 | looked up by name, five traits hold the constants "2", "IRL", "Somewhere in the sea on a yacht", "In-Person" and "840,000"; Ticket ID, Ticket Type and CCM Count hold the texts of id, ticketType and ccmCount |
| `NftMetadata.GeneratedNameAndImage` | script/index.js:46-47 | the name is "Ticket #" followed by the Ticket ID trait's value, and the image URL is the image base followed by that same value |
| `NftMetadata.GeneratedConstantsIndependent` | script/index.js:42-61 | any two records share the description, the external URL and the five event traits |
| `NftMetadata.GenerateDeterminedByText` | script/index.js:41-64 | two records are equal if and only if the three inputs have pairwise equal texts |
| `MetadataServer.MetadataPathInjective` | script/index.js:18 | different ids are stored under different paths |
| `MetadataServer.PathRejectedIff` | script/index.js:32 | the path Node's fs is given holds a NUL character, and is refused before any I/O, exactly when the id does |
| `MetadataServer.HandleCreate` | script/index.js:9-27 | status is 400 exactly when a field is falsy, and then the store is unchanged and the message is "Missing required fields"; status is 500 exactly when the fields pass and either the id's text holds a NUL character (Node refuses the path and Express answers with its error page, store unchanged) or the write fails (message "Error writing file", no metadata); on 201 the id's entry is the generated record and the response carries that record; no key other than the id's path is added or changed |
| `MetadataServer.HandleRead` | script/index.js:29-39 | an id holding a NUL character answers 500 with Express's error page; otherwise status is 200 exactly when the id's path is in the store and the read succeeds, with exactly the stored record as body, and every other case is 404 "Metadata not found" |
| `MetadataServer.Server.CreateMetadata` | script/index.js:9-27 | the response and the new map are those of HandleCreate on the old map; on 400 the map is unchanged; entries under other paths are untouched; on 201 the map is the old one with the id's entry set to the returned record |
| `MetadataServer.Server.GetMetadata` | script/index.js:29-39 | the response is HandleRead on the current map, so 200 with the stored record, 404, or 500 for an id holding a NUL character |
| `MetadataServer.CreateThenRead` | script/index.js:16-37 | a valid create whose write succeeds answers 201 exactly when the id's text holds no NUL character (otherwise it and the read answer 500); after a 201, a read of the id's text answers 200 with the created record, whose Ticket ID, Ticket Type and CCM Count traits give back the inputs; a numeric CCM count parses back to the number |
| `MetadataServer.CreateLeavesOtherTickets` | script/index.js:18 | a create, whatever its outcome, changes no read of a different id |
| `MetadataServer.RejectedCreateInvisible` | script/index.js:12-13 | a create with a falsy field answers 400 "Missing required fields" and changes no read of any id |
| `MetadataServer.LastWriteWins` | script/index.js:18 | after two successful creates with the same id (holding no NUL character), a read returns the second record |
| `MetadataServer.TicketFortyTwo` | script/index.js:9-39 | creating id "42", type "VIP", count 3 answers 201 with name "Ticket #42" and traits VIP and 3; reading "42" then returns the same record |

## Left out

- Express routing, `express.json()` body parsing, `dotenv`, `app.listen` and `console.error` logging are framework and I/O plumbing, not logic.
- The asynchronous `fs.writeFile` and `fs.readFile` callbacks are left out, and so are concurrent requests for the same id racing. The code does nothing to order them, so each handler is modelled as one atomic step.
- `JSON.stringify` and `JSON.parse` are treated as inverse to each other: the map stores the record itself. A stored file that is not valid JSON (an uncaught exception in the read handler) is not modelled.
- Real path semantics are not modelled: normalisation, `../` in an id reaching another file, a missing directory, and permissions. The store is a plain map keyed by the path string; which writes and reads fail is a parameter.
- HandleCreate: after a failed write the model leaves the map unchanged. A real failed write may have truncated the file, so that a later read would make `JSON.parse` throw. After status 500 the contracts promise only that a pre-existing entry for the id stays present, not its value; callers that unfold the function body can still derive the old value, which the source does not guarantee.
- Body values that are objects, arrays or non-integer numbers are not modelled. Integers are limited to JavaScript's safe-integer range (|n| <= 2^53 - 1). Beyond it `JSON.parse` rounds the number to the nearest double, so `9007199254740993` interpolates to "9007199254740992" and 2^60 to "1152921504606847000". From 1e21 on `${x}` uses exponent notation, and fractions use a decimal point; `IntText` produces neither.
- JsValues.ToText: its promise that a truthy value has non-empty text holds only for the modelled values. In the source an array is truthy whatever it holds, and `${[]}` and `${[""]}` are "". So a body with `id: []` passes validation, gets 201, is written to `./metadata/.json` and is named "Ticket #". An object id without its own `toString` key interpolates to "[object Object]", so all such ids share one file and overwrite each other. An object with its own `toString` key that is not a function (`{"toString": 1}`) makes `${x}` throw a TypeError, in any of the three fields, and Express answers the request with its 500 error page.
- Read errors that reach the `readFile` callback (a missing file, permissions, a directory) are the `Failed` read outcome, which answers 404 as the source does. An id holding a NUL character never reaches the callback: Node throws before any I/O, and the model answers 500 with `ErrorPage`, as Express does. The HTML of that page is not modelled.
- The commented-out alternative image URL (script/index.js:45) is not modelled.
