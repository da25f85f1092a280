# Hive-Engine node updater, modelled in Dafny

`node-updater.js` resolves the directory of Hive-Engine API endpoints that a
Hive account publishes. It looks the account up on the Hive blockchain
(`client.database.getAccounts([name])`), takes the first record returned,
parses its `json_metadata` string as JSON, requires an array under `nodes`,
and returns `{ nodes, failing_nodes: failing_nodes || {} }`. Every failure
throws an `Error` with its own message; `updateNodesFromAccount` only
delegates. The default account is `flowerengine`.

The model is three modules:

- `Json` (`json.dfy`): the values `JSON.parse` yields, and the JavaScript
  semantics the code relies on: truthiness, reading a property, `||` and
  `Array.isArray`.
- `NodeUpdater` (`node_updater.dfy`): `GetNodesFromAccount` and
  `UpdateNodesFromAccount` as pure functions. The lookup and the parser are
  parameters: `store: seq<string> -> Lookup` is what `getAccounts` settles to
  for the list of names it is given, and `parse: string -> ParseOutcome` is
  what `JSON.parse` returns or throws. A thrown error is an `Err(kind,
  message)` carrying the exact message text. The default account name is a
  Dafny default parameter value. The module also holds the success condition
  stated on the inputs (`Publishes`) and the shape of each kind's message
  (`Raised`).
- `NodeUpdaterProperties` (`properties.dfy`): one lemma per outcome, the
  relations between calls, the message lemmas, and the edge cases.

Where the code decides something a reader might expect otherwise, the model
follows the code:

- A truthy `failing_nodes` that is not an object, such as a string, is
  returned unchanged. It is not replaced by `{}`, and nothing checks that it
  maps endpoints to reasons.
- The elements of `nodes` are not inspected. The result holds whatever JSON
  values the array holds, not necessarily endpoint strings. An empty array
  is accepted.
- A document that parses to `null` does not give "No nodes array found".
  Reading `.nodes` from `null` throws a `TypeError`, modelled as the separate
  kind `NullDocument`.
- The account name is not checked to be non-empty. It is passed to the
  lookup as it is.

## Model

| member | source | states |
|---|---|---|
| `NodeUpdater.GetNodesFromAccount` | node-updater.js:26-78 | Succeeds exactly when the first record's metadata is non-empty and parses to an object with an array under `nodes`. The result is then that array and the normalised failing nodes. Failing nodes are never null, absent or falsy. A store failure is reported iff the lookup rejected, with the store's message. Every other failure carries its kind's message. |
| `NodeUpdater.UpdateNodesFromAccount` | node-updater.js:87-89 | Returns exactly what `GetNodesFromAccount` returns for the same arguments. |
| `NodeUpdater.NotFoundMessage` | node-updater.js:34 | The account name can be read back from the message at a fixed offset. |
| `NodeUpdater.NoMetadataMessage` | node-updater.js:41 | The account name can be read back from the message at a fixed offset. |
| `NodeUpdater.ParseFailureMessage` | node-updater.js:50 | The message is the fixed prefix followed by the parser's own message, intact. |
| `Json.IsArray` | node-updater.js:54 | Every array is truthy, so the `!nodes` half of the guard never decides. |
| `Json.Or` | node-updater.js:61 | JavaScript's `or` operator yields the left operand when it is truthy, and the fallback when it is not. The result is truthy iff either operand is. |
| `NodeUpdaterProperties.GuardsMatchDocumentShape` | node-updater.js:54-61 | On a non-null document, the guard built from property reads, truthiness and `Array.isArray` rejects exactly the documents with no array under `nodes`. On the others, `failing_nodes` or `{}` is the member when truthy, else `{}`. |
| `NodeUpdaterProperties.StoreFailurePropagates` | node-updater.js:74-77 | A rejected lookup gives `StoreUnavailable` with the store's own message, passed on unchanged. |
| `NodeUpdaterProperties.NoAccountFails` | node-updater.js:33-35 | A lookup that resolves to null or to no records gives "Account '<name>' not found". The outcome is the same for every parser. |
| `NodeUpdaterProperties.NoMetadataFails` | node-updater.js:37-42 | Absent or empty metadata on the first record gives "No JSON metadata found for account '<name>'". The outcome is the same for every parser. |
| `NodeUpdaterProperties.UnparsableMetadataFails` | node-updater.js:45-51 | A parse failure with message e gives "Failed to parse JSON metadata: " followed by e. |
| `NodeUpdaterProperties.NullDocumentFaults` | node-updater.js:54 | A document that parses to `null` gives the `TypeError` of the property read, not the missing-nodes error. |
| `NodeUpdaterProperties.NoNodesArrayFails` | node-updater.js:53-56 | A non-null document without an array under `nodes` gives "No nodes array found in account metadata". |
| `NodeUpdaterProperties.NodesArraySucceeds` | node-updater.js:58-62 | The result's nodes are the parsed array itself, so length, order and elements are kept. Its failing nodes are the `failing_nodes` member when truthy, else `{}`. |
| `NodeUpdaterProperties.FailingNodesObjectKept` | node-updater.js:61 | A `failing_nodes` object is returned unchanged, so it keeps all its entries. |
| `NodeUpdaterProperties.OnlyTheNamedAccountIsRequested` | node-updater.js:31 | The outcome depends on the store only through its answer for the list `[name]`. |
| `NodeUpdaterProperties.OnlyTheFirstRecordCounts` | node-updater.js:37-38 | Lookups whose first records agree give the same outcome, whatever records follow. |
| `NodeUpdaterProperties.OnlyTheMetadataTextIsParsed` | node-updater.js:45-47 | The outcome depends on the parser only through its answer for the first record's metadata text. |
| `NodeUpdaterProperties.DefaultsAndDelegation` | node-updater.js:87-89 | Both entry points read "flowerengine" (line 26) when no name is given. The updater equals the resolver for every name. |
| `NodeUpdaterProperties.MessageNamesKind` | node-updater.js:33-56 | No two failure kinds raised by the resolver itself share a message, so the message alone tells which step failed. |
| `NodeUpdaterProperties.MessagesKeepTheirContext` | node-updater.js:33-51 | Equal not-found or no-metadata messages name the same account. Equal parse-failure messages carry the same parser text. |
| `NodeUpdaterProperties.EmptyNodesAccepted` | node-updater.js:54 | `{"nodes": []}` resolves to no nodes and `{}` failing nodes. |
| `NodeUpdaterProperties.TruthyStringFailingNodesKept` | node-updater.js:61 | A string `failing_nodes` is passed through unchanged. |
| `NodeUpdaterProperties.FalsyFailingNodesDefault` | node-updater.js:61 | A `failing_nodes` of `null`, `false`, `0` or `""` becomes `{}`. |
| `NodeUpdaterProperties.FlowerengineExample` | node-updater.js:26-62 | For the default account, metadata with two nodes and one failing node resolves to exactly those. |

## Left out

- The dhive client and its network call (node-updater.js:17, 31): the model takes the lookup's outcome as the `store` parameter. A rejection of any cause (transport error, timeout, cancellation) is one `StoreUnavailable` case.
- `JSON.parse` (node-updater.js:47) is a foreign library: the model takes its outcome as the `parse` parameter. JSON numbers are `real` values after the parser's conversion; floating-point rounding is not modelled.
- Console output (node-updater.js:28, 48, 65-71, 75): logging only, with no effect on the outcome. Throwing again after logging (line 76) is modelled as passing the error on unchanged.
- Promises and `async`: there is one suspension point and no concurrency, so each call is a function of its inputs.
- The property read `Json.Get` does not model properties inherited from built-in prototypes. Those would matter only for names such as `length` or `toString`, never for the `nodes` and `failing_nodes` the code reads.
- The account record is reduced to its `json_metadata` field, as a string or absent. A non-string `json_metadata` and a `null` first record are not modelled: the blockchain API does not return them.
- The `TypeError` message for a `null` document is V8's wording. Other JavaScript engines word it differently.
- example-usage.js, example.js and example2.js are demonstration callers: printing, a JSON-RPC `fetch` against a chosen node, and the URL join there. They are not part of this model.
