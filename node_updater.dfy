/** The Hive-Engine node updater: resolves the directory of Hive-Engine
    endpoints that a Hive account publishes in its `json_metadata`.

    The account lookup against the Hive blockchain and `JSON.parse` are
    outside this module; both are parameters of the resolver, so every
    outcome is a function of the account name, of what the lookup returns
    and of what the parser returns. Thrown errors become `Err` values that
    carry their kind and the exact message the code throws. */
module NodeUpdater {
  import opened Json

  /** The part of a Hive account record that the updater reads; every other
      field of the record is ignored. */
  datatype Account = Account(jsonMetadata: Option<string>)

  /** How `client.database.getAccounts([name])` settles: it rejects with an
      error message, or it resolves to a list of records (`None` when it
      resolves to `null` or `undefined`). */
  datatype Lookup =
    | Rejected(message: string)
    | Resolved(accounts: Option<seq<Account>>)

  /** How `JSON.parse(text)` ends: a document, or a thrown `SyntaxError`. */
  datatype ParseOutcome = Parsed(doc: Json) | SyntaxError(message: string)

  /** The account lookup, given the list of names it is asked for. */
  type AccountStore = seq<string> -> Lookup

  /** The JSON parser. */
  type JsonParser = string -> ParseOutcome

  /** The resolved directory: the `nodes` array as published, and the
      normalised `failing_nodes` value. */
  datatype Directory = Directory(nodes: seq<Json>, failingNodes: Json)

  /** Which step failed. `NullDocument` is the `TypeError` raised by reading
      `.nodes` from a document that parsed to `null`. */
  datatype Kind =
    | StoreUnavailable
    | AccountNotFound
    | MetadataMissing
    | MetadataMalformed
    | NodesFieldInvalid
    | NullDocument

  /** The value returned, or the kind and message of the error thrown. */
  datatype Result<T> = Ok(value: T) | Err(kind: Kind, message: string)

  /** The account read when the caller names none. */
  const DefaultAccount: string := "flowerengine"

  const NoNodesMessage: string := "No nodes array found in account metadata"

  /** The host engine's `TypeError` message for reading property `key` from
      `base` (`null` or `undefined`), in V8's wording. */
  function PropertyReadFault(base: string, key: string): string {
    "Cannot read properties of " + base + " (reading '" + key + "')"
  }

  /** The fault raised by reading `.nodes` from a document that is `null`. */
  const NullNodesMessage: string := PropertyReadFault("null", "nodes")

  const ParseFailurePrefix: string := "Failed to parse JSON metadata: "

  /** The message for a lookup that found nothing; the name can be read back. */
  function NotFoundMessage(accountName: string): (m: string)
    ensures |m| == |accountName| + 20 && m[9..|m| - 11] == accountName
  {
    "Account '" + accountName + "' not found"
  }

  /** The message for a record without metadata; the name can be read back. */
  function NoMetadataMessage(accountName: string): (m: string)
    ensures |m| == |accountName| + 37 && m[36..|m| - 1] == accountName
  {
    "No JSON metadata found for account '" + accountName + "'"
  }

  /** The message for metadata the parser refuses; it carries the parser's own
      message intact after a fixed prefix. */
  function ParseFailureMessage(parserMessage: string): (m: string)
    ensures |m| == |ParseFailurePrefix| + |parserMessage|
    ensures m[..|ParseFailurePrefix|] == ParseFailurePrefix
    ensures m[|ParseFailurePrefix|..] == parserMessage
  {
    ParseFailurePrefix + parserMessage
  }

  /** `getNodesFromAccount(accountName)`: look the account up, take the first
      record, require truthy metadata, parse it, require an array under
      `nodes`, and return it with `failing_nodes || {}`. */
  function GetNodesFromAccount(store: AccountStore, parse: JsonParser, accountName: string := DefaultAccount)
    : (r: Result<Directory>)
    // Success happens exactly when the inputs publish a directory, and then
    // the result is that directory.
    ensures r.Ok? ==> Publishes(store, parse, accountName, r.value)
    ensures forall d :: Publishes(store, parse, accountName, d) ==> r == Ok(d)
    // The normalised failing-nodes value is never null, absent or falsy.
    ensures r.Ok? ==> Truthy(r.value.failingNodes)
    // A rejected lookup is passed on as it is, and nothing else is reported
    // as a store failure.
    ensures (r.Err? && r.kind == StoreUnavailable) <==> store([accountName]).Rejected?
    ensures r.Err? && r.kind == StoreUnavailable ==> r.message == store([accountName]).message
    // Every other failure carries the message of its own kind.
    ensures r.Err? && r.kind != StoreUnavailable ==> Raised(r.kind, r.message)
  {
    match store([accountName])
    case Rejected(e) => Err(StoreUnavailable, e)
    case Resolved(accounts) =>
      if accounts.None? || |accounts.value| == 0 then
        Err(AccountNotFound, NotFoundMessage(accountName))
      else
        var jsonMetadata := accounts.value[0].jsonMetadata;
        if jsonMetadata.None? || jsonMetadata.value == "" then
          Err(MetadataMissing, NoMetadataMessage(accountName))
        else
          match parse(jsonMetadata.value)
          case SyntaxError(e) => Err(MetadataMalformed, ParseFailureMessage(e))
          case Parsed(metadataObj) =>
            if metadataObj.JNull? then
              Err(NullDocument, NullNodesMessage)
            else
              var nodes := Get(metadataObj, "nodes");
              if !TruthyRead(nodes) || !IsArray(nodes) then
                Err(NodesFieldInvalid, NoNodesMessage)
              else
                Ok(Directory(nodes.value.elems, Or(Get(metadataObj, "failing_nodes"), JObj(map[]))))
  }

  /** `updateNodesFromAccount(accountName)` delegates to `getNodesFromAccount`. */
  function UpdateNodesFromAccount(store: AccountStore, parse: JsonParser, accountName: string := DefaultAccount)
    : (r: Result<Directory>)
    ensures r == GetNodesFromAccount(store, parse, accountName)
  {
    GetNodesFromAccount(store, parse, accountName)
  }

  // ---------------------------------------------------------------------
  // The success condition, stated on the inputs

  /** The lookup returned at least one record. */
  ghost predicate Found(l: Lookup) {
    l.Resolved? && l.accounts.Some? && |l.accounts.value| > 0
  }

  /** The metadata field of the first record returned. */
  ghost function FirstMetadata(l: Lookup): Option<string>
    requires Found(l)
  {
    l.accounts.value[0].jsonMetadata
  }

  /** The document publishes a node list: it is an object whose `nodes`
      member is an array (of anything, possibly empty). */
  ghost predicate HasNodesArray(doc: Json) {
    doc.JObj? && "nodes" in doc.fields && doc.fields["nodes"].JArr?
  }

  /** The failing-nodes value of a document: its `failing_nodes` member when
      that is present and truthy, and the empty object otherwise. */
  ghost function FailingNodesOf(doc: Json): Json
    requires doc.JObj?
  {
    if "failing_nodes" in doc.fields && Truthy(doc.fields["failing_nodes"]) then
      doc.fields["failing_nodes"]
    else
      JObj(map[])
  }

  /** The lookup for `accountName` found a record whose metadata text is
      non-empty and parses to a document with a node array, and `d` holds
      that array and the document's failing-nodes value. */
  ghost predicate Publishes(store: AccountStore, parse: JsonParser, accountName: string, d: Directory) {
    var l := store([accountName]);
    && Found(l)
    && FirstMetadata(l).Some?
    && FirstMetadata(l).value != ""
    && parse(FirstMetadata(l).value).Parsed?
    && HasNodesArray(parse(FirstMetadata(l).value).doc)
    && d.nodes == parse(FirstMetadata(l).value).doc.fields["nodes"].elems
    && d.failingNodes == FailingNodesOf(parse(FirstMetadata(l).value).doc)
  }

  /** `msg` has the form of the message the updater itself throws for a
      failure of kind `k` (a store failure carries the store's own message,
      which can be anything). */
  ghost predicate Raised(k: Kind, msg: string) {
    match k
    case StoreUnavailable => false
    case AccountNotFound => exists n :: msg == NotFoundMessage(n)
    case MetadataMissing => exists n :: msg == NoMetadataMessage(n)
    case MetadataMalformed => exists e :: msg == ParseFailureMessage(e)
    case NodesFieldInvalid => msg == NoNodesMessage
    case NullDocument => msg == NullNodesMessage
  }
}
