/** What the node updater promises, stated over all inputs: one lemma per
    outcome of the pipeline, the facts that relate several calls (only the
    first record counts, the parser is not consulted before the metadata is
    known, the updater delegates), and the fact that a message the updater
    throws tells which step failed. */
module NodeUpdaterProperties {
  import opened Json
  import opened NodeUpdater

  // ---------------------------------------------------------------------
  // One lemma per outcome

  /** A rejected lookup is reported as a store failure with the store's own
      message. */
  lemma StoreFailurePropagates(store: AccountStore, parse: JsonParser, accountName: string, e: string)
    requires store([accountName]) == Rejected(e)
    ensures GetNodesFromAccount(store, parse, accountName) == Err(StoreUnavailable, e)
  {
  }

  /** A lookup that yields no records fails with "Account '<name>' not found",
      whatever the parser would say. */
  lemma NoAccountFails(store: AccountStore, parse1: JsonParser, parse2: JsonParser, accountName: string)
    requires store([accountName]) == Resolved(None) || store([accountName]) == Resolved(Some([]))
    ensures GetNodesFromAccount(store, parse1, accountName)
         == Err(AccountNotFound, "Account '" + accountName + "' not found")
    ensures GetNodesFromAccount(store, parse1, accountName) == GetNodesFromAccount(store, parse2, accountName)
  {
  }

  /** A first record whose metadata is absent or empty fails with
      "No JSON metadata found for account '<name>'", whatever the parser
      would say. */
  lemma NoMetadataFails(store: AccountStore, parse1: JsonParser, parse2: JsonParser, accountName: string,
                        first: Account, rest: seq<Account>)
    requires store([accountName]) == Resolved(Some([first] + rest))
    requires first.jsonMetadata == None || first.jsonMetadata == Some("")
    ensures GetNodesFromAccount(store, parse1, accountName)
         == Err(MetadataMissing, "No JSON metadata found for account '" + accountName + "'")
    ensures GetNodesFromAccount(store, parse1, accountName) == GetNodesFromAccount(store, parse2, accountName)
  {
  }

  /** Metadata the parser refuses fails with "Failed to parse JSON metadata: "
      followed by the parser's message. */
  lemma UnparsableMetadataFails(store: AccountStore, parse: JsonParser, accountName: string,
                                first: Account, rest: seq<Account>, text: string, e: string)
    requires store([accountName]) == Resolved(Some([first] + rest))
    requires first.jsonMetadata == Some(text) && text != ""
    requires parse(text) == SyntaxError(e)
    ensures GetNodesFromAccount(store, parse, accountName)
         == Err(MetadataMalformed, "Failed to parse JSON metadata: " + e)
  {
  }

  /** Metadata that parses to `null` faults on the property read, which is a
      different failure from a missing node array. */
  lemma NullDocumentFaults(store: AccountStore, parse: JsonParser, accountName: string,
                           first: Account, rest: seq<Account>, text: string)
    requires store([accountName]) == Resolved(Some([first] + rest))
    requires first.jsonMetadata == Some(text) && text != ""
    requires parse(text) == Parsed(JNull)
    ensures GetNodesFromAccount(store, parse, accountName) == Err(NullDocument, NullNodesMessage)
    ensures GetNodesFromAccount(store, parse, accountName).kind != NodesFieldInvalid
  {
  }

  /** A non-null document without an array under `nodes` (no object, no such
      member, or a member of another type) fails with "No nodes array found in
      account metadata". */
  lemma NoNodesArrayFails(store: AccountStore, parse: JsonParser, accountName: string,
                          first: Account, rest: seq<Account>, text: string, doc: Json)
    requires store([accountName]) == Resolved(Some([first] + rest))
    requires first.jsonMetadata == Some(text) && text != ""
    requires parse(text) == Parsed(doc) && doc != JNull
    requires !(doc.JObj? && "nodes" in doc.fields && doc.fields["nodes"].JArr?)
    ensures GetNodesFromAccount(store, parse, accountName)
         == Err(NodesFieldInvalid, "No nodes array found in account metadata")
  {
  }

  /** An object with an array under `nodes` succeeds: the result's nodes are
      that array exactly (same length, same order, elements not inspected),
      and its failing nodes are the `failing_nodes` member when it is truthy
      and `{}` otherwise. */
  lemma NodesArraySucceeds(store: AccountStore, parse: JsonParser, accountName: string,
                           first: Account, rest: seq<Account>, text: string,
                           fields: map<string, Json>, nodes: seq<Json>)
    requires store([accountName]) == Resolved(Some([first] + rest))
    requires first.jsonMetadata == Some(text) && text != ""
    requires parse(text) == Parsed(JObj(fields))
    requires "nodes" in fields && fields["nodes"] == JArr(nodes)
    ensures var r := GetNodesFromAccount(store, parse, accountName);
      && r.Ok?
      && r.value.nodes == nodes
      && r.value.failingNodes
         == if "failing_nodes" in fields && Truthy(fields["failing_nodes"]) then fields["failing_nodes"]
            else JObj(map[])
  {
  }

  /** A `failing_nodes` object comes back unchanged, with all its entries. */
  lemma FailingNodesObjectKept(store: AccountStore, parse: JsonParser, accountName: string,
                               first: Account, rest: seq<Account>, text: string,
                               fields: map<string, Json>, failing: map<string, Json>)
    requires store([accountName]) == Resolved(Some([first] + rest))
    requires first.jsonMetadata == Some(text) && text != ""
    requires parse(text) == Parsed(JObj(fields))
    requires "nodes" in fields && fields["nodes"].JArr?
    requires "failing_nodes" in fields && fields["failing_nodes"] == JObj(failing)
    ensures var r := GetNodesFromAccount(store, parse, accountName);
      r.Ok? && r.value.failingNodes == JObj(failing)
  {
  }

  /** The guard and the normalisation, written with JavaScript's property
      reads, truthiness and `||`, mean the document-level conditions: the
      guard rejects exactly the documents without a node array, and on the
      others `failing_nodes || {}` is the document's failing-nodes value. */
  lemma GuardsMatchDocumentShape(doc: Json)
    requires !doc.JNull?
    ensures (!TruthyRead(Get(doc, "nodes")) || !IsArray(Get(doc, "nodes"))) <==> !HasNodesArray(doc)
    ensures HasNodesArray(doc) ==> Or(Get(doc, "failing_nodes"), JObj(map[])) == FailingNodesOf(doc)
  {
  }

  // ---------------------------------------------------------------------
  // Relations between calls

  /** The lookup is consulted only for the list holding the one name: stores
      that agree on it give the same outcome. */
  lemma OnlyTheNamedAccountIsRequested(store1: AccountStore, store2: AccountStore, parse: JsonParser,
                                       accountName: string)
    requires store1([accountName]) == store2([accountName])
    ensures GetNodesFromAccount(store1, parse, accountName) == GetNodesFromAccount(store2, parse, accountName)
  {
  }

  /** Only the first record returned is read: lookups whose first records
      agree give the same outcome, whatever follows them. */
  lemma OnlyTheFirstRecordCounts(store1: AccountStore, store2: AccountStore, parse: JsonParser,
                                 accountName: string, first: Account, rest1: seq<Account>, rest2: seq<Account>)
    requires store1([accountName]) == Resolved(Some([first] + rest1))
    requires store2([accountName]) == Resolved(Some([first] + rest2))
    ensures GetNodesFromAccount(store1, parse, accountName) == GetNodesFromAccount(store2, parse, accountName)
  {
  }

  /** The parser is asked about the first record's metadata text and nothing
      else: parsers that agree on that text give the same outcome. */
  lemma OnlyTheMetadataTextIsParsed(store: AccountStore, parse1: JsonParser, parse2: JsonParser,
                                    accountName: string, first: Account, rest: seq<Account>, text: string)
    requires store([accountName]) == Resolved(Some([first] + rest))
    requires first.jsonMetadata == Some(text)
    requires parse1(text) == parse2(text)
    ensures GetNodesFromAccount(store, parse1, accountName) == GetNodesFromAccount(store, parse2, accountName)
  {
  }

  /** Both entry points read "flowerengine" when no name is given, and the
      updater returns exactly what the resolver returns. */
  lemma DefaultsAndDelegation(store: AccountStore, parse: JsonParser, accountName: string)
    ensures GetNodesFromAccount(store, parse) == GetNodesFromAccount(store, parse, "flowerengine")
    ensures UpdateNodesFromAccount(store, parse) == GetNodesFromAccount(store, parse, "flowerengine")
    ensures UpdateNodesFromAccount(store, parse, accountName) == GetNodesFromAccount(store, parse, accountName)
  {
  }

  // ---------------------------------------------------------------------
  // Messages

  /** A message the updater throws itself determines the kind of failure:
      no two kinds share a message. */
  lemma {:induction false} MessageNamesKind(k1: Kind, k2: Kind, msg: string)
    requires Raised(k1, msg) && Raised(k2, msg)
    ensures k1 == k2
  {
    // The first and fourth characters tell the kinds apart.
    MessageMark(k1, msg);
    MessageMark(k2, msg);
  }

  /** The first and fourth characters of every message of kind k, as a
      function of the kind alone. */
  ghost function MarkOf(k: Kind): (char, char) {
    match k
    case StoreUnavailable => (' ', ' ')
    case AccountNotFound => ('A', 'o')
    case MetadataMissing => ('N', 'J')
    case MetadataMalformed => ('F', 'l')
    case NodesFieldInvalid => ('N', 'n')
    case NullDocument => ('C', 'n')
  }

  /** Every message of kind k carries MarkOf(k). */
  lemma MessageMark(k: Kind, msg: string)
    requires Raised(k, msg)
    ensures |msg| >= 4 && (msg[0], msg[3]) == MarkOf(k)
  {
    match k
    case AccountNotFound =>
      var n :| msg == NotFoundMessage(n);
      var head := "Account '";
      assert head[0] == 'A' && head[3] == 'o';
      MarkOfConcat(head, n + "' not found");
      assert msg == head + (n + "' not found");
    case MetadataMissing =>
      var n :| msg == NoMetadataMessage(n);
      var head := "No JSON metadata found for account '";
      assert head[0] == 'N' && head[3] == 'J';
      MarkOfConcat(head, n + "'");
      assert msg == head + (n + "'");
    case MetadataMalformed =>
      var e :| msg == ParseFailureMessage(e);
      assert ParseFailurePrefix[0] == 'F' && ParseFailurePrefix[3] == 'l';
      MarkOfConcat(ParseFailurePrefix, e);
    case NodesFieldInvalid =>
      assert NoNodesMessage[0] == 'N' && NoNodesMessage[3] == 'n';
    case NullDocument =>
      var head := "Cannot read properties of ";
      assert head[0] == 'C' && head[3] == 'n';
      MarkOfConcat(head, "null" + " (reading '" + "nodes" + "')");
      assert msg == head + ("null" + " (reading '" + "nodes" + "')");
  }

  /** A concatenation begins as its left part does. */
  lemma MarkOfConcat(a: string, b: string)
    requires |a| >= 4
    ensures (a + b)[0] == a[0] && (a + b)[3] == a[3]
  {
  }

  /** The parts a message carries can be read back: the account name from the
      two messages that name it, the parser's text from a parse failure. */
  lemma MessagesKeepTheirContext(n1: string, n2: string, e1: string, e2: string)
    ensures NotFoundMessage(n1) == NotFoundMessage(n2) ==> n1 == n2
    ensures NoMetadataMessage(n1) == NoMetadataMessage(n2) ==> n1 == n2
    ensures ParseFailureMessage(e1) == ParseFailureMessage(e2) ==> e1 == e2
  {
  }

  // ---------------------------------------------------------------------
  // Edge cases where the code decides

  /** An empty `nodes` array is accepted. */
  lemma EmptyNodesAccepted(store: AccountStore, parse: JsonParser, accountName: string, text: string)
    requires store([accountName]) == Resolved(Some([Account(Some(text))]))
    requires text != ""
    requires parse(text) == Parsed(JObj(map["nodes" := JArr([])]))
    ensures GetNodesFromAccount(store, parse, accountName) == Ok(Directory([], JObj(map[])))
  {
  }

  /** A truthy `failing_nodes` that is not an object (here a string) is passed
      through unchanged rather than replaced by `{}`. */
  lemma TruthyStringFailingNodesKept(store: AccountStore, parse: JsonParser, accountName: string, text: string)
    requires store([accountName]) == Resolved(Some([Account(Some(text))]))
    requires text != ""
    requires parse(text) == Parsed(JObj(map["nodes" := JArr([]), "failing_nodes" := JStr("timeout")]))
    ensures GetNodesFromAccount(store, parse, accountName) == Ok(Directory([], JStr("timeout")))
  {
  }

  /** Falsy `failing_nodes` values (`null`, `false`, `0`, `""`) become `{}`. */
  lemma FalsyFailingNodesDefault(store: AccountStore, parse: JsonParser, accountName: string, text: string,
                                 falsy: Json)
    requires falsy in [JNull, JBool(false), JNum(0.0), JStr("")]
    requires store([accountName]) == Resolved(Some([Account(Some(text))]))
    requires text != ""
    requires parse(text) == Parsed(JObj(map["nodes" := JArr([]), "failing_nodes" := falsy]))
    ensures GetNodesFromAccount(store, parse, accountName) == Ok(Directory([], JObj(map[])))
  {
  }

  /** The published directory of "flowerengine" in its documented shape. */
  lemma FlowerengineExample(store: AccountStore, parse: JsonParser, text: string)
    requires store(["flowerengine"]) == Resolved(Some([Account(Some(text))]))
    requires text != ""
    requires parse(text)
          == Parsed(JObj(map[
               "nodes" := JArr([JStr("https://a/"), JStr("https://b/")]),
               "failing_nodes" := JObj(map["https://c/" := JStr("timeout")])]))
    ensures UpdateNodesFromAccount(store, parse)
         == Ok(Directory([JStr("https://a/"), JStr("https://b/")],
                         JObj(map["https://c/" := JStr("timeout")])))
  {
  }
}
