# retain24wrapper in Dafny

A model of `retain24wrapper`, a small client for the Retain24 voucher
service. The client asks the service for its providers (the organisations
whose coupons it issues) and issues a coupon ("valuable") to a phone
number. The model covers what the client does with the documents it sends
and receives:

- **Provider records.** A `Provider` is built from one TEMPLATE entry of the
  provider list. Each key of the entry becomes an attribute: every `@` is
  removed and the name is lower-cased, and the value is copied unchanged.
  A later key that folds to the same name overwrites an earlier one. The
  printable form of a provider is `name - id`.
- **Provider list update.** `get_providers` asks the service for the list.
  It appends one provider per TEMPLATE entry, in document order, to the
  client's `providers` list. It never clears that list, so repeated calls
  accumulate. On an SSL handshake failure it returns `False` and changes
  nothing.
- **Issue request.** `populate_xml` builds the document
  `TICKETANYWHERE / COUPON / SEND`, whose SEND element has seven fields.
  The optional e-mail address, SMS text and e-mail text default to the text
  `"None"`. The send date defaults to the current time.
- **Receipt check.** `validate_receipt` raises a ValueError
  `ERRORCODE: <code> - <message>` when the receipt's STATUS is ERROR.
  Otherwise it returns the receipt unchanged.
- **Issuing.** `issue_valuable` populates the document, posts it, and checks
  the receipt.

`values.dfy` (module `PyValues`) models the Python values these operations
work on. These are the trees xmltodict parses from a response: text, None,
ordered mappings and lists. It also models Python's `x[key]`, chained
subscripts and `for` iteration, with the exceptions Python raises turned
into error values. `retain24wrapper.dfy` (module `Retain24`) models the
client itself:

- `Provider` and `Retain24Wrapper` are classes whose fields the methods
  update.
- `get_providers` is a method with a loop. It is proved against the
  function `ProvidersEffect`, which says what one call appends and how it
  ends.
- The pure parts are functions: `parse_response`, `populate_xml`,
  `validate_receipt`, `__repr__` and `issue_valuable`.

The HTTPS transport is a parameter `send: Request -> Reply`. It maps the
request the client would send (verb, URL, `TA_ACTION` code, certificate
path, payload) to either the parsed response tree or an SSL failure. The
clock's text for the default send date is the parameter `now`.

On an SSL failure both calls return `False` (`ReturnedFalse`).
`get_providers` appends to the stored list and never clears it.

## Model

| member | source | states |
|---|---|---|
| PyValues.Lookup | retain24wrapper/retain24wrapper.py:111 | a mapping lookup finds nothing exactly when the key is not among the mapping's keys |
| PyValues.LookupFirst | retain24wrapper/retain24wrapper.py:111 | the value found for a key is that of the first item carrying the key |
| PyValues.LookupDistinct | retain24wrapper/retain24wrapper.py:88-100 | in a mapping whose keys are pairwise different, each item's key finds that item's value |
| PyValues.Get | retain24wrapper/retain24wrapper.py:111-116 | `x[key]` succeeds iff `x` is a mapping holding `key`; otherwise it is a KeyError (mapping) or a TypeError (anything else) naming the key |
| PyValues.Path | retain24wrapper/retain24wrapper.py:66 | a chain of subscripts with no keys is the value itself, and a failing chain names one of its own keys |
| PyValues.PathConcat | retain24wrapper/retain24wrapper.py:60 | following `a + b` equals following `a` and then `b` from its result, and an error on `a` stops the chain |
| PyValues.PathNest | retain24wrapper/retain24wrapper.py:66 | the document nested along a path gives back its leaf when the same path is followed |
| PyValues.Iterate | retain24wrapper/retain24wrapper.py:60 | `for x in v` visits a list's elements, a mapping's keys or a text's characters; None and numbers are not iterable |
| Retain24.LowerChar | retain24wrapper/retain24wrapper.py:23 | an ASCII capital becomes the small letter 32 code points above it; every other character is unchanged |
| Retain24.StripMarkers | retain24wrapper/retain24wrapper.py:23 | `replace('@', '')` leaves no `@`, keeps the count of every other character, drops a lone `@`, keeps a lone other character, and is the identity on text without `@` |
| Retain24.StripMarkersConcat | retain24wrapper/retain24wrapper.py:23 | removing markers from two joined texts is removing them from each and joining: the remaining characters keep their order |
| Retain24.LowerAscii | retain24wrapper/retain24wrapper.py:23 | `lower()` keeps the length, moves each ASCII capital 32 code points down to its small letter, keeps every other character in place, and leaves no capital |
| Retain24.FoldKey | retain24wrapper/retain24wrapper.py:23 | `k.replace('@', '').lower()`: never longer than the key (its other properties are FoldKeyFolded and FoldKeyIdempotent) |
| Retain24.FoldKeyFolded | retain24wrapper/retain24wrapper.py:23 | a folded key has no `@` and no upper case, and folding leaves a key unchanged exactly when it had neither |
| Retain24.FoldKeyIdempotent | retain24wrapper/retain24wrapper.py:23 | folding an already folded name gives the same name |
| Retain24.Assign | retain24wrapper/retain24wrapper.py:22-23 | the attributes after one `__setattr__` per (name, value) pair in order: at most one per pair, and the last pair always sets its name to its value |
| Retain24.AssignKeys | retain24wrapper/retain24wrapper.py:22-23 | an attribute is set exactly for the names among the pairs |
| Retain24.AssignValue | retain24wrapper/retain24wrapper.py:22-23 | an attribute holds the value of the last pair carrying its name |
| Retain24.FoldItems | retain24wrapper/retain24wrapper.py:22-23 | the (attribute name, value) pairs of an entry: each key folded, each value unchanged, in the entry's order |
| Retain24.FoldFields | retain24wrapper/retain24wrapper.py:22-23 | the attributes after the `__setattr__` loop (characterised by FoldFieldsAssign, FoldFieldsKeys and FoldFieldsValue) |
| Retain24.FoldFieldsAssign | retain24wrapper/retain24wrapper.py:22-23 | the loop over an entry is the plain attribute assignment of its folded pairs |
| Retain24.FoldFieldsKeys | retain24wrapper/retain24wrapper.py:22-23 | a provider has an attribute exactly for each folded key of its entry |
| Retain24.FoldFieldsValue | retain24wrapper/retain24wrapper.py:22-23 | an attribute holds, unchanged, the value of the last item whose key folds to its name |
| Retain24.AttributeNamesFolded | retain24wrapper/retain24wrapper.py:22-23 | every attribute name of a provider is free of `@` and of upper-case letters |
| Retain24.Provider.constructor | retain24wrapper/retain24wrapper.py:20-23 | the `__setattr__` loop leaves the attributes equal to the fold of the entry's items in order |
| Retain24.Provider.Repr | retain24wrapper/retain24wrapper.py:25-27 | what `__repr__` returns exists iff `name` and `id` are text attributes, and is then exactly `name`, then `" - "`, then `id` |
| Retain24.ParseResponse | retain24wrapper/retain24wrapper.py:65-66 | the answer sits at TICKETANYWHERE/COUPON/RESPONSE, and a missing step names one of those keys |
| Retain24.ParseResponseEnvelope | retain24wrapper/retain24wrapper.py:65-66 | an answer wrapped in the response envelope is parsed back unchanged |
| Retain24.TemplateList | retain24wrapper/retain24wrapper.py:60 | the loop runs iff the path to TEMPLATELIST/TEMPLATE exists and holds something iterable, and it then visits exactly what iteration yields |
| Retain24.FoldTemplates | retain24wrapper/retain24wrapper.py:60-61 | the providers built are the folds of the entries, in order, up to the first entry that is not a mapping |
| Retain24.FoldTemplatesNext | retain24wrapper/retain24wrapper.py:60-61 | past the providers built so far, the next entry yields one more exactly when it is a mapping |
| Retain24.ProvidersEffect | retain24wrapper/retain24wrapper.py:54-63 | a call returns False iff the handshake failed; a failed subscript or iteration raises with nothing appended; otherwise the appended providers are the folds of the leading entries, in order, the call completes iff every entry is a mapping, and it stops with AttributeError at the first entry that is not |
| Retain24.ProvidersFromTemplateList | retain24wrapper/retain24wrapper.py:60-63 | any response whose TEMPLATE element is a list of mappings yields exactly one provider per entry, in document order, and the call completes |
| Retain24.ProvidersFromEnvelope | retain24wrapper/retain24wrapper.py:60-63 | the bare response envelope around a list of mappings yields one provider per entry, in order, and the call completes |
| Retain24.SingleTemplateRaises | retain24wrapper/retain24wrapper.py:60-61 | a single TEMPLATE element (a mapping, not a list) makes the loop visit its keys, so the call raises before appending anything |
| Retain24.KwargGet | retain24wrapper/retain24wrapper.py:83-86 | `kwargs.get(name, default)` is the supplied value when there is one and the default otherwise |
| Retain24.SendKeysDistinct | retain24wrapper/retain24wrapper.py:90-98 | the seven SEND field names are pairwise different |
| Retain24.SendItems | retain24wrapper/retain24wrapper.py:83-98 | the SEND items carry exactly the seven field names, each once |
| Retain24.PopulateXml | retain24wrapper/retain24wrapper.py:68-100 | the document has root TICKETANYWHERE holding only COUPON, which holds only SEND, which holds exactly the seven fields |
| Retain24.PopulateXmlArguments | retain24wrapper/retain24wrapper.py:88-93 | TEMPLATE, QTY and MSISDN are the arguments unchanged |
| Retain24.PopulateXmlDefaults | retain24wrapper/retain24wrapper.py:83-96 | EMAIL_ADDRESS, SMS_TEXT and EMAIL_TEXT are the supplied values or the text "None" |
| Retain24.PopulateXmlSendDate | retain24wrapper/retain24wrapper.py:86-97 | SEND_DATE is the supplied value or the clock's text |
| Retain24.IssueDocumentPaths | retain24wrapper/retain24wrapper.py:88-100 | in the issue document, COUPON, COUPON/SEND and each COUPON/SEND/field lead to the parts it was built from |
| Retain24.Receipt | retain24wrapper/retain24wrapper.py:111 | the receipt is what the path TICKETANYWHERE/COUPON/RESPONSE/RECEIPT finds |
| Retain24.ReceiptEnvelope | retain24wrapper/retain24wrapper.py:111 | a receipt wrapped in the response envelope is found unchanged |
| Retain24.ValidateReceipt | retain24wrapper/retain24wrapper.py:109-118 | the receipt is returned unchanged iff it has a STATUS that is not ERROR; a ValueError is raised iff STATUS is ERROR and ERRORCODE and MESSAGE are present, and it carries those two values |
| Retain24.Show | retain24wrapper/retain24wrapper.py:114-117 | formatting a text gives that text and formatting None gives "None" |
| Retain24.ServiceErrorText | retain24wrapper/retain24wrapper.py:114-117 | the message is exactly "ERRORCODE: ", the code, " - ", the message |
| Retain24.Retain24Wrapper.constructor | retain24wrapper/retain24wrapper.py:42-46 | a new client keeps its URL and certificate path and has no providers |
| Retain24.Retain24Wrapper.ProvidersRequest | retain24wrapper/retain24wrapper.py:55 | the provider request is a GET to the base URL with `TA_ACTION=5-45103`, the client certificate and no payload |
| Retain24.Retain24Wrapper.IssueRequest | retain24wrapper/retain24wrapper.py:131-138 | the issue request is a POST to the base URL with `TA_ACTION=5-45102`, the client certificate and the document as payload |
| Retain24.Retain24Wrapper.GetProviders | retain24wrapper/retain24wrapper.py:48-63 | the provider attributes become the old ones followed by those `ProvidersEffect` appends; earlier providers stay in place; new ones are fresh; an SSL failure leaves the list unchanged and returns False; a completed call returns the list itself |
| Retain24.Retain24Wrapper.AppendProviders | retain24wrapper/retain24wrapper.py:60-61 | the loop appends one fresh provider per entry, in order, up to the first entry that is not a mapping, and reports whether it got through all of them |
| Retain24.Retain24Wrapper.AppendProvider | retain24wrapper/retain24wrapper.py:61 | `append(Provider(template))` adds one fresh provider whose attributes are the fold of the entry |
| Retain24.Retain24Wrapper.IssueValuable | retain24wrapper/retain24wrapper.py:120-145 | the call posts the populated document; it returns False iff the handshake failed; for a delivered reply it returns the receipt exactly when `validate_receipt` accepts it and otherwise raises what `validate_receipt` raises, the ValueError carrying the receipt's code and message |
| Retain24.IssueValuableAccepted | retain24wrapper/retain24wrapper.py:129-145 | for any delivered response whose receipt has a STATUS other than ERROR, the call returns that receipt |
| Retain24.IssueValuableRejected | retain24wrapper/retain24wrapper.py:113-117 | for any delivered response whose receipt has STATUS ERROR, a code and a message, the call raises the ValueError carrying that code and message |

## Left out

- The network: `requests.get`/`requests.post`, the certificate handshake and
  SSLError detection are the `send` parameter. Other transport exceptions,
  such as a refused connection, are not modelled. HTTP status codes are not
  modelled either; the code ignores them.
- XML parsing and rendering: a response is the tree xmltodict would build
  from it. Malformed XML (ExpatError) is not modelled. `populate_xml` yields
  the document `dicttoxml` would render, not its bytes. xmltodict never
  produces numbers; `Int` exists only for caller-supplied arguments.
- The temporary file in `populate_xml`: it only round-trips the rendered
  bytes.
- The clock: the default send date is the parameter `now`. The source's
  format `'%Y-%m-%d %H:%m'` puts the month where the minutes belong, so the
  model makes no claim about the text's shape.
- The `print` diagnostics on an SSL failure.
- Retain24.LowerAscii: lower-cases ASCII letters only. Python's `lower()`
  also folds non-ASCII letters in unicode keys.
- Retain24.Provider.Repr: models the text `__repr__` returns. Python 2's
  `repr()` then encodes that unicode text to ASCII, which raises
  UnicodeEncodeError for a non-ASCII name or id; that step is not modelled.
- Retain24.Show: covers text and None only. `str()` of a mapping, a list or
  a number (accepted by `format` in the source) is not modelled, and neither
  is the UnicodeEncodeError for non-ASCII unicode text.
- Retain24.PopulateXml: states the set of SEND field names, not their
  order. The source builds a plain Python 2 dict, whose order is not defined.
- Python attributes beyond a field map: an attribute named like a method of
  the object is just another entry of `attrs`.
- Aliasing: `get_providers` returns the client's own list. The model
  returns the sequence the field then holds, so later changes through the
  returned list are not captured.
- `setup.py`: packaging metadata only.
