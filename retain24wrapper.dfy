/** The Retain24 voucher-service client: provider records folded from the
    service's template list, the issue-request document, the receipt check
    and the two service calls. The HTTPS transport is a function parameter
    from the request sent to the reply received, and the reply is the tree
    xmltodict parses from the response body. */
module Retain24 {
  import opened PyValues

  /** Query parameter selecting the server-side operation, and its codes. */
  const ActionParameter := "TA_ACTION"
  const GetProvidersAction := "5-45103"
  const IssueAction := "5-45102"

  /** Where the service puts its answer inside a response document. */
  const ResponsePath := ["TICKETANYWHERE", "COUPON", "RESPONSE"]

  /** Where, inside the answer, the template list sits. */
  const TemplatesPath := ["TEMPLATELIST", "TEMPLATE"]

  /** The seven fields of an issue request's SEND element. */
  const SendKeys := ["TEMPLATE", "QTY", "MSISDN", "EMAIL_ADDRESS", "SMS_TEXT", "EMAIL_TEXT", "SEND_DATE"]

  /** What a call raises. */
  datatype Exception =
    | Subscript(error: LookupError)                  // KeyError or TypeError from `x[key]`
    | NotIterable                                    // TypeError from iterating None or a number
    | NotAMapping                                    // AttributeError: `.iteritems()` on a template that is not a mapping
    | ServiceError(errorCode: Value, message: Value) // the ValueError of a receipt whose STATUS is ERROR

  /** How a call ends: with a value, with the `False` sentinel for a failed
      SSL handshake, or with an exception. */
  datatype Outcome<+T> = Returned(value: T) | ReturnedFalse | Raised(exception: Exception)

  datatype Verb = HttpGet | HttpPost

  /** Everything a request carries: verb, URL, query parameters, the client
      certificate presented, and the document posted, if any. */
  datatype Request = Request(verb: Verb, url: string, params: seq<(string, string)>,
                             certificate: string, payload: Option<Document>)

  /** What came back: the parsed response document, or an SSL handshake failure. */
  datatype Reply = Delivered(tree: Value) | SslFailure

  /** A document for dicttoxml: its root element's name and its content. */
  datatype Document = Document(root: string, body: Value)

  // ---------------------------------------------------------------------------
  // Key folding: `k.replace('@', '').lower()`

  predicate IsUpper(c: char) {
    'A' <= c <= 'Z'
  }

  predicate NoUpper(s: string) {
    forall i :: 0 <= i < |s| ==> !IsUpper(s[i])
  }

  /** `lower()` on one character: an ASCII capital becomes its small
      letter, every other character stays as it is. */
  function LowerChar(c: char): (d: char)
    ensures !IsUpper(d)
    ensures IsUpper(c) ==> 'a' <= d <= 'z' && d as int == c as int + 32
    ensures !IsUpper(c) ==> d == c
  {
    if IsUpper(c) then (c as int + 32) as char else c
  }

  /** `s.replace('@', '')`: every attribute marker removed, all other
      characters kept. */
  function StripMarkers(s: string): (r: string)
    ensures |r| <= |s| && '@' !in r
    ensures forall c :: c != '@' ==> multiset(r)[c] == multiset(s)[c]
    ensures '@' !in s ==> r == s
    ensures |s| == 1 ==> r == (if s[0] == '@' then [] else s)
  {
    if s == [] then []
    else
      assert s == [s[0]] + s[1..];
      (if s[0] == '@' then [] else [s[0]]) + StripMarkers(s[1..])
  }

  /** Removing markers from two joined texts is removing them from each
      and joining the results: the other characters keep their order. */
  lemma {:induction false} StripMarkersConcat(a: string, b: string)
    ensures StripMarkers(a + b) == StripMarkers(a) + StripMarkers(b)
  {
    if a != [] {
      assert (a + b)[0] == a[0] && (a + b)[1..] == a[1..] + b;
      StripMarkersConcat(a[1..], b);
    } else {
      assert a + b == b;
    }
  }

  /** `s.lower()` on ASCII letters. */
  function LowerAscii(s: string): (r: string)
    ensures |r| == |s| && NoUpper(r)
    ensures forall i :: 0 <= i < |s| && !IsUpper(s[i]) ==> r[i] == s[i]
    ensures forall i :: 0 <= i < |s| && IsUpper(s[i]) ==> r[i] as int == s[i] as int + 32
    ensures NoUpper(s) ==> r == s
  {
    seq(|s|, i requires 0 <= i < |s| => LowerChar(s[i]))
  }

  /** The attribute name a key of a parsed template entry becomes. */
  function FoldKey(k: string): (r: string)
    ensures |r| <= |k|
  {
    LowerAscii(StripMarkers(k))
  }

  /** A folded name has no marker and no upper-case letter, and folding
      leaves a key unchanged exactly when it has neither. */
  lemma FoldKeyFolded(k: string)
    ensures '@' !in FoldKey(k) && NoUpper(FoldKey(k))
    ensures FoldKey(k) == k <==> '@' !in k && NoUpper(k)
  {
  }

  /** Folding an already folded name changes nothing. */
  lemma FoldKeyIdempotent(k: string)
    ensures FoldKey(FoldKey(k)) == FoldKey(k)
  {
    FoldKeyFolded(k);
    FoldKeyFolded(FoldKey(k));
  }

  // ---------------------------------------------------------------------------
  // Provider

  type Fields = map<string, Value>

  /** The attributes after `__setattr__(name, value)` for each pair, in
      order: a later pair with the same name overwrites an earlier one. */
  function Assign(items: seq<(string, Value)>): (m: Fields)
    ensures |m| <= |items|
    ensures items != [] ==> var last := items[|items| - 1];
                            last.0 in m && m[last.0] == last.1
    decreases |items|
  {
    if items == [] then map[]
    else Assign(items[..|items| - 1])[items[|items| - 1].0 := items[|items| - 1].1]
  }

  /** An attribute is set exactly for the names that occur among the pairs. */
  lemma {:induction false} AssignKeys(items: seq<(string, Value)>, name: string)
    ensures name in Assign(items) <==> name in Keys(items)
    decreases |items|
  {
    if items != [] {
      var n := |items| - 1;
      AssignKeys(items[..n], name);
      KeysLast(items);
    }
  }

  /** An attribute holds the value of the last pair with its name. */
  lemma {:induction false} AssignValue(items: seq<(string, Value)>, i: nat)
    requires i < |items|
    requires forall j :: i < j < |items| ==> items[j].0 != items[i].0
    ensures items[i].0 in Assign(items) && Assign(items)[items[i].0] == items[i].1
    decreases |items|
  {
    var n := |items| - 1;
    if i < n {
      assert items[..n][i] == items[i];
      assert forall j :: i < j < n ==> items[..n][j] == items[j];
      AssignValue(items[..n], i);
    }
  }

  /** The (attribute name, value) pairs `__init__` sets for an entry: each
      key folded, each value as it is, in the entry's order. */
  function FoldItems(body: seq<(string, Value)>): (f: seq<(string, Value)>)
    ensures |f| == |body|
    ensures forall i :: 0 <= i < |body| ==> f[i] == (FoldKey(body[i].0), body[i].1)
  {
    seq(|body|, i requires 0 <= i < |body| => (FoldKey(body[i].0), body[i].1))
  }

  /** The attributes a Provider has after `__init__` has set, in order, one
      attribute per item of `body`: a later item whose key folds to the same
      name overwrites an earlier one. */
  function FoldFields(body: seq<(string, Value)>): Fields
    decreases |body|
  {
    if body == [] then map[]
    else FoldFields(body[..|body| - 1])[FoldKey(body[|body| - 1].0) := body[|body| - 1].1]
  }

  /** `__init__` is the plain attribute assignment of the folded pairs. */
  lemma {:induction false} FoldFieldsAssign(body: seq<(string, Value)>)
    ensures FoldFields(body) == Assign(FoldItems(body))
    decreases |body|
  {
    if body != [] {
      var n := |body| - 1;
      FoldFieldsAssign(body[..n]);
      assert FoldItems(body)[..n] == FoldItems(body[..n]);
    }
  }

  /** A Provider has an attribute exactly for the folded keys of its body. */
  lemma FoldFieldsKeys(body: seq<(string, Value)>, name: string)
    ensures name in FoldFields(body) <==> exists i :: 0 <= i < |body| && FoldKey(body[i].0) == name
  {
    var f := FoldItems(body);
    FoldFieldsAssign(body);
    AssignKeys(f, name);
    if name in Keys(f) {
      var i :| 0 <= i < |f| && Keys(f)[i] == name;
      assert FoldKey(body[i].0) == name;
    }
    if i :| 0 <= i < |body| && FoldKey(body[i].0) == name {
      assert Keys(f)[i] == name;
    }
  }

  /** Every attribute name is lower case and free of '@' markers. */
  lemma AttributeNamesFolded(body: seq<(string, Value)>, name: string)
    requires name in FoldFields(body)
    ensures '@' !in name && NoUpper(name)
  {
    FoldFieldsKeys(body, name);
    var i :| 0 <= i < |body| && FoldKey(body[i].0) == name;
    FoldKeyFolded(body[i].0);
  }

  /** The attribute takes the value of the last item whose key folds to its
      name, unchanged. */
  lemma FoldFieldsValue(body: seq<(string, Value)>, i: nat)
    requires i < |body|
    requires forall j :: i < j < |body| ==> FoldKey(body[j].0) != FoldKey(body[i].0)
    ensures FoldKey(body[i].0) in FoldFields(body)
    ensures FoldFields(body)[FoldKey(body[i].0)] == body[i].1
  {
    FoldFieldsAssign(body);
    AssignValue(FoldItems(body), i);
  }

  /** A provider known to the service: an object whose attributes come from
      one TEMPLATE entry of the provider list. */
  class Provider {
    var attrs: Fields

    /** `Provider(body)`: one `__setattr__` per item of the entry. */
    constructor (body: seq<(string, Value)>)
      ensures attrs == FoldFields(body)
    {
      var m: Fields := map[];
      var i := 0;
      while i < |body|
        invariant 0 <= i <= |body|
        invariant m == FoldFields(body[..i])
      {
        assert body[..i + 1][..i] == body[..i];
        m := m[FoldKey(body[i].0) := body[i].1];
        i := i + 1;
      }
      assert body[..i] == body;
      attrs := m;
    }

    /** What `__repr__` returns: name and id joined by " - "; None when
        either attribute is missing (AttributeError) or is not text
        (TypeError). */
    function Repr(): (r: Option<string>)
      reads this
      ensures r.Some? <==> "name" in attrs && attrs["name"].Str? && "id" in attrs && attrs["id"].Str?
      ensures r.Some? ==>
                var name, id := attrs["name"].s, attrs["id"].s;
                && |r.value| == |name| + 3 + |id|
                && r.value[..|name|] == name
                && r.value[|name|..|name| + 3] == " - "
                && r.value[|name| + 3..] == id
    {
      if "name" in attrs && attrs["name"].Str? && "id" in attrs && attrs["id"].Str?
      then Some(attrs["name"].s + " - " + attrs["id"].s)
      else None
    }
  }

  /** The attributes of each provider in a list, in order. */
  function AttrsOf(ps: seq<Provider>): (r: seq<Fields>)
    reads ps
    ensures |r| == |ps|
    ensures forall i :: 0 <= i < |ps| ==> r[i] == ps[i].attrs
  {
    seq(|ps|, i requires 0 <= i < |ps| reads ps => ps[i].attrs)
  }

  // ---------------------------------------------------------------------------
  // Responses

  /** `parse_response`: the service's answer inside a parsed response. */
  function ParseResponse(tree: Value): (r: Result<Value, LookupError>)
    ensures r.Err? ==> r.error.key in ResponsePath
  {
    Path(tree, ResponsePath)
  }

  /** The answer wrapped in the response envelope comes back out unchanged. */
  lemma ParseResponseEnvelope(answer: Value)
    ensures ParseResponse(Nest(ResponsePath, answer)) == Ok(answer)
  {
    PathNest(ResponsePath, answer);
  }

  /** The TEMPLATE entries `get_providers` iterates over. */
  function TemplateList(tree: Value): (r: Result<seq<Value>, Exception>)
    ensures r.Ok? <==> Path(tree, ResponsePath + TemplatesPath).Ok?
                       && !Path(tree, ResponsePath + TemplatesPath).value.Null?
                       && !Path(tree, ResponsePath + TemplatesPath).value.Int?
    ensures r.Ok? ==> Iterate(Path(tree, ResponsePath + TemplatesPath).value) == Some(r.value)
  {
    PathConcat(tree, ResponsePath, TemplatesPath);
    match ParseResponse(tree)
    case Err(e) => Err(Subscript(e))
    case Ok(answer) =>
      match Path(answer, TemplatesPath)
      case Err(e) => Err(Subscript(e))
      case Ok(templates) =>
        match Iterate(templates)
        case None => Err(NotIterable)
        case Some(entries) => Ok(entries)
  }

  /** The attributes of the providers built, in order, from the entries up
      to the first one that is not a mapping. */
  function FoldTemplates(entries: seq<Value>): (r: seq<Fields>)
    ensures |r| <= |entries|
    ensures forall i :: 0 <= i < |r| ==> entries[i].Dict? && r[i] == FoldFields(entries[i].items)
    ensures |r| < |entries| ==> !entries[|r|].Dict?
  {
    if entries == [] || !entries[0].Dict? then []
    else [FoldFields(entries[0].items)] + FoldTemplates(entries[1..])
  }

  /** Past the providers built so far, the next entry yields one more
      exactly when it is a mapping. */
  lemma FoldTemplatesNext(entries: seq<Value>, i: nat)
    requires i <= |FoldTemplates(entries)| && i < |entries|
    ensures entries[i].Dict? <==> i < |FoldTemplates(entries)|
  {
  }

  /** What one `get_providers` call does, on values: the attributes of the
      providers it appends, and how it ends. */
  datatype Effect = Effect(appended: seq<Fields>, outcome: Outcome<()>)

  function ProvidersEffect(reply: Reply): (r: Effect)
    ensures r.outcome.ReturnedFalse? <==> reply.SslFailure?
    ensures r.appended != [] ==> reply.Delivered? && TemplateList(reply.tree).Ok?
    ensures reply.Delivered? && TemplateList(reply.tree).Err? ==>
              r == Effect([], Raised(TemplateList(reply.tree).error))
    ensures reply.Delivered? && TemplateList(reply.tree).Ok? ==>
              var entries := TemplateList(reply.tree).value;
              && |r.appended| <= |entries|
              && (forall i :: 0 <= i < |r.appended| ==>
                    entries[i].Dict? && r.appended[i] == FoldFields(entries[i].items))
              && (|r.appended| < |entries| ==>
                    !entries[|r.appended|].Dict? && r.outcome == Raised(NotAMapping))
              && (r.outcome.Returned? <==> forall e <- entries :: e.Dict?)
    ensures r.outcome.Returned? ==>
              && reply.Delivered? && TemplateList(reply.tree).Ok?
              && var entries := TemplateList(reply.tree).value;
                 && |r.appended| == |entries|
                 && forall i :: 0 <= i < |entries| ==>
                      entries[i].Dict? && r.appended[i] == FoldFields(entries[i].items)
    ensures r.outcome.Raised? && r.appended != [] ==> r.outcome.exception == NotAMapping
  {
    match reply
    case SslFailure => Effect([], ReturnedFalse)
    case Delivered(tree) =>
      match TemplateList(tree)
      case Err(e) => Effect([], Raised(e))
      case Ok(entries) =>
        var added := FoldTemplates(entries);
        Effect(added, if |added| == |entries| then Returned(()) else Raised(NotAMapping))
  }

  /** A response whose TEMPLATE element is a list of mappings yields one
      provider per entry, in document order, and the call completes. */
  lemma ProvidersFromTemplateList(tree: Value, entries: seq<seq<(string, Value)>>)
    requires Path(tree, ResponsePath + TemplatesPath)
             == Ok(List(seq(|entries|, i requires 0 <= i < |entries| => Dict(entries[i]))))
    ensures ProvidersEffect(Delivered(tree))
            == Effect(seq(|entries|, i requires 0 <= i < |entries| => FoldFields(entries[i])), Returned(()))
  {
  }

  /** The same for a response built as the bare envelope around the list. */
  lemma ProvidersFromEnvelope(entries: seq<seq<(string, Value)>>)
    ensures var tree := Nest(ResponsePath + TemplatesPath, List(seq(|entries|, i requires 0 <= i < |entries| => Dict(entries[i]))));
            ProvidersEffect(Delivered(tree))
              == Effect(seq(|entries|, i requires 0 <= i < |entries| => FoldFields(entries[i])), Returned(()))
  {
    var list := List(seq(|entries|, i requires 0 <= i < |entries| => Dict(entries[i])));
    PathNest(ResponsePath + TemplatesPath, list);
    ProvidersFromTemplateList(Nest(ResponsePath + TemplatesPath, list), entries);
  }

  /** A single TEMPLATE element parses to one mapping, not a list of one:
      iterating it visits its keys, which are not mappings, so the call
      raises before appending anything. */
  lemma SingleTemplateRaises(tree: Value)
    requires Path(tree, ResponsePath + TemplatesPath).Ok?
    requires Path(tree, ResponsePath + TemplatesPath).value.Dict?
    requires Path(tree, ResponsePath + TemplatesPath).value.items != []
    ensures ProvidersEffect(Delivered(tree)) == Effect([], Raised(NotAMapping))
  {
  }

  // ---------------------------------------------------------------------------
  // Issuing

  /** `kwargs.get(name, default)`. */
  function KwargGet(kwargs: map<string, Value>, name: string, default: Value): (r: Value)
    ensures name in kwargs ==> r == kwargs[name]
    ensures name !in kwargs ==> r == default
  {
    if name in kwargs then kwargs[name] else default
  }

  /** The seven SEND field names are pairwise different. */
  lemma SendKeysDistinct(items: seq<(string, Value)>)
    requires Keys(items) == SendKeys
    ensures DistinctKeys(items)
  {
    forall j, k | 0 <= j < k < |items| ensures items[j].0 != items[k].0 {
      assert items[j].0 == SendKeys[j] && items[k].0 == SendKeys[k];
    }
  }

  /** The items of an issue request's SEND mapping: the three arguments as
      given, each optional field as given or its default. */
  function SendItems(templateId: Value, qty: Value, msisdn: Value,
                     kwargs: map<string, Value>, now: string): (items: seq<(string, Value)>)
    ensures Keys(items) == SendKeys && DistinctKeys(items)
  {
    var items := [
      ("TEMPLATE", templateId),
      ("QTY", qty),
      ("MSISDN", msisdn),
      ("EMAIL_ADDRESS", KwargGet(kwargs, "email_address", Str("None"))),
      ("SMS_TEXT", KwargGet(kwargs, "sms_text", Str("None"))),
      ("EMAIL_TEXT", KwargGet(kwargs, "email_text", Str("None"))),
      ("SEND_DATE", KwargGet(kwargs, "send_date", Str(now)))
    ];
    KeysOfSend(items);
    SendKeysDistinct(items);
    items
  }

  lemma KeysOfSend(items: seq<(string, Value)>)
    requires |items| == 7
    requires items[0].0 == "TEMPLATE" && items[1].0 == "QTY" && items[2].0 == "MSISDN"
    requires items[3].0 == "EMAIL_ADDRESS" && items[4].0 == "SMS_TEXT"
    requires items[5].0 == "EMAIL_TEXT" && items[6].0 == "SEND_DATE"
    ensures Keys(items) == SendKeys
  {
    var ks := Keys(items);
    assert |ks| == 7;
    assert ks[0] == SendKeys[0] && ks[1] == SendKeys[1] && ks[2] == SendKeys[2] && ks[3] == SendKeys[3];
    assert ks[4] == SendKeys[4] && ks[5] == SendKeys[5] && ks[6] == SendKeys[6];
  }

  /** `populate_xml` as a document, before dicttoxml renders it: root
      TICKETANYWHERE holding one COUPON holding one SEND with the seven
      fields. `now` is the text the clock gives for the default send date. */
  function PopulateXml(templateId: Value, qty: Value, msisdn: Value,
                       kwargs: map<string, Value>, now: string): (d: Document)
    ensures d.root == "TICKETANYWHERE"
    ensures d.body.Dict? && Keys(d.body.items) == ["COUPON"]
    ensures var coupon := Path(d.body, ["COUPON"]);
            coupon.Ok? && coupon.value.Dict? && Keys(coupon.value.items) == ["SEND"]
    ensures var send := Path(d.body, ["COUPON", "SEND"]);
            && send.Ok? && send.value.Dict? && |send.value.items| == |SendKeys|
            && forall k :: k in Keys(send.value.items) <==> k in SendKeys
  {
    var send := Dict(SendItems(templateId, qty, msisdn, kwargs, now));
    IssueDocumentPaths(send);
    Document("TICKETANYWHERE", Dict([("COUPON", Dict([("SEND", send)]))]))
  }

  /** TEMPLATE, QTY and MSISDN carry the arguments unchanged. */
  lemma PopulateXmlArguments(templateId: Value, qty: Value, msisdn: Value,
                             kwargs: map<string, Value>, now: string)
    ensures var body := PopulateXml(templateId, qty, msisdn, kwargs, now).body;
            && Path(body, ["COUPON", "SEND", "TEMPLATE"]) == Ok(templateId)
            && Path(body, ["COUPON", "SEND", "QTY"]) == Ok(qty)
            && Path(body, ["COUPON", "SEND", "MSISDN"]) == Ok(msisdn)
  {
    var items := SendItems(templateId, qty, msisdn, kwargs, now);
    IssueDocumentPaths(Dict(items));
    LookupDistinct(items, 0);
    LookupDistinct(items, 1);
    LookupDistinct(items, 2);
  }

  /** Each optional text field is the keyword argument when one was given
      and otherwise the text "None". */
  lemma PopulateXmlDefaults(templateId: Value, qty: Value, msisdn: Value,
                            kwargs: map<string, Value>, now: string)
    ensures var body := PopulateXml(templateId, qty, msisdn, kwargs, now).body;
            && Path(body, ["COUPON", "SEND", "EMAIL_ADDRESS"])
               == Ok(if "email_address" in kwargs then kwargs["email_address"] else Str("None"))
            && Path(body, ["COUPON", "SEND", "SMS_TEXT"])
               == Ok(if "sms_text" in kwargs then kwargs["sms_text"] else Str("None"))
            && Path(body, ["COUPON", "SEND", "EMAIL_TEXT"])
               == Ok(if "email_text" in kwargs then kwargs["email_text"] else Str("None"))
  {
    var items := SendItems(templateId, qty, msisdn, kwargs, now);
    IssueDocumentPaths(Dict(items));
    LookupDistinct(items, 3);
    LookupDistinct(items, 4);
    LookupDistinct(items, 5);
  }

  /** SEND_DATE is the keyword argument when one was given and otherwise the
      clock's text. */
  lemma PopulateXmlSendDate(templateId: Value, qty: Value, msisdn: Value,
                            kwargs: map<string, Value>, now: string)
    ensures Path(PopulateXml(templateId, qty, msisdn, kwargs, now).body, ["COUPON", "SEND", "SEND_DATE"])
            == Ok(if "send_date" in kwargs then kwargs["send_date"] else Str(now))
  {
    var items := SendItems(templateId, qty, msisdn, kwargs, now);
    IssueDocumentPaths(Dict(items));
    LookupDistinct(items, 6);
  }

  /** The paths into an issue document: COUPON, then SEND, then a field. */
  lemma IssueDocumentPaths(send: Value)
    ensures var coupon := Dict([("SEND", send)]);
            var body := Dict([("COUPON", coupon)]);
            && Path(body, ["COUPON"]) == Ok(coupon)
            && Path(body, ["COUPON", "SEND"]) == Ok(send)
            && forall key :: Path(body, ["COUPON", "SEND", key]) == Get(send, key)
  {
    var coupon := Dict([("SEND", send)]);
    var body := Dict([("COUPON", coupon)]);
    assert Get(body, "COUPON") == Ok(coupon);
    assert Get(coupon, "SEND") == Ok(send);
    assert ["COUPON"][1..] == [];
    assert ["COUPON", "SEND"][1..] == ["SEND"];
    assert ["SEND"][1..] == [];
    forall key
      ensures Path(body, ["COUPON", "SEND", key]) == Get(send, key)
    {
      assert ["COUPON", "SEND", key][1..] == ["SEND", key];
      assert ["SEND", key][1..] == [key];
      assert Path(send, [key]) == Get(send, key) by {
        assert [key][1..] == [];
      }
      assert Path(coupon, ["SEND", key]) == Path(send, [key]);
    }
  }

  /** `parse_response(resp)['RECEIPT']`. */
  function Receipt(tree: Value): (r: Result<Value, LookupError>)
    ensures r == Path(tree, ResponsePath + ["RECEIPT"])
  {
    PathConcat(tree, ResponsePath, ["RECEIPT"]);
    match ParseResponse(tree)
    case Err(e) => Err(e)
    case Ok(answer) => Get(answer, "RECEIPT")
  }

  /** `validate_receipt`: the receipt, unless its STATUS is ERROR. */
  function ValidateReceipt(tree: Value): (r: Result<Value, Exception>)
    ensures r.Ok? <==> Receipt(tree).Ok? && Get(Receipt(tree).value, "STATUS").Ok?
                       && Get(Receipt(tree).value, "STATUS").value != Str("ERROR")
    ensures r.Ok? ==> r.value == Receipt(tree).value
    ensures r.Err? && r.error.ServiceError? <==>
              && Receipt(tree).Ok?
              && Get(Receipt(tree).value, "STATUS") == Ok(Str("ERROR"))
              && Get(Receipt(tree).value, "ERRORCODE").Ok?
              && Get(Receipt(tree).value, "MESSAGE").Ok?
    ensures r.Err? && r.error.ServiceError? ==>
              && Get(Receipt(tree).value, "ERRORCODE") == Ok(r.error.errorCode)
              && Get(Receipt(tree).value, "MESSAGE") == Ok(r.error.message)
  {
    match Receipt(tree)
    case Err(e) => Err(Subscript(e))
    case Ok(receipt) =>
      match Get(receipt, "STATUS")
      case Err(e) => Err(Subscript(e))
      case Ok(status) =>
        if status == Str("ERROR") then
          match Get(receipt, "ERRORCODE")
          case Err(e) => Err(Subscript(e))
          case Ok(code) =>
            match Get(receipt, "MESSAGE")
            case Err(e) => Err(Subscript(e))
            case Ok(message) => Err(ServiceError(code, message))
        else Ok(receipt)
  }

  /** `str(v)` for the values a receipt field can hold; None for a mapping,
      a list or a number. */
  function Show(v: Value): (r: Option<string>)
    ensures r.Some? <==> v.Str? || v.Null?
    ensures v.Str? ==> r == Some(v.s)
    ensures v.Null? ==> r == Some("None")
  {
    match v
    case Str(s) => Some(s)
    case Null => Some("None")
    case _ => None
  }

  /** The text of the ValueError for a receipt with STATUS ERROR. */
  function ServiceErrorText(errorCode: Value, message: Value): (r: Option<string>)
    ensures r.Some? <==> Show(errorCode).Some? && Show(message).Some?
    ensures r.Some? ==>
              var code, text := Show(errorCode).value, Show(message).value;
              && |r.value| == 11 + |code| + 3 + |text|
              && r.value[..11] == "ERRORCODE: "
              && r.value[11..11 + |code|] == code
              && r.value[11 + |code|..14 + |code|] == " - "
              && r.value[14 + |code|..] == text
  {
    match (Show(errorCode), Show(message))
    case (Some(code), Some(text)) => Some("ERRORCODE: " + code + " - " + text)
    case _ => None
  }

  /** A receipt in the response envelope is what `parse_response(resp)['RECEIPT']` finds. */
  lemma ReceiptEnvelope(receipt: Value)
    ensures Receipt(Nest(ResponsePath + ["RECEIPT"], receipt)) == Ok(receipt)
  {
    PathNest(ResponsePath + ["RECEIPT"], receipt);
  }

  // ---------------------------------------------------------------------------
  // The client

  /** A prefix one longer is the prefix followed by the next element. */
  lemma TakeNext<T>(s: seq<T>, i: nat)
    requires i < |s|
    ensures s[..i] + [s[i]] == s[..i + 1]
  {
  }

  /** The prefix as long as the sequence is the whole sequence. */
  lemma TakeAll<T>(s: seq<T>, i: nat)
    requires i == |s|
    ensures s[..i] == s
  {
  }

  /** Appending to a concatenation appends to its second part. */
  lemma AppendStep<T>(a: seq<T>, b: seq<T>, x: T)
    ensures (a + b) + [x] == a + (b + [x])
  {
  }

  class Retain24Wrapper {
    const baseUrl: string
    const certificatePath: string
    var providers: seq<Provider>

    constructor (baseUrl: string, certificatePath: string)
      ensures this.baseUrl == baseUrl && this.certificatePath == certificatePath
      ensures providers == []
    {
      this.baseUrl := baseUrl;
      this.certificatePath := certificatePath;
      providers := [];
    }

    /** The GET that asks for the provider list: no payload, the
        provider-list action code, the client's certificate. */
    function ProvidersRequest(): (q: Request)
      ensures q.verb == HttpGet && q.payload.None?
      ensures q.url == baseUrl && q.certificate == certificatePath
      ensures q.params == [(ActionParameter, GetProvidersAction)]
    {
      Request(HttpGet, baseUrl, [(ActionParameter, GetProvidersAction)], certificatePath, None)
    }

    /** The POST that issues a valuable: the document as payload, the issue
        action code, the client's certificate. */
    function IssueRequest(payload: Document): (q: Request)
      ensures q.verb == HttpPost && q.payload == Some(payload)
      ensures q.url == baseUrl && q.certificate == certificatePath
      ensures q.params == [(ActionParameter, IssueAction)]
    {
      Request(HttpPost, baseUrl, [(ActionParameter, IssueAction)], certificatePath, Some(payload))
    }

    /** `get_providers`: appends one provider per TEMPLATE entry and returns
        the whole list; earlier providers stay where they were. */
    method GetProviders(send: Request -> Reply) returns (out: Outcome<seq<Provider>>)
      modifies this
      ensures var effect := ProvidersEffect(send(ProvidersRequest()));
              && AttrsOf(providers) == old(AttrsOf(providers)) + effect.appended
              && out == match effect.outcome
                        case Returned(_) => Returned(providers)
                        case ReturnedFalse => ReturnedFalse
                        case Raised(e) => Raised(e)
      ensures |old(providers)| <= |providers| && providers[..|old(providers)|] == old(providers)
      ensures forall i :: |old(providers)| <= i < |providers| ==> fresh(providers[i])
      ensures send(ProvidersRequest()).SslFailure? ==> providers == old(providers)
    {
      var reply := send(ProvidersRequest());
      if reply.SslFailure? {
        return ReturnedFalse;
      }
      var listed := TemplateList(reply.tree);
      if listed.Err? {
        return Raised(listed.error);
      }
      var complete := AppendProviders(listed.value);
      out := if complete then Returned(providers) else Raised(NotAMapping);
    }

    /** The loop of `get_providers`: one new provider per entry, appended in
        order, until an entry that is not a mapping. */
    method AppendProviders(entries: seq<Value>) returns (complete: bool)
      modifies this
      ensures AttrsOf(providers) == old(AttrsOf(providers)) + FoldTemplates(entries)
      ensures complete <==> |FoldTemplates(entries)| == |entries|
      ensures |old(providers)| <= |providers| && providers[..|old(providers)|] == old(providers)
      ensures forall i :: |old(providers)| <= i < |providers| ==> fresh(providers[i])
    {
      ghost var added := FoldTemplates(entries);
      ghost var before, shownBefore := providers, AttrsOf(providers);
      ghost var news: seq<Provider> := [];
      var i := 0;
      complete := true;
      while i < |entries|
        invariant 0 <= i <= |added| && |news| == i
        invariant providers == before + news
        invariant forall j :: 0 <= j < |news| ==> fresh(news[j])
        invariant AttrsOf(providers) == shownBefore + added[..i]
      {
        FoldTemplatesNext(entries, i);
        if !entries[i].Dict? {
          complete := false;
          break;
        }
        var p := AppendProvider(entries[i].items);
        AppendStep(before, news, p);
        AppendStep(shownBefore, added[..i], added[i]);
        TakeNext(added, i);
        news := news + [p];
        i := i + 1;
      }
      TakeAll(added, i);
      assert providers[..|before|] == before;
    }

    /** `self.providers.append(Provider(body))`. */
    method AppendProvider(body: seq<(string, Value)>) returns (p: Provider)
      modifies this
      ensures fresh(p) && providers == old(providers) + [p]
      ensures AttrsOf(providers) == old(AttrsOf(providers)) + [FoldFields(body)]
    {
      ghost var shown := AttrsOf(providers);
      p := new Provider(body);
      assert AttrsOf(providers) == shown;
      providers := providers + [p];
      assert AttrsOf(providers) == shown + [p.attrs];
    }

    /** `issue_valuable`: post the populated document, then check the receipt. */
    function IssueValuable(templateId: Value, qty: Value, msisdn: Value,
                           kwargs: map<string, Value>, now: string,
                           send: Request -> Reply): (r: Outcome<Value>)
      ensures var reply := send(IssueRequest(PopulateXml(templateId, qty, msisdn, kwargs, now)));
              && (r.ReturnedFalse? <==> reply.SslFailure?)
              && (r.Returned? ==>
                    && Receipt(reply.tree) == Ok(r.value)
                    && Get(r.value, "STATUS").Ok? && Get(r.value, "STATUS").value != Str("ERROR"))
              && (r.Raised? && r.exception.ServiceError? <==>
                    && reply.Delivered? && Receipt(reply.tree).Ok?
                    && Get(Receipt(reply.tree).value, "STATUS") == Ok(Str("ERROR"))
                    && Get(Receipt(reply.tree).value, "ERRORCODE").Ok?
                    && Get(Receipt(reply.tree).value, "MESSAGE").Ok?)
              && (r.Raised? && r.exception.ServiceError? ==>
                    && Get(Receipt(reply.tree).value, "ERRORCODE") == Ok(r.exception.errorCode)
                    && Get(Receipt(reply.tree).value, "MESSAGE") == Ok(r.exception.message))
              && (reply.Delivered? && ValidateReceipt(reply.tree).Ok? ==>
                    r == Returned(Receipt(reply.tree).value))
              && (reply.Delivered? && ValidateReceipt(reply.tree).Err? ==>
                    r == Raised(ValidateReceipt(reply.tree).error))
    {
      var reply := send(IssueRequest(PopulateXml(templateId, qty, msisdn, kwargs, now)));
      if reply.SslFailure? then ReturnedFalse
      else
        var checked := ValidateReceipt(reply.tree);
        if checked.Ok? then Returned(checked.value) else Raised(checked.error)
    }
  }

  /** A service that answers with a receipt whose STATUS is not ERROR: the
      issue call returns that receipt. */
  lemma IssueValuableAccepted(w: Retain24Wrapper, templateId: Value, qty: Value, msisdn: Value,
                              kwargs: map<string, Value>, now: string,
                              send: Request -> Reply, tree: Value, receipt: Value)
    requires send(w.IssueRequest(PopulateXml(templateId, qty, msisdn, kwargs, now))) == Delivered(tree)
    requires Receipt(tree) == Ok(receipt)
    requires Get(receipt, "STATUS").Ok? && Get(receipt, "STATUS").value != Str("ERROR")
    ensures w.IssueValuable(templateId, qty, msisdn, kwargs, now, send) == Returned(receipt)
  {
  }

  /** A service that answers with a receipt whose STATUS is ERROR and which
      has an error code and a message: the issue call raises the ValueError
      carrying both. */
  lemma IssueValuableRejected(w: Retain24Wrapper, templateId: Value, qty: Value, msisdn: Value,
                              kwargs: map<string, Value>, now: string,
                              send: Request -> Reply, tree: Value, receipt: Value,
                              code: Value, message: Value)
    requires send(w.IssueRequest(PopulateXml(templateId, qty, msisdn, kwargs, now))) == Delivered(tree)
    requires Receipt(tree) == Ok(receipt)
    requires Get(receipt, "STATUS") == Ok(Str("ERROR"))
    requires Get(receipt, "ERRORCODE") == Ok(code) && Get(receipt, "MESSAGE") == Ok(message)
    ensures w.IssueValuable(templateId, qty, msisdn, kwargs, now, send) == Raised(ServiceError(code, message))
  {
  }
}
