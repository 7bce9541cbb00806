/** The simulator connectors: what one operation does to one record.
    A JSON value is modelled after decoding, so a number is either Whole (its float64 is integral)
    or Fraction. Values are immutable, which is what the source's deep `clone` is for. */
module Connectors {
  import opened Wrappers

  const MAX_EXACT := 9007199254740991

  datatype Value =
    | Null
    | Bool(b: bool)
    | Whole(n: int)
    | Fraction
    | Text(s: string)
    | List(items: seq<Value>)
    | Object(fields: seq<(string, Value)>)

  type Data = map<string, Value>

  /** The compact JSON text, of which digests and fingerprints are taken, and what it decodes to. Members keep
      the order and the repetitions of the text. */
  datatype Payload = Unreadable(text: string) | Members(text: string, members: seq<(string, Value)>)

  datatype Operation = Operation(
    id: Id, integration: string, action: string, businessKey: string,
    target: Id, expectedVersion: int, payload: Payload)

  datatype Record = Record(integration: string, version: int, data: Data)

  datatype ConnectorError = Stale | Invalid | Unknown

  datatype Prepared = Ready(record: Record) | Refused(error: ConnectorError)

  /** Registry.Get followed by Validate: the three integrations have one action each. */
  predicate Supported(integration: string, action: string) {
    || (integration == "inventory" && action == "adjust")
    || (integration == "mail" && action == "send")
    || (integration == "documents" && action == "update")
  }

  function Integer(v: Value): (r: Option<int>) {
    match v
    case Whole(n) => if -MAX_EXACT <= n <= MAX_EXACT then Some(n) else None
    case _ => None
  }

  function Allowed(integration: string): set<string> {
    if integration == "inventory" then {"delta"}
    else if integration == "mail" then {"recipients", "subject", "body", "bcc", "attachments"}
    else {"title", "content"}
  }

  /** No member is repeated and none is unknown. */
  predicate WellNamed(members: seq<(string, Value)>, allowed: set<string>) {
    && (forall i | 0 <= i < |members| :: members[i].0 in allowed)
    && (forall i, j | 0 <= i < j < |members| :: members[i].0 != members[j].0)
  }

  /** The scan in `parse`: one pass with a set of the names already seen. */
  method CheckNames(members: seq<(string, Value)>, allowed: set<string>) returns (ok: bool)
    ensures ok <==> WellNamed(members, allowed)
  {
    var seen: set<string> := {};
    for i := 0 to |members|
      invariant forall name :: name in seen <==> exists k :: 0 <= k < i && members[k].0 == name
      invariant WellNamed(members[..i], allowed)
    {
      var name := members[i].0;
      if name in seen || name !in allowed {
        assert members[i].0 == name;
        return false;
      }
      assert members[..i + 1] == members[..i] + [members[i]];
      seen := seen + {name};
    }
    assert members[..|members|] == members;
    return true;
  }

  function Member(members: seq<(string, Value)>, name: string): Value {
    if members == [] then Null
    else if members[0].0 == name then members[0].1
    else Member(members[1..], name)
  }

  /** Decoding into a Go string: null leaves "". */
  function AsText(v: Value): Option<string> {
    match v
    case Text(s) => Some(s)
    case Null => Some("")
    case _ => None
  }

  /** Decoding into a Go *string: null leaves nil, shown as Some(None). */
  function AsOptionalText(v: Value): Option<Option<string>> {
    match v
    case Text(s) => Some(Some(s))
    case Null => Some(None)
    case _ => None
  }

  /** Decoding into a Go []string: null leaves nil, read as empty. */
  function AsTexts(v: Value): Option<seq<Value>> {
    match v
    case List(items) =>
      if forall i | 0 <= i < |items| :: AsText(items[i]).Some?
      then Some(seq(|items|, i requires 0 <= i < |items| => Text(AsText(items[i]).value)))
      else None
    case Null => Some([])
    case _ => None
  }

  function Adjust(data: Data, members: seq<(string, Value)>): Option<Data> {
    var delta := Integer(Member(members, "delta"));
    var quantity := if "quantity" in data then Integer(data["quantity"]) else None;
    if delta.None? || quantity.None? then None
    else
      var q := quantity.value;
      if q < 0 || q > MAX_EXACT || delta.value > MAX_EXACT - q || delta.value < -q then None
      else Some(data["quantity" := Whole(q + delta.value)])
  }

  function Send(data: Data, members: seq<(string, Value)>): Option<Data> {
    var recipients := AsTexts(Member(members, "recipients"));
    var subject := AsText(Member(members, "subject"));
    var body := AsText(Member(members, "body"));
    var bcc := AsTexts(Member(members, "bcc"));
    var attachments := AsTexts(Member(members, "attachments"));
    if recipients.None? || subject.None? || body.None? || bcc.None? || attachments.None? then None
    else if recipients.value == [] || subject.value == "" || body.value == "" then None
    else Some(data["recipients" := List(recipients.value)]["subject" := Text(subject.value)]
                  ["body" := Text(body.value)]["bcc" := List(bcc.value)]["attachments" := List(attachments.value)])
  }

  function Update(data: Data, members: seq<(string, Value)>): Option<Data> {
    var title := AsOptionalText(Member(members, "title"));
    var content := AsOptionalText(Member(members, "content"));
    if title.None? || content.None? then None
    else if title.value.None? && content.value.None? then None
    else
      var titled := if title.value.Some? then data["title" := Text(title.value.value)] else data;
      Some(if content.value.Some? then titled["content" := Text(content.value.value)] else titled)
  }

  function Change(integration: string, data: Data, payload: Payload): Option<Data> {
    if payload.Unreadable? || !WellNamed(payload.members, Allowed(integration)) then None
    else if integration == "inventory" then Adjust(data, payload.members)
    else if integration == "mail" then Send(data, payload.members)
    else Update(data, payload.members)
  }

  /** `Prepare` of the connector named by the operation, on the record stored under `id`. */
  function Prepare(id: Id, current: Record, op: Operation): Prepared {
    if !Supported(op.integration, op.action) then Refused(Unknown)
    else if op.target == NO_ID || id != op.target || op.expectedVersion != current.version then Refused(Stale)
    else
      match Change(op.integration, current.data, op.payload)
      case None => Refused(Invalid)
      case Some(data) => Ready(Record(current.integration, current.version + 1, data))
  }

  /** A record whose quantity the inventory connector can adjust. */
  predicate HasQuantity(data: Data) {
    "quantity" in data && data["quantity"].Whole? && 0 <= data["quantity"].n <= MAX_EXACT
  }

  function Quantity(data: Data): int
    requires HasQuantity(data)
  {
    data["quantity"].n
  }

  /** What an operation adds to a quantity when it is applied. */
  function Delta(op: Operation): int {
    if op.integration == "inventory" && op.payload.Members? && Integer(Member(op.payload.members, "delta")).Some?
    then Integer(Member(op.payload.members, "delta")).value
    else 0
  }

  /** Every accepted operation, of whatever integration, moves the quantity by exactly its Delta and
      keeps it an exact non-negative integer; inventory operations touch nothing else. */
  lemma PrepareKeepsQuantity(id: Id, current: Record, op: Operation)
    requires Prepare(id, current, op).Ready? && HasQuantity(current.data)
    ensures var next := Prepare(id, current, op).record;
      && HasQuantity(next.data)
      && Quantity(next.data) == Quantity(current.data) + Delta(op)
      && (op.integration == "inventory" ==> next.data - {"quantity"} == current.data - {"quantity"})
  {
  }

  /** An adjustment is accepted exactly when it names a record that has a quantity, at its version, and
      stays in range. */
  lemma AdjustAcceptedIff(id: Id, current: Record, op: Operation)
    requires op.integration == "inventory"
    ensures Prepare(id, current, op).Ready? <==>
      && op.action == "adjust"
      && op.target == id && id != NO_ID
      && op.expectedVersion == current.version
      && HasQuantity(current.data)
      && (exists delta ::
            && op.payload.Members? && op.payload.members == [("delta", Whole(delta))]
            && -MAX_EXACT <= delta <= MAX_EXACT
            && 0 <= Quantity(current.data) + delta <= MAX_EXACT)
  {
    if op.payload.Members? && WellNamed(op.payload.members, {"delta"}) {
      var members := op.payload.members;
      if |members| > 0 {
        var last := |members| - 1;
        assert members[0].0 == members[last].0;
        assert last == 0;
      }
      if |members| == 1 && Member(members, "delta").Whole? {
        assert members == [("delta", Whole(Member(members, "delta").n))];
      }
    }
    forall delta | op.payload.Members? && op.payload.members == [("delta", Whole(delta))]
      ensures Member(op.payload.members, "delta") == Whole(delta)
    {
      assert op.payload.members[0] == ("delta", Whole(delta));
    }
  }

  // ---- Mail and documents --------------------------------------------------------------------

  /** The value given for a name, null when none is. */
  ghost function Given(members: seq<(string, Value)>, name: string): Value {
    if i :| 0 <= i < |members| && members[i].0 == name then members[i].1 else Null
  }

  lemma {:induction false} GivenIs(members: seq<(string, Value)>, allowed: set<string>, name: string)
    requires WellNamed(members, allowed)
    ensures Member(members, name) == Given(members, name)
  {
    if members != [] {
      assert WellNamed(members[1..], allowed) by {
        assert forall i | 0 <= i < |members[1..]| :: members[1..][i] == members[i + 1];
      }
      GivenIs(members[1..], allowed, name);
      if members[0].0 != name {
        assert forall i | 1 <= i < |members| :: members[1..][i - 1] == members[i];
      }
    }
  }

  predicate ReadsAs(v: Value, s: string) {
    v == Text(s) || (v.Null? && s == "")
  }

  predicate ReadsAsList(v: Value, items: seq<string>) {
    || (v.Null? && items == [])
    || (v.List? && |v.items| == |items| && forall i | 0 <= i < |items| :: ReadsAs(v.items[i], items[i]))
  }

  /** Given, or left alone. */
  predicate ReadsAsOption(v: Value, o: Option<string>) {
    if o.Some? then v == Text(o.value) else v.Null?
  }

  function TextList(items: seq<string>): Value {
    List(seq(|items|, i requires 0 <= i < |items| => Text(items[i])))
  }

  lemma AsTextIs(v: Value, s: string)
    ensures AsText(v) == Some(s) <==> ReadsAs(v, s)
  {
  }

  lemma AsTextsIs(v: Value, items: seq<string>)
    ensures ReadsAsList(v, items) ==> AsTexts(v).Some? && List(AsTexts(v).value) == TextList(items)
    ensures AsTexts(v).Some? ==> exists read :: ReadsAsList(v, read)
  {
    if ReadsAsList(v, items) {
      if v.List? {
        forall i | 0 <= i < |items| ensures AsText(v.items[i]) == Some(items[i]) {
          AsTextIs(v.items[i], items[i]);
        }
        assert AsTexts(v).value == TextList(items).items;
      }
    }
    if AsTexts(v).Some? {
      if v.List? {
        var read := seq(|v.items|, i requires 0 <= i < |v.items| => AsText(v.items[i]).value);
        assert ReadsAsList(v, read);
      } else {
        assert ReadsAsList(v, []);
      }
    }
  }

  datatype Mail = Mail(
    recipients: seq<string>, subject: string, body: string, bcc: seq<string>, attachments: seq<string>)

  /** The payload reads as this mail, member by member. */
  ghost predicate Carries(members: seq<(string, Value)>, mail: Mail) {
    && ReadsAsList(Given(members, "recipients"), mail.recipients)
    && ReadsAs(Given(members, "subject"), mail.subject)
    && ReadsAs(Given(members, "body"), mail.body)
    && ReadsAsList(Given(members, "bcc"), mail.bcc)
    && ReadsAsList(Given(members, "attachments"), mail.attachments)
  }

  function Mailed(data: Data, mail: Mail): Data {
    data["recipients" := TextList(mail.recipients)]["subject" := Text(mail.subject)]["body" := Text(mail.body)]
        ["bcc" := TextList(mail.bcc)]["attachments" := TextList(mail.attachments)]
  }

  predicate Addressed(id: Id, current: Record, op: Operation) {
    op.target == id && id != NO_ID && op.expectedVersion == current.version
  }

  /** A mail is accepted exactly when it is one, has a recipient, a subject and a body, and names the record at its
      version; each member then goes to the field of its name, and nothing else changes. */
  lemma MailAcceptedIff(id: Id, current: Record, op: Operation)
    requires op.integration == "mail"
    ensures Prepare(id, current, op).Ready? <==>
      && op.action == "send" && Addressed(id, current, op)
      && op.payload.Members?
      && WellNamed(op.payload.members, {"recipients", "subject", "body", "bcc", "attachments"})
      && exists mail ::
           Carries(op.payload.members, mail) && mail.recipients != [] && mail.subject != "" && mail.body != ""
    ensures forall mail | op.payload.Members? && Carries(op.payload.members, mail) && Prepare(id, current, op).Ready? ::
      Prepare(id, current, op).record == Record(current.integration, current.version + 1, Mailed(current.data, mail))
  {
    hide WellNamed, Carries, Send, Mailed;
    if op.payload.Members? && WellNamed(op.payload.members, Allowed("mail")) {
      var members := op.payload.members;
      SentIff(current.data, members);
    }
  }

  lemma SentIff(data: Data, members: seq<(string, Value)>)
    requires WellNamed(members, Allowed("mail"))
    ensures Send(data, members).Some? <==>
      exists mail :: Carries(members, mail) && mail.recipients != [] && mail.subject != "" && mail.body != ""
    ensures forall mail | Carries(members, mail) && Send(data, members).Some? ::
      Send(data, members).value == Mailed(data, mail)
  {
    hide WellNamed, AsTexts, AsText, ReadsAs, ReadsAsList, Given, Member, Carries;
    GivenIs(members, Allowed("mail"), "recipients");
    GivenIs(members, Allowed("mail"), "subject");
    GivenIs(members, Allowed("mail"), "body");
    GivenIs(members, Allowed("mail"), "bcc");
    GivenIs(members, Allowed("mail"), "attachments");
    forall mail | Carries(members, mail)
      ensures mail.recipients != [] && mail.subject != "" && mail.body != "" <==> Send(data, members).Some?
      ensures Send(data, members).Some? ==> Send(data, members).value == Mailed(data, mail)
    {
      SentAs(data, members, mail);
    }
    if Send(data, members).Some? {
      var mail := ReadMail(members);
    }
  }

  lemma SentAs(data: Data, members: seq<(string, Value)>, mail: Mail)
    requires WellNamed(members, Allowed("mail")) && Carries(members, mail)
    ensures mail.recipients != [] && mail.subject != "" && mail.body != "" <==> Send(data, members).Some?
    ensures Send(data, members).Some? ==> Send(data, members).value == Mailed(data, mail)
  {
    hide WellNamed, AsTexts, AsText, ReadsAs, ReadsAsList, Given, Member;
    GivenIs(members, Allowed("mail"), "recipients");
    GivenIs(members, Allowed("mail"), "subject");
    GivenIs(members, Allowed("mail"), "body");
    GivenIs(members, Allowed("mail"), "bcc");
    GivenIs(members, Allowed("mail"), "attachments");
    AsTextsIs(Given(members, "recipients"), mail.recipients);
    AsTextsIs(Given(members, "bcc"), mail.bcc);
    AsTextsIs(Given(members, "attachments"), mail.attachments);
    AsTextIs(Given(members, "subject"), mail.subject);
    AsTextIs(Given(members, "body"), mail.body);
    assert |TextList(mail.recipients).items| == |mail.recipients|;
  }

  lemma ReadMail(members: seq<(string, Value)>) returns (mail: Mail)
    requires WellNamed(members, Allowed("mail"))
    requires AsTexts(Member(members, "recipients")).Some? && AsText(Member(members, "subject")).Some?
    requires AsText(Member(members, "body")).Some? && AsTexts(Member(members, "bcc")).Some?
    requires AsTexts(Member(members, "attachments")).Some?
    ensures Carries(members, mail)
  {
    hide WellNamed, AsTexts, AsText, ReadsAs, ReadsAsList, Given, Member;
    GivenIs(members, Allowed("mail"), "recipients");
    GivenIs(members, Allowed("mail"), "subject");
    GivenIs(members, Allowed("mail"), "body");
    GivenIs(members, Allowed("mail"), "bcc");
    GivenIs(members, Allowed("mail"), "attachments");
    AsTextsIs(Given(members, "recipients"), []);
    AsTextsIs(Given(members, "bcc"), []);
    AsTextsIs(Given(members, "attachments"), []);
    var subject, body := AsText(Given(members, "subject")).value, AsText(Given(members, "body")).value;
    AsTextIs(Given(members, "subject"), subject);
    AsTextIs(Given(members, "body"), body);
    var recipients :| ReadsAsList(Given(members, "recipients"), recipients);
    var bcc :| ReadsAsList(Given(members, "bcc"), bcc);
    var attachments :| ReadsAsList(Given(members, "attachments"), attachments);
    mail := Mail(recipients, subject, body, bcc, attachments);
  }

  ghost predicate Revises(members: seq<(string, Value)>, title: Option<string>, content: Option<string>) {
    ReadsAsOption(Given(members, "title"), title) && ReadsAsOption(Given(members, "content"), content)
  }

  function Rewritten(data: Data, title: Option<string>, content: Option<string>): Data {
    var titled := if title.Some? then data["title" := Text(title.value)] else data;
    if content.Some? then titled["content" := Text(content.value)] else titled
  }

  /** A document's revision is accepted exactly when it gives a title or a content, as text, and names the record
      at its version; what it gives replaces the field of its name, and nothing else changes. */
  lemma DocumentAcceptedIff(id: Id, current: Record, op: Operation)
    requires op.integration == "documents"
    ensures Prepare(id, current, op).Ready? <==>
      && op.action == "update" && Addressed(id, current, op)
      && op.payload.Members? && WellNamed(op.payload.members, {"title", "content"})
      && exists title, content :: Revises(op.payload.members, title, content) && (title.Some? || content.Some?)
    ensures forall title, content |
      op.payload.Members? && Revises(op.payload.members, title, content) && Prepare(id, current, op).Ready? ::
      Prepare(id, current, op).record
        == Record(current.integration, current.version + 1, Rewritten(current.data, title, content))
  {
    hide WellNamed, Given, Member;
    if op.payload.Members? && WellNamed(op.payload.members, Allowed("documents")) {
      var members := op.payload.members;
      GivenIs(members, Allowed("documents"), "title");
      GivenIs(members, Allowed("documents"), "content");
      var title, content := AsOptionalText(Given(members, "title")), AsOptionalText(Given(members, "content"));
      if title.Some? && content.Some? {
        assert Revises(members, title.value, content.value);
      }
    }
  }
}
