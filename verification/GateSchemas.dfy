/** Questions a run may park on, and the answers the platform can record (gates.go). */
module GateSchemas {
  import opened Wrappers
  import opened Floats

  const MAX_EXACT_INTEGER := 0x20_0000_0000_0000
  const MAX_ARRAY_ITEMS := 64

  /** One declared input field: its `type`, and the type of its `items` when that is given. */
  datatype Field = Field(kind: string, items: Option<string>)

  type Fields = map<string, Field>

  /** The input_schema text: no bytes, white space only, "{}", not decodable, or a decoded schema. */
  datatype Schema =
    | Absent
    | Blank
    | EmptyObject
    | Unparsable
    | Spec(properties: Option<Fields>, requested: Option<Fields>, required: seq<string>)

  /** A number as its literal spells it: an integer, or its exact value when it has a fraction or exponent. */
  datatype Numeral = Digits(n: int) | Decimal(x: real)

  function ValueOf(n: Numeral): real {
    match n
    case Digits(i) => i as real
    case Decimal(x) => x
  }

  /** A JSON value with numbers of some kind. */
  datatype Answer<N> =
    | NullAnswer
    | BoolAnswer(b: bool)
    | StringAnswer(s: string)
    | NumberAnswer(n: N)
    | ArrayAnswer(items: seq<Answer<N>>)
    | ObjectAnswer(members: map<string, Answer<N>>)

  /** An answer keeps the literals of its numbers; decoded into an `any`, it holds float64 values. */
  type Written = Answer<Numeral>

  type Decoded = Answer<real>

  /** A response document: a JSON object, or anything else (null included). */
  datatype Response = NotAnObject | Response(values: map<string, Written>)

  predicate ScalarTypeSupported(kind: string) {
    kind == "string" || kind == "integer" || kind == "number" || kind == "boolean"
  }

  predicate ScalarAllowed(v: Written, kind: string) {
    if kind == "string" then v.StringAnswer?
    else if kind == "integer" then
      v.NumberAnswer? && v.n.Digits? && -MAX_EXACT_INTEGER <= v.n.n <= MAX_EXACT_INTEGER
    else if kind == "number" then v.NumberAnswer? && Float64(ValueOf(v.n)).Some?
    else kind == "boolean" && v.BoolAnswer?
  }

  predicate ValueAllowed(v: Written, f: Field) {
    if f.kind == "array" then
      && f.items.Some?
      && v.ArrayAnswer?
      && |v.items| <= MAX_ARRAY_ITEMS
      && forall i | 0 <= i < |v.items| :: ScalarAllowed(v.items[i], f.items.value)
    else ScalarAllowed(v, f.kind)
  }

  function Declared(schema: Schema): Fields
    requires schema.Spec?
  {
    if schema.properties.Some? then schema.properties.value
    else if schema.requested.Some? then schema.requested.value
    else map[]
  }

  predicate FieldSupported(f: Field) {
    || ScalarTypeSupported(f.kind)
    || (f.kind == "array" && f.items.Some? && ScalarTypeSupported(f.items.value))
  }

  /** ValidateGateSchema: the check made before a question is stored. */
  predicate ValidSchema(schema: Schema) {
    match schema
    case Absent => true
    case Blank => true
    case EmptyObject => true
    case Unparsable => false
    case Spec(_, _, required) =>
      var fields := Declared(schema);
      && |fields| > 0
      && (forall name | name in fields :: FieldSupported(fields[name]))
      && (forall i | 0 <= i < |required| :: required[i] in fields)
  }

  /** validateGateResponse: the check made before an answer is recorded. */
  predicate ValidResponse(schema: Schema, response: Response) {
    && response.Response?
    && match schema
       case Absent => true
       case EmptyObject => true
       case Blank => false
       case Unparsable => false
       case Spec(_, _, required) =>
         var fields := Declared(schema);
         && (forall name | name in response.values ::
               name in fields && ValueAllowed(response.values[name], fields[name]))
         && (forall i | 0 <= i < |required| :: required[i] in response.values)
  }

  ghost predicate Answerable(schema: Schema) {
    exists response :: ValidResponse(schema, response)
  }

  /** Some value satisfies the field. An array of unsupported items still accepts []. */
  predicate FieldAnswerable(f: Field) {
    ScalarTypeSupported(f.kind) || (f.kind == "array" && f.items.Some?)
  }

  function Sample(f: Field): (v: Written)
    requires FieldAnswerable(f)
    ensures ValueAllowed(v, f)
  {
    if f.kind == "array" then ArrayAnswer([])
    else if f.kind == "string" then StringAnswer("")
    else if f.kind == "boolean" then BoolAnswer(true)
    else ZeroInRange(); NumberAnswer(Digits(0))
  }

  lemma ZeroInRange()
    ensures Float64(0.0) == Some(0.0)
  {
    hide Float64;
    ExactInteger(0);
  }

  /** Which questions can be answered at all. */
  lemma AnswerableIff(schema: Schema)
    ensures Answerable(schema) <==>
      || schema.Absent?
      || schema.EmptyObject?
      || (schema.Spec? && forall i | 0 <= i < |schema.required| ::
            schema.required[i] in Declared(schema) && FieldAnswerable(Declared(schema)[schema.required[i]]))
  {
    match schema
    case Absent => assert ValidResponse(schema, Response(map[]));
    case EmptyObject => assert ValidResponse(schema, Response(map[]));
    case Blank =>
    case Unparsable =>
    case Spec(_, _, required) =>
      var fields := Declared(schema);
      if forall i | 0 <= i < |required| :: required[i] in fields && FieldAnswerable(fields[required[i]]) {
        var values := map name | name in fields && FieldAnswerable(fields[name]) :: Sample(fields[name]);
        assert ValidResponse(schema, Response(values));
      } else if response :| ValidResponse(schema, response) {
        forall i | 0 <= i < |required| ensures required[i] in fields && FieldAnswerable(fields[required[i]]) {
          assert ValueAllowed(response.values[required[i]], fields[required[i]]);
        }
      }
  }

  /** The check at creation admits only answerable questions, except one: a schema that is nothing
      but white space passes it and then refuses every answer. */
  lemma ValidSchemaAnswerableIff(schema: Schema)
    requires ValidSchema(schema)
    ensures Answerable(schema) <==> !schema.Blank?
  {
    AnswerableIff(schema);
  }

  /** Every field declared by an accepted question can be answered, all of them at once. */
  lemma ValidSchemaFullyAnswerable(schema: Schema) returns (response: Response)
    requires ValidSchema(schema) && schema.Spec?
    ensures ValidResponse(schema, response) && response.values.Keys == Declared(schema).Keys
  {
    var fields := Declared(schema);
    response := Response(map name | name in fields :: Sample(fields[name]));
  }

  // ---- When two answers are the same ---------------------------------------------------------

  /** json.Unmarshal into an `any`: it fails on a number that is no float64. */
  function Decode(v: Written): Option<Decoded> {
    match v
    case NullAnswer => Some(NullAnswer)
    case BoolAnswer(b) => Some(BoolAnswer(b))
    case StringAnswer(s) => Some(StringAnswer(s))
    case NumberAnswer(n) =>
      if Float64(ValueOf(n)).Some? then Some(NumberAnswer(Float64(ValueOf(n)).value)) else None
    case ArrayAnswer(items) =>
      if forall i | 0 <= i < |items| :: Decode(items[i]).Some?
      then Some(ArrayAnswer(seq(|items|, i requires 0 <= i < |items| => Decode(items[i]).value)))
      else None
    case ObjectAnswer(members) =>
      if forall k | k in members :: Decode(members[k]).Some?
      then Some(ObjectAnswer(map k | k in members :: Decode(members[k]).value))
      else None
  }

  /** jsonEqual: both decode, and to deeply equal values. */
  predicate SameAnswer(a: Response, b: Response) {
    && a.Response? && b.Response?
    && Decode(ObjectAnswer(a.values)).Some?
    && Decode(ObjectAnswer(a.values)) == Decode(ObjectAnswer(b.values))
  }

  /** Every number in it is in the range of a float64. */
  predicate AllInRange(v: Written) {
    match v
    case NumberAnswer(n) => InRange(ValueOf(n))
    case ArrayAnswer(items) => forall i | 0 <= i < |items| :: AllInRange(items[i])
    case ObjectAnswer(members) => forall k | k in members :: AllInRange(members[k])
    case _ => true
  }

  /** They differ at most in numbers that round to one float64. */
  predicate Alike(v: Written, w: Written) {
    match v
    case NumberAnswer(n) => w.NumberAnswer? && Float64(ValueOf(n)) == Float64(ValueOf(w.n))
    case ArrayAnswer(items) =>
      && w.ArrayAnswer? && |w.items| == |items|
      && forall i | 0 <= i < |items| :: Alike(items[i], w.items[i])
    case ObjectAnswer(members) =>
      && w.ObjectAnswer? && w.members.Keys == members.Keys
      && forall k | k in members :: Alike(members[k], w.members[k])
    case _ => v == w
  }

  lemma {:induction false} DecodeIff(v: Written)
    ensures Decode(v).Some? <==> AllInRange(v)
  {
    hide Float64, InRange;
    match v
    case NumberAnswer(n) => Float64Iff(ValueOf(n));
    case ArrayAnswer(items) =>
      forall i | 0 <= i < |items| ensures Decode(items[i]).Some? <==> AllInRange(items[i]) {
        DecodeIff(items[i]);
      }
    case ObjectAnswer(members) =>
      forall k | k in members ensures Decode(members[k]).Some? <==> AllInRange(members[k]) {
        DecodeIff(members[k]);
      }
    case _ =>
  }

  lemma {:induction false} DecodeAlike(v: Written, w: Written)
    requires Decode(v).Some? && Decode(w).Some?
    ensures Decode(v) == Decode(w) <==> Alike(v, w)
    decreases v, 1
  {
    hide Float64;
    if v.ArrayAnswer? && w.ArrayAnswer? {
      DecodeItemsAlike(v, w);
    } else if v.ObjectAnswer? && w.ObjectAnswer? {
      DecodeMembersAlike(v, w);
    }
  }

  lemma {:induction false} DecodeItemsAlike(v: Written, w: Written)
    requires v.ArrayAnswer? && w.ArrayAnswer? && Decode(v).Some? && Decode(w).Some?
    ensures Decode(v) == Decode(w) <==> Alike(v, w)
    decreases v, 0
  {
    hide Float64;
    var x, y := Decode(v).value.items, Decode(w).value.items;
    assert |x| == |v.items| && |y| == |w.items|;
    if |v.items| == |w.items| {
      forall i | 0 <= i < |v.items| ensures x[i] == y[i] <==> Alike(v.items[i], w.items[i]) {
        DecodeAlike(v.items[i], w.items[i]);
      }
      assert x == y <==> forall i | 0 <= i < |x| :: x[i] == y[i];
    }
  }

  lemma {:induction false} DecodeMembersAlike(v: Written, w: Written)
    requires v.ObjectAnswer? && w.ObjectAnswer? && Decode(v).Some? && Decode(w).Some?
    ensures Decode(v) == Decode(w) <==> Alike(v, w)
    decreases v, 0
  {
    hide Float64;
    var x, y := Decode(v).value.members, Decode(w).value.members;
    assert x.Keys == v.members.Keys && y.Keys == w.members.Keys;
    if v.members.Keys == w.members.Keys {
      forall k | k in v.members ensures x[k] == y[k] <==> Alike(v.members[k], w.members[k]) {
        DecodeAlike(v.members[k], w.members[k]);
      }
      assert x == y <==> forall k | k in x :: x[k] == y[k];
    }
  }

  /** Two answers count as the same exactly when both are objects whose numbers are all in range, and they differ
      at most in numbers with one float64. */
  lemma SameAnswerIff(a: Response, b: Response)
    ensures SameAnswer(a, b) <==>
      && a.Response? && b.Response?
      && AllInRange(ObjectAnswer(a.values)) && AllInRange(ObjectAnswer(b.values))
      && Alike(ObjectAnswer(a.values), ObjectAnswer(b.values))
  {
    hide Decode, AllInRange, Alike;
    if a.Response? && b.Response? {
      DecodeIff(ObjectAnswer(a.values));
      DecodeIff(ObjectAnswer(b.values));
      if Decode(ObjectAnswer(a.values)).Some? && Decode(ObjectAnswer(b.values)).Some? {
        DecodeAlike(ObjectAnswer(a.values), ObjectAnswer(b.values));
      }
    }
  }

  /** So an answer is the same as itself exactly when all its numbers are in range. */
  lemma OwnAnswerIff(a: Response)
    ensures SameAnswer(a, a) <==> a.Response? && AllInRange(ObjectAnswer(a.values))
  {
    hide Decode, AllInRange;
    if a.Response? {
      DecodeIff(ObjectAnswer(a.values));
    }
  }

  /** All its numbers are integers within 2^53. */
  predicate Exact(v: Written) {
    match v
    case NumberAnswer(n) => n.Digits? && -MAX_EXACT_INTEGER <= n.n <= MAX_EXACT_INTEGER
    case ArrayAnswer(items) => forall i | 0 <= i < |items| :: Exact(items[i])
    case ObjectAnswer(members) => forall k | k in members :: Exact(members[k])
    case _ => true
  }

  lemma {:induction false} ExactAlike(v: Written, w: Written)
    requires Exact(v) && Exact(w)
    ensures AllInRange(v) && (Alike(v, w) <==> v == w)
  {
    hide Float64, InRange;
    match v
    case NumberAnswer(n) =>
      ExactInteger(n.n);
      Float64Iff(n.n as real);
      if w.NumberAnswer? {
        ExactInteger(w.n.n);
      }
    case ArrayAnswer(items) =>
      forall i | 0 <= i < |items| ensures AllInRange(items[i]) {
        ExactAlike(items[i], items[i]);
      }
      if w.ArrayAnswer? && |w.items| == |items| {
        forall i | 0 <= i < |items| ensures Alike(items[i], w.items[i]) <==> items[i] == w.items[i] {
          ExactAlike(items[i], w.items[i]);
        }
        assert items == w.items <==> forall i | 0 <= i < |items| :: items[i] == w.items[i];
      }
    case ObjectAnswer(members) =>
      forall k | k in members ensures AllInRange(members[k]) {
        ExactAlike(members[k], members[k]);
      }
      if w.ObjectAnswer? && w.members.Keys == members.Keys {
        forall k | k in members ensures Alike(members[k], w.members[k]) <==> members[k] == w.members[k] {
          ExactAlike(members[k], w.members[k]);
        }
        assert members == w.members <==> forall k | k in members :: members[k] == w.members[k];
      }
    case _ =>
  }

  /** As long as all numbers are integers within 2^53, only the very same answer counts as the same. */
  lemma ExactAnswersDiffer(a: Response, b: Response)
    requires a.Response? && b.Response? && Exact(ObjectAnswer(a.values)) && Exact(ObjectAnswer(b.values))
    ensures SameAnswer(a, b) <==> a == b
  {
    hide SameAnswer, Exact, Alike, AllInRange;
    SameAnswerIff(a, b);
    ExactAlike(ObjectAnswer(a.values), ObjectAnswer(b.values));
    ExactAlike(ObjectAnswer(b.values), ObjectAnswer(a.values));
  }

  /** The answer to a question that declares its fields has all its numbers in range. */
  lemma DeclaredAnswerInRange(schema: Schema, response: Response)
    requires schema.Spec? && ValidResponse(schema, response)
    ensures AllInRange(ObjectAnswer(response.values))
  {
    hide Float64, InRange;
    forall name | name in response.values ensures AllInRange(response.values[name]) {
      var v, f := response.values[name], Declared(schema)[name];
      if f.kind == "array" {
        forall i | 0 <= i < |v.items| ensures AllInRange(v.items[i]) {
          AllowedInRange(v.items[i], f.items.value);
        }
      } else {
        AllowedInRange(v, f.kind);
      }
    }
  }

  lemma AllowedInRange(v: Written, kind: string)
    requires ScalarAllowed(v, kind)
    ensures AllInRange(v)
  {
    hide Float64, InRange;
    if v.NumberAnswer? {
      if kind == "integer" {
        ExactInteger(v.n.n);
      }
      Float64Iff(ValueOf(v.n));
    }
  }

  /** A question without declared fields takes 1e400 as an answer, which is then not the same as itself. */
  lemma HugeAnswerIsNotItself()
    ensures var a := Response(map["q" := NumberAnswer(Decimal(Pow10(400)))]);
      ValidResponse(EmptyObject, a) && !SameAnswer(a, a)
  {
    hide Pow10, Float64, InRange, Decode;
    var a := Response(map["q" := NumberAnswer(Decimal(Pow10(400)))]);
    HugeOutOfRange();
    assert !AllInRange(a.values["q"]);
    OwnAnswerIff(a);
  }

  /** 2^53 + 1 and 2^53 are both answers to a question for a number, and count as the same one. */
  lemma RoundedAnswerIsTheSame()
    ensures var a := Response(map["q" := NumberAnswer(Digits(MAX_EXACT_INTEGER + 1))]);
      var b := Response(map["q" := NumberAnswer(Digits(MAX_EXACT_INTEGER))]);
      var schema := Spec(Some(map["q" := Field("number", None)]), None, ["q"]);
      ValidSchema(schema) && ValidResponse(schema, a) && ValidResponse(schema, b) && a != b && SameAnswer(a, b)
  {
    hide Float64, InRange, Decode;
    var a := Response(map["q" := NumberAnswer(Digits(MAX_EXACT_INTEGER + 1))]);
    var b := Response(map["q" := NumberAnswer(Digits(MAX_EXACT_INTEGER))]);
    var schema := Spec(Some(map["q" := Field("number", None)]), None, ["q"]);
    OddRoundsDown();
    ExactInteger(MAX_EXACT_INTEGER);
    assert ValueOf(Digits(MAX_EXACT_INTEGER + 1)) == TWO_53 + 1.0;
    assert schema.required[0] == "q";
    DeclaredAnswerInRange(schema, a);
    DeclaredAnswerInRange(schema, b);
    assert Alike(a.values["q"], b.values["q"]);
    assert a.values["q"] != b.values["q"];
    SameAnswerIff(a, b);
  }

  /** One half and one quarter are told apart. */
  lemma FractionsAreTold()
    ensures !SameAnswer(Response(map["q" := NumberAnswer(Decimal(0.5))]),
                        Response(map["q" := NumberAnswer(Decimal(0.25))]))
  {
    hide Float64, InRange, Decode;
    var a := Response(map["q" := NumberAnswer(Decimal(0.5))]);
    var b := Response(map["q" := NumberAnswer(Decimal(0.25))]);
    assert Halved(1, 1) == 0.5 && Halved(1, 2) == 0.25;
    ExactFraction(1, 1);
    ExactFraction(1, 2);
    assert !Alike(a.values["q"], b.values["q"]);
    SameAnswerIff(a, b);
  }
}
