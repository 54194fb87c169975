/** app/core/middleware.py: the rewriting of the generated OpenAPI document. */
module OpenApi {
  import opened Domain

  /** A parsed JSON document; numbers, booleans and null are not told apart further. */
  datatype Json =
    | Obj(fields: map<string, Json>)
    | Arr(items: seq<Json>)
    | Str(text: string)
    | Atom(id: nat)

  const EMPTY := Obj(map[])

  function Pointer(section: string, name: string): string { "#/components/" + section + "/" + name }

  const HTTP_REF := Pointer("schemas", "HTTPValidationError")
  const ERROR_REF := Pointer("schemas", "ErrorResponse")
  const LANGUAGE_REF := Pointer("parameters", "AcceptLanguage")

  /** dict.get(name, {}) on something known to be a dict. */
  function Get(j: Json, name: string): Json
    requires j.Obj?
  {
    if name in j.fields then j.fields[name] else EMPTY
  }

  function With(j: Json, name: string, value: Json): Json
    requires j.Obj?
  {
    Obj(j.fields[name := value])
  }

  // ----- The steps of custom_openapi -----

  predicate OperationShaped(op: Json) {
    op.Obj? ==> Get(op, "responses").Obj?
  }

  predicate ItemShaped(item: Json) {
    item.Obj? && forall k | k in item.fields :: OperationShaped(item.fields[k])
  }

  /** The document has the shape on which no step raises: dicts where the code calls dict methods. */
  predicate Shaped(doc: Json) {
    && doc.Obj?
    && Get(doc, "components").Obj?
    && Get(Get(doc, "components"), "schemas").Obj?
    && Get(Get(doc, "components"), "parameters").Obj?
    && Get(doc, "paths").Obj?
    && forall p | p in Get(doc, "paths").fields :: ItemShaped(Get(doc, "paths").fields[p])
  }

  predicate Defined(doc: Json, section: string, name: string) {
    && doc.Obj? && Get(doc, "components").Obj? && Get(Get(doc, "components"), section).Obj?
    && name in Get(Get(doc, "components"), section).fields
  }

  function Section(doc: Json, section: string): map<string, Json>
    requires doc.Obj? && Get(doc, "components").Obj? && Get(Get(doc, "components"), section).Obj?
  {
    Get(Get(doc, "components"), section).fields
  }

  function WithSection(doc: Json, section: string, entries: map<string, Json>): Json
    requires doc.Obj? && Get(doc, "components").Obj?
  {
    With(doc, "components", With(Get(doc, "components"), section, Obj(entries)))
  }

  /** The definitions nested in the error model. */
  function Definitions(model: Json): map<string, Json>
    requires model.Obj?
  {
    if "$defs" in model.fields && model.fields["$defs"].Obj? then model.fields["$defs"].fields else map[]
  }

  function Body(model: Json): Json
    requires model.Obj?
  {
    Obj(model.fields - {"$defs"})
  }

  /** _inject_error_response_schema */
  function WithErrorModel(doc: Json, model: Json): Json
    requires Shaped(doc) && model.Obj?
  {
    WithSection(doc, "schemas", (Section(doc, "schemas") + Definitions(model))["ErrorResponse" := Body(model)])
  }

  function LanguageParameter(description: string): Json {
    Obj(map["name" := Str("Accept-Language"), "in" := Str("header"), "required" := Atom(0),
            "description" := Str(description),
            "schema" := Obj(map["type" := Str("string"), "default" := Str("en"), "example" := Str("kk")])])
  }

  const LANGUAGE_LINK := Obj(map["$ref" := Str(LANGUAGE_REF)])

  predicate IsLanguageHeader(p: Json) {
    && p.Obj? && "name" in p.fields && p.fields["name"] == Str("Accept-Language")
    && "in" in p.fields && p.fields["in"] == Str("header")
  }

  function Parameters(op: Json): Json
    requires op.Obj?
  {
    if "parameters" in op.fields then op.fields["parameters"] else Arr([])
  }

  predicate Inline(op: Json)
    requires op.Obj? && Parameters(op).Arr?
  {
    exists p :: p in Parameters(op).items && IsLanguageHeader(p)
  }

  /** What happens to one entry of a path item. */
  function Localized(op: Json): Json {
    if !op.Obj? || !Parameters(op).Arr? || Inline(op) then op
    else With(op, "parameters", Arr([LANGUAGE_LINK] + Parameters(op).items))
  }

  function LocalizedItem(item: Json): Json {
    if item.Obj? then Obj(map k | k in item.fields :: Localized(item.fields[k])) else item
  }

  function WithPaths(doc: Json, items: map<string, Json>): Json
    requires doc.Obj?
  {
    if "paths" in doc.fields then With(doc, "paths", Obj(items)) else doc
  }

  /** _inject_accept_language_parameter */
  function WithLanguage(doc: Json, description: string): Json
    requires Shaped(doc)
  {
    var doc1 := WithSection(doc, "parameters",
      Section(doc, "parameters")["AcceptLanguage" := LanguageParameter(description)]);
    var items := Get(doc, "paths").fields;
    WithPaths(doc1, map p | p in items :: LocalizedItem(items[p]))
  }

  function Renamed(ref: string): string { if ref == HTTP_REF then ERROR_REF else ref }

  /** _replace_http_validation_refs, at every depth. */
  function Replaced(j: Json): Json {
    match j
    case Obj(fields) =>
      Obj(map k | k in fields ::
        if k == "$ref" && fields[k] == Str(HTTP_REF) then Str(ERROR_REF) else Replaced(fields[k]))
    case Arr(items) => Arr(seq(|items|, i requires 0 <= i < |items| => Replaced(items[i])))
    case _ => j
  }

  /** _strip_default_validation_models */
  function Stripped(doc: Json): Json
    requires Shaped(doc)
  {
    if "components" in doc.fields && "schemas" in Get(doc, "components").fields
    then WithSection(doc, "schemas", Section(doc, "schemas") - {"HTTPValidationError"})
    else doc
  }

  predicate DefaultDescription(response: Json) {
    response.Obj? && "description" in response.fields && response.fields["description"] == Str("Validation Error")
  }

  function Reworded(op: Json): Json
    requires OperationShaped(op)
  {
    if op.Obj? && "422" in Get(op, "responses").fields && DefaultDescription(Get(op, "responses").fields["422"])
    then With(op, "responses", With(Get(op, "responses"), "422",
                                    With(Get(op, "responses").fields["422"], "description", Str("Validation failed"))))
    else op
  }

  function RewordedItem(item: Json): Json
    requires ItemShaped(item)
  {
    Obj(map k | k in item.fields :: Reworded(item.fields[k]))
  }

  /** _normalize_422_descriptions */
  function Normalised(doc: Json): Json
    requires Shaped(doc)
  {
    var items := Get(doc, "paths").fields;
    WithPaths(doc, map p | p in items :: RewordedItem(items[p]))
  }

  // ----- References -----

  /** Every string that occurs as the value of a $ref, at any depth. */
  function Refs(j: Json): set<string> {
    match j
    case Obj(fields) =>
      (if "$ref" in fields && fields["$ref"].Str? then {fields["$ref"].text} else {})
      + (set k, r | k in fields && r in Refs(fields[k]) :: r)
    case Arr(items) => set i, r | 0 <= i < |items| && r in Refs(items[i]) :: r
    case _ => {}
  }

  ghost predicate Resolves(doc: Json, ref: string) {
    exists section, name :: Target(doc, ref, section, name)
  }

  predicate Target(doc: Json, ref: string, section: string, name: string) {
    ref == Pointer(section, name) && Defined(doc, section, name)
  }

  /** Every reference in the document names a component the document defines. */
  ghost predicate Closed(doc: Json) { forall r | r in Refs(doc) :: Resolves(doc, r) }

  /** Every reference in the error model names one of its own definitions or the model itself. */
  ghost predicate OwnTarget(model: Json, r: string, name: string)
    requires model.Obj?
  {
    r == Pointer("schemas", name) && (name in Definitions(model) || name == "ErrorResponse")
  }

  ghost predicate ModelClosed(model: Json) {
    model.Obj? && forall r | r in Refs(model) :: exists name :: OwnTarget(model, r, name)
  }

  // ----- Shape -----

  lemma ErrorModelShape(doc: Json, model: Json)
    requires Shaped(doc) && model.Obj?
    ensures Shaped(WithErrorModel(doc, model))
  {
  }

  lemma LanguageShape(doc: Json, description: string)
    requires Shaped(doc)
    ensures Shaped(WithLanguage(doc, description))
  {
    var items := Get(doc, "paths").fields;
    forall p | p in items ensures ItemShaped(LocalizedItem(items[p])) {
      forall k | k in items[p].fields ensures OperationShaped(Localized(items[p].fields[k])) {
        assert OperationShaped(items[p].fields[k]);
      }
    }
  }

  lemma ReplacedGet(j: Json, name: string)
    requires j.Obj? && name != "$ref"
    ensures Get(Replaced(j), name) == Replaced(Get(j, name))
  {
    assert Replaced(EMPTY) == EMPTY;
  }

  lemma ReplacedOperation(op: Json)
    requires OperationShaped(op)
    ensures OperationShaped(Replaced(op))
  {
    if op.Obj? { ReplacedGet(op, "responses"); }
  }

  lemma ReplacedItem(item: Json)
    requires ItemShaped(item)
    ensures ItemShaped(Replaced(item))
  {
    forall k | k in item.fields ensures OperationShaped(Replaced(item).fields[k]) {
      ReplacedOperation(item.fields[k]);
    }
  }

  lemma ReplacedShape(doc: Json)
    requires Shaped(doc)
    ensures Shaped(Replaced(doc))
  {
    ReplacedGet(doc, "components");
    ReplacedGet(Get(doc, "components"), "schemas");
    ReplacedGet(Get(doc, "components"), "parameters");
    ReplacedGet(doc, "paths");
    var items := Get(doc, "paths").fields;
    forall p | p in Get(Replaced(doc), "paths").fields ensures ItemShaped(Get(Replaced(doc), "paths").fields[p]) {
      assert ItemShaped(items[p]);
      ReplacedItem(items[p]);
    }
  }

  lemma StrippedShape(doc: Json)
    requires Shaped(doc)
    ensures Shaped(Stripped(doc))
  {
  }

  /** custom_openapi */
  function Customised(doc: Json, model: Json, description: string): Json
    requires Shaped(doc) && model.Obj?
  {
    var doc1 := WithErrorModel(doc, model);
    ErrorModelShape(doc, model);
    var doc2 := WithLanguage(doc1, description);
    LanguageShape(doc1, description);
    var doc3 := Replaced(doc2);
    ReplacedShape(doc2);
    StrippedShape(doc3);
    Normalised(Stripped(doc3))
  }

  // ----- What each step adds to the references -----

  lemma RefsOfField(fields: map<string, Json>, k: string)
    requires k in fields
    ensures Refs(fields[k]) <= Refs(Obj(fields))
  {
  }

  lemma RefsBounded(fields: map<string, Json>, bound: set<string>)
    requires forall k | k in fields :: Refs(fields[k]) <= bound
    requires "$ref" in fields && fields["$ref"].Str? ==> fields["$ref"].text in bound
    ensures Refs(Obj(fields)) <= bound
  {
  }

  lemma RefsWith(j: Json, name: string, value: Json, bound: set<string>)
    requires j.Obj? && name != "$ref" && Refs(j) <= bound && Refs(value) <= bound
    ensures Refs(With(j, name, value)) <= bound
  {
    var fields := j.fields[name := value];
    forall k | k in fields ensures Refs(fields[k]) <= bound {
      if k != name { RefsOfField(j.fields, k); }
    }
    RefsBounded(fields, bound);
  }

  lemma RefsOfGet(j: Json, name: string)
    requires j.Obj?
    ensures Refs(Get(j, name)) <= Refs(j)
  {
    if name in j.fields { RefsOfField(j.fields, name); }
  }

  lemma RefsWithSection(doc: Json, section: string, entries: map<string, Json>, bound: set<string>)
    requires doc.Obj? && Get(doc, "components").Obj? && section != "$ref"
    requires Refs(doc) <= bound && Refs(Obj(entries)) <= bound
    ensures Refs(WithSection(doc, section, entries)) <= bound
  {
    RefsOfGet(doc, "components");
    RefsWith(Get(doc, "components"), section, Obj(entries), bound);
    RefsWith(doc, "components", With(Get(doc, "components"), section, Obj(entries)), bound);
  }

  lemma RefsOfSection(doc: Json, section: string)
    requires doc.Obj? && Get(doc, "components").Obj? && Get(Get(doc, "components"), section).Obj?
    ensures Refs(Obj(Section(doc, section))) <= Refs(doc)
  {
    RefsOfGet(doc, "components");
    RefsOfGet(Get(doc, "components"), section);
    assert Obj(Section(doc, section)) == Get(Get(doc, "components"), section);
  }

  lemma RefsMerged(a: map<string, Json>, b: map<string, Json>, bound: set<string>)
    requires Refs(Obj(a)) <= bound && Refs(Obj(b)) <= bound
    ensures Refs(Obj(a + b)) <= bound
  {
    forall k | k in a + b ensures Refs((a + b)[k]) <= bound {
      if k in b { RefsOfField(b, k); } else { RefsOfField(a, k); }
    }
    RefsBounded(a + b, bound);
  }

  lemma RefsOfModel(model: Json)
    requires model.Obj?
    ensures Refs(Obj(Definitions(model))) <= Refs(model) && Refs(Body(model)) <= Refs(model)
  {
    if "$defs" in model.fields && model.fields["$defs"].Obj? {
      RefsOfField(model.fields, "$defs");
      assert Obj(Definitions(model)) == model.fields["$defs"];
    }
    forall k | k in Body(model).fields ensures Refs(Body(model).fields[k]) <= Refs(model) {
      RefsOfField(model.fields, k);
    }
    RefsBounded(Body(model).fields, Refs(model));
  }

  lemma ErrorModelRefs(doc: Json, model: Json)
    requires Shaped(doc) && model.Obj?
    ensures Refs(WithErrorModel(doc, model)) <= Refs(doc) + Refs(model)
  {
    var bound := Refs(doc) + Refs(model);
    RefsOfSection(doc, "schemas");
    RefsOfModel(model);
    var merged := Section(doc, "schemas") + Definitions(model);
    RefsMerged(Section(doc, "schemas"), Definitions(model), bound);
    RefsWith(Obj(merged), "ErrorResponse", Body(model), bound);
    RefsWithSection(doc, "schemas", merged["ErrorResponse" := Body(model)], bound);
  }

  lemma LinkRefs()
    ensures Refs(LANGUAGE_LINK) <= {LANGUAGE_REF}
  {
    var fields := LANGUAGE_LINK.fields;
    assert Refs(fields["$ref"]) == {};
    RefsBounded(fields, {LANGUAGE_REF});
  }

  lemma LocalizedRefs(op: Json, bound: set<string>)
    requires Refs(op) <= bound && LANGUAGE_REF in bound
    ensures Refs(Localized(op)) <= bound
  {
    if op.Obj? && Parameters(op).Arr? && !Inline(op) {
      var listed := Arr([LANGUAGE_LINK] + Parameters(op).items);
      assert Refs(Parameters(op)) <= bound by {
        if "parameters" in op.fields { RefsOfField(op.fields, "parameters"); }
      }
      forall r | r in Refs(listed) ensures r in bound {
        var i :| 0 <= i < |listed.items| && r in Refs(listed.items[i]);
        if i > 0 {
          assert listed.items[i] == Parameters(op).items[i - 1];
          assert r in Refs(Parameters(op));
        } else {
          assert listed.items[i] == LANGUAGE_LINK;
          LinkRefs();
        }
      }
      RefsWith(op, "parameters", listed, bound);
    }
  }

  lemma LocalizedItemRefs(item: Json, bound: set<string>)
    requires Refs(item) <= bound && LANGUAGE_REF in bound
    ensures Refs(LocalizedItem(item)) <= bound
  {
    if item.Obj? {
      var fields := LocalizedItem(item).fields;
      forall k | k in fields ensures Refs(fields[k]) <= bound {
        RefsOfField(item.fields, k);
        LocalizedRefs(item.fields[k], bound);
      }
      RefsBounded(fields, bound);
    }
  }

  /** Rebuilding the path items keeps the references within the bound. */
  lemma RefsWithPaths(doc: Json, items: map<string, Json>, bound: set<string>)
    requires doc.Obj? && Refs(doc) <= bound
    requires forall p | p in items :: items[p].Obj? && Refs(items[p]) <= bound
    ensures Refs(WithPaths(doc, items)) <= bound
  {
    RefsBounded(items, bound);
    RefsWith(doc, "paths", Obj(items), bound);
  }

  lemma LanguageParameterRefs(description: string)
    ensures Refs(LanguageParameter(description)) <= {}
  {
    var inner := map["type" := Str("string"), "default" := Str("en"), "example" := Str("kk")];
    assert forall k | k in inner :: inner[k].Str?;
    assert "$ref" !in inner;
    RefsBounded(inner, {});
    var fields := LanguageParameter(description).fields;
    assert "$ref" !in fields;
    assert forall k | k in fields :: fields[k].Str? || fields[k].Atom? || fields[k] == Obj(inner);
    RefsBounded(fields, {});
  }

  lemma ParameterRefs(doc: Json, description: string, bound: set<string>)
    requires Shaped(doc) && Refs(doc) <= bound
    ensures Refs(WithSection(doc, "parameters",
        Section(doc, "parameters")["AcceptLanguage" := LanguageParameter(description)])) <= bound
  {
    var parameters := Section(doc, "parameters");
    RefsOfSection(doc, "parameters");
    LanguageParameterRefs(description);
    RefsWith(Obj(parameters), "AcceptLanguage", LanguageParameter(description), bound);
    RefsWithSection(doc, "parameters", parameters["AcceptLanguage" := LanguageParameter(description)], bound);
  }

  lemma LanguageRefs(doc: Json, description: string)
    requires Shaped(doc)
    ensures Refs(WithLanguage(doc, description)) <= Refs(doc) + {LANGUAGE_REF}
  {
    var bound := Refs(doc) + {LANGUAGE_REF};
    ParameterRefs(doc, description, bound);
    var doc1 := WithSection(doc, "parameters",
      Section(doc, "parameters")["AcceptLanguage" := LanguageParameter(description)]);
    var items := Get(doc, "paths").fields;
    RefsOfGet(doc, "paths");
    forall p | p in items ensures Refs(LocalizedItem(items[p])) <= bound {
      RefsOfField(items, p);
      LocalizedItemRefs(items[p], bound);
    }
    RefsWithPaths(doc1, map p | p in items :: LocalizedItem(items[p]), bound);
  }

  /** The references after the rewrite are the renamed references of before, no more and no fewer. */
  lemma {:induction false} ReplacedRefs(j: Json, r: string)
    ensures r in Refs(Replaced(j)) <==> exists was :: was in Refs(j) && r == Renamed(was)
    decreases j
  {
    match j
    case Obj(fields) =>
      forall k | k in fields ensures r in Refs(Replaced(fields[k])) <==>
        exists was :: was in Refs(fields[k]) && r == Renamed(was) {
        ReplacedRefs(fields[k], r);
      }
      ReplacedObjRefs(fields, r);
    case Arr(items) =>
      forall i | 0 <= i < |items| ensures r in Refs(Replaced(items[i])) <==>
        exists was :: was in Refs(items[i]) && r == Renamed(was) {
        ReplacedRefs(items[i], r);
      }
      ReplacedArrRefs(items, r);
    case _ =>
  }

  lemma RefsOfRewritten(fields: map<string, Json>, r: string)
    requires forall k | k in fields :: r in Refs(Replaced(fields[k])) ==>
        exists was :: was in Refs(fields[k]) && r == Renamed(was)
    requires r in Refs(Replaced(Obj(fields)))
    ensures exists was :: was in Refs(Obj(fields)) && r == Renamed(was)
  {
    var after := Replaced(Obj(fields)).fields;
    if "$ref" in after && after["$ref"] == Str(r) {
      assert fields["$ref"].Str? && fields["$ref"].text in Refs(Obj(fields)) && r == Renamed(fields["$ref"].text);
    } else {
      var k :| k in after && r in Refs(after[k]);
      assert r in Refs(Replaced(fields[k]));
      var was :| was in Refs(fields[k]) && r == Renamed(was);
      RefsOfField(fields, k);
    }
  }

  lemma RewrittenRefs(fields: map<string, Json>, was: string)
    requires forall k | k in fields && was in Refs(fields[k]) :: Renamed(was) in Refs(Replaced(fields[k]))
    requires was in Refs(Obj(fields))
    ensures Renamed(was) in Refs(Replaced(Obj(fields)))
  {
    var after := Replaced(Obj(fields)).fields;
    if "$ref" in fields && fields["$ref"] == Str(was) {
      assert Replaced(Str(was)) == Str(was);
      assert after["$ref"] == Str(Renamed(was));
    } else {
      var k :| k in fields && was in Refs(fields[k]);
      assert Refs(Str(HTTP_REF)) == {};
      assert after[k] == Replaced(fields[k]);
      RefsOfField(after, k);
    }
  }

  lemma ReplacedObjRefs(fields: map<string, Json>, r: string)
    requires forall k | k in fields :: r in Refs(Replaced(fields[k])) <==>
        exists was :: was in Refs(fields[k]) && r == Renamed(was)
    ensures r in Refs(Replaced(Obj(fields))) <==> exists was :: was in Refs(Obj(fields)) && r == Renamed(was)
  {
    if r in Refs(Replaced(Obj(fields))) { RefsOfRewritten(fields, r); }
    forall was | was in Refs(Obj(fields)) && r == Renamed(was) ensures r in Refs(Replaced(Obj(fields))) {
      RewrittenRefs(fields, was);
    }
  }

  lemma ReplacedArrRefs(items: seq<Json>, r: string)
    requires forall i | 0 <= i < |items| :: r in Refs(Replaced(items[i])) <==>
        exists was :: was in Refs(items[i]) && r == Renamed(was)
    ensures r in Refs(Replaced(Arr(items))) <==> exists was :: was in Refs(Arr(items)) && r == Renamed(was)
  {
    var after := Replaced(Arr(items)).items;
    if r in Refs(Arr(after)) {
      var i :| 0 <= i < |after| && r in Refs(after[i]);
      var was :| was in Refs(items[i]) && r == Renamed(was);
      assert was in Refs(Arr(items));
    }
    forall was | was in Refs(Arr(items)) && r == Renamed(was) ensures r in Refs(Arr(after)) {
      var i :| 0 <= i < |items| && was in Refs(items[i]);
      assert r in Refs(after[i]);
    }
  }

  lemma StrippedRefs(doc: Json)
    requires Shaped(doc)
    ensures Refs(Stripped(doc)) <= Refs(doc)
  {
    var entries := Section(doc, "schemas") - {"HTTPValidationError"};
    RefsOfSection(doc, "schemas");
    forall k | k in entries ensures Refs(entries[k]) <= Refs(doc) { RefsOfField(Section(doc, "schemas"), k); }
    RefsBounded(entries, Refs(doc));
    RefsWithSection(doc, "schemas", entries, Refs(doc));
  }

  lemma RewordedRefs(op: Json, bound: set<string>)
    requires OperationShaped(op) && Refs(op) <= bound
    ensures Refs(Reworded(op)) <= bound
  {
    if Reworded(op) != op {
      var responses := Get(op, "responses");
      var response := responses.fields["422"];
      RefsOfGet(op, "responses");
      RefsOfField(responses.fields, "422");
      RefsWith(response, "description", Str("Validation failed"), bound);
      RefsWith(responses, "422", With(response, "description", Str("Validation failed")), bound);
      RefsWith(op, "responses", With(responses, "422", With(response, "description", Str("Validation failed"))), bound);
    }
  }

  lemma RewordedItemRefs(item: Json, bound: set<string>)
    requires ItemShaped(item) && Refs(item) <= bound
    ensures Refs(RewordedItem(item)) <= bound
  {
    var fields := RewordedItem(item).fields;
    forall k | k in fields ensures Refs(fields[k]) <= bound {
      RefsOfField(item.fields, k);
      RewordedRefs(item.fields[k], bound);
    }
    RefsBounded(fields, bound);
  }

  lemma NormalisedRefs(doc: Json)
    requires Shaped(doc)
    ensures Refs(Normalised(doc)) <= Refs(doc)
  {
    var items := Get(doc, "paths").fields;
    RefsOfGet(doc, "paths");
    forall p | p in items ensures Refs(RewordedItem(items[p])) <= Refs(doc) {
      RefsOfField(items, p);
      RewordedItemRefs(items[p], Refs(doc));
    }
    RefsWithPaths(doc, map p | p in items :: RewordedItem(items[p]), Refs(doc));
  }

  // ----- What each step does to the components -----

  lemma ReplacedDefined(doc: Json, section: string, name: string)
    requires Defined(doc, section, name)
    ensures Defined(Replaced(doc), section, name)
  {
    ReplacedGet(doc, "components");
    var components := Get(doc, "components");
    assert section in components.fields;
    assert Replaced(components).fields[section] == Replaced(components.fields[section]);
  }

  lemma DefinedInTheEnd(doc: Json, model: Json, description: string, section: string, name: string)
    requires Shaped(doc) && model.Obj? && Pointer(section, name) != HTTP_REF
    requires Defined(doc, section, name)
             || (section == "schemas" && (name in Definitions(model) || name == "ErrorResponse"))
             || (section == "parameters" && name == "AcceptLanguage")
    ensures Defined(Customised(doc, model, description), section, name)
  {
    var doc1 := WithErrorModel(doc, model);
    ErrorModelShape(doc, model);
    var doc2 := WithLanguage(doc1, description);
    LanguageShape(doc1, description);
    assert Defined(doc2, section, name);
    var doc3 := Replaced(doc2);
    ReplacedShape(doc2);
    ReplacedDefined(doc2, section, name);
    StrippedShape(doc3);
    assert Defined(Stripped(doc3), section, name);
  }

  lemma RefsInTheEnd(doc: Json, model: Json, description: string, r: string)
    requires Shaped(doc) && model.Obj? && r in Refs(Customised(doc, model, description))
    ensures exists was :: was in Refs(doc) + Refs(model) + {LANGUAGE_REF} && r == Renamed(was)
  {
    var doc1 := WithErrorModel(doc, model);
    ErrorModelShape(doc, model);
    var doc2 := WithLanguage(doc1, description);
    LanguageShape(doc1, description);
    var doc3 := Replaced(doc2);
    ReplacedShape(doc2);
    StrippedShape(doc3);
    NormalisedRefs(Stripped(doc3));
    StrippedRefs(doc3);
    ReplacedRefs(doc2, r);
    LanguageRefs(doc1, description);
    ErrorModelRefs(doc, model);
  }

  lemma RefNames()
    ensures HTTP_REF != ERROR_REF && HTTP_REF != LANGUAGE_REF
  {
    assert |HTTP_REF| != |ERROR_REF| && |HTTP_REF| != |LANGUAGE_REF|;
  }

  /** No dangling reference: if every reference of the generated document resolves and the error
      model is closed, every reference of the final document resolves, although one of the
      components they used to name is gone. */
  lemma CustomisedIsClosed(doc: Json, model: Json, description: string)
    requires Shaped(doc) && Closed(doc) && ModelClosed(model)
    ensures Closed(Customised(doc, model, description))
    ensures !Defined(Customised(doc, model, description), "schemas", "HTTPValidationError")
    ensures HTTP_REF !in Refs(Customised(doc, model, description))
  {
    var final := Customised(doc, model, description);
    RefNames();
    forall r | r in Refs(final) ensures r != HTTP_REF && Resolves(final, r) {
      RefsInTheEnd(doc, model, description, r);
      var was :| was in Refs(doc) + Refs(model) + {LANGUAGE_REF} && r == Renamed(was);
      var section, name;
      if was == HTTP_REF {
        section, name := "schemas", "ErrorResponse";
      } else if was == LANGUAGE_REF {
        section, name := "parameters", "AcceptLanguage";
      } else if was in Refs(doc) {
        section, name :| Target(doc, was, section, name);
      } else {
        section := "schemas";
        name :| OwnTarget(model, was, name);
      }
      assert r == Pointer(section, name);
      DefinedInTheEnd(doc, model, description, section, name);
      assert Target(final, r, section, name);
    }
    NothingStripped(doc, model, description);
  }

  lemma NothingStripped(doc: Json, model: Json, description: string)
    requires Shaped(doc) && model.Obj?
    ensures !Defined(Customised(doc, model, description), "schemas", "HTTPValidationError")
  {
    var doc1 := WithErrorModel(doc, model);
    ErrorModelShape(doc, model);
    var doc2 := WithLanguage(doc1, description);
    LanguageShape(doc1, description);
    var doc3 := Replaced(doc2);
    ReplacedShape(doc2);
    StrippedShape(doc3);
    assert !Defined(Stripped(doc3), "schemas", "HTTPValidationError");
  }

  // ----- The rewrite touches nothing else -----

  datatype Key = Name(name: string) | Index(index: nat)

  function Look(j: Json, path: seq<Key>): Option<Json> {
    if path == [] then Some(j)
    else match (j, path[0])
      case (Obj(fields), Name(k)) => if k in fields then Look(fields[k], path[1..]) else None
      case (Arr(items), Index(i)) => if i < |items| then Look(items[i], path[1..]) else None
      case _ => None
  }

  /** The node at a path is a reference to the model that goes away. */
  predicate Stale(j: Json, path: seq<Key>) {
    path != [] && path[|path| - 1] == Name("$ref") && Look(j, path) == Some(Str(HTTP_REF))
  }

  /** Path by path: the same paths exist before and after, a stale reference is renamed, and any
      other node is itself rewritten, which for a string or an atom means left alone. */
  lemma {:induction false} ReplacedAt(j: Json, path: seq<Key>)
    ensures Look(Replaced(j), path) ==
            if Stale(j, path) then Some(Str(ERROR_REF))
            else if Look(j, path).Some? then Some(Replaced(Look(j, path).value))
            else None
    decreases |path|
  {
    if path != [] {
      match (j, path[0])
      case (Obj(fields), Name(k)) =>
        if k in fields {
          ReplacedAt(fields[k], path[1..]);
          if |path| > 1 { assert path[1..][|path[1..]| - 1] == path[|path| - 1]; }
        }
      case (Arr(items), Index(i)) =>
        if i < |items| {
          ReplacedAt(items[i], path[1..]);
          if |path| > 1 { assert path[1..][|path[1..]| - 1] == path[|path| - 1]; }
        }
      case _ =>
    }
  }

  /** The rewrite leaves a document alone exactly when no reference in it is stale. */
  lemma {:induction false} ReplacedIsIdentity(j: Json)
    ensures Replaced(j) == j <==> HTTP_REF !in Refs(j)
    decreases j
  {
    RefNames();
    match j
    case Obj(fields) =>
      forall k | k in fields ensures Replaced(fields[k]) == fields[k] <==> HTTP_REF !in Refs(fields[k]) {
        ReplacedIsIdentity(fields[k]);
      }
      if HTTP_REF !in Refs(j) {
        forall k | k in fields ensures Replaced(j).fields[k] == fields[k] { RefsOfField(fields, k); }
        assert Replaced(j).fields == fields;
      } else if Replaced(j) == j {
        NoStaleAfter(j);
      }
    case Arr(items) =>
      forall i | 0 <= i < |items| ensures Replaced(items[i]) == items[i] <==> HTTP_REF !in Refs(items[i]) {
        ReplacedIsIdentity(items[i]);
      }
      if HTTP_REF !in Refs(j) {
        assert Replaced(j).items == items;
      } else if Replaced(j) == j {
        NoStaleAfter(j);
      }
    case _ =>
  }

  lemma NoStaleAfter(j: Json)
    ensures HTTP_REF !in Refs(Replaced(j))
  {
    RefNames();
    ReplacedRefs(j, HTTP_REF);
  }

  lemma ReplacedTwice(j: Json)
    ensures Replaced(Replaced(j)) == Replaced(j)
  {
    NoStaleAfter(j);
    ReplacedIsIdentity(Replaced(j));
  }

  // ----- Accept-Language -----

  /** Injecting the parameter again adds it again, exactly when the operation has a parameter list
      without an inline Accept-Language header. */
  lemma LocalizedTwice(op: Json)
    ensures Localized(Localized(op)) == Localized(op) <==> !(op.Obj? && Parameters(op).Arr? && !Inline(op))
  {
    if op.Obj? && Parameters(op).Arr? && !Inline(op) {
      var once := Localized(op);
      forall p | p in Parameters(once).items ensures !IsLanguageHeader(p) {
        assert p == LANGUAGE_LINK || p in Parameters(op).items;
      }
      assert |Parameters(Localized(once)).items| == |Parameters(once).items| + 1;
    }
  }

  /** A client can send Accept-Language to the operation. */
  predicate Offers(op: Json)
    requires op.Obj? && Parameters(op).Arr?
  {
    LANGUAGE_LINK in Parameters(op).items || Inline(op)
  }

  predicate Operates(doc: Json, path: string, verb: string) {
    && doc.Obj? && Get(doc, "paths").Obj? && path in Get(doc, "paths").fields
    && Get(doc, "paths").fields[path].Obj? && verb in Get(doc, "paths").fields[path].fields
  }

  function Operation(doc: Json, path: string, verb: string): Json
    requires Operates(doc, path, verb)
  {
    Get(doc, "paths").fields[path].fields[verb]
  }

  lemma ReplacedLink()
    ensures Replaced(LANGUAGE_LINK) == LANGUAGE_LINK
  {
    RefNames();
    assert Replaced(LANGUAGE_LINK).fields == LANGUAGE_LINK.fields;
  }

  lemma ReplacedHeader(p: Json)
    requires IsLanguageHeader(p)
    ensures IsLanguageHeader(Replaced(p))
  {
  }

  lemma ReplacedOffers(op: Json)
    requires op.Obj? && Parameters(op).Arr? && Offers(op)
    ensures Replaced(op).Obj? && Parameters(Replaced(op)).Arr? && Offers(Replaced(op))
  {
    assert Parameters(Replaced(op)) == Replaced(Parameters(op));
    var items, after := Parameters(op).items, Parameters(Replaced(op)).items;
    if LANGUAGE_LINK in items {
      var i :| 0 <= i < |items| && items[i] == LANGUAGE_LINK;
      ReplacedLink();
      assert after[i] == LANGUAGE_LINK;
    } else {
      var i :| 0 <= i < |items| && IsLanguageHeader(items[i]);
      ReplacedHeader(items[i]);
      assert IsLanguageHeader(after[i]);
    }
  }

  /** Every operation of the final document with a parameter list offers Accept-Language, and
      the final document has exactly the operations of the generated one. */
  lemma EveryOperationOffersLanguage(doc: Json, model: Json, description: string, path: string, verb: string)
    requires Shaped(doc) && model.Obj?
    ensures Operates(Customised(doc, model, description), path, verb) <==> Operates(doc, path, verb)
    ensures Operates(doc, path, verb)
            && Operation(doc, path, verb).Obj? && Parameters(Operation(doc, path, verb)).Arr? ==>
            var op := Operation(Customised(doc, model, description), path, verb);
            op.Obj? && Parameters(op).Arr? && Offers(op)
  {
    var doc1 := WithErrorModel(doc, model);
    ErrorModelShape(doc, model);
    var doc2 := WithLanguage(doc1, description);
    LanguageShape(doc1, description);
    var doc3 := Replaced(doc2);
    ReplacedShape(doc2);
    StrippedShape(doc3);
    assert Get(doc1, "paths") == Get(doc, "paths");
    ReplacedGet(doc2, "paths");
    assert Get(Stripped(doc3), "paths") == Get(doc3, "paths");
    if Operates(doc, path, verb) {
      OperationInTheEnd(doc, doc2, Stripped(doc3), path, verb);
    }
  }

  lemma OperationInTheEnd(doc: Json, doc2: Json, doc4: Json, path: string, verb: string)
    requires Shaped(doc) && Shaped(doc4) && Operates(doc, path, verb) && doc2.Obj?
    requires Get(doc2, "paths").Obj? && path in Get(doc2, "paths").fields
    requires Get(doc2, "paths").fields[path] == LocalizedItem(Get(doc, "paths").fields[path])
    requires Get(doc4, "paths") == Replaced(Get(doc2, "paths"))
    ensures Operates(Normalised(doc4), path, verb)
    ensures Operation(doc, path, verb).Obj? && Parameters(Operation(doc, path, verb)).Arr? ==>
            var op := Operation(Normalised(doc4), path, verb);
            op.Obj? && Parameters(op).Arr? && Offers(op)
  {
    var op := Operation(doc, path, verb);
    var item4 := Get(doc4, "paths").fields[path];
    assert item4 == Replaced(LocalizedItem(Get(doc, "paths").fields[path]));
    if op.Obj? && Parameters(op).Arr? {
      assert Offers(Localized(op));
      ReplacedOffers(Localized(op));
      assert item4.fields[verb] == Replaced(Localized(op));
      assert ItemShaped(item4) && OperationShaped(item4.fields[verb]);
      assert Parameters(Reworded(Replaced(Localized(op)))) == Parameters(Replaced(Localized(op)));
    }
  }

  // ----- The final document, entry by entry -----

  /** What an operation of the generated document becomes: the link to the parameter comes first
      unless the list holds the header inline, the default 422 description is reworded, and for the
      rest only stale references are renamed. */
  ghost predicate OperationBecomes(op: Json, after: Json)
    requires op.Obj?
  {
    && after.Obj?
    && (Parameters(op).Arr? ==> Parameters(after).Arr? && ListBecomes(Parameters(op).items, Parameters(after).items))
    && (forall k | k in op.fields && k !in {"parameters", "responses", "$ref"} ::
          k in after.fields && after.fields[k] == Replaced(op.fields[k]))
    && (forall k | k in after.fields :: k in op.fields || k == "parameters")
    && ("responses" in op.fields && op.fields["responses"].Obj? ==>
          "responses" in after.fields && ResponsesBecome(op.fields["responses"], after.fields["responses"]))
  }

  ghost predicate ListBecomes(before: seq<Json>, after: seq<Json>) {
    var rewritten := seq(|before|, i requires 0 <= i < |before| => Replaced(before[i]));
    var link := Obj(map["$ref" := Str("#/components/" + "parameters" + "/" + "AcceptLanguage")]);
    if exists p :: p in before && p.Obj? && "name" in p.fields && p.fields["name"] == Str("Accept-Language")
                   && "in" in p.fields && p.fields["in"] == Str("header")
    then after == rewritten else after == [link] + rewritten
  }

  ghost predicate ResponsesBecome(before: Json, after: Json)
    requires before.Obj?
  {
    && after.Obj? && after.fields.Keys == before.fields.Keys
    && (forall k | k in before.fields && k !in {"422", "$ref"} :: after.fields[k] == Replaced(before.fields[k]))
    && ("422" in before.fields ==>
          var was := before.fields["422"];
          after.fields["422"] ==
            if was.Obj? && "description" in was.fields && was.fields["description"] == Str("Validation Error")
            then With(Replaced(was), "description", Str("Validation failed"))
            else Replaced(was))
  }

  lemma InlineIsWrittenOut(op: Json)
    requires op.Obj? && Parameters(op).Arr?
    ensures Inline(op) <==>
            exists p :: p in Parameters(op).items && p.Obj? && "name" in p.fields
                        && p.fields["name"] == Str("Accept-Language")
                        && "in" in p.fields && p.fields["in"] == Str("header")
  {
    if Inline(op) { var p :| p in Parameters(op).items && IsLanguageHeader(p); }
    forall p | p in Parameters(op).items && p.Obj? && "name" in p.fields && p.fields["name"] == Str("Accept-Language")
               && "in" in p.fields && p.fields["in"] == Str("header") ensures IsLanguageHeader(p) {
    }
  }

  lemma LocalizedList(op: Json)
    requires op.Obj? && Parameters(op).Arr?
    ensures var after := Replaced(Localized(op));
            after.Obj? && Parameters(after).Arr? && ListBecomes(Parameters(op).items, Parameters(after).items)
  {
    var before, after := Parameters(op).items, Replaced(Localized(op));
    InlineIsWrittenOut(op);
    assert Parameters(after) == Replaced(Parameters(Localized(op)));
    if !Inline(op) {
      ReplacedLink();
      assert Parameters(after).items
          == [LANGUAGE_LINK] + seq(|before|, i requires 0 <= i < |before| => Replaced(before[i]));
    }
  }

  lemma RewordedResponses(op: Json)
    requires OperationShaped(op) && op.Obj? && "responses" in op.fields
    ensures OperationShaped(Replaced(op))
    ensures var after := Reworded(Replaced(op));
            && after.Obj? && "responses" in after.fields
            && ResponsesBecome(op.fields["responses"], after.fields["responses"])
  {
    ReplacedOperation(op);
    ReplacedGet(op, "responses");
    var before, middle := op.fields["responses"], Replaced(op.fields["responses"]);
    assert Replaced(op).fields["responses"] == middle;
    if "422" in before.fields { assert middle.fields["422"] == Replaced(before.fields["422"]); }
  }

  lemma OperationFields(op: Json)
    requires OperationShaped(op) && op.Obj?
    ensures OperationShaped(Localized(op)) && OperationShaped(Replaced(Localized(op)))
    ensures var after := Reworded(Replaced(Localized(op)));
            && after.Obj?
            && (forall k | k in op.fields && k !in {"parameters", "responses", "$ref"} ::
                  k in after.fields && after.fields[k] == Replaced(op.fields[k]))
            && (forall k | k in after.fields :: k in op.fields || k == "parameters")
  {
    ReplacedOperation(Localized(op));
  }

  lemma OperationBecame(op: Json)
    requires OperationShaped(op) && op.Obj?
    ensures OperationShaped(Localized(op)) && OperationShaped(Replaced(Localized(op)))
    ensures OperationBecomes(op, Reworded(Replaced(Localized(op))))
  {
    var middle := Replaced(Localized(op));
    OperationFields(op);
    if Parameters(op).Arr? {
      LocalizedList(op);
      assert Parameters(Reworded(middle)) == Parameters(middle);
    }
    if "responses" in op.fields {
      RewordedResponses(Localized(op));
      assert Localized(op).fields["responses"] == op.fields["responses"];
    }
  }

  /** The document just before the descriptions are normalised. */
  function BeforeNormalising(doc: Json, model: Json, description: string): (before: Json)
    requires Shaped(doc) && model.Obj?
    ensures Shaped(before) && Customised(doc, model, description) == Normalised(before)
  {
    ErrorModelShape(doc, model);
    LanguageShape(WithErrorModel(doc, model), description);
    ReplacedShape(WithLanguage(WithErrorModel(doc, model), description));
    StrippedShape(Replaced(WithLanguage(WithErrorModel(doc, model), description)));
    Stripped(Replaced(WithLanguage(WithErrorModel(doc, model), description)))
  }

  lemma PathsBecome(doc: Json, model: Json, description: string, path: string)
    requires Shaped(doc) && model.Obj? && path in Get(doc, "paths").fields
    ensures var before := BeforeNormalising(doc, model, description);
            && before.Obj? && Get(before, "paths").Obj? && path in Get(before, "paths").fields
            && Get(before, "paths").fields[path] == Replaced(LocalizedItem(Get(doc, "paths").fields[path]))
  {
    var doc1 := WithErrorModel(doc, model);
    ErrorModelShape(doc, model);
    var doc2 := WithLanguage(doc1, description);
    LanguageShape(doc1, description);
    ReplacedShape(doc2);
    ReplacedGet(doc2, "paths");
    assert Get(doc1, "paths") == Get(doc, "paths");
    assert Get(Stripped(Replaced(doc2)), "paths") == Get(Replaced(doc2), "paths");
  }

  /** Each operation of the final document is the generated one with the parameter offered, the
      description reworded and stale references renamed, and nothing else changed. */
  lemma OperationsBecome(doc: Json, model: Json, description: string, path: string, verb: string)
    requires Shaped(doc) && model.Obj? && Operates(doc, path, verb) && Operation(doc, path, verb).Obj?
    ensures var final := Customised(doc, model, description);
            Operates(final, path, verb) && OperationBecomes(Operation(doc, path, verb), Operation(final, path, verb))
  {
    PathsBecome(doc, model, description, path);
    var item := Get(doc, "paths").fields[path];
    assert ItemShaped(item) && OperationShaped(item.fields[verb]);
    OperationBecame(item.fields[verb]);
    var before := BeforeNormalising(doc, model, description);
    assert Replaced(LocalizedItem(item)).fields[verb] == Replaced(Localized(item.fields[verb]));
  }

  // ----- and component by component -----

  /** The error model's definitions overwrite same-named schemas; the model itself, without its
      definitions, is stored under its name. */
  function SchemaFor(doc: Json, model: Json, name: string): Option<Json>
    requires Shaped(doc) && model.Obj?
  {
    if name == "ErrorResponse" then Some(Obj(model.fields - {"$defs"}))
    else if "$defs" in model.fields && model.fields["$defs"].Obj? && name in model.fields["$defs"].fields
    then Some(model.fields["$defs"].fields[name])
    else if name in Section(doc, "schemas") then Some(Section(doc, "schemas")[name])
    else None
  }

  lemma SectionReplaced(doc: Json, section: string)
    requires doc.Obj? && Get(doc, "components").Obj? && Get(Get(doc, "components"), section).Obj? && section != "$ref"
    ensures Replaced(doc).Obj? && Get(Replaced(doc), "components").Obj?
    ensures Get(Get(Replaced(doc), "components"), section) == Replaced(Obj(Section(doc, section)))
  {
    ReplacedGet(doc, "components");
    ReplacedGet(Get(doc, "components"), section);
    assert Obj(Section(doc, section)) == Get(Get(doc, "components"), section);
  }

  lemma NormalisedComponents(doc: Json)
    requires Shaped(doc)
    ensures Normalised(doc).Obj? && Get(Normalised(doc), "components") == Get(doc, "components")
  {
  }

  lemma ModelSchema(doc: Json, model: Json, name: string)
    requires Shaped(doc) && model.Obj?
    ensures Shaped(WithErrorModel(doc, model))
    ensures var schemas := Section(WithErrorModel(doc, model), "schemas");
            && (name in schemas <==> SchemaFor(doc, model, name).Some?)
            && (name in schemas ==> schemas[name] == SchemaFor(doc, model, name).value)
  {
    ErrorModelShape(doc, model);
  }

  lemma LanguageSchemas(doc: Json, description: string)
    requires Shaped(doc)
    ensures Shaped(WithLanguage(doc, description))
    ensures Section(WithLanguage(doc, description), "schemas") == Section(doc, "schemas")
    ensures var parameters := Section(WithLanguage(doc, description), "parameters");
            "AcceptLanguage" in parameters && parameters["AcceptLanguage"] == LanguageParameter(description)
  {
    LanguageShape(doc, description);
  }

  lemma StrippedSections(doc: Json)
    requires Shaped(doc)
    ensures Shaped(Stripped(doc))
    ensures Section(Stripped(doc), "schemas") == Section(doc, "schemas") - {"HTTPValidationError"}
    ensures Section(Stripped(doc), "parameters") == Section(doc, "parameters")
  {
    StrippedShape(doc);
  }

  /** Before its descriptions are normalised the document has its final components. */
  lemma ComponentsBecome(doc: Json, model: Json, description: string)
    requires Shaped(doc) && model.Obj?
    ensures Shaped(WithErrorModel(doc, model)) && Shaped(WithLanguage(WithErrorModel(doc, model), description))
    ensures var final, doc2 := Customised(doc, model, description),
                               WithLanguage(WithErrorModel(doc, model), description);
            && final.Obj? && Get(final, "components").Obj? && Get(Get(final, "components"), "schemas").Obj?
            && Get(Get(final, "components"), "parameters").Obj?
            && Section(final, "schemas") == Replaced(Obj(Section(doc2, "schemas"))).fields - {"HTTPValidationError"}
            && Section(final, "parameters") == Replaced(Obj(Section(doc2, "parameters"))).fields
  {
    ErrorModelShape(doc, model);
    var doc2 := WithLanguage(WithErrorModel(doc, model), description);
    LanguageShape(WithErrorModel(doc, model), description);
    ReplacedShape(doc2);
    SectionReplaced(doc2, "schemas");
    SectionReplaced(doc2, "parameters");
    StrippedSections(Replaced(doc2));
    NormalisedComponents(BeforeNormalising(doc, model, description));
  }

  /** The schemas of the final document: those of the generated one and of the error model, with
      stale references renamed and without the default error model. */
  lemma SchemasBecome(doc: Json, model: Json, description: string, name: string)
    requires Shaped(doc) && model.Obj? && name != "$ref"
    ensures var final := Customised(doc, model, description);
            && (Defined(final, "schemas", name) <==>
                  name != "HTTPValidationError" && SchemaFor(doc, model, name).Some?)
            && (Defined(final, "schemas", name) ==>
                  Section(final, "schemas")[name] == Replaced(SchemaFor(doc, model, name).value))
  {
    ComponentsBecome(doc, model, description);
    ModelSchema(doc, model, name);
    LanguageSchemas(WithErrorModel(doc, model), description);
  }

  /** A header parameter Accept-Language with that description. */
  predicate HeaderParameter(p: Json, description: string) {
    && p.Obj? && p.fields.Keys == {"name", "in", "required", "description", "schema"}
    && p.fields["name"] == Str("Accept-Language") && p.fields["in"] == Str("header")
    && p.fields["description"] == Str(description)
  }

  lemma ReplacedParameter(p: Json, description: string)
    requires HeaderParameter(p, description)
    ensures HeaderParameter(Replaced(p), description)
  {
  }

  lemma ParameterIsHeader(description: string)
    ensures HeaderParameter(LanguageParameter(description), description)
  {
  }

  /** The parameter that operations link to is the Accept-Language header. */
  lemma ParameterBecomes(doc: Json, model: Json, description: string)
    requires Shaped(doc) && model.Obj?
    ensures var final := Customised(doc, model, description);
            Defined(final, "parameters", "AcceptLanguage")
            && HeaderParameter(Section(final, "parameters")["AcceptLanguage"], description)
  {
    ComponentsBecome(doc, model, description);
    LanguageSchemas(WithErrorModel(doc, model), description);
    ParameterIsHeader(description);
    ReplacedParameter(LanguageParameter(description), description);
  }
}
