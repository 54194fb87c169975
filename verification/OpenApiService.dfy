/** custom_openapi as it runs: the document is rewritten step by step, looping over its path
    items and operations, and the finished document is kept. */
module OpenApiService {
  import opened Domain
  import opened OpenApi

  /** The document under construction. */
  class Document {
    var schema: Json

    constructor (generated: Json)
      ensures schema == generated
    {
      schema := generated;
    }

    method InjectErrorResponseSchema(model: Json)
      requires Shaped(schema) && model.Obj?
      modifies this
      ensures schema == WithErrorModel(old(schema), model)
    {
      var components := Section(schema, "schemas");
      var defs := Definitions(model);
      var todo := defs.Keys;
      while todo != {}
        invariant todo <= defs.Keys
        invariant components == Section(old(schema), "schemas") + (defs - todo)
        invariant schema == old(schema)
      {
        var name :| name in todo;
        components := components[name := defs[name]];
        todo := todo - {name};
      }
      assert defs - todo == defs;
      components := components["ErrorResponse" := Body(model)];
      schema := WithSection(schema, "schemas", components);
    }

    method InjectAcceptLanguageParameter(description: string)
      requires Shaped(schema)
      modifies this
      ensures schema == WithLanguage(old(schema), description)
    {
      var components := Section(schema, "parameters")["AcceptLanguage" := LanguageParameter(description)];
      schema := WithSection(schema, "parameters", components);
      ghost var doc1 := schema;
      var paths := Get(schema, "paths").fields;
      var todo := paths.Keys;
      ghost var items := paths;
      while todo != {}
        invariant todo <= items.Keys && paths.Keys == items.Keys
        invariant forall p | p in items :: paths[p] == if p in todo then items[p] else LocalizedItem(items[p])
        invariant schema == doc1
      {
        var p :| p in todo;
        var item := LocalizeItem(paths[p]);
        paths := paths[p := item];
        todo := todo - {p};
      }
      assert paths == map p | p in items :: LocalizedItem(items[p]);
      schema := WithPaths(schema, paths);
    }

    method NormalizeDescriptions()
      requires Shaped(schema)
      modifies this
      ensures schema == Normalised(old(schema))
    {
      var paths := Get(schema, "paths").fields;
      var todo := paths.Keys;
      ghost var items := paths;
      while todo != {}
        invariant todo <= items.Keys && paths.Keys == items.Keys
        invariant forall p | p in items :: paths[p] == if p in todo then items[p] else RewordedItem(items[p])
        invariant schema == old(schema)
      {
        var p :| p in todo;
        var item := RewordItem(paths[p]);
        paths := paths[p := item];
        todo := todo - {p};
      }
      assert paths == map p | p in items :: RewordedItem(items[p]);
      schema := WithPaths(schema, paths);
    }
  }

  method LocalizeItem(item: Json) returns (r: Json)
    ensures r == LocalizedItem(item)
  {
    if !item.Obj? { return item; }
    var operations := item.fields;
    var todo := operations.Keys;
    while todo != {}
      invariant todo <= item.fields.Keys && operations.Keys == item.fields.Keys
      invariant forall k | k in operations ::
          operations[k] == if k in todo then item.fields[k] else Localized(item.fields[k])
    {
      var k :| k in todo;
      var operation := operations[k];
      todo := todo - {k};
      if operation.Obj? && Parameters(operation).Arr? {
        var parameters := Parameters(operation).items;
        var alreadyPresent := exists i | 0 <= i < |parameters| :: IsLanguageHeader(parameters[i]);
        if !alreadyPresent {
          operations := operations[k := With(operation, "parameters", Arr([LANGUAGE_LINK] + parameters))];
        }
      }
    }
    r := Obj(operations);
  }

  method RewordItem(item: Json) returns (r: Json)
    requires ItemShaped(item)
    ensures r == RewordedItem(item)
  {
    var operations := item.fields;
    var todo := operations.Keys;
    while todo != {}
      invariant todo <= item.fields.Keys && operations.Keys == item.fields.Keys
      invariant forall k | k in operations ::
          operations[k] == if k in todo then item.fields[k] else Reworded(item.fields[k])
    {
      var k :| k in todo;
      todo := todo - {k};
      var operation := operations[k];
      assert OperationShaped(operation);
      if operation.Obj? && "422" in Get(operation, "responses").fields {
        var response422 := Get(operation, "responses").fields["422"];
        if DefaultDescription(response422) {
          response422 := With(response422, "description", Str("Validation failed"));
          var responses := With(Get(operation, "responses"), "422", response422);
          operations := operations[k := With(operation, "responses", responses)];
        }
      }
    }
    r := Obj(operations);
  }

  /** The application object, whose openapi_schema is filled on the first request. */
  class Application {
    var openapiSchema: Option<Json>

    /** The pipeline runs once; later calls return the kept document whatever they are given. */
    method CustomOpenApi(generated: Json, model: Json, description: string) returns (schema: Json)
      requires Shaped(generated) && model.Obj?
      modifies this
      ensures schema == if old(openapiSchema).Some? then old(openapiSchema).value
                        else Customised(generated, model, description)
      ensures openapiSchema == Some(schema)
    {
      if openapiSchema.Some? { return openapiSchema.value; }
      var document := new Document(generated);
      document.InjectErrorResponseSchema(model);
      ErrorModelShape(generated, model);
      document.InjectAcceptLanguageParameter(description);
      LanguageShape(WithErrorModel(generated, model), description);
      ReplacedShape(document.schema);
      document.schema := Replaced(document.schema);
      StrippedShape(document.schema);
      document.schema := Stripped(document.schema);
      document.NormalizeDescriptions();
      schema := document.schema;
      openapiSchema := Some(schema);
    }
  }
}
