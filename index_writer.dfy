/** The Elasticsearch spell-check / query-suggestion index writer: it localizes
    dictionary documents, hands single and batch updates to the update command
    (supplying a search context from the document when the caller gave none),
    and purges a whole dictionary category of a company with a delete-by-query
    request. */
module SpellCheckIndexWriter {
  import opened Wrappers
  import opened Errors
  import opened Decimal
  import opened Documents

  /** The two dictionary categories (document types of the store). */
  const KEYWORD_QUERY: string := "keywordQuery"
  const SPELL_CHECK: string := "spellCheck"

  /** The messages of the exceptions the two purges throw, spelled as
      thrown (the second one does say "to to"). */
  const QUERY_SUGGESTIONS_FAILURE: string := "Unable to clear query suggestions"
  const SPELL_CHECKS_FAILURE: string := "Unable to to clear spell checks"

  /** A search context: the company (tenant) id, and the request attributes that
      stand for every other setting of a context. */
  datatype Context = Context(companyId: Long, attributes: map<string, string>)

  /** `new SearchContext()`: company id 0, nothing else set. */
  function NewContext(): (r: Context)
    ensures r.companyId == 0 && r.attributes == map[]
  {
    Context(0, map[])
  }

  /** A call received by the update command. The documents are the caller's
      objects, passed by reference. */
  datatype Call =
    | UpdateOne(documentType: Option<string>, context: Option<Context>, document: Document)
    | UpdateMany(documentType: Option<string>, context: Option<Context>, documents: seq<Document>)

  datatype Query = MatchAll

  /** A delete-by-query request as its builder holds it. */
  datatype DeleteByQueryRequest =
    DeleteByQueryRequest(indices: seq<string>, types: seq<string>, query: Option<Query>)

  /** The context an update runs under: the caller's, when there is one;
      otherwise a new context whose company id is `Long.parseLong` of the
      document's company id field, which throws when that field is missing or
      is not a decimal `long`. */
  function ResolveContext(context: Option<Context>, fields: Fields): (r: Result<Context, Exception>)
    ensures context.Some? ==> r == Success(context.value)
    ensures context.None? ==> (r.Success? <==> ParseLong(Value(fields, COMPANY_ID)).Success?)
    ensures context.None? && r.Success? ==>
              r.value == NewContext().(companyId := ParseLong(Value(fields, COMPANY_ID)).value)
    ensures r.Failure? ==> context.None? && r.error == NumberFormatException(Value(fields, COMPANY_ID))
  {
    match context
    case Some(c) => Success(c)
    case None =>
      match ParseLong(Value(fields, COMPANY_ID))
      case Success(id) => Success(NewContext().(companyId := id))
      case Failure(e) => Failure(e)
  }

  /** A document that carries the decimal string of a company id gets a context
      for exactly that company. */
  lemma ResolveContextOfTenant(id: Long, fields: Fields)
    requires Value(fields, COMPANY_ID) == Some(DecimalString(id))
    ensures ResolveContext(None, fields) == Success(NewContext().(companyId := id))
  {
    ParseLongOfDecimalString(id);
  }

  /** A document without a company id field makes the update throw. */
  lemma ResolveContextMissingTenant(fields: Fields)
    requires COMPANY_ID !in fields
    ensures ResolveContext(None, fields) == Failure(NumberFormatException(None))
  {
  }

  /** A company id field that is not a signed decimal makes the update throw,
      carrying the offending text. */
  lemma ResolveContextMalformedTenant(fields: Fields, text: string)
    requires Value(fields, COMPANY_ID) == Some(text) && !IsDecimalSyntax(text)
    ensures ResolveContext(None, fields) == Failure(NumberFormatException(Some(text)))
  {
  }

  /** The company id "42" gives a context for company 42. */
  lemma ResolveContextTenant42()
    ensures ResolveContext(None, map[COMPANY_ID := ["42"]]) == Success(NewContext().(companyId := 42))
  {
    assert DecimalString(42) == "42";
    ResolveContextOfTenant(42, map[COMPANY_ID := ["42"]]);
  }

  /** The request `deleteIndices` submits for a company and a category: one
      index, named by the canonical decimal string of the company id (which
      reads back as that id), the category as the only type, and a match-all
      query with no other filter. */
  function DeleteRequest(companyId: Long, category: string): (r: DeleteByQueryRequest)
    ensures r.indices == [DecimalString(companyId)]
    ensures ParseLong(Some(r.indices[0])) == Success(companyId)
    ensures r.types == [category] && r.query == Some(MatchAll)
  {
    ParseLongOfDecimalString(companyId);
    DeleteByQueryRequest([DecimalString(companyId)], [category], Some(MatchAll))
  }

  /** Purges of different companies or different categories never address the
      same documents. */
  lemma DeleteRequestInjective(a: Long, categoryA: string, b: Long, categoryB: string)
    requires DeleteRequest(a, categoryA) == DeleteRequest(b, categoryB)
    ensures a == b && categoryA == categoryB
  {
  }

  /** A document written without a caller context, whose company id field is
      the decimal string of `id`, is updated under a context whose purge
      request addresses the index named by that same string. */
  lemma TenantScopeAgreement(id: Long, fields: Fields, category: string)
    requires Value(fields, COMPANY_ID) == Some(DecimalString(id))
    ensures ResolveContext(None, fields).Success?
    ensures DeleteRequest(ResolveContext(None, fields).value.companyId, category).indices
            == [Value(fields, COMPANY_ID).value]
  {
    ResolveContextOfTenant(id, fields);
  }

  /** The requests a purge submits: none when the context is null (reading its
      company id throws first), otherwise the one delete request. */
  function PurgeRequests(context: Option<Context>, category: string): (r: seq<DeleteByQueryRequest>)
    ensures context.None? ==> r == []
    ensures context.Some? ==>
              && |r| == 1 && |r[0].indices| == 1
              && ParseLong(Some(r[0].indices[0])) == Success(context.value.companyId)
              && r[0].types == [category] && r[0].query == Some(MatchAll)
  {
    match context
    case None => []
    case Some(c) => [DeleteRequest(c.companyId, category)]
  }

  /** How a purge ends: normally exactly when there is a context and the store
      answers normally; otherwise with a `SearchException` carrying the fixed
      message and, as cause, whatever was thrown. */
  function PurgeOutcome(context: Option<Context>, message: string, response: Outcome<Exception>): (r: Outcome<Exception>)
    ensures r == Pass <==> context.Some? && response == Pass
    ensures r.Fail? ==> r.error.SearchException? && r.error.message == message
    ensures context.None? ==> r == Fail(SearchException(message, NullPointerException))
    ensures context.Some? && response.Fail? ==> r == Fail(SearchException(message, response.error))
  {
    match context
    case None => Fail(SearchException(message, NullPointerException))
    case Some(_) =>
      match response
      case Pass => Pass
      case Fail(e) => Fail(SearchException(message, e))
  }

  /** The two purges differ only in the category and in the message that an
      exception is wrapped with. */
  lemma PurgesDiffer(context: Option<Context>, response: Outcome<Exception>)
    requires context.Some?
    ensures PurgeRequests(context, KEYWORD_QUERY) != PurgeRequests(context, SPELL_CHECK)
    ensures response.Fail? ==>
              PurgeOutcome(context, QUERY_SUGGESTIONS_FAILURE, response)
              != PurgeOutcome(context, SPELL_CHECKS_FAILURE, response)
  {
  }

  /** The update command, seen as the log of the calls it receives. */
  class UpdateDocumentCommand {
    var log: seq<Call>

    constructor ()
      ensures log == []
    {
      log := [];
    }

    method UpdateDocument(documentType: Option<string>, context: Option<Context>, document: Document)
      modifies this
      ensures log == old(log) + [UpdateOne(documentType, context, document)]
    {
      log := log + [UpdateOne(documentType, context, document)];
    }

    method UpdateDocuments(documentType: Option<string>, context: Option<Context>, documents: seq<Document>)
      modifies this
      ensures log == old(log) + [UpdateMany(documentType, context, documents)]
    {
      log := log + [UpdateMany(documentType, context, documents)];
    }
  }

  /** The search-engine client, seen as the log of the delete requests submitted
      to it and the answer the store gives to them. */
  class StoreClient {
    var requests: seq<DeleteByQueryRequest>
    var response: Outcome<Exception>

    constructor (response: Outcome<Exception>)
      ensures requests == [] && this.response == response
    {
      requests := [];
      this.response := response;
    }

    /** Submits the request and waits for the store's answer. */
    method Execute(request: DeleteByQueryRequest) returns (r: Outcome<Exception>)
      modifies this`requests
      ensures requests == old(requests) + [request]
      ensures r == response
    {
      requests := requests + [request];
      r := response;
    }
  }

  /** The index writer the generic spell-check writer is given: every add or
      update goes to the update command, and the per-document deletes do nothing. */
  class IndexWriterAdapter {
    const command: UpdateDocumentCommand

    constructor (command: UpdateDocumentCommand)
      ensures this.command == command
    {
      this.command := command;
    }

    /** What a single-document update has done, ending with `r`: when the
        context resolves, exactly one single-document call was logged, carrying
        the document's type field, the resolved context and the document itself;
        otherwise the resolver's exception was thrown and nothing was logged. */
    twostate predicate UpdatedOne(context: Option<Context>, document: Document, new r: Outcome<Exception>)
      reads this, command, document
      ensures UpdatedOne(context, document, r) ==>
                && |old(command.log)| <= |command.log|
                && command.log[..|old(command.log)|] == old(command.log)
                && (r == Pass <==> |command.log| == |old(command.log)| + 1)
                && (r.Fail? <==> command.log == old(command.log))
      ensures UpdatedOne(context, document, r) && context.Some? ==> r == Pass
      ensures UpdatedOne(context, document, r) && r == Pass ==>
                var call := command.log[|old(command.log)|];
                && call.UpdateOne? && call.document == document
                && call.documentType == Value(document.fields, TYPE)
                && call.context == Some(ResolveContext(context, document.fields).value)
      ensures UpdatedOne(context, document, r) && r.Fail? ==>
                context.None? && r.error == NumberFormatException(Value(document.fields, COMPANY_ID))
    {
      match ResolveContext(context, document.fields)
      case Success(c) =>
        r == Pass && command.log == old(command.log) + [UpdateOne(Value(document.fields, TYPE), Some(c), document)]
      case Failure(e) =>
        r == Fail(e) && command.log == old(command.log)
    }

    /** What a batch update has done, ending with `r`: an empty batch returned
        normally and logged nothing; a non-empty one logged exactly one batch
        call carrying the whole batch, with the type and the fallback context
        taken from its first document alone, or threw the resolver's exception
        and logged nothing. */
    twostate predicate UpdatedMany(context: Option<Context>, documents: seq<Document>, new r: Outcome<Exception>)
      reads this, command, documents
      ensures UpdatedMany(context, documents, r) ==>
                && |old(command.log)| <= |command.log|
                && command.log[..|old(command.log)|] == old(command.log)
                && (r == Pass && documents != [] <==> |command.log| == |old(command.log)| + 1)
      ensures UpdatedMany(context, documents, r) && documents == [] ==>
                r == Pass && command.log == old(command.log)
      ensures UpdatedMany(context, documents, r) && context.Some? ==> r == Pass
      ensures UpdatedMany(context, documents, r) && r == Pass && documents != [] ==>
                var call := command.log[|old(command.log)|];
                && call.UpdateMany? && call.documents == documents
                && call.documentType == Value(documents[0].fields, TYPE)
                && call.context == Some(ResolveContext(context, documents[0].fields).value)
      ensures UpdatedMany(context, documents, r) && r.Fail? ==>
                documents != [] && context.None? && command.log == old(command.log)
                && r.error == NumberFormatException(Value(documents[0].fields, COMPANY_ID))
    {
      if documents == [] then
        r == Pass && command.log == old(command.log)
      else
        match ResolveContext(context, documents[0].fields)
        case Success(c) =>
          r == Pass && command.log == old(command.log) + [UpdateMany(Value(documents[0].fields, TYPE), Some(c), documents)]
        case Failure(e) =>
          r == Fail(e) && command.log == old(command.log)
    }

    method AddDocument(context: Option<Context>, document: Document) returns (r: Outcome<Exception>)
      modifies command
      ensures UpdatedOne(context, document, r)
    {
      r := DoUpdateDocument(context, document);
    }

    method AddDocuments(context: Option<Context>, documents: seq<Document>) returns (r: Outcome<Exception>)
      modifies command
      ensures UpdatedMany(context, documents, r)
    {
      r := DoUpdateDocuments(context, documents);
    }

    method DeleteDocument(context: Option<Context>, uid: string) returns (r: Outcome<Exception>)
      ensures r == Pass
    {
      r := Pass;
    }

    method DeleteDocuments(context: Option<Context>, uids: seq<string>) returns (r: Outcome<Exception>)
      ensures r == Pass
    {
      r := Pass;
    }

    method DeletePortletDocuments(context: Option<Context>, portletId: string) returns (r: Outcome<Exception>)
      ensures r == Pass
    {
      r := Pass;
    }

    method UpdateDocument(context: Option<Context>, document: Document) returns (r: Outcome<Exception>)
      modifies command
      ensures UpdatedOne(context, document, r)
    {
      r := DoUpdateDocument(context, document);
    }

    method UpdateDocuments(context: Option<Context>, documents: seq<Document>) returns (r: Outcome<Exception>)
      modifies command
      ensures UpdatedMany(context, documents, r)
    {
      r := DoUpdateDocuments(context, documents);
    }

    /** One document: exactly one single-document call, with the document's
        type and the resolved context, unless resolving the context throws. */
    method DoUpdateDocument(context: Option<Context>, document: Document) returns (r: Outcome<Exception>)
      modifies command
      ensures UpdatedOne(context, document, r)
    {
      var searchContext := context;
      if searchContext.None? {
        var created := NewContext();
        var companyId := ParseLong(Value(document.fields, COMPANY_ID));
        if companyId.Failure? {
          return Fail(companyId.error);
        }
        created := created.(companyId := companyId.value);
        searchContext := Some(created);
      }
      var documentType := Value(document.fields, TYPE);
      command.UpdateDocument(documentType, searchContext, document);
      r := Pass;
    }

    /** A batch: nothing at all when it is empty; otherwise exactly one batch
        call carrying the whole batch, with the type and (when the caller gave
        no context) the company id of its first document. */
    method DoUpdateDocuments(context: Option<Context>, documents: seq<Document>) returns (r: Outcome<Exception>)
      modifies command
      ensures UpdatedMany(context, documents, r)
    {
      if documents == [] {
        return Pass;
      }
      var document := documents[0];
      var searchContext := context;
      if searchContext.None? {
        var created := NewContext();
        var companyId := ParseLong(Value(document.fields, COMPANY_ID));
        if companyId.Failure? {
          return Fail(companyId.error);
        }
        created := created.(companyId := companyId.value);
        searchContext := Some(created);
      }
      var documentType := Value(document.fields, TYPE);
      command.UpdateDocuments(documentType, searchContext, documents);
      r := Pass;
    }
  }

  /** The writer itself, with its update command and the store client it purges
      through. */
  class ElasticsearchSpellCheckIndexWriter {
    const command: UpdateDocumentCommand
    const client: StoreClient

    constructor (command: UpdateDocumentCommand, client: StoreClient)
      ensures this.command == command && this.client == client
    {
      this.command := command;
      this.client := client;
    }

    /** Purges the query-suggestion dictionary of the context's company. */
    method ClearQuerySuggestionDictionaryIndexes(context: Option<Context>) returns (r: Outcome<Exception>)
      modifies client`requests
      ensures client.requests == old(client.requests) + PurgeRequests(context, KEYWORD_QUERY)
      ensures r == PurgeOutcome(context, QUERY_SUGGESTIONS_FAILURE, client.response)
    {
      var deleted := DeleteIndices(context, KEYWORD_QUERY);
      r := match deleted
        case Pass => Pass
        case Fail(e) => Fail(SearchException(QUERY_SUGGESTIONS_FAILURE, e));
    }

    /** Purges the spell-check dictionary of the context's company. */
    method ClearSpellCheckerDictionaryIndexes(context: Option<Context>) returns (r: Outcome<Exception>)
      modifies client`requests
      ensures client.requests == old(client.requests) + PurgeRequests(context, SPELL_CHECK)
      ensures r == PurgeOutcome(context, SPELL_CHECKS_FAILURE, client.response)
    {
      var deleted := DeleteIndices(context, SPELL_CHECK);
      r := match deleted
        case Pass => Pass
        case Fail(e) => Fail(SearchException(SPELL_CHECKS_FAILURE, e));
    }

    /** Builds the delete-by-query request step by step and submits it; a null
        context throws before anything is submitted. */
    method DeleteIndices(context: Option<Context>, indexType: string) returns (r: Outcome<Exception>)
      modifies client`requests
      ensures client.requests == old(client.requests) + PurgeRequests(context, indexType)
      ensures context.None? ==> r == Fail(NullPointerException)
      ensures context.Some? ==> r == client.response
    {
      if context.None? {
        return Fail(NullPointerException);
      }
      var request := DeleteByQueryRequest([DecimalString(context.value.companyId)], [], None);
      request := request.(query := Some(MatchAll));
      request := request.(types := [indexType]);
      r := client.Execute(request);
    }

    /** Adds one document of the given type, passing the context on as it is. */
    method AddDocument(documentType: string, context: Option<Context>, document: Document)
      modifies command
      ensures command.log == old(command.log) + [UpdateOne(Some(documentType), context, document)]
    {
      command.UpdateDocument(Some(documentType), context, document);
    }

    /** Adds a batch of documents of the given type, passing the context on as it is. */
    method AddDocuments(documentType: string, context: Option<Context>, documents: seq<Document>)
      modifies command
      ensures command.log == old(command.log) + [UpdateMany(Some(documentType), context, documents)]
    {
      command.UpdateDocuments(Some(documentType), context, documents);
    }

    /** Localizes the document the base builder produced, in place, and returns
        it: the language field and the generic keyword field are removed and the
        keyword text is stored under the localized name of the keyword field. */
    method CreateDocument(
      base: Document, languageId: string, keywords: string, keywordFieldName: string,
      localize: (string, string) -> string) returns (document: Document)
      modifies base
      ensures document == base
      ensures document.fields == Localize(old(base.fields), languageId, keywords, keywordFieldName, localize)
    {
      document := base;
      document.Remove(LANGUAGE_ID);
      document.Remove(keywordFieldName);
      var localizedName := localize(languageId, keywordFieldName);
      document.AddKeyword(localizedName, keywords);
    }
  }
}
