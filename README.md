# Elasticsearch spell-check index writer, modelled in Dafny

This project models `ElasticsearchSpellCheckIndexWriter`. It is the Liferay component that
writes spell-check and query-suggestion dictionary entries into Elasticsearch. The model covers
three of its jobs:

- **Localizing a dictionary document** (`createDocument`). The base builder produces the
  document. The writer then removes the bare language field and the generic keyword field, and
  stores the keyword text under the localized name of the keyword field.
- **Dispatching updates** (the inner index-writer adapter). Single and batch adds and updates go
  to the update command. When the caller passes a null search context, the writer makes a new
  context whose company id is `Long.parseLong` of the document's company id field. The category
  is read from the document's type field. An empty batch does nothing. A non-empty batch is routed
  using only its first document.
- **Purging a dictionary category** (`clearQuerySuggestionDictionaryIndexes`,
  `clearSpellCheckerDictionaryIndexes`, `deleteIndices`). Each purge submits one
  delete-by-query request. The request addresses the company's index (the decimal string of the
  company id), names the category as its only type, and uses a match-all query. Any exception is
  wrapped in a `SearchException` with a fixed message.

Files:

- `wrappers.dfy`: `Option` (a Java `null`), `Result` and `Outcome` (a call that returns
  normally or throws).
- `errors.dfy`: the exceptions involved.
- `decimal.dfy`: Java's 64-bit `long`, with `Long.parseLong` (an optional sign, ASCII digits,
  a range check) and `String.valueOf(long)`. It proves that parsing the printed form gives back
  the value.
- `documents.dfy`: a document as a map from field name to values. It has a `Document` class
  that is changed in place, and `Localize`, the field edit of `createDocument` as a function.
- `index_writer.dfy`: the search context, the update command (a log of the calls it receives),
  the store client (a log of submitted delete requests plus the store's answer), the adapter and
  the writer.

The update command and the store client are outside this component, so each is modelled
as a recorder. The methods that change state are proved against specification functions.
`ResolveContext` specifies the update paths, through the two-state predicates `UpdatedOne` and
`UpdatedMany` that all the adapter's update methods ensure. `PurgeRequests` and `PurgeOutcome` specify the
purges. `Localize` specifies `createDocument`. Lemmas state the properties of these functions.

Three behaviours of the code are easy to misread:

- A document with no type field is not refused. The absent (null) type is passed to the update
  command.
- The `NumberFormatException` from `Long.parseLong` is not wrapped in a `SearchException`.
  It is thrown to the caller as it is.
- A null context passed to a purge makes `searchContext.getCompanyId()` throw a
  `NullPointerException`. That exception is wrapped like any other, and no request is submitted.

The values of the field names (`companyId`, `languageId`, `type`) and of the categories
(`keywordQuery`, `spellCheck`) are Liferay's `Field` and `DocumentTypes` constants. Those
classes are not part of this model. No proof depends on the particular strings, except that the
two categories differ.

## Model

| member | source | states |
|---|---|---|
| Decimal.ParseLong | webs/elasticsearch-web/docroot/WEB-INF/src/com/liferay/portal/search/elasticsearch/ElasticsearchSpellCheckIndexWriter.java:204 | `Long.parseLong` succeeds only on an optional sign followed by at least one digit; every failure is a `NumberFormatException` that carries the input (null included); with `DecimalSyntaxShape` and `ParseLongPadded` its value on every such string is fixed |
| Decimal.DecimalString | webs/elasticsearch-web/docroot/WEB-INF/src/com/liferay/portal/search/elasticsearch/ElasticsearchSpellCheckIndexWriter.java:128-129 | `String.valueOf(long)` is never empty, starts with `-` exactly for negative values, and is otherwise all digits, with no leading zero except for 0 itself |
| Decimal.DigitsValueOfNatToDigits | webs/elasticsearch-web/docroot/WEB-INF/src/com/liferay/portal/search/elasticsearch/ElasticsearchSpellCheckIndexWriter.java:128-129 | reading back the printed digits of a natural number gives the number |
| Decimal.ParseLongOfDecimalString | webs/elasticsearch-web/docroot/WEB-INF/src/com/liferay/portal/search/elasticsearch/ElasticsearchSpellCheckIndexWriter.java:204 | parsing the decimal string of any `long` gives it back; the decimal string of an integer outside the `long` range is refused |
| Decimal.ParseLongPlusSign | webs/elasticsearch-web/docroot/WEB-INF/src/com/liferay/portal/search/elasticsearch/ElasticsearchSpellCheckIndexWriter.java:228 | a leading `+` is accepted and changes nothing, within the `long` range |
| Decimal.ParseLongSigned | webs/elasticsearch-web/docroot/WEB-INF/src/com/liferay/portal/search/elasticsearch/ElasticsearchSpellCheckIndexWriter.java:204 | an optional sign followed by a non-empty digit string parses to the signed value of the digits when that fits in a `long`, and throws `NumberFormatException` otherwise |
| Decimal.ParseLongPadded | webs/elasticsearch-web/docroot/WEB-INF/src/com/liferay/portal/search/elasticsearch/ElasticsearchSpellCheckIndexWriter.java:228 | a sign (or none), any number of leading zeros and the digits of `m` parse to `m` or `-m` when in range (so "007", "+007" and "-0" give 7, 7 and 0), and throw `NumberFormatException` otherwise |
| Decimal.DecimalSyntaxShape | webs/elasticsearch-web/docroot/WEB-INF/src/com/liferay/portal/search/elasticsearch/ElasticsearchSpellCheckIndexWriter.java:204 | every string of the parser's syntax is a sign (or none), zeros and the canonical digits of a natural number, so `ParseLongPadded` covers all of them |
| Decimal.NatToDigitsOfDigitsValue | webs/elasticsearch-web/docroot/WEB-INF/src/com/liferay/portal/search/elasticsearch/ElasticsearchSpellCheckIndexWriter.java:128-129 | a digit string with no leading zero is the printed form of its own value |
| Decimal.DecimalStringInjective | webs/elasticsearch-web/docroot/WEB-INF/src/com/liferay/portal/search/elasticsearch/ElasticsearchSpellCheckIndexWriter.java:128-129 | different company ids give different index names |
| Documents.Value | webs/elasticsearch-web/docroot/WEB-INF/src/com/liferay/portal/search/elasticsearch/ElasticsearchSpellCheckIndexWriter.java:204 | `document.get(name)` yields the field's first value when the field exists and holds one, and null otherwise (also read at :209, :228 and :233) |
| Documents.Localize | webs/elasticsearch-web/docroot/WEB-INF/src/com/liferay/portal/search/elasticsearch/ElasticsearchSpellCheckIndexWriter.java:104-116 | the result maps the localized name to exactly the keyword text; it has no language field and no generic keyword field whenever the localized name differs from each; its keys are the base keys minus those two plus the localized one; every other field keeps its base value, and no other field is added |
| Documents.Document.Remove | webs/elasticsearch-web/docroot/WEB-INF/src/com/liferay/portal/search/elasticsearch/ElasticsearchSpellCheckIndexWriter.java:108-109 | removing a field drops exactly that key and keeps the rest |
| Documents.Document.AddKeyword | webs/elasticsearch-web/docroot/WEB-INF/src/com/liferay/portal/search/elasticsearch/ElasticsearchSpellCheckIndexWriter.java:114 | adding a keyword makes the field hold exactly that one value and keeps the rest |
| SpellCheckIndexWriter.NewContext | webs/elasticsearch-web/docroot/WEB-INF/src/com/liferay/portal/search/elasticsearch/ElasticsearchSpellCheckIndexWriter.java:202 | `new SearchContext()` has company id 0 and no other setting (also at :226) |
| SpellCheckIndexWriter.ResolveContext | webs/elasticsearch-web/docroot/WEB-INF/src/com/liferay/portal/search/elasticsearch/ElasticsearchSpellCheckIndexWriter.java:201-207 | a non-null context is used unchanged; a null one is replaced by a new context whose company id is the parsed company id field, and resolution fails (only then) with the parser's exception |
| SpellCheckIndexWriter.ResolveContextOfTenant | webs/elasticsearch-web/docroot/WEB-INF/src/com/liferay/portal/search/elasticsearch/ElasticsearchSpellCheckIndexWriter.java:204-206 | a company id field holding the decimal string of `id` yields a context for exactly `id` |
| SpellCheckIndexWriter.ResolveContextMissingTenant | webs/elasticsearch-web/docroot/WEB-INF/src/com/liferay/portal/search/elasticsearch/ElasticsearchSpellCheckIndexWriter.java:204 | a document without a company id field makes the fallback throw `NumberFormatException` for null |
| SpellCheckIndexWriter.ResolveContextMalformedTenant | webs/elasticsearch-web/docroot/WEB-INF/src/com/liferay/portal/search/elasticsearch/ElasticsearchSpellCheckIndexWriter.java:228 | a company id field that is not a signed decimal makes the fallback throw, carrying that text |
| SpellCheckIndexWriter.ResolveContextTenant42 | webs/elasticsearch-web/docroot/WEB-INF/src/com/liferay/portal/search/elasticsearch/ElasticsearchSpellCheckIndexWriter.java:201-207 | the company id "42" gives a new context for company 42 |
| SpellCheckIndexWriter.DeleteRequest | webs/elasticsearch-web/docroot/WEB-INF/src/com/liferay/portal/search/elasticsearch/ElasticsearchSpellCheckIndexWriter.java:127-132 | the request names one index, the canonical decimal string of the company id, which parses back to that id; its only type is the category; its query is match-all |
| SpellCheckIndexWriter.DeleteRequestInjective | webs/elasticsearch-web/docroot/WEB-INF/src/com/liferay/portal/search/elasticsearch/ElasticsearchSpellCheckIndexWriter.java:127-132 | purges of different companies or categories address different index/type pairs |
| SpellCheckIndexWriter.TenantScopeAgreement | webs/elasticsearch-web/docroot/WEB-INF/src/com/liferay/portal/search/elasticsearch/ElasticsearchSpellCheckIndexWriter.java:225-230 | a document updated without a context, whose company id field is the decimal string of an id, gets a context whose purge addresses the index named by that same string |
| SpellCheckIndexWriter.PurgeRequests | webs/elasticsearch-web/docroot/WEB-INF/src/com/liferay/portal/search/elasticsearch/ElasticsearchSpellCheckIndexWriter.java:119-141 | a null context submits nothing; otherwise exactly one request, whose one index parses back to the context's company id, whose only type is the category and whose query is match-all |
| SpellCheckIndexWriter.PurgeOutcome | webs/elasticsearch-web/docroot/WEB-INF/src/com/liferay/portal/search/elasticsearch/ElasticsearchSpellCheckIndexWriter.java:53-58 | a purge returns normally exactly when there is a context and the store answers normally; otherwise it throws a `SearchException` with the fixed message, whose cause is the `NullPointerException` or the store's exception |
| SpellCheckIndexWriter.PurgesDiffer | webs/elasticsearch-web/docroot/WEB-INF/src/com/liferay/portal/search/elasticsearch/ElasticsearchSpellCheckIndexWriter.java:49-71 | the two purges submit different requests (different categories) and wrap failures with different messages |
| SpellCheckIndexWriter.UpdateDocumentCommand.UpdateDocument | webs/elasticsearch-web/docroot/WEB-INF/src/com/liferay/portal/search/elasticsearch/ElasticsearchSpellCheckIndexWriter.java:211-212 | the command records exactly one single-document call with the given type, context and document |
| SpellCheckIndexWriter.UpdateDocumentCommand.UpdateDocuments | webs/elasticsearch-web/docroot/WEB-INF/src/com/liferay/portal/search/elasticsearch/ElasticsearchSpellCheckIndexWriter.java:235-236 | the command records exactly one batch call with the given type, context and documents |
| SpellCheckIndexWriter.StoreClient.Execute | webs/elasticsearch-web/docroot/WEB-INF/src/com/liferay/portal/search/elasticsearch/ElasticsearchSpellCheckIndexWriter.java:134-138 | submitting records exactly the request and returns the store's answer |
| SpellCheckIndexWriter.IndexWriterAdapter.UpdatedOne | webs/elasticsearch-web/docroot/WEB-INF/src/com/liferay/portal/search/elasticsearch/ElasticsearchSpellCheckIndexWriter.java:197-213 | after a single update the old log is kept as a prefix; exactly one call is added on a normal return and none on an exception; a non-null context always returns normally; the added call carries the document, its type field and the resolved context; the only exception is the parser's, for a null context |
| SpellCheckIndexWriter.IndexWriterAdapter.UpdatedMany | webs/elasticsearch-web/docroot/WEB-INF/src/com/liferay/portal/search/elasticsearch/ElasticsearchSpellCheckIndexWriter.java:215-237 | after a batch update the old log is kept as a prefix; an empty batch adds nothing and returns normally; a non-empty one adds exactly one batch call on a normal return, carrying the whole batch, the first document's type field and the context resolved from the first document; the only exception is the parser's, for a null context, and then nothing is added |
| SpellCheckIndexWriter.IndexWriterAdapter.AddDocument | webs/elasticsearch-web/docroot/WEB-INF/src/com/liferay/portal/search/elasticsearch/ElasticsearchSpellCheckIndexWriter.java:151-156 | the same effect as `DoUpdateDocument` |
| SpellCheckIndexWriter.IndexWriterAdapter.AddDocuments | webs/elasticsearch-web/docroot/WEB-INF/src/com/liferay/portal/search/elasticsearch/ElasticsearchSpellCheckIndexWriter.java:158-164 | the same effect as `DoUpdateDocuments` |
| SpellCheckIndexWriter.IndexWriterAdapter.DeleteDocument | webs/elasticsearch-web/docroot/WEB-INF/src/com/liferay/portal/search/elasticsearch/ElasticsearchSpellCheckIndexWriter.java:166-169 | returns normally and changes nothing |
| SpellCheckIndexWriter.IndexWriterAdapter.DeleteDocuments | webs/elasticsearch-web/docroot/WEB-INF/src/com/liferay/portal/search/elasticsearch/ElasticsearchSpellCheckIndexWriter.java:171-174 | returns normally and changes nothing |
| SpellCheckIndexWriter.IndexWriterAdapter.DeletePortletDocuments | webs/elasticsearch-web/docroot/WEB-INF/src/com/liferay/portal/search/elasticsearch/ElasticsearchSpellCheckIndexWriter.java:176-179 | returns normally and changes nothing |
| SpellCheckIndexWriter.IndexWriterAdapter.UpdateDocument | webs/elasticsearch-web/docroot/WEB-INF/src/com/liferay/portal/search/elasticsearch/ElasticsearchSpellCheckIndexWriter.java:181-187 | the same effect as `DoUpdateDocument` (and so as `AddDocument`) |
| SpellCheckIndexWriter.IndexWriterAdapter.UpdateDocuments | webs/elasticsearch-web/docroot/WEB-INF/src/com/liferay/portal/search/elasticsearch/ElasticsearchSpellCheckIndexWriter.java:189-195 | the same effect as `DoUpdateDocuments` (and so as `AddDocuments`) |
| SpellCheckIndexWriter.IndexWriterAdapter.DoUpdateDocument | webs/elasticsearch-web/docroot/WEB-INF/src/com/liferay/portal/search/elasticsearch/ElasticsearchSpellCheckIndexWriter.java:197-213 | when the context resolves, exactly one single-document call is logged, with the document's type field, the resolved context and the document itself; when it does not, the parser's exception is thrown and nothing is logged |
| SpellCheckIndexWriter.IndexWriterAdapter.DoUpdateDocuments | webs/elasticsearch-web/docroot/WEB-INF/src/com/liferay/portal/search/elasticsearch/ElasticsearchSpellCheckIndexWriter.java:215-237 | an empty batch returns normally and logs nothing; a non-empty one logs exactly one batch call carrying the whole batch, with the type and the fallback context of its first document, or throws the parser's exception and logs nothing |
| SpellCheckIndexWriter.ElasticsearchSpellCheckIndexWriter.ClearQuerySuggestionDictionaryIndexes | webs/elasticsearch-web/docroot/WEB-INF/src/com/liferay/portal/search/elasticsearch/ElasticsearchSpellCheckIndexWriter.java:48-59 | submits the purge requests of the keyword-query category and ends as `PurgeOutcome` with "Unable to clear query suggestions" |
| SpellCheckIndexWriter.ElasticsearchSpellCheckIndexWriter.ClearSpellCheckerDictionaryIndexes | webs/elasticsearch-web/docroot/WEB-INF/src/com/liferay/portal/search/elasticsearch/ElasticsearchSpellCheckIndexWriter.java:61-71 | submits the purge requests of the spell-check category and ends as `PurgeOutcome` with "Unable to to clear spell checks" |
| SpellCheckIndexWriter.ElasticsearchSpellCheckIndexWriter.DeleteIndices | webs/elasticsearch-web/docroot/WEB-INF/src/com/liferay/portal/search/elasticsearch/ElasticsearchSpellCheckIndexWriter.java:119-141 | with a context, submits exactly the delete request for its company and the category and returns the store's answer; with a null context, throws `NullPointerException` and submits nothing |
| SpellCheckIndexWriter.ElasticsearchSpellCheckIndexWriter.AddDocument | webs/elasticsearch-web/docroot/WEB-INF/src/com/liferay/portal/search/elasticsearch/ElasticsearchSpellCheckIndexWriter.java:80-86 | passes the type, the context (null included) and the document to the command unchanged |
| SpellCheckIndexWriter.ElasticsearchSpellCheckIndexWriter.AddDocuments | webs/elasticsearch-web/docroot/WEB-INF/src/com/liferay/portal/search/elasticsearch/ElasticsearchSpellCheckIndexWriter.java:88-95 | passes the type, the context (null included) and the documents to the command unchanged |
| SpellCheckIndexWriter.ElasticsearchSpellCheckIndexWriter.CreateDocument | webs/elasticsearch-web/docroot/WEB-INF/src/com/liferay/portal/search/elasticsearch/ElasticsearchSpellCheckIndexWriter.java:97-117 | changes the base document in place into `Localize` of its old contents and returns that same object |

## Left out

- `super.createDocument` (n-gram fields, the `float` weight, company and group ids) is library
  code outside this class. The document it builds is an input of `CreateDocument`. The arguments
  that only reach it (company id, group id, weight, type value, maximum n-gram length) are
  therefore not parameters.
- `DocumentImpl.getLocalizedName` is library code outside this class. It is the function parameter `localize`, which
  is deterministic by construction. That different language ids give different names cannot be
  stated without its body.
- `Document.get` is library code outside this class as well. It is modelled as the field's first value, or null when
  the field is missing or empty. If the real method returns an empty string for a missing field,
  the parse still fails, but a missing type would be passed on as "" rather than null.
- Decimal.ParseLong: accepts only the ASCII digits `0`-`9`. Java's parser also accepts other
  Unicode decimal digits.
- The Elasticsearch client, the connection-manager singleton, `execute` and the blocking
  `Future.get()` are network I/O and asynchronous waiting. The store client is modelled as a
  recorder whose answer is fixed in advance.
- SpellCheckIndexWriter.ElasticsearchSpellCheckIndexWriter.DeleteIndices: does not tell apart a
  failure before submission from a failure (or an interruption) while waiting. With a context,
  the request is always recorded and the store's answer is returned.
- That a repeated purge of an empty category succeeds is the store's behaviour. The model only
  shows that each purge submits the same request and returns the store's answer.
- `LogUtil.logActionResponse` and the static logger only write logs. Any exception they throw
  counts as part of the store's answer.
- The internals of `ElasticsearchUpdateDocumentCommand` are outside this component. It is modelled only as
  the log of calls it receives.
- SpellCheckIndexWriter.IndexWriterAdapter.DoUpdateDocument: does not model a
  `SearchException` thrown by the update command itself. Such an exception would reach the
  caller after the call was made.
- SpellCheckIndexWriter.IndexWriterAdapter.DoUpdateDocuments: same as above. A batch is a
  sequence, and its first element stands for the collection iterator's first document.
- A null document or a null collection, which would throw `NullPointerException`, is not
  modelled.
- A caller's context is a value here, so the model does not show aliasing of a context shared with
  the caller.
- `afterPropertiesSet` and `setElasticsearchUpdateDocumentCommand` are wiring. The adapter and
  the writer receive the command and the client through their constructors.
- Thread safety, and ordering between purges and updates, are not implemented by the component,
  so they are not modelled.
