/** The vector-search retriever tool: construction-time validation
    (`_validate_tool_inputs`) and the query path (`execute`).

    Every external service is an input: the index lookup, the text-column and
    return-column validators and the default description are fields of
    `Collaborators`; the embedding call is a field of `EmbeddingClient`; the
    similarity search and the response parser are parameters of `Execute`.
    Their rules are not modelled, only how this adapter combines their results. */
module Retriever {
  import opened Wrappers
  import opened Strings
  import opened ToolName

  /** One component of an embedding vector (a float in the source). */
  type EmbeddingValue
  /** A relevance score attached to a document by the index (a float). */
  type Score
  /** A retrieved document (a dictionary from column name to value). */
  type Document
  /** The filter expression forwarded to the index. */
  type Filters
  /** The raw response of a similarity search. */
  type SearchResponse
  /** What the index reports about itself beyond the two facts below
      (available columns, index type, ...). */
  type IndexMetadata

  datatype Error =
    | MalformedIndexName(indexName: string)
    | MissingEmbeddingModel
    | MissingApiKey
    | EmbeddingDimensionMismatch(expected: int, actual: nat)
      /** Raised by an external service and propagated unchanged. */
    | External(message: string)

  /** What this adapter reads of an index's details: whether the index computes
      embeddings itself, and the declared `embedding_dimension`, if any. */
  datatype IndexDetails = IndexDetails(
    managedEmbeddings: bool,
    embeddingDimension: Option<int>,
    metadata: IndexMetadata)

  /** The user-supplied configuration, before validation. */
  datatype ToolConfig = ToolConfig(
    indexName: string,
    textColumn: Option<string>,
    embeddingModelName: Option<string>,
    columns: Option<seq<string>>,
    numResults: int,
    filters: Option<Filters>,
    queryType: Option<string>,
    toolName: Option<string>,
    toolDescription: Option<string>)

  /** The external services consulted while validating. */
  datatype Collaborators = Collaborators(
    getIndex: string -> Result<IndexDetails, Error>,
    validateTextColumn: (Option<string>, IndexDetails) -> Result<Option<string>, Error>,
    validateReturnColumns: (seq<string>, Option<string>, IndexDetails) -> Result<seq<string>, Error>,
    defaultDescription: IndexDetails -> string,
    /** The serving-endpoint lookup of the embedding model: `Success(true)` when
        the endpoint exists, `Success(false)` when it does not exist, and
        `Failure` for every other error. */
    lookupEndpoint: Option<string> -> Result<bool, Error>)

  /** A validated, ready-to-use tool. */
  datatype RetrieverTool = RetrieverTool(
    indexName: string,
    details: IndexDetails,
    textColumn: Option<string>,
    columns: seq<string>,
    embeddingModelName: Option<string>,
    numResults: int,
    filters: Option<Filters>,
    queryType: Option<string>,
    toolName: string,
    toolDescription: string,
    /** The embedding endpoint listed among the tool's resources, if any. */
    resourceEndpoint: Option<string>)

  /** `_validate_tool_inputs`: the index-name shape is checked before the index
      is looked up, then the columns are resolved, then the embedding model is
      required for an index without managed embeddings, and last the embedding
      model is looked up as a serving endpoint. A missing endpoint only leaves it
      out of the resources. Any other lookup error fails construction. */
  function Validate(config: ToolConfig, services: Collaborators): (r: Result<RetrieverTool, Error>)
    ensures !ValidIndexName(config.indexName) ==> r == Failure(MalformedIndexName(config.indexName))
    ensures r.Success? ==> ValidIndexName(config.indexName)
    ensures r.Success? ==> r.value.details.managedEmbeddings || Present(r.value.embeddingModelName)
    ensures r.Success? ==> |r.value.toolName| <= MaxToolNameLength
    ensures r.Success? ==> r.value.toolName == GetToolName(config.toolName, config.indexName)
    ensures r.Success? ==>
      && r.value.indexName == config.indexName
      && r.value.embeddingModelName == config.embeddingModelName
      && r.value.numResults == config.numResults
      && r.value.filters == config.filters
      && r.value.queryType == config.queryType
    ensures r.Success? ==>
      && services.getIndex(config.indexName) == Success(r.value.details)
      && services.validateTextColumn(config.textColumn, r.value.details) == Success(r.value.textColumn)
      && services.validateReturnColumns(config.columns.ValueOr([]), r.value.textColumn, r.value.details)
         == Success(r.value.columns)
      && r.value.toolDescription ==
         (if Present(config.toolDescription) then config.toolDescription.value
          else services.defaultDescription(r.value.details))
      && services.lookupEndpoint(config.embeddingModelName).Success?
      && r.value.resourceEndpoint ==
         (if services.lookupEndpoint(config.embeddingModelName).value then config.embeddingModelName else None)
    // An error of an external service is the construction's error, unchanged.
    ensures ValidIndexName(config.indexName) && services.getIndex(config.indexName).Failure? ==>
      r == Failure(services.getIndex(config.indexName).error)
    ensures ValidIndexName(config.indexName) && services.getIndex(config.indexName).Success? ==>
      var details := services.getIndex(config.indexName).value;
      var text := services.validateTextColumn(config.textColumn, details);
      && (text.Failure? ==> r == Failure(text.error))
      && (text.Success? ==>
            var columns := services.validateReturnColumns(config.columns.ValueOr([]), text.value, details);
            && (columns.Failure? ==> r == Failure(columns.error))
            && (columns.Success? && (details.managedEmbeddings || Present(config.embeddingModelName))
                && services.lookupEndpoint(config.embeddingModelName).Failure? ==>
                  r == Failure(services.lookupEndpoint(config.embeddingModelName).error)))
  {
    if !ValidIndexName(config.indexName) then
      Failure(MalformedIndexName(config.indexName))
    else
      var details :- services.getIndex(config.indexName);
      var textColumn :- services.validateTextColumn(config.textColumn, details);
      var columns :- services.validateReturnColumns(config.columns.ValueOr([]), textColumn, details);
      if !details.managedEmbeddings && !Present(config.embeddingModelName) then
        Failure(MissingEmbeddingModel)
      else
        var description :=
          if Present(config.toolDescription) then config.toolDescription.value
          else services.defaultDescription(details);
        var endpointExists :- services.lookupEndpoint(config.embeddingModelName);
        var resourceEndpoint := if endpointExists then config.embeddingModelName else None;
        Success(RetrieverTool(
          config.indexName, details, textColumn, columns, config.embeddingModelName,
          config.numResults, config.filters, config.queryType,
          GetToolName(config.toolName, config.indexName), description, resourceEndpoint))
  }

  /** Construction succeeds exactly when the index name has three pieces, the
      index lookup and both column validators succeed, a self-managed index has
      a model name, and the endpoint lookup does not fail. */
  lemma ValidateSucceedsIff(config: ToolConfig, services: Collaborators)
    ensures Validate(config, services).Success? <==>
      && ValidIndexName(config.indexName)
      && services.getIndex(config.indexName).Success?
      && var details := services.getIndex(config.indexName).value;
         && services.validateTextColumn(config.textColumn, details).Success?
         && var textColumn := services.validateTextColumn(config.textColumn, details).value;
            && services.validateReturnColumns(config.columns.ValueOr([]), textColumn, details).Success?
            && (details.managedEmbeddings || Present(config.embeddingModelName))
            && services.lookupEndpoint(config.embeddingModelName).Success?
  {
  }

  /** An index without managed embeddings and a missing or empty model name is
      rejected with the embedding-model error once the lookups succeed. */
  lemma MissingModelRejected(config: ToolConfig, services: Collaborators)
    requires ValidIndexName(config.indexName)
    requires services.getIndex(config.indexName).Success?
    requires var details := services.getIndex(config.indexName).value;
      && !details.managedEmbeddings
      && services.validateTextColumn(config.textColumn, details).Success?
      && services.validateReturnColumns(
           config.columns.ValueOr([]), services.validateTextColumn(config.textColumn, details).value, details).Success?
    requires !Present(config.embeddingModelName)
    ensures Validate(config, services) == Failure(MissingEmbeddingModel)
  {
  }

  /** An embedding-capable client: its API key and its embedding call. */
  datatype EmbeddingClient = EmbeddingClient(
    apiKey: Option<string>,
    embed: (string, Option<string>) -> Result<seq<EmbeddingValue>, Error>)

  /** The arguments of `similarity_search`. */
  datatype SearchRequest = SearchRequest(
    columns: seq<string>,
    queryText: Option<string>,
    queryVector: Option<seq<EmbeddingValue>>,
    filters: Option<Filters>,
    numResults: int,
    queryType: Option<string>)

  /** ASCII upper-casing gives HYBRID exactly for the spellings of HYBRID in
      any mix of cases. */
  lemma UpperIsHybridIffSpellsHybrid(queryType: string)
    ensures ToUpperAscii(queryType) == "HYBRID" <==> SpellsHybrid(queryType)
  {
    var upper := ToUpperAscii(queryType);
    forall i | 0 <= i < |queryType|
      ensures upper[i] == UpperAscii(queryType[i])
    {
      ToUpperAsciiAt(queryType, i);
    }
    if |queryType| == 6 {
      if upper == "HYBRID" {
        forall i | 0 <= i < 6
          ensures queryType[i] in {"HYBRID"[i], "hybrid"[i]}
        {
          assert UpperAscii(queryType[i]) == "HYBRID"[i];
        }
      }
      if forall i :: 0 <= i < 6 ==> queryType[i] in {"HYBRID"[i], "hybrid"[i]} {
        forall i | 0 <= i < 6
          ensures upper[i] == "HYBRID"[i]
        {
          assert queryType[i] in {"HYBRID"[i], "hybrid"[i]};
        }
        assert upper == "HYBRID";
      }
    }
  }

  /** The query type spells HYBRID with each letter in either case. */
  predicate SpellsHybrid(s: string) {
    |s| == 6 && forall i :: 0 <= i < 6 ==> s[i] in {"HYBRID"[i], "hybrid"[i]}
  }

  /** `query_type and query_type.upper() == "HYBRID"`, with ASCII case mapping:
      a query type is hybrid exactly when it spells HYBRID in any mix of cases. */
  function IsHybrid(queryType: Option<string>): (ok: bool)
    ensures ok <==> queryType.Some? && SpellsHybrid(queryType.value)
  {
    if queryType.None? then false
    else
      UpperIsHybridIffSpellsHybrid(queryType.value);
      Present(queryType) && ToUpperAscii(queryType.value) == "HYBRID"
  }

  /** `index_embedding_dimension and len(query_vector) != index_embedding_dimension`:
      an absent and a zero declared dimension are alike and never mismatch. */
  predicate DimensionMismatch(declared: Option<int>, actual: nat) {
    declared.Some? && declared.value != 0 && actual != declared.value
  }

  /** The request-shape decision of `execute`. The caller's client is used when
      one is supplied, otherwise `defaultClient`. */
  function PlanSearch(tool: RetrieverTool, query: string, client: Option<EmbeddingClient>,
                      defaultClient: EmbeddingClient): (r: Result<SearchRequest, Error>)
    ensures r.Success? ==>
      && r.value.columns == tool.columns
      && r.value.filters == tool.filters
      && r.value.numResults == tool.numResults
      && r.value.queryType == tool.queryType
    ensures tool.details.managedEmbeddings ==>
      r.Success? && r.value.queryText == Some(query) && r.value.queryVector.None?
    ensures !tool.details.managedEmbeddings && !Present(client.ValueOr(defaultClient).apiKey) ==>
      r == Failure(MissingApiKey)
    ensures !tool.details.managedEmbeddings && r.Success? ==>
      && r.value.queryVector.Some?
      && (r.value.queryText.Some? <==> IsHybrid(tool.queryType))
      && (r.value.queryText.Some? ==> r.value.queryText.value == query)
    ensures !tool.details.managedEmbeddings && Present(client.ValueOr(defaultClient).apiKey)
            && client.ValueOr(defaultClient).embed(query, tool.embeddingModelName).Failure? ==>
      r == Failure(client.ValueOr(defaultClient).embed(query, tool.embeddingModelName).error)
    ensures !tool.details.managedEmbeddings && r.Success? ==>
      && client.ValueOr(defaultClient).embed(query, tool.embeddingModelName).Success?
      && r.value.queryVector == Some(client.ValueOr(defaultClient).embed(query, tool.embeddingModelName).value)
  {
    if tool.details.managedEmbeddings then
      Success(SearchRequest(tool.columns, Some(query), None, tool.filters, tool.numResults, tool.queryType))
    else
      var embedder := client.ValueOr(defaultClient);
      if !Present(embedder.apiKey) then
        Failure(MissingApiKey)
      else
        var queryText := if IsHybrid(tool.queryType) then Some(query) else None;
        var vector :- embedder.embed(query, tool.embeddingModelName);
        if DimensionMismatch(tool.details.embeddingDimension, |vector|) then
          Failure(EmbeddingDimensionMismatch(tool.details.embeddingDimension.value, |vector|))
        else
          Success(SearchRequest(tool.columns, queryText, Some(vector), tool.filters, tool.numResults, tool.queryType))
  }

  /** For a self-managed index with an API key, the computed vector is sent
      exactly when the embedding call succeeds and the dimension check passes;
      the mismatch error names the declared and the actual length. */
  lemma DimensionCheck(tool: RetrieverTool, query: string, client: Option<EmbeddingClient>,
                       defaultClient: EmbeddingClient)
    requires !tool.details.managedEmbeddings
    requires Present(client.ValueOr(defaultClient).apiKey)
    requires client.ValueOr(defaultClient).embed(query, tool.embeddingModelName).Success?
    ensures var vector := client.ValueOr(defaultClient).embed(query, tool.embeddingModelName).value;
      var r := PlanSearch(tool, query, client, defaultClient);
      && (r.Failure? <==>
            && tool.details.embeddingDimension.Some?
            && tool.details.embeddingDimension.value != 0
            && |vector| != tool.details.embeddingDimension.value)
      && (r.Failure? ==> r.error == EmbeddingDimensionMismatch(tool.details.embeddingDimension.value, |vector|))
      && (r.Success? ==> r.value.queryVector == Some(vector))
  {
  }

  /** Python's truthiness of optional strings: an empty string behaves as an
      absent one for the tool-name and description overrides, for the query
      type, and for the API key. */
  lemma EmptyStringIsAbsent(config: ToolConfig, services: Collaborators, tool: RetrieverTool,
                            query: string, embed: (string, Option<string>) -> Result<seq<EmbeddingValue>, Error>,
                            defaultClient: EmbeddingClient)
    ensures Validate(config.(toolName := Some("")), services) == Validate(config.(toolName := None), services)
    ensures Validate(config.(toolDescription := Some("")), services)
         == Validate(config.(toolDescription := None), services)
    ensures !IsHybrid(Some(""))
    ensures PlanSearch(tool, query, Some(EmbeddingClient(Some(""), embed)), defaultClient)
         == PlanSearch(tool, query, Some(EmbeddingClient(None, embed)), defaultClient)
  {
  }

  /** An absent or zero declared dimension accepts a vector of any length: with
      a key and a computed vector, a self-managed index sends that vector. */
  lemma ZeroOrAbsentDimensionSkipsCheck(tool: RetrieverTool, query: string, client: Option<EmbeddingClient>,
                                        defaultClient: EmbeddingClient)
    requires !tool.details.managedEmbeddings
    requires tool.details.embeddingDimension.None? || tool.details.embeddingDimension.value == 0
    requires Present(client.ValueOr(defaultClient).apiKey)
    requires client.ValueOr(defaultClient).embed(query, tool.embeddingModelName).Success?
    ensures var vector := client.ValueOr(defaultClient).embed(query, tool.embeddingModelName).value;
      var r := PlanSearch(tool, query, client, defaultClient);
      r.Success? && r.value.queryVector == Some(vector)
  {
  }

  /** The documents of the scored pairs, scores dropped, order kept. */
  function StripScores(scored: seq<(Document, Score)>): (docs: seq<Document>)
    ensures |docs| == |scored|
    ensures forall i :: 0 <= i < |scored| ==> docs[i] == scored[i].0
    decreases |scored|
  {
    if |scored| == 0 then [] else [scored[0].0] + StripScores(scored[1..])
  }

  /** Pairing documents with scores and stripping the scores gives the
      documents back. */
  lemma StripScoresOfPaired(docs: seq<Document>, scores: seq<Score>)
    requires |docs| == |scores|
    ensures StripScores(seq(|docs|, i requires 0 <= i < |docs| => (docs[i], scores[i]))) == docs
  {
  }

  /** Stripping the scores of two lists of pairs, one after the other, is
      stripping the scores of their concatenation. */
  lemma StripScoresAppend(a: seq<(Document, Score)>, b: seq<(Document, Score)>)
    ensures StripScores(a + b) == StripScores(a) + StripScores(b)
  {
  }

  /** `execute`: plan the request, run the search, parse the response against
      the text column and return the documents without their scores. A failure
      at any step is the call's failure, and nothing after it is consulted. */
  function Execute(tool: RetrieverTool, query: string, client: Option<EmbeddingClient>,
                   defaultClient: EmbeddingClient,
                   search: SearchRequest -> Result<SearchResponse, Error>,
                   parse: (SearchResponse, IndexDetails, Option<string>) -> Result<seq<(Document, Score)>, Error>)
    : (r: Result<seq<Document>, Error>)
    ensures PlanSearch(tool, query, client, defaultClient).Failure? ==>
      r == Failure(PlanSearch(tool, query, client, defaultClient).error)
    ensures r.Success? ==>
      && PlanSearch(tool, query, client, defaultClient).Success?
      && var request := PlanSearch(tool, query, client, defaultClient).value;
         && search(request).Success?
         && var scored := parse(search(request).value, tool.details, tool.textColumn);
            && scored.Success?
            && |r.value| == |scored.value|
            && forall i :: 0 <= i < |scored.value| ==> r.value[i] == scored.value[i].0
    ensures PlanSearch(tool, query, client, defaultClient).Success? ==>
      var request := PlanSearch(tool, query, client, defaultClient).value;
      && (search(request).Failure? ==> r == Failure(search(request).error))
      && (search(request).Success? ==>
            var scored := parse(search(request).value, tool.details, tool.textColumn);
            && (scored.Failure? ==> r == Failure(scored.error))
            && (scored.Success? ==> r.Success?))
  {
    var request :- PlanSearch(tool, query, client, defaultClient);
    var response :- search(request);
    var scored :- parse(response, tool.details, tool.textColumn);
    Success(StripScores(scored))
  }
}
