# Vector-search retriever tool, modelled in Dafny

A model of the OpenAI-facing `VectorSearchRetrieverTool` of the Databricks AI bridge. This adapter exposes a Databricks Vector Search index as a function-calling tool for chat completions. The model covers the adapter's own decisions:

- the shape check on the `catalog.schema.index` name at construction;
- the rule that an index without Databricks-managed embeddings needs an embedding model name;
- how the tool name is derived from the index name (`.` becomes `__`) and truncated to its last 64 characters;
- the choice in `execute` between a text-only request (managed embeddings) and a vector request. The vector request carries text only for hybrid queries. It needs an API key and passes an embedding-dimension check;
- the unwrapping of scored search results into plain documents.

Every external service is an input. The index lookup, the text-column and return-column validators, the default description, the serving-endpoint lookup, the embedding call, the similarity search and the response parser are function-valued fields or parameters. Their own rules are not modelled. Floats, filters, documents and raw responses are abstract types.

Files:

- `wrappers.dfy`: `Option` and `Result`.
- `strings.dfy` (module `Strings`): Python's `split`, `join` and `replace` on a one-character separator, plus ASCII `upper`.
- `tool_name.dfy` (module `ToolName`): index-name validation and tool-name derivation.
- `retriever.dfy` (module `Retriever`): validation, request planning and `execute`.

Two of Python's falsy values matter here:

- A declared `embedding_dimension` of `0` is falsy, so the dimension check is skipped (lines 181-185).
- An empty `tool_name` override is falsy, so the derived name is used instead (line 119). The same holds for an empty `tool_description` (line 131) and an empty embedding model name (line 109).

## Model

| member | source | states |
|---|---|---|
| `Strings.Split` | integrations/openai/src/databricks_openai/vector_search_retriever_tool.py:95 | `split(".")` always yields at least one piece, and no piece contains the separator |
| `Strings.SplitLength` | integrations/openai/src/databricks_openai/vector_search_retriever_tool.py:95 | the number of pieces is the number of separators plus one |
| `Strings.JoinSplit` | integrations/openai/src/databricks_openai/vector_search_retriever_tool.py:95 | joining the pieces back with the separator restores the original string, so splitting loses nothing |
| `Strings.Replace` | integrations/openai/src/databricks_openai/vector_search_retriever_tool.py:119 | after replacing a character by a string that lacks it, the character no longer occurs; the result uses only characters of the input and of the replacement |
| `Strings.ReplaceIsJoinOfSplit` | integrations/openai/src/databricks_openai/vector_search_retriever_tool.py:119 | `s.replace(c, r)` equals `r.join(s.split(c))` for every string |
| `Strings.ReplaceLength` | integrations/openai/src/databricks_openai/vector_search_retriever_tool.py:119 | each occurrence of the target grows by the length of the replacement minus one; every other character stays |
| `Strings.ReplaceAppend` | integrations/openai/src/databricks_openai/vector_search_retriever_tool.py:119 | replacing distributes over concatenation |
| `Strings.ReplaceAbsent` | integrations/openai/src/databricks_openai/vector_search_retriever_tool.py:119 | a string without the target is left unchanged |
| `Strings.ToUpperAscii` | integrations/openai/src/databricks_openai/vector_search_retriever_tool.py:175 | upper-casing keeps the length |
| `Strings.ToUpperAsciiAt` | integrations/openai/src/databricks_openai/vector_search_retriever_tool.py:175 | upper-casing maps each character independently, position by position |
| `ToolName.ValidIndexName` | integrations/openai/src/databricks_openai/vector_search_retriever_tool.py:95-99 | an index name is accepted (its split on `.` has three pieces) if and only if it contains exactly two dots |
| `ToolName.DerivedToolName` | integrations/openai/src/databricks_openai/vector_search_retriever_tool.py:116-119 | the name derived from an index name contains no `.` |
| `ToolName.DerivedToolNameShape` | integrations/openai/src/databricks_openai/vector_search_retriever_tool.py:119 | the derived name is the index's pieces joined with `__`; it is one character longer per dot |
| `ToolName.Truncate` | integrations/openai/src/databricks_openai/vector_search_retriever_tool.py:120-125 | the result has at most 64 characters and is a suffix of the name; a name of at most 64 characters is kept; a longer one yields exactly 64 characters |
| `ToolName.GetToolName` | integrations/openai/src/databricks_openai/vector_search_retriever_tool.py:118-125 | a non-empty override is used: unchanged when it has at most 64 characters, else exactly its last 64. Otherwise the derived name is used the same way, unchanged or cut to its last 64; the result has no `.` and never more than 64 characters |
| `ToolName.DefaultToolNameOfValidIndex` | integrations/openai/src/databricks_openai/vector_search_retriever_tool.py:119-125 | for an accepted index, the derived name is two characters longer than the index name; without an override the tool name is that name when it fits in 64, else its last 64 characters |
| `ToolName.DerivedToolNameMatchesPattern` | integrations/openai/src/databricks_openai/vector_search_retriever_tool.py:116-125 | for an accepted index name that uses only letters, digits, `_`, `-` and dots, the tool name derived without an override is non-empty and matches `^[a-zA-Z0-9_-]+$` |
| `ToolName.ToolNameOfLongTail` | integrations/openai/src/databricks_openai/vector_search_retriever_tool.py:119-125 | an accepted index name ending in 64 dot-free characters gets exactly those 64 characters as its tool name |
| `ToolName.TruncatedToolNamesCollide` | integrations/openai/src/databricks_openai/vector_search_retriever_tool.py:120-125 | any two accepted index names of at least 64 characters that end in the same 64 dot-free characters get the same tool name without an override, namely those 64 characters |
| `Retriever.Validate` | integrations/openai/src/databricks_openai/vector_search_retriever_tool.py:95-143 | a malformed index name fails before anything else. An error from the index lookup, a column validator or the endpoint lookup is returned unchanged. A built tool has an accepted name and a model name unless embeddings are managed. Its details, text column and columns are the lookup's and the validators' results, the latter given the configured columns or `[]`. Its description is the non-empty override, else the default. Its tool name is `get_tool_name`'s result for the configured override and index name. The embedding model is listed as a resource exactly when its endpoint exists. The other configured fields are carried over unchanged |
| `Retriever.ValidateSucceedsIff` | integrations/openai/src/databricks_openai/vector_search_retriever_tool.py:95-141 | construction succeeds exactly when the name has three pieces, the index lookup and both column validators succeed, a self-managed index has a non-empty model name, and the endpoint lookup either finds the endpoint or reports that it does not exist |
| `Retriever.MissingModelRejected` | integrations/openai/src/databricks_openai/vector_search_retriever_tool.py:100-114 | once the name is accepted and the index lookup and both column validators succeed, a self-managed index with a missing or empty model name fails with the embedding-model error |
| `Retriever.PlanSearch` | integrations/openai/src/databricks_openai/vector_search_retriever_tool.py:164-197 | managed embeddings send the query text and no vector, with no key needed. Self-managed embeddings without an API key fail, whatever the embedding call would return. A failed embedding call is the call's failure. Otherwise the computed vector is sent, and the text is sent if and only if the query type is hybrid. Columns, filters, result count and query type are forwarded unchanged |
| `Retriever.UpperIsHybridIffSpellsHybrid` | integrations/openai/src/databricks_openai/vector_search_retriever_tool.py:175 | ASCII upper-casing gives `HYBRID` exactly for the six-letter spellings of HYBRID in any mix of cases |
| `Retriever.IsHybrid` | integrations/openai/src/databricks_openai/vector_search_retriever_tool.py:175 | a query type counts as hybrid exactly when it is given and spells HYBRID with each letter in either case |
| `Retriever.DimensionCheck` | integrations/openai/src/databricks_openai/vector_search_retriever_tool.py:176-188 | with a key and a computed vector, the request fails if and only if the declared dimension is present, non-zero and different from the vector's length (the `DimensionMismatch` test); the error names both numbers; otherwise that vector is sent |
| `Retriever.EmptyStringIsAbsent` | integrations/openai/src/databricks_openai/vector_search_retriever_tool.py:119-175 | Python's truthiness, modelled by `Present`: an empty tool-name or description override builds the same tool as no override, an empty query type is not hybrid, and a client whose API key is empty plans the same request (the missing-key error) as one without a key |
| `Retriever.ZeroOrAbsentDimensionSkipsCheck` | integrations/openai/src/databricks_openai/vector_search_retriever_tool.py:176-188 | when a self-managed index declares no dimension or `0`, a key is present and the embedding succeeds, the request succeeds and carries the computed vector, whatever its length |
| `Retriever.StripScores` | integrations/openai/src/databricks_openai/vector_search_retriever_tool.py:204 | the documents are returned in the order of the scored pairs, one per pair, scores dropped |
| `Retriever.StripScoresOfPaired` | integrations/openai/src/databricks_openai/vector_search_retriever_tool.py:198-204 | pairing documents with scores and then stripping the scores gives the documents back |
| `Retriever.StripScoresAppend` | integrations/openai/src/databricks_openai/vector_search_retriever_tool.py:204 | stripping the scores of two lists of pairs one after the other is stripping the scores of their concatenation |
| `Retriever.Execute` | integrations/openai/src/databricks_openai/vector_search_retriever_tool.py:164-204 | a planning, search or parse failure is the call's failure, and no later step is consulted; when all three succeed, the result is the parsed documents in order with their scores dropped |

## Left out

- Resource list (lines 138-141): the serving-endpoint lookup is the `lookupEndpoint` input. A miss is `Success(false)` and any other error is a `Failure`. The model records which endpoint is passed on to `_get_resources`; that method is defined elsewhere, so the list itself is not built.
- Tool descriptor (lines 127-132): `pydantic_function_tool` and the JSON schema it builds belong to a foreign library. Only the name and description fed to it are modelled.
- Index lookup and index details: `VectorSearchClient().get_index` and `IndexDetails` are external. The model reads only the managed-embeddings flag and the declared dimension; everything else is an abstract `IndexMetadata`.
- Column validators (lines 102-105): `validate_and_get_text_column` and `validate_and_get_return_columns` are defined in a file that is not part of this model. They are input functions whose rules are not modelled.
- Response parsing (lines 198-203): `parse_vector_search_response` is defined elsewhere. It is an input function.
- Default description (line 131): `_get_default_tool_description` is defined elsewhere. It is an input function of the index details.
- Embedding call (lines 176-180): `embeddings.create(...).data[0].embedding` is a network call. It is the client's `embed` function, and its vector's elements are abstract. Construction of the default client `OpenAI()` is an input value, the default client.
- Retriever.IsHybrid: Python's `str.upper()` applies full Unicode case mapping. The model maps only ASCII `a`-`z`, so a non-ASCII spelling that upper-cases to `HYBRID` is not recognised.
- Retriever.UpperIsHybridIffSpellsHybrid: the same ASCII-only restriction; Unicode case mapping is not modelled.
- Strings.ToUpperAscii: Python's `str.upper()` can change a string's length (`'ß'.upper()` is `'SS'`); the model maps only ASCII `a`-`z`, one character for one, so its length-keeping contract does not hold of Python's `upper()` in general.
- Strings.ToUpperAsciiAt: the same ASCII-only, one-for-one mapping; Python's `upper()` may map one character to several.
- Logging and tracing: the truncation warning (lines 121-123) and the `vector_search_retriever_tool_trace` decorator (line 145) are observability only.
- Python's run-time types: the model does not represent values of the wrong Python type, such as a non-integer `embedding_dimension`.
