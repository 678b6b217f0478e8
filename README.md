# Elasticsearch Go client: discovery, typed endpoints and lenient decoders

A Dafny model of four parts of the Go Elasticsearch client:

- **Node discovery** (`estransport/discovery.go`). The client asks a node for the cluster's nodes. It maps each node's publish address to a URL in the scheme of the first configured URL. It keeps the nodes that hold both the `data` and the `ingest` role, and replaces its connection pool with connections to them. If getting the nodes fails, the pool stays as it was. `Discovery.Client` holds the pool as a field, and `DiscoverNodes` replaces it.
- **The `templateformat` enum** and its text codec. `UnmarshalText` lower-cases the text and removes every double quote, then matches `string` and `json`. Any other text is kept verbatim, and decoding never fails.
- **Three typed endpoint builders**: `indices.get_settings`, `ml.get_datafeeds` and `cat.ml_trained_models`. Each is a class whose setters OR bits into a `paramSet` bit set and overwrite query values. `HttpRequest` writes the path chosen by the exact value of the bit set and defaults the `Accept` header. `Perform`, `Do` and `IsSuccess` are Go value receivers, so they are functions of the builder's state and of the transport. The transport is a parameter `tp: Request -> TransportResult`.
- **Eight generated `UnmarshalJSON` methods** in `typedapi/types`. Each is a class over the Go struct's fields. Its `UnmarshalJSON` is a loop over the object's members, proved equal to the generic fold `Lenient.DecodeMembers`. Lemmas then say what the fold does:
  - decoding fails exactly when some member is rejected;
  - otherwise each field holds the value of the last member with its key that assigned it;
  - a slice or map decoded into what it already holds ends as those members merged in order;
  - a number and its decimal string decode alike;
  - a value of another kind leaves the field alone.

Shared modules model what those files use from Go's standard library:

- `Strconv`: `ParseInt`, `Atoi`, `ParseBool`, `Itoa`, `FormatBool`, and `int64` as a subset of `int`.
- `Strings`: `Split`, `Join`, ASCII `ToLower`, `ReplaceAll` of one character.
- `StringSort`: Go's byte-wise string order, `sort.Strings` and `sort.SearchStrings`.
- `Http`:
  - canonical MIME header keys (section 5.6.2 of RFC 9110 for token characters);
  - `http.Header` `Get` and `Set`;
  - the request, response and error values;
  - the 2xx class of section 15.3 of RFC 9110 and 404 of section 15.5.5.
- `Json`: decoded JSON values with integral numbers, and their raw text as `json.RawMessage` keeps it.

## Model

| member | source | states |
|---|---|---|
| Discovery.Client.DiscoverNodes | estransport/discovery.go:42-111 | When getting node info fails, the error comes back wrapped as a "get nodes" error and the pool is unchanged. Otherwise the error is nil and the pool is replaced by exactly `Eligible` of the nodes, even when that list is empty. |
| Discovery.ConnectEligible | estransport/discovery.go:53-90 | The loop over the nodes builds exactly `Eligible(nodes)`: in node order, one connection per node that holds both roles. |
| Discovery.HasRole | estransport/discovery.go:59-67 | The sort-a-copy-then-binary-search test is true exactly when the role occurs in the node's roles, whatever their order or duplication. |
| Discovery.EligibleMembership | estransport/discovery.go:59-90 | A connection is emitted iff some node holds both "data" and "ingest", and the connection is that node's URL, ID, name, roles (in original order) and attributes. |
| Discovery.EligibleCount | estransport/discovery.go:79-90 | There are never more connections than nodes. When every node qualifies, there is one connection per node, in order. |
| Discovery.MasterOnlyNodeSkipped | estransport/discovery.go:59-84 | Of three nodes, the master-only one is dropped. The other two become connections in order, even with shuffled or duplicated roles. |
| Discovery.Client.GetNodesInfo | estransport/discovery.go:113-168 | The result is `NodesInfo` for the scheme of the first configured URL. |
| Discovery.CollectNodes | estransport/discovery.go:157-165 | The loop yields one node per entry, in order. Each node's ID is its key, and its URL is the corrected `GetNodeUrl` of its publish address in the given scheme. |
| Discovery.NodesInfoOutcome | estransport/discovery.go:123-155 | Node info succeeds iff a reply arrived with status at most 200 and its nodes decoded. Any status above 200, other 2xx codes included, is a server error that carries the status and body. Success gives one node per entry. |
| Discovery.Port | estransport/discovery.go:176-184 | The port is the text after the last ':' and holds no ':'. It is the whole address when there is no ':'. |
| Discovery.GetNodeUrlAsWritten | estransport/discovery.go:170-192 | `getNodeURL` as written never fails and uses the given scheme. |
| Discovery.NodeUrlAsWrittenRules | estransport/discovery.go:175-188 | As written, Host is host + ":" + port. The host is the text before the first '/' when there is one. Otherwise it is the text before the first ':'. |
| Discovery.IPv6AddressMangled | estransport/discovery.go:179-184 | As written, the publish address "[::1]:9200" gives Host "[:9200". |
| Discovery.GetNodeUrl | estransport/discovery.go:170-192 | The corrected `getNodeURL` never fails and uses the given scheme. |
| Discovery.NodeUrlRules | estransport/discovery.go:175-188 | Corrected rules. With a '/', the host is the text before the first '/'. Without one, Host is the publish address itself whenever it holds a ':'. |
| Discovery.CorrectionAgrees | estransport/discovery.go:175-184 | The correction changes nothing for addresses with a '/' or with at most one ':'. |
| Discovery.IPv6AddressKept | estransport/discovery.go:175-188 | The corrected parser keeps "[::1]:9200" whole as Host. |
| StringSort.SortCorrect | estransport/discovery.go:59-60 | `sort.Strings` yields a sorted permutation of the roles. |
| StringSort.SearchSortedFinds | estransport/discovery.go:62-67 | In the sorted copy, `SearchStrings` lands on the role iff the role is in the original list. |
| Strings.SplitLast | estransport/discovery.go:176-184 | The last piece of a split is the suffix after the last separator. It holds no separator, and it is the whole string iff the separator does not occur. |
| Strings.SplitFirst | estransport/discovery.go:179-182 | The first piece is the text before the first separator. There is more than one piece iff the separator occurs. |
| Strings.JoinSplit | estransport/discovery.go:175-176 | Joining the pieces of a split with the separator gives the string back. |
| Strings.SplitJoin | typedapi/indices/getsettings/get_settings.go:364-372 | Splitting the joined pieces gives them back when none holds the separator. |
| TemplateFormatEnum.UnmarshalText | typedapi/types/enums/templateformat/templateformat.go:41-53 | `UnmarshalText` never returns an error. |
| TemplateFormatEnum.Recognition | typedapi/types/enums/templateformat/templateformat.go:42-47 | The text decodes to String iff its lower-cased, quote-free form is "string", and to Json iff that form is "json". |
| TemplateFormatEnum.Verbatim | typedapi/types/enums/templateformat/templateformat.go:48-49 | Other text is stored verbatim, with its case and quotes. |
| TemplateFormatEnum.NormaliseFixed | typedapi/types/enums/templateformat/templateformat.go:42 | Lower-case text without quotes normalises to itself. |
| TemplateFormatEnum.ConstantsRoundTrip | typedapi/types/enums/templateformat/templateformat.go:31-47 | Unmarshalling the marshalled String or Json gives that constant back. |
| TemplateFormatEnum.RoundTrip | typedapi/types/enums/templateformat/templateformat.go:37-57 | Marshal never fails. A marshal-then-unmarshal gives the value back iff it is a constant or its name does not normalise to "string" or "json". |
| TemplateFormatEnum.Idempotent | typedapi/types/enums/templateformat/templateformat.go:41-50 | The result depends only on the text: decoding the text form of a decoded value decodes the same way. |
| Http.CanonicalHeaderKey | typedapi/indices/getsettings/get_settings.go:321-325 | The key `Header.Set` stores under has the length of the key given. |
| Http.CanonicalIdempotent | typedapi/indices/getsettings/get_settings.go:321-325 | Canonicalising a canonical key changes nothing. |
| Http.CanonicalIgnoresCase | typedapi/indices/getsettings/get_settings.go:321-325 | A token key and its lower-case form address the same header. |
| Http.Set | typedapi/indices/getsettings/get_settings.go:321-325 | After `Set`, `Get` of the key gives the value. Every other canonical key keeps its value. |
| Http.WithAccept | typedapi/indices/getsettings/get_settings.go:172-176 | The built request always has an Accept header. A caller's Accept header leaves the headers untouched. Otherwise Accept is the compatible-with=8 media type, and other keys are kept. |
| Http.CallerAcceptKept | typedapi/indices/getsettings/get_settings.go:172-176 | An Accept header set by the caller under any spelling of the key is kept with its value. |
| Http.Perform | typedapi/indices/getsettings/get_settings.go:186-225 | A build error is returned as is. A transport error is wrapped with the endpoint's name. A delivered response is passed through unchanged. |
| IndicesGetSettings.PathShape | typedapi/indices/getsettings/get_settings.go:112-164 | The path is empty exactly for bit sets the setters cannot produce. Otherwise it is "/", then "{index}/" when the index bit is set, then "_settings", then "/{name}" when the name bit is set. |
| IndicesGetSettings.BuildRequest | typedapi/indices/getsettings/get_settings.go:103-183 | `ErrBuildPath` comes back exactly for an unreachable bit set. Otherwise the request is a GET with scheme http, the chosen path, the query values, and the headers with Accept defaulted. |
| IndicesGetSettings.GetSettings.WritePath | typedapi/indices/getsettings/get_settings.go:112-157 | The builder switch writes exactly `PathFor(paramSet, index, name)`, and the method is GET whenever the path is non-empty. |
| IndicesGetSettings.GetSettings.HttpRequest | typedapi/indices/getsettings/get_settings.go:103-183 | The result is `BuildRequest` of the state before the call. Only the URL field changes. A builder reachable through the setters always builds. |
| IndicesGetSettings.GetSettings.constructor | typedapi/indices/getsettings/get_settings.go:85-99 | A new builder has no bits set and empty values and headers. |
| IndicesGetSettings.GetSettings.Index | typedapi/indices/getsettings/get_settings.go:331-336 | `Index` ORs in bit 1 and stores the index, so the last call wins. Nothing else changes, and reachability is kept. |
| IndicesGetSettings.GetSettings.Name | typedapi/indices/getsettings/get_settings.go:340-345 | `Name` ORs in bit 2 and stores the name, so the last call wins. Nothing else changes, and reachability is kept. |
| IndicesGetSettings.GetSettings.Header | typedapi/indices/getsettings/get_settings.go:321-325 | Only the headers change, by `Header.Set`. |
| IndicesGetSettings.GetSettings.AllowNoIndices | typedapi/indices/getsettings/get_settings.go:353-357 | Only allow_no_indices changes, overwritten with "true" or "false". |
| IndicesGetSettings.GetSettings.ExpandWildcards | typedapi/indices/getsettings/get_settings.go:364-372 | expand_wildcards is overwritten with the wildcard names joined by ",", in argument order. Nothing else changes. |
| IndicesGetSettings.WildcardNames | typedapi/indices/getsettings/get_settings.go:365-368 | One name per wildcard, in argument order. |
| IndicesGetSettings.WildcardsRecoverable | typedapi/indices/getsettings/get_settings.go:364-372 | Splitting the stored expand_wildcards value at ',' gives the names back. |
| IndicesGetSettings.GetSettings.FlatSettings | typedapi/indices/getsettings/get_settings.go:376-380 | Only flat_settings changes, overwritten with "true" or "false". |
| IndicesGetSettings.GetSettings.IgnoreUnavailable | typedapi/indices/getsettings/get_settings.go:385-389 | Only ignore_unavailable changes, overwritten with "true" or "false". |
| IndicesGetSettings.GetSettings.IncludeDefaults | typedapi/indices/getsettings/get_settings.go:393-397 | Only include_defaults changes, overwritten with "true" or "false". |
| IndicesGetSettings.GetSettings.Local | typedapi/indices/getsettings/get_settings.go:402-406 | Only local changes, overwritten with "true" or "false". |
| IndicesGetSettings.GetSettings.MasterTimeout | typedapi/indices/getsettings/get_settings.go:412-416 | Only master_timeout changes, overwritten with the duration given. |
| IndicesGetSettings.Do | typedapi/indices/getsettings/get_settings.go:228-279 | Transport and build errors are returned as they are. Below 299, a body that decodes as the response gives `Success` of it, and one that does not gives a decode error. At 299 or more, a body that decodes as an error gives a server error whose status 0 is replaced by the HTTP status. A body that does not decode gives a decode error. |
| IndicesGetSettings.IsSuccess | typedapi/indices/getsettings/get_settings.go:283-318 | ok iff the status is 2xx. The error is nil iff the status is 2xx or 404. Transport errors pass through, and any other status is a status-code error. |
| IndicesGetSettings.DoAndIsSuccessDisagreeAt299 | typedapi/indices/getsettings/get_settings.go:250-305 | At status 299, `IsSuccess` reports success while `Do` fails with the decoded error body. |
| MlGetDatafeeds.PathShape | typedapi/ml/getdatafeeds/get_datafeeds.go:100-125 | The path is empty exactly for unreachable bit sets. Otherwise it is "/_ml/datafeeds", followed by "/{id}" exactly when the id bit is set. |
| MlGetDatafeeds.BuildRequest | typedapi/ml/getdatafeeds/get_datafeeds.go:91-144 | `ErrBuildPath` comes back exactly for unreachable bit sets. Otherwise the request is a GET on the chosen path, with Accept defaulted only when absent. |
| MlGetDatafeeds.GetDatafeeds.WritePath | typedapi/ml/getdatafeeds/get_datafeeds.go:100-118 | The switch writes exactly `PathFor(paramSet, datafeedId)`, with GET. |
| MlGetDatafeeds.GetDatafeeds.HttpRequest | typedapi/ml/getdatafeeds/get_datafeeds.go:91-144 | The result is `BuildRequest` of the prior state, and only the URL changes. |
| MlGetDatafeeds.GetDatafeeds.constructor | typedapi/ml/getdatafeeds/get_datafeeds.go:78-87 | A new builder has no bits set and empty values and headers. |
| MlGetDatafeeds.GetDatafeeds.DatafeedId | typedapi/ml/getdatafeeds/get_datafeeds.go:223-228 | Bit 1 is ORed in and the last id wins. Reachability is kept. |
| MlGetDatafeeds.GetDatafeeds.Header | typedapi/ml/getdatafeeds/get_datafeeds.go:213-217 | Only the headers change, by `Header.Set`. |
| MlGetDatafeeds.GetDatafeeds.AllowNoMatch | typedapi/ml/getdatafeeds/get_datafeeds.go:241-245 | Only allow_no_match changes, overwritten with "true" or "false". |
| MlGetDatafeeds.GetDatafeeds.ExcludeGenerated | typedapi/ml/getdatafeeds/get_datafeeds.go:251-255 | Only exclude_generated changes, overwritten with "true" or "false". |
| MlGetDatafeeds.FlagRoundTrip | typedapi/ml/getdatafeeds/get_datafeeds.go:241-255 | A stored boolean query value parses back to the flag. |
| MlGetDatafeeds.Do | typedapi/ml/getdatafeeds/get_datafeeds.go:162-189 | Transport and build errors pass through. Below 299, a body that decodes as the response gives `Success` of it, and one that does not gives a decode error. At 299 or more, a body that decodes as an error gives a server error carrying it as is, with no status defaulting. A body that does not decode gives a decode error. |
| MlGetDatafeeds.IsSuccess | typedapi/ml/getdatafeeds/get_datafeeds.go:193-210 | ok iff the status is 2xx. The error is nil for every delivered response, 404 included. |
| CatMlTrainedModels.PathShape | typedapi/cat/mltrainedmodels/ml_trained_models.go:102-131 | The path is empty exactly for unreachable bit sets. Otherwise it is "/_cat/ml/trained_models", followed by "/{model_id}" exactly when the id bit is set. |
| CatMlTrainedModels.BuildRequest | typedapi/cat/mltrainedmodels/ml_trained_models.go:93-150 | `ErrBuildPath` comes back exactly for unreachable bit sets. Otherwise the request is a GET on the chosen path, with Accept defaulted. |
| CatMlTrainedModels.MlTrainedModels.WritePath | typedapi/cat/mltrainedmodels/ml_trained_models.go:102-124 | The switch writes exactly `PathFor(paramSet, modelId)`, with GET. |
| CatMlTrainedModels.MlTrainedModels.HttpRequest | typedapi/cat/mltrainedmodels/ml_trained_models.go:93-150 | The result is `BuildRequest` of the prior state, and only the URL changes. |
| CatMlTrainedModels.MlTrainedModels.constructor | typedapi/cat/mltrainedmodels/ml_trained_models.go:80-89 | A new builder has no bits set and empty values and headers. |
| CatMlTrainedModels.MlTrainedModels.ModelId | typedapi/cat/mltrainedmodels/ml_trained_models.go:197-202 | Bit 1 is ORed in and the last id wins. Reachability is kept. |
| CatMlTrainedModels.MlTrainedModels.Header | typedapi/cat/mltrainedmodels/ml_trained_models.go:189-193 | Only the headers change. |
| CatMlTrainedModels.MlTrainedModels.AllowNoMatch | typedapi/cat/mltrainedmodels/ml_trained_models.go:207-211 | Only allow_no_match changes, overwritten with "true" or "false". |
| CatMlTrainedModels.MlTrainedModels.Bytes | typedapi/cat/mltrainedmodels/ml_trained_models.go:215-219 | Only bytes changes, overwritten with the unit's name. |
| CatMlTrainedModels.MlTrainedModels.H | typedapi/cat/mltrainedmodels/ml_trained_models.go:223-227 | Only h changes, overwritten verbatim. |
| CatMlTrainedModels.MlTrainedModels.S | typedapi/cat/mltrainedmodels/ml_trained_models.go:231-235 | Only s changes, overwritten verbatim. |
| CatMlTrainedModels.MlTrainedModels.From | typedapi/cat/mltrainedmodels/ml_trained_models.go:239-243 | Only from changes, overwritten with the decimal rendering. |
| CatMlTrainedModels.MlTrainedModels.Size | typedapi/cat/mltrainedmodels/ml_trained_models.go:247-251 | Only size changes, overwritten with the decimal rendering. |
| CatMlTrainedModels.CountRoundTrip | typedapi/cat/mltrainedmodels/ml_trained_models.go:239-251 | The stored decimal rendering parses back to the integer given. |
| CatMlTrainedModels.Do | typedapi/cat/mltrainedmodels/ml_trained_models.go:153-165 | The transport's response is returned unchanged. A transport error is wrapped, and a build error is returned as is. |
| CatMlTrainedModels.IsSuccess | typedapi/cat/mltrainedmodels/ml_trained_models.go:169-186 | ok iff the status is 2xx. The error is nil for every delivered response. |
| Strconv.ParseInt | typedapi/types/clusterstatistics.go:59-65 | A parse succeeds only on a sign followed by decimal digits, with their value. A failure is a NumError naming the function and the input. |
| Strconv.ParseItoa | typedapi/cat/mltrainedmodels/ml_trained_models.go:239-251 | Parsing the `Itoa` rendering of any int64 gives it back. |
| Strconv.ParseFormatBool | typedapi/ml/getdatafeeds/get_datafeeds.go:241-255 | Parsing the `FormatBool` rendering gives the flag back. |
| Lenient.LenientIntRules | typedapi/types/clusterstatistics.go:58-69 | A string is assigned iff it is an optional sign, then one or more digits, with a value that fits in 64 bits. The value assigned is the signed decimal value. Any other string is a NumError naming the function and the input. |
| Lenient.StringOrNumber | typedapi/types/clusterstatistics.go:58-69 | The decimal string of an integer and the integer itself decode to the same value. |
| Lenient.LenientBoolRules | typedapi/types/ipfilter.go:57-66 | A string gives true iff it is one of the six spellings of true that `ParseBool` accepts, and false iff it is one of the six of false. Any other string is a NumError naming `ParseBool` and the input. |
| Lenient.StringOrBool | typedapi/types/ipfilter.go:57-66 | "true" and "false" decode like the booleans they name. |
| Lenient.FieldIsLastAssignment | typedapi/types/clusterstatistics.go:45-103 | For any step where only its key changes a field: after a successful decode, the field holds its last assignment, and other keys change nothing. |
| Lenient.FieldIsLastMerge | typedapi/types/elisiontokenfilter.go:57-60 | For any step where only its key changes a field, by merging the member into what the field holds: after a successful decode, the field holds those members merged in order, and other keys change nothing. |
| Lenient.ErrorIffRejected | typedapi/types/clusterstatistics.go:45-103 | When failure depends only on the member, decoding returns nil iff no member is rejected. |
| Lenient.DecodeAppend | typedapi/types/clusterstatistics.go:45-103 | Decoding a concatenation decodes the first part, then continues from where it left off only if it succeeded. |
| Json.Render | typedapi/types/significantlongtermsaggregate.go:77-90 | The raw text starts with '{' exactly for objects and with '[' exactly for arrays. A string keeps its quotes. |
| TypesClusterStatistics.ClusterStatistics.constructor | typedapi/types/clusterstatistics.go:109-113 | Every count starts at zero. |
| TypesClusterStatistics.ClusterStatistics.UnmarshalJSON | typedapi/types/clusterstatistics.go:40-106 | The loop leaves the fields and the error exactly as `DecodeMembers(Step, …)` of the prior fields. |
| TypesClusterStatistics.DecodeMeaning | typedapi/types/clusterstatistics.go:53-103 | Decoding fails iff skipped, successful or total is a malformed string. Otherwise each count is its last assignment, and other kinds and keys change nothing. |
| TypesExecutionThreadPool.ExecutionThreadPool.constructor | typedapi/types/executionthreadpool.go:90-94 | Both sizes start at zero. |
| TypesExecutionThreadPool.ExecutionThreadPool.UnmarshalJSON | typedapi/types/executionthreadpool.go:39-87 | The loop equals `DecodeMembers(Step, …)`. |
| TypesExecutionThreadPool.DecodeMeaning | typedapi/types/executionthreadpool.go:52-84 | Decoding fails iff max_size or queue_size is a malformed int64 string. Otherwise each is its last assignment, independently. |
| TypesIpFilter.IpFilter.constructor | typedapi/types/ipfilter.go:88-92 | Both flags start false. |
| TypesIpFilter.IpFilter.UnmarshalJSON | typedapi/types/ipfilter.go:39-85 | The loop equals `DecodeMembers(Step, …)`. |
| TypesIpFilter.DecodeMeaning | typedapi/types/ipfilter.go:52-82 | Decoding fails iff http or transport is a string `ParseBool` rejects. Otherwise each flag is its last assignment, independently. |
| TypesStringStatsAggregation.StringStatsAggregation.constructor | typedapi/types/stringstatsaggregation.go:91-95 | Every field starts absent. |
| TypesStringStatsAggregation.StringStatsAggregation.UnmarshalJSON | typedapi/types/stringstatsaggregation.go:41-88 | The loop equals `DecodeMembers(Step, …)`. |
| TypesStringStatsAggregation.DecodeMeaning | typedapi/types/stringstatsaggregation.go:54-85 | Decoding fails iff field is neither string nor null, or show_distribution is a rejected string. Otherwise field, missing, script and show_distribution are at their last assignments. show_distribution becomes present only from a bool or a boolean string. |
| TypesElisionTokenFilter.ElisionTokenFilter.constructor | typedapi/types/elisiontokenfilter.go:100-106 | Type is "elision", and every other field is unset. |
| TypesElisionTokenFilter.ElisionTokenFilter.UnmarshalJSON | typedapi/types/elisiontokenfilter.go:42-97 | The loop equals `DecodeMembers(Step, …)`. An articles array is decoded into the slice already held. |
| TypesElisionTokenFilter.DecodeFailsIff | typedapi/types/elisiontokenfilter.go:55-94 | Decoding fails iff any of these cannot be decoded: articles, articles_case (a rejected boolean string), type, or version. Members with only articles_path and unknown keys never fail. |
| TypesElisionTokenFilter.DecodeMeaning | typedapi/types/elisiontokenfilter.go:55-94 | After a successful decode, articles_case, articles_path, type and version are at their last assignments, so a "type" string replaces the default. articles holds the articles arrays merged in order: each array sets the length, and a null element keeps the string an earlier array put at its index. |
| TypesElisionTokenFilter.RepeatedArticlesNull | typedapi/types/elisiontokenfilter.go:57-60 | `{"articles":["a","b"],"articles":["x",null]}` decodes, and articles is ["x", "b"]. |
| TypesElisionTokenFilter.ArticlesPathIsRaw | typedapi/types/elisiontokenfilter.go:76-82 | articles_path stores the value's raw text and never fails. A JSON string keeps its quotes. |
| TypesDataframeClassificationSummaryMulticlassConfusionMatrix.DataframeClassificationSummaryMulticlassConfusionMatrix.constructor | typedapi/types/dataframeclassificationsummarymulticlassconfusionmatrix.go:81-85 | The matrix starts empty and the count at zero. |
| TypesDataframeClassificationSummaryMulticlassConfusionMatrix.DataframeClassificationSummaryMulticlassConfusionMatrix.UnmarshalJSON | typedapi/types/dataframeclassificationsummarymulticlassconfusionmatrix.go:39-78 | The loop equals `DecodeMembers(Step, …)`. |
| TypesDataframeClassificationSummaryMulticlassConfusionMatrix.DecodeMeaning | typedapi/types/dataframeclassificationsummarymulticlassconfusionmatrix.go:52-75 | Decoding fails iff confusion_matrix is neither an array nor null, or other_actual_class_count is a malformed string. Otherwise both are at their last assignments. |
| TypesMatrixStatsAggregate.MatrixStatsAggregate.constructor | typedapi/types/matrixstatsaggregate.go:86-90 | Every field starts empty or zero. |
| TypesMatrixStatsAggregate.MatrixStatsAggregate.UnmarshalJSON | typedapi/types/matrixstatsaggregate.go:40-83 | The loop equals `DecodeMembers(Step, …)`. |
| TypesMatrixStatsAggregate.DecodeMeaning | typedapi/types/matrixstatsaggregate.go:53-80 | Decoding fails iff doc_count is a malformed int64 string, fields is neither an array nor null, or meta is neither an object nor null. Otherwise doc_count and fields are at their last assignments, and meta holds every meta object merged in order. |
| TypesMatrixStatsAggregate.MetaMerges | typedapi/types/matrixstatsaggregate.go:75-78 | A meta object adds its entries, as raw text, to the map already decoded. A null meta clears it. |
| TypesSignificantLongTermsAggregate.SignificantLongTermsAggregate.constructor | typedapi/types/significantlongtermsaggregate.go:118-122 | Every field starts unset. |
| TypesSignificantLongTermsAggregate.SignificantLongTermsAggregate.UnmarshalJSON | typedapi/types/significantlongtermsaggregate.go:41-115 | The loop equals `DecodeMembers(Step, …)`. |
| TypesSignificantLongTermsAggregate.DecodeMeaning | typedapi/types/significantlongtermsaggregate.go:54-112 | Decoding fails iff bg_count or doc_count is a malformed int64 string, or meta is neither an object nor null. Otherwise each count is at its last assignment, present once a number or numeric string was seen, and buckets is at the last object or array. meta holds every meta object merged in order. |
| TypesSignificantLongTermsAggregate.BucketsShape | typedapi/types/significantlongtermsaggregate.go:71-90 | An object gives keyed buckets and an array gives listed buckets. Any other kind leaves buckets unchanged. |

## Left out

- Concurrency: `scheduleDiscoverNodes` (its goroutine and timer), the client mutex, and the pool's optional `sync.Locker`. The pool swap is one assignment.
- The connection pool: `NewConnectionPool`, `pool.Next`, `poolFunc`, the selector and resurrection are not part of this model. The pool is reduced to the list of connections it is built from, so `NewConnectionPool`'s own error path is not modelled.
- I/O in `getNodesInfo`:
  - building the request with `http.NewRequest`;
  - `setReqURL`, `setReqAuth` and `setReqUserAgent`;
  - the round trip, reading the body, and decoding the JSON envelope.
  The fetch outcome is an input (`NodesFetch`) that carries the decoded nodes or the decoding error.
- Go map iteration order: the nodes map is given as a sequence, and its order is taken as the iteration order. Go randomises it.
- Discovery.Client.GetNodesInfo requires at least one configured URL, where Go would panic on `c.urls[0]`.
- Discovery.Client.GetNodesInfo uses the corrected `GetNodeUrl` (see Findings). With the code as written, bracketed IPv6 publish addresses give a mangled Host.
- Discovery.CollectNodes builds each node's URL with the corrected `GetNodeUrl`, where line 159 of discovery.go calls `getNodeURL` as written. For a bracketed IPv6 publish address, the model gives Host "[::1]:9200" where the program gives "[:9200". The two agree on every address that holds a '/' or at most one ':' (`Discovery.CorrectionAgrees`).
- Discovery.NodesInfoOutcome is stated about `NodesInfo`, which uses the corrected URL parser for the same reason.
- Debug logging in discovery, and instrumentation (`instrument.Start`, `RecordPathPart`, `RecordError`, `Close`) in the endpoint builders.
- In `HttpRequest`: `url.Values.Encode`, `URL.String` and the body reader. The query values stay a map and the URL stays a record. `http.NewRequest`'s error is left out because it cannot fail for these paths and methods. The context is left out too.
- Response bodies: draining and closing them, and the errors from closing, are left out. A body is given by the outcomes of decoding it as the response and as an error, so the response types of the endpoints are not modelled.
- Headers hold one value per key, as `Header.Set` leaves them. `Header.Add` is not used by these files.
- Http.CanonicalHeaderKey models `textproto.CanonicalMIMEHeaderKey` for ASCII keys only. Keys with spaces, and the special handling of some common keys in newer Go releases, are left out.
- Strings.ToLower: ASCII only. Go's `strings.ToLower` also maps non-ASCII letters.
- `string(text)` on bytes: the text is a sequence of characters, with no UTF-8 decoding.
- The enum types `expandwildcard.ExpandWildcard` and `bytes.Bytes` are carried by their names.
- The `json.Decoder` token stream: an object is decoded to a flat list of members. Nested values of unknown keys, and the errors `dec.Decode(&tmp)` ignores, are not modelled.
- JSON numbers are integers that fit in 64 bits. Conversion of non-integral or out-of-range numbers by `int(v)` or `int64(v)` is not modelled.
- Lenient.StringOrNumber does not model Go's float64 step. `encoding/json` decodes a number into `interface{}` as a float64 before `int(v)`, so a number above 2^53 in magnitude is rounded. For example, 9007199254740993 becomes 9007199254740992. Its decimal string goes through `strconv.Atoi` exactly. The lemma's claim that both decode alike holds in the program only for magnitudes up to 2^53.
- Lenient.LenientIntRules: the model's `LenientInt` assigns a JSON number as it is, without this float64 rounding.
- Lenient.DecodeStringList takes the slice's length as the extent of what it holds. In Go, an array longer than the slice but within its spare capacity reuses that capacity. A null element there keeps a string that an even earlier, longer array left, where the model gives "".
- Lenient.DecodeList: decoding of the element types (`ConfusionMatrixItem`, `MatrixStatsFields`, `SignificantLongTermsBucket`) is not part of this model. An array is accepted with its elements kept as JSON values, so element-level decoding errors are not modelled. A repeated key decodes its array into the elements already held: a null element keeps the earlier element, and an object element merges into it. The model replaces them.
- TypesMatrixStatsAggregate.DecodeMeaning states the last array given for fields, without the element-wise merge just described.
- TypesDataframeClassificationSummaryMulticlassConfusionMatrix.DecodeMeaning states the last array given for confusion_matrix, without the element-wise merge just described.
- Strconv.ParseInt: the NumError carries the function and the input, but not the error kind (`ErrSyntax` or `ErrRange`).
- A field's value after a type error: decoding stops and returns the error. The model keeps the fields as the earlier members left them and does not model what `encoding/json` writes into a partly decoded field.
- Json.Render gives raw text with no whitespace and no escaping inside strings. Raw messages are compared by their first character only, as the decoders do.

## Findings

| source | as written | input that shows it | evidently intended | confidence | as-written member | corrected member |
|---|---|---|---|---|---|---|
| estransport/discovery.go:179-184 | Without a '/', the host is the text before the FIRST ':' of the publish address, while the port is the text after the LAST ':'. | publish address "[::1]:9200" (an IPv6 loopback as Elasticsearch publishes it) gives Host "[:9200" | the host is everything before the last ':', so that Host is the publish address itself, "[::1]:9200" | not executed | Discovery.GetNodeUrlAsWritten, Discovery.IPv6AddressMangled | Discovery.GetNodeUrl, Discovery.IPv6AddressKept, Discovery.NodeUrlRules |
