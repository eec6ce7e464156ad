# PhoneAppli API tools: a verified model of the OpenAPI helpers

The repository holds three command-line tools around an OpenAPI 3.0 description of
the PhoneAppli API. They are an analyser of description lengths, a validator, and
an importer into Azure API Management. This project models each tool's decision
logic in Dafny and proves what the tools promise.

- `wrappers.dfy`, module `Wrappers`: `Option` (with `GetOr`, Python's
  `dict.get(key, default)`) and `Result`.
- `open_api.dfy`, module `OpenApi`: the already-parsed document.
  - It keeps the `openapi` string, the `info` block and the Paths Object.
  - The Paths Object is an ordered sequence of (path, Path Item) pairs.
  - A Path Item is a mapping of keys to Operation Objects, or any other YAML value.
  - The file system is a map from path to file. Each file holds its text and what
    the YAML loader makes of it: undecodable, malformed, a mapping, or another value.
- `analyze_descriptions.dfy`, module `AnalyzeDescriptions`: `count_description_lengths`.
  - It is imperative. Nested loops collect endpoint records (`CollectEndpoints`,
    `CollectPath`); each record states the method upper-cased, its path, its
    operation id and summary, its description length and whether it exceeds 1000.
  - The records are sorted longest first. The over-long records are filtered out,
    the extremes are taken, and the table rows and detail blocks are built by loops.
  - Each method is proved equal to a specification function. Lemmas about those
    functions prove the promised properties.
- `validate.dfy`, module `Validate`, a pure module. It models:
  - the summary table (defaults, truncation, path and operation counts);
  - the schema validator, an arbitrary function from the loaded file to a verdict;
  - the exit codes of `main`.
- `import_api.dfy`, module `ImportApi`, a mixed module.
  - Pure parts: info defaults, the environment-to-backend map, `PurePath.suffix`,
    the content format and the gateway URL.
  - `Import` is the import sequence as a function of Azure's answers.
  - The class `Azure` answers from scripted values and records every request in a
    ghost trace. The method `ImportApiToApim` runs the sequence against it.
- `consistency.dfy`, module `Consistency`: the analyser's record count against the
  validator's operation count. They differ by the paths that have a `trace` operation.

## Model

| member | source | states |
|---|---|---|
| OpenApi.InfoOf | src/validate.py:55 | an absent `info` block reads as one with no title, version or description; a present one is returned as is |
| OpenApi.Lookup | src/analyze_descriptions.py:106 | the operation found under a key is an entry of the mapping, and with unique keys it is the value of every entry with that key |
| OpenApi.PresentMethods | src/analyze_descriptions.py:104-105 | the visited method names are at most as many as listed; `PresentMethodsMembers` and `PresentMethodsIsShared` state which they are and how many |
| OpenApi.PresentMethodsMembers | src/analyze_descriptions.py:104-105 | a method name is visited exactly when it is in the method list and is a key of the path item |
| OpenApi.CountKeysIn | src/validate.py:74 | the number of keys of a path item that are listed methods is at most the number of its keys |
| OpenApi.CountKeysInIsShared | src/validate.py:74 | with unique keys, that count is the size of the set of keys that are listed methods |
| OpenApi.PresentMethodsIsShared | src/analyze_descriptions.py:104-105 | for a list without repeats, the visited method names are as many as the keys that are listed methods |
| OpenApi.CountKeysInIsPresentMethods | src/validate.py:74 | counting the keys that are methods equals counting the methods that are keys |
| AnalyzeDescriptions.Upper | src/analyze_descriptions.py:118 | ASCII upper-casing of a method name; `UpperMethodNames` states its value on the eight supported names |
| AnalyzeDescriptions.UpperMethodNames | src/analyze_descriptions.py:118 | each supported method name is stored as its upper-case form |
| AnalyzeDescriptions.EndpointOf | src/analyze_descriptions.py:106-125 | a record keeps the path and the upper-cased method name; a missing description, summary or operation id becomes ""; the length is that of the description; the flag holds iff the length is over 1000 |
| AnalyzeDescriptions.MethodEndpoints | src/analyze_descriptions.py:104-125 | one path item yields at most one record per supported method |
| AnalyzeDescriptions.MethodEndpointsAre | src/analyze_descriptions.py:102-118 | exactly one record per listed method that is a key of the path item, in the order of the list, built from the operation stored under that key; other keys yield nothing |
| AnalyzeDescriptions.PathEndpoints | src/analyze_descriptions.py:99-105 | a path item that is not a mapping yields no record, and none yields more records than there are methods |
| AnalyzeDescriptions.Collected | src/analyze_descriptions.py:99-125 | the records of the whole Paths Object; `CollectedAppend` states they follow path order, `CollectedConsistent` that each is consistent, `CollectEndpoints` that the loops build them |
| AnalyzeDescriptions.CollectedConsistent | src/analyze_descriptions.py:114-124 | every collected record has length equal to its description's length and the flag iff that length is over 1000 |
| AnalyzeDescriptions.CollectedAppend | src/analyze_descriptions.py:99 | records follow path order: a document's records are those of its first paths followed by those of the rest |
| AnalyzeDescriptions.LimitIsExclusive | src/analyze_descriptions.py:124 | a description of exactly 1000 characters is not flagged and one of 1001 is |
| AnalyzeDescriptions.InsertByLength | src/analyze_descriptions.py:129 | one insertion step of the sort lengthens the list by one; the three lemmas below state where the record goes |
| AnalyzeDescriptions.InsertByLengthPermutes | src/analyze_descriptions.py:129 | one insertion step of the sort adds exactly the inserted record |
| AnalyzeDescriptions.InsertByLengthSorted | src/analyze_descriptions.py:129 | inserting into a list sorted longest first keeps it sorted |
| AnalyzeDescriptions.InsertByLengthWithLength | src/analyze_descriptions.py:129 | insertion puts a record ahead of the records of equal length already in the sorted rest (those that came after it in the input), so equal lengths keep input order |
| AnalyzeDescriptions.SortByLengthDesc | src/analyze_descriptions.py:129 | the sort keeps the number of records; `SortByLengthDescFacts` states it is sorted, a permutation and stable |
| AnalyzeDescriptions.SortByLengthDescFacts | src/analyze_descriptions.py:129 | the sort yields non-increasing lengths, is a permutation of its input, and keeps records of equal length in input order (stability) |
| AnalyzeDescriptions.Exceeding | src/analyze_descriptions.py:142-143 | the exceeding list is no longer than the full list |
| AnalyzeDescriptions.ExceedingMembers | src/analyze_descriptions.py:142 | a record is in the exceeding list iff it is in the full list and is flagged |
| AnalyzeDescriptions.ExceedingIsPrefix | src/analyze_descriptions.py:129-142 | in a list sorted longest first, the flagged records are exactly a prefix and no later record is flagged |
| AnalyzeDescriptions.Extremes | src/analyze_descriptions.py:152-154 | the extremes are reported iff there is at least one record; `ExtremesAreMaxMin` states they are the maximum and minimum |
| AnalyzeDescriptions.MaxMinBounds | src/analyze_descriptions.py:152-154 | every length lies between the minimum and the maximum of the list |
| AnalyzeDescriptions.MaxMinAttained | src/analyze_descriptions.py:152-154 | the maximum and the minimum are each the length of some record |
| AnalyzeDescriptions.SortedFirst | src/analyze_descriptions.py:153 | the first record of a list sorted longest first has the maximum length of any permutation of it |
| AnalyzeDescriptions.SortedLast | src/analyze_descriptions.py:154 | the last record of such a list has the minimum length |
| AnalyzeDescriptions.ExtremesAreMaxMin | src/analyze_descriptions.py:152-154 | with at least one record, the reported first and last lengths are the maximum and minimum over all records; with none, nothing is reported |
| AnalyzeDescriptions.Abbreviate | src/analyze_descriptions.py:173 | a summary of at most 30 characters is unchanged, and only such a one; a longer one becomes its first 27 characters and "...", 30 in all |
| AnalyzeDescriptions.Preview | src/analyze_descriptions.py:198 | the preview is a prefix of the description of at most 200 characters, either all of it or 200 characters of it |
| AnalyzeDescriptions.Label | src/analyze_descriptions.py:190-191 | a non-empty id or summary is shown as is; an empty one is shown as the placeholder "未設定" |
| AnalyzeDescriptions.RowOf | src/analyze_descriptions.py:168-176 | a row shows the record's method, path and length, its flag as the status, which for a record the analyser built is set iff the length is over 1000, and its summary abbreviated to 30 characters |
| AnalyzeDescriptions.Rows | src/analyze_descriptions.py:168-176 | one row per sorted record; `SummaryRows` and `BuildRows` state it |
| AnalyzeDescriptions.DetailOf | src/analyze_descriptions.py:188-204 | a block carries its number, the record's method, path and length, and its operation id and summary with an empty one shown as the placeholder; for a flagged record the overflow is at least 1 and length = overflow + 1000; the preview is the first 200 characters of the description (`Preview`); "..." follows iff the description is over 200 characters, else the preview is the whole description |
| AnalyzeDescriptions.Details | src/analyze_descriptions.py:188 | one block per flagged record, numbered from 1; `SummaryDetails` and `BuildDetails` state it |
| AnalyzeDescriptions.Summary | src/analyze_descriptions.py:129-204 | what the analyser computes from the collected records; `SummarySorted`, `SummaryExceeding`, `SummaryRows` and `SummaryDetails` state its parts |
| AnalyzeDescriptions.AnalysisOf | src/analyze_descriptions.py:99-204 | the analysis of a Paths Object; `AnalysisOfFacts` states its properties together |
| AnalyzeDescriptions.Analyze | src/analyze_descriptions.py:77-96 | a missing file gives `FileNotFound`; a document without `paths` gives `NoPathsSection` and no records; the analysis exists iff the file holds a mapping with `paths`, and then it is that of its Paths Object |
| AnalyzeDescriptions.SummarySorted | src/analyze_descriptions.py:129 | the reported records are the collected ones, sorted longest first, stably |
| AnalyzeDescriptions.SummaryExceeding | src/analyze_descriptions.py:142 | the flagged records are a prefix of the report and exactly the collected records whose length is over 1000 |
| AnalyzeDescriptions.SummaryRows | src/analyze_descriptions.py:168-176 | there is one table row per reported record, in order, with its method, path, length and abbreviated summary; for collected records the status is set iff the length is over 1000 |
| AnalyzeDescriptions.SummaryDetails | src/analyze_descriptions.py:188-204 | there is one detail block per flagged record, numbered from 1, each at least 1 character over the limit and previewing the first 200 characters of its description |
| AnalyzeDescriptions.AnalysisOfFacts | src/analyze_descriptions.py:91-204 | for the records collected from a Paths Object: the report is sorted longest first, a stable permutation of them; the flagged records are a prefix of it and exactly those over 1000; the extremes are the maximum and minimum; there is one row per record, with its length, abbreviated summary and a status set iff the length is over 1000; there is one detail block per flagged record, numbered from 1, at least 1 over the limit and previewing the first 200 characters |
| AnalyzeDescriptions.CountDescriptionLengths | src/analyze_descriptions.py:77-207 | the imperative analysis returns exactly `Analyze` of the file system and path |
| AnalyzeDescriptions.CollectEndpoints | src/analyze_descriptions.py:91-125 | the outer loop over the paths builds exactly the collected records |
| AnalyzeDescriptions.CollectPath | src/analyze_descriptions.py:104-125 | the inner loop over the supported methods appends exactly the records of one path item |
| AnalyzeDescriptions.BuildRows | src/analyze_descriptions.py:168-176 | the table loop builds one row per sorted record, in order |
| AnalyzeDescriptions.BuildDetails | src/analyze_descriptions.py:188-204 | the detail loop builds one block per flagged record, numbered from 1 |
| Validate.DescriptionCell | src/validate.py:64-69 | an absent description shows "N/A"; up to 100 characters it is shown as is; a longer one shows its first 100 characters and "...", 103 in all |
| Validate.PathCount | src/validate.py:72-79 | the path count is the number of keys of the Paths Object, non-mapping items included, and 0 when `paths` is absent |
| Validate.ItemOperationCount | src/validate.py:73-77 | a non-mapping path item contributes no operation; a mapping contributes at most its number of keys |
| Validate.OperationCount | src/validate.py:73-77 | the operation count is 0 iff no path item has a counted operation; `OperationCountAppend` states it is a sum over the items |
| Validate.SpecSummary | src/validate.py:55-80 | missing `openapi`, title and version show "N/A", a missing `info` counts as empty, the description cell is as above, and the counts are the path count and the operation count |
| Validate.CountIgnoresOtherKeys | src/validate.py:73-77 | removing a key that is not a counted method (such as `trace` or `parameters`) leaves an item's operation count unchanged |
| Validate.OperationCountAppend | src/validate.py:73-77 | the operation count is a sum over the path items |
| Validate.SampleSummary | tests/conftest.py:22-39 | the sample document of the test suite shows "3.0.0", its title, version and description, 2 paths and 3 operations |
| Validate.EmptySummary | src/validate.py:55-63 | an empty document shows "N/A" in every text cell and counts 0 paths and 0 operations, without failing |
| Validate.LoadOpenApiSpec | src/validate.py:36-45 | a missing file gives `FileNotFound`, a malformed one `InvalidYaml`, and a parsed one its value |
| Validate.ValidateOpenApiSpec | src/validate.py:96-115 | true iff the validator accepts the loaded file; false iff it reports a violation; any other exception is passed on |
| Validate.VerdictSeesWholeFile | src/validate.py:97 | two files that agree on every modelled field can still get exit codes 0 and 1, because the validator reads the whole mapping |
| Validate.Cli | src/validate.py:129-160 | the exit code is 0 or 1; it is 0 iff the arguments name a file holding a mapping that the validator accepts; with fewer than two arguments or a missing file nothing is shown; a loaded mapping is summarised, then validated |
| Validate.ValidatedOnceAfterDisplay | src/validate.py:143-147 | the validator is consulted at most once, and only right after the summary is shown |
| ImportApi.BackendUrl | src/import_api.py:138-147 | "sandbox" and "production" map to their PhoneAppli URLs, and no other environment is accepted |
| ImportApi.ApiInfoOf | src/import_api.py:65-70 | present info fields are returned unchanged; missing ones become "Imported API", "1.0" and "" |
| ImportApi.ApiInfoFromFile | src/import_api.py:62-70 | the info exists iff the file holds a mapping, and then comes from it |
| ImportApi.LoadText | src/import_api.py:43-49 | the text exists iff the file exists and is readable, and is the file's text |
| ImportApi.LastIndexOf | src/import_api.py:189 | `str.rfind`: the result is -1 or an index holding the character |
| ImportApi.LastIndexOfIsLast | src/import_api.py:189 | no later index holds the character |
| ImportApi.FileNameIsLastComponent | src/import_api.py:189 | the file name is the end of the path after its last '/', and holds no '/' |
| ImportApi.SuffixIsLastDot | src/import_api.py:189 | the suffix is empty, or an end of the name longer than one character that starts at the name's last '.', this '.' not being its first character |
| ImportApi.SuffixIsJson | src/import_api.py:189 | the suffix is ".json" iff the name is longer than ".json" and ends with it |
| ImportApi.FileName | src/import_api.py:189 | the file name is no longer than the path; `FileNameIsLastComponent` states it is what follows the last '/' |
| ImportApi.Suffix | src/import_api.py:189 | a non-empty suffix is shorter than the name; `SuffixIsLastDot` and `SuffixIsJson` state which end of the name it is |
| ImportApi.FormatFor | src/import_api.py:189 | the content format of a file; `FormatForJson` and `FormatExamples` state it |
| ImportApi.FormatForJson | src/import_api.py:189 | the format is `OPENAPI_LINK` iff the file name is longer than ".json" and ends with it, and `OPENAPI` otherwise |
| ImportApi.FormatExamples | src/import_api.py:189 | "openapi.json" gives `OPENAPI_LINK`; "openapi.yaml" and the hidden file ".json" give `OPENAPI` |
| ImportApi.GatewayUrl | src/import_api.py:256 | the gateway URL is "https://", then the service name, then ".azure-api.net/", then the path, and nothing else |
| ImportApi.ParamsFor | src/import_api.py:182-192 | the API is created with the info's title and description, the backend URL, the configured path, HTTPS, the suffix's format, the file text, and a subscription required |
| ImportApi.PolicyContractFor | src/import_api.py:229-232 | the policy is the API-key header rule in XML format; `ImportSuccess` states it is what the policy request sends |
| ImportApi.ReportFor | src/import_api.py:244-256 | the report of a successful import; `ImportSuccess` states it uses the path Azure returned and the gateway URL |
| ImportApi.Import | src/import_api.py:136-272 | the import succeeds iff every step does; a report exists iff it succeeds |
| ImportApi.Deploy | src/import_api.py:209-242 | the gateway changes succeed iff the create call returns an API and the policy call succeeds |
| ImportApi.ImportOrder | src/import_api.py:157-240 | the requests come in protocol order, from sign-in and listing to create and policy; create and policy use the first subscription and the configured names; the policy request uses id "policy" and comes only after a create that returned |
| ImportApi.InvalidEnvironmentSendsNothing | src/import_api.py:143-145 | any environment but "sandbox" or "production" makes the import fail before any request |
| ImportApi.NoChangeWithoutSubscriptionOrDocument | src/import_api.py:165-175 | with no subscription, or a document that cannot be read, the import fails and nothing is created or changed |
| ImportApi.ImportSuccess | src/import_api.py:209-262 | a successful import sends exactly four requests, one create then one policy, with the expected parameters; its report's gateway URL uses the path Azure returned |
| ImportApi.Azure.constructor | src/import_api.py:157-163 | a fresh client has sent nothing |
| ImportApi.Azure.Authenticate | src/import_api.py:157 | records constructing the credential chain and answers whether that construction succeeded; no token is fetched here, so a credential that cannot get one first fails the listing request |
| ImportApi.Azure.ListSubscriptions | src/import_api.py:162-163 | records a listing request and answers the scripted subscriptions |
| ImportApi.Azure.CreateOrUpdateApi | src/import_api.py:209-214 | records the create request with its arguments and answers the scripted result |
| ImportApi.Azure.CreateOrUpdatePolicy | src/import_api.py:234-240 | records the policy request with its arguments and answers whether it succeeded |
| ImportApi.ImportApiToApim | src/import_api.py:136-272 | the imperative import returns what `Import` says and appends exactly its requests to the trace |
| ImportApi.DeployApi | src/import_api.py:209-242 | the create and the policy call, as `Deploy` says |
| ImportApi.ConfigFor | src/import_api.py:286-300 | an environment outside "sandbox" and "production" is refused; otherwise the three required options are kept, an omitted `--api-id`, `--api-path` or `--environment` becomes "phoneappli-api", "phoneappli" or "sandbox", a given one is kept, and the environment has a backend URL |
| ImportApi.ParsedConfigHasBackend | src/import_api.py:292-300 | the import of a configuration argparse accepts always passes the environment check and starts by constructing the credential |
| ImportApi.Cli | src/import_api.py:303-321 | the exit code is 0 or 1; a missing file gives 1 with no request sent; otherwise the code is 0 iff the import succeeds |
| ImportApi.RunCli | src/import_api.py:303-321 | the imperative entry point returns what `Cli` says and sends its requests |
| Consistency.TraceCount | src/analyze_descriptions.py:102 | at most one `trace` operation per path |
| Consistency.ItemRecords | src/analyze_descriptions.py:102-105 | for one mapping, the analyser's records are the validator's operations plus its `trace` operation, if any |
| Consistency.RecordCountIsOperationCountPlusTrace | src/validate.py:73-77 | with unique keys, the analyser's record count is the validator's operation count plus the number of paths with `trace` |
| Consistency.CountsAgreeWithoutTrace | src/validate.py:73-77 | without `trace` operations the two counts agree |

## Left out

- Console output is not modelled: the Rich tables and panels, `print`, the progress spinners and column widths. What is shown is kept as values (`Row`, `Detail`, `SpecInfo`, `ImportReport`).
- The analyser's average length and exceed percentage are not modelled; they are floating-point display values.
- YAML parsing and file reading are inputs. Each file comes with its outcome: undecodable, malformed, a mapping, or another value.
- The analyser takes a top-level YAML value that is not a mapping as `Aborted`. In the source the membership test `'paths' not in spec` raises an uncaught `TypeError` for `null`, an integer or a float. A list holding "paths", or a string containing it, passes that test and then raises a `TypeError` at `spec['paths'].items()`. Any other list or string ends with the missing-`paths` message.
- A Path Item that is not a mapping contributes no record to the analyser. The source would raise on most such values.
- Operation values are modelled as mappings and their fields and the info fields as strings. A present but `null` value is not modelled. In the source:
  - in the analyser, a `null` operation raises at `operation.get` (line 109), a `null` description at `len` (line 114) and a `null` summary at `len` (line 173), all uncaught; a `null` operation id does not raise and is shown as "未設定" (line 190);
  - in the validator, a `null` info description raises at `len` (line 67), so `main` returns 1 without validating; a `null` `openapi`, title or version is handed to the table without raising;
  - in the importer, a `null` title, version or description is passed on as `None` and nothing in the tool raises.
- An `info` or `paths` key that is present with a `null` or non-mapping value is not modelled: `Document` holds only an absent key (`None`) or a mapping. In the source such values raise. In the validator, `display_spec_info` raises (`None.get` for `info`, `.values()` for `paths`) and `main` returns 1 without validating, while the model shows "N/A" or counts and validates. In the analyser, `spec['paths'].items()` raises an uncaught error. In the importer, `info.get` raises and the import returns False.
- The OpenAPI schema validator is a parameter, a function from the loaded file to a verdict. It sees the file's text, which fixes the whole mapping; the parts not kept in `Document` (such as `responses`, `servers` and `components`) are available to it only through that text.
- The Azure SDK is an oracle with scripted answers, and its answers do not depend on the request. Building the `ApiManagementClient` and `SubscriptionClient` objects is not recorded as a request.
- The policy XML is a single token (`RequireApiKeyHeader`). It is a constant with nothing to prove about it.
- Reading `sys.argv` is not modelled: option spellings, the short forms and the error for a missing required option. `ConfigFor` starts from the options as given and models the defaults and `choices`; the importer's `Cli` takes the configuration it yields.
- The analyser's `main` is not modelled: the default file name, its existence check and the warning for non-YAML suffixes. Only `count_description_lengths` is.
- Paths are not normalised. A path's file name is what follows its last '/', so Windows separators and trailing slashes are not treated as `pathlib` would.
- The in-place `list.sort` is modelled on values as a stable insertion sort, with its output fixed by sortedness, permutation and stability. Any stable sort by the same key yields the same list.
- Python's `str.upper` is modelled for ASCII letters only. Only the method names are upper-cased.
