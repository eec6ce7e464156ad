/**
 * The import command: it maps the target environment to a backend URL, signs in
 * to Azure and picks the first subscription, reads the document, creates or
 * updates the API in an API Management service, and then attaches the API-level
 * policy that requires the `X-Pa-Api-Key` header. Azure is an oracle with
 * scripted answers; every request sent to it is recorded in a ghost trace.
 */
module ImportApi {
  import opened Wrappers
  import opened OpenApi

  const SandboxUrl: string := "https://api-sandbox.phoneappli.net/v1"
  const ProductionUrl: string := "https://api.phoneappli.net/v1"
  const DefaultApiId: string := "phoneappli-api"
  const DefaultApiPath: string := "phoneappli"
  const DefaultEnvironment: string := "sandbox"
  /** The identifier under which the API-level policy is stored. */
  const PolicyId: string := "policy"
  const DefaultTitle: string := "Imported API"
  const DefaultVersion: string := "1.0"

  // ----- the pure parts -----

  /** `environment_urls[environment]`, for the two environments there are. */
  function BackendUrl(environment: string): (url: Option<string>)
    ensures url.Some? <==> environment == "sandbox" || environment == "production"
    ensures environment == "sandbox" ==> url == Some(SandboxUrl)
    ensures environment == "production" ==> url == Some(ProductionUrl)
  {
    if environment == "sandbox" then Some(SandboxUrl)
    else if environment == "production" then Some(ProductionUrl)
    else None
  }

  datatype ApiInfo = ApiInfo(title: string, version: string, description: string)

  /** `get_api_info_from_spec` on a loaded mapping: the info fields, with defaults for the missing ones. */
  function ApiInfoOf(doc: Document): (a: ApiInfo)
    ensures InfoOf(doc).title.Some? ==> a.title == InfoOf(doc).title.value
    ensures InfoOf(doc).title.None? ==> a.title == DefaultTitle
    ensures InfoOf(doc).version.Some? ==> a.version == InfoOf(doc).version.value
    ensures InfoOf(doc).version.None? ==> a.version == DefaultVersion
    ensures InfoOf(doc).description.Some? ==> a.description == InfoOf(doc).description.value
    ensures InfoOf(doc).description.None? ==> a.description == ""
  {
    var info := InfoOf(doc);
    ApiInfo(info.title.GetOr(DefaultTitle), info.version.GetOr(DefaultVersion), info.description.GetOr(""))
  }

  /** `get_api_info_from_spec`: nothing when the file is missing, unreadable, malformed or not a mapping. */
  function ApiInfoFromFile(files: FileSystem, path: string): (a: Option<ApiInfo>)
    ensures a.Some? <==> path in files && files[path].contents.Parsed? && files[path].contents.value.DocumentValue?
    ensures a.Some? ==> a.value == ApiInfoOf(files[path].contents.value.doc)
  {
    if path in files && files[path].contents.Parsed? && files[path].contents.value.DocumentValue? then
      Some(ApiInfoOf(files[path].contents.value.doc))
    else None
  }

  /** `load_openapi_spec`: the raw text of an existing, readable file. */
  function LoadText(files: FileSystem, path: string): (text: Option<string>)
    ensures text.Some? <==> path in files && !files[path].contents.Undecodable?
    ensures text.Some? ==> text.value == files[path].text
  {
    if path in files && !files[path].contents.Undecodable? then Some(files[path].text) else None
  }

  /** `str.rfind`: the index of the last `c` in `s`, or -1. */
  function LastIndexOf(s: string, c: char): (i: int)
    ensures -1 <= i < |s|
    ensures i >= 0 ==> s[i] == c
  {
    if s == [] then -1
    else if s[|s| - 1] == c then |s| - 1
    else LastIndexOf(s[..|s| - 1], c)
  }

  /** No `c` follows the index `str.rfind` reports; so -1 means there is none. */
  lemma {:induction false} LastIndexOfIsLast(s: string, c: char)
    ensures forall j :: LastIndexOf(s, c) < j < |s| ==> s[j] != c
  {
    if s != [] && s[|s| - 1] != c {
      LastIndexOfIsLast(s[..|s| - 1], c);
    }
  }

  /** The last component of a path: everything after its last '/'. */
  function FileName(path: string): (name: string)
    ensures |name| <= |path|
  {
    if path == [] || path[|path| - 1] == '/' then []
    else FileName(path[..|path| - 1]) + [path[|path| - 1]]
  }

  /** The file name is the longest end of the path without a '/'. */
  lemma {:induction false} FileNameIsLastComponent(path: string)
    ensures var name := FileName(path);
      && '/' !in name
      && name == path[|path| - |name|..]
      && (|name| < |path| ==> path[|path| - |name| - 1] == '/')
  {
    if path != [] && path[|path| - 1] != '/' {
      var init := path[..|path| - 1];
      FileNameIsLastComponent(init);
      var name := FileName(init);
      assert path[|path| - |name| - 1..] == init[|init| - |name|..] + [path[|path| - 1]];
    }
  }

  /**
   * `PurePath.suffix` of a file name: from its last '.' on, unless there is none,
   * it starts the name (a hidden file), or it ends the name.
   */
  function Suffix(name: string): (suffix: string)
    ensures |suffix| < |name| || suffix == ""
  {
    var i := LastIndexOf(name, '.');
    if 0 < i < |name| - 1 then name[i..] else ""
  }

  /** A non-empty suffix is an end of the name, starts with its only '.', and has something after it. */
  lemma SuffixIsLastDot(name: string)
    ensures var suffix := Suffix(name);
      suffix == "" || (1 < |suffix| < |name| && suffix == name[|name| - |suffix|..] && suffix[0] == '.'
                       && '.' !in suffix[1..])
  {
    LastIndexOfIsLast(name, '.');
    var i := LastIndexOf(name, '.');
    if 0 < i < |name| - 1 {
      var suffix := name[i..];
      assert forall j :: 0 <= j < |suffix| - 1 ==> suffix[1..][j] == name[i + 1 + j];
    }
  }

  datatype ContentFormat = OpenApi | OpenApiLink

  /** `OPENAPI_LINK` for a ".json" file, `OPENAPI` for anything else. */
  function FormatFor(path: string): ContentFormat {
    if Suffix(FileName(path)) == ".json" then OpenApiLink else OpenApi
  }

  /** A file name has the suffix ".json" exactly when it is longer than ".json" and ends with it. */
  lemma SuffixIsJson(name: string)
    ensures Suffix(name) == ".json" <==> |name| > 5 && name[|name| - 5..] == ".json"
  {
    if |name| > 5 && name[|name| - 5..] == ".json" {
      LastIndexOfIsLast(name, '.');
      var i := LastIndexOf(name, '.');
      var tail := name[|name| - 5..];
      assert name[|name| - 5] == tail[0] == '.';
      assert i >= |name| - 5;
      assert forall j :: |name| - 5 < j < |name| ==> name[j] == tail[j - (|name| - 5)] && tail[j - (|name| - 5)] != '.';
      assert i == |name| - 5;
    }
  }

  /** The format is `OPENAPI_LINK` exactly when the file name is longer than ".json" and ends with it. */
  lemma FormatForJson(path: string)
    ensures var name := FileName(path);
      FormatFor(path) == OpenApiLink <==> |name| > 5 && name[|name| - 5..] == ".json"
  {
    SuffixIsJson(FileName(path));
  }

  /** A path without '/' is its own file name. */
  lemma {:induction false} FileNameOfBareName(path: string)
    requires '/' !in path
    ensures FileName(path) == path
  {
    if path != [] {
      assert '/' !in path[..|path| - 1] && path[|path| - 1] != '/';
      FileNameOfBareName(path[..|path| - 1]);
      assert path == path[..|path| - 1] + [path[|path| - 1]];
    }
  }

  /** The import format of a JSON and a YAML file of the working directory, and of a hidden ".json" file. */
  lemma FormatExamples()
    ensures FormatFor("openapi.json") == OpenApiLink
    ensures FormatFor("openapi.yaml") == OpenApi
    ensures FormatFor(".json") == OpenApi
  {
    FileNameOfBareName("openapi.json");
    FormatForJson("openapi.json");
    FileNameOfBareName("openapi.yaml");
    FormatForJson("openapi.yaml");
    assert "openapi.yaml"[7..] != ".json" by { assert "openapi.yaml"[8] == 'y'; }
    FileNameOfBareName(".json");
    FormatForJson(".json");
  }

  /** The address of the API on the service's gateway. */
  function GatewayUrl(apimName: string, apiPath: string): (url: string)
    ensures |url| == |apimName| + |apiPath| + 23
    ensures url[..8] == "https://"
    ensures url[|url| - |apiPath|..] == apiPath
    ensures url[8..8 + |apimName|] == apimName
    ensures url[8 + |apimName|..|url| - |apiPath|] == ".azure-api.net/"
  {
    "https://" + apimName + ".azure-api.net/" + apiPath
  }

  // ----- what is sent to Azure -----

  datatype Protocol = Https
  datatype ApiType = Http

  /** `ApiCreateOrUpdateParameter` */
  datatype ApiParams = ApiParams(
    displayName: string,
    description: string,
    serviceUrl: string,
    path: string,
    protocols: seq<Protocol>,
    apiType: ApiType,
    format: ContentFormat,
    value: string,
    subscriptionRequired: bool)

  /** The policy XML that answers 401 when the `X-Pa-Api-Key` header is missing or empty. */
  datatype PolicyDocument = RequireApiKeyHeader

  datatype PolicyContract = PolicyContract(value: PolicyDocument, format: string)

  /** What the create call returns. */
  datatype ApiResult = ApiResult(displayName: string, path: string, name: string)

  /** A request sent to Azure. */
  datatype Call =
    | Authenticate
    | ListSubscriptions
    | CreateApi(resourceGroup: string, serviceName: string, subscriptionId: string, apiId: string, params: ApiParams)
    | SetPolicy(resourceGroup: string, serviceName: string, subscriptionId: string, apiId: string,
                policyId: string, contract: PolicyContract)

  /**
   * How Azure answers: whether constructing `DefaultAzureCredential()` succeeds (it
   * fetches no token; a credential that cannot get one first fails the listing call),
   * the subscriptions (or `None` when listing them raises, for that reason or any
   * other), the created API (or `None` when the create call raises), and whether the
   * policy call succeeds.
   */
  datatype Remote = Remote(
    credentialBuilt: bool,
    subscriptions: Option<seq<string>>,
    created: Option<ApiResult>,
    policyAccepted: bool)

  datatype ImportConfig = ImportConfig(
    resourceGroup: string,
    apimName: string,
    specPath: string,
    apiId: string,
    apiPath: string,
    environment: string)

  /** What the success panel shows. */
  datatype ImportReport = ImportReport(
    name: string,
    version: string,
    path: string,
    apiId: string,
    environment: string,
    backendUrl: string,
    gatewayUrl: string)

  function ParamsFor(info: ApiInfo, serviceUrl: string, cfg: ImportConfig, text: string): (p: ApiParams)
    ensures p.displayName == info.title && p.description == info.description
    ensures p.serviceUrl == serviceUrl && p.path == cfg.apiPath && p.value == text
    ensures p.format == FormatFor(cfg.specPath)
    ensures p.protocols == [Https] && p.subscriptionRequired
  {
    ApiParams(info.title, info.description, serviceUrl, cfg.apiPath, [Https], Http, FormatFor(cfg.specPath), text, true)
  }

  function PolicyContractFor(): PolicyContract {
    PolicyContract(RequireApiKeyHeader, "xml")
  }

  function ReportFor(result: ApiResult, info: ApiInfo, cfg: ImportConfig, serviceUrl: string): ImportReport {
    ImportReport(result.displayName, info.version, result.path, result.name, cfg.environment, serviceUrl,
                 GatewayUrl(cfg.apimName, result.path))
  }

  // ----- the import sequence -----

  /** The result of one import: whether it succeeded, the requests sent in order, and the report. */
  datatype ImportRun = ImportRun(ok: bool, calls: seq<Call>, report: Option<ImportReport>)

  /** Every step of the import succeeds. */
  ghost predicate AllStepsSucceed(cfg: ImportConfig, files: FileSystem, remote: Remote) {
    && BackendUrl(cfg.environment).Some?
    && remote.credentialBuilt
    && remote.subscriptions.Some? && remote.subscriptions.value != []
    && LoadText(files, cfg.specPath).Some?
    && ApiInfoFromFile(files, cfg.specPath).Some?
    && remote.created.Some?
    && remote.policyAccepted
  }

  /**
   * `import_api_to_apim`, as a function of Azure's answers: each step runs only when
   * the previous ones succeeded, and the first failure, returned or raised, ends the
   * run with `False`.
   */
  function Import(cfg: ImportConfig, files: FileSystem, remote: Remote): (run: ImportRun)
    ensures run.ok <==> AllStepsSucceed(cfg, files, remote)
    ensures run.report.Some? <==> run.ok
  {
    match BackendUrl(cfg.environment)
    case None => ImportRun(false, [], None)
    case Some(serviceUrl) =>
      if !remote.credentialBuilt then ImportRun(false, [Authenticate], None)
      else
        var listed := [Authenticate, ListSubscriptions];
        if remote.subscriptions.None? || remote.subscriptions.value == [] then ImportRun(false, listed, None)
        else
          var subscriptionId := remote.subscriptions.value[0];
          var text, info := LoadText(files, cfg.specPath), ApiInfoFromFile(files, cfg.specPath);
          if text.None? || info.None? then ImportRun(false, listed, None)
          else
            var deployed := Deploy(cfg, remote, subscriptionId, info.value, serviceUrl, text.value);
            ImportRun(deployed.ok, listed + deployed.calls, deployed.report)
  }

  /**
   * The two gateway changes, once the document is loaded: create or update the API,
   * and set its policy only when the create call has returned.
   */
  function Deploy(cfg: ImportConfig, remote: Remote, subscriptionId: string, info: ApiInfo, serviceUrl: string,
                  text: string): (run: ImportRun)
    ensures run.ok <==> remote.created.Some? && remote.policyAccepted
    ensures run.report.Some? <==> run.ok
  {
    var create := CreateApi(cfg.resourceGroup, cfg.apimName, subscriptionId, cfg.apiId,
                            ParamsFor(info, serviceUrl, cfg, text));
    if remote.created.None? then ImportRun(false, [create], None)
    else
      var policy := SetPolicy(cfg.resourceGroup, cfg.apimName, subscriptionId, cfg.apiId, PolicyId, PolicyContractFor());
      if !remote.policyAccepted then ImportRun(false, [create, policy], None)
      else ImportRun(true, [create, policy], Some(ReportFor(remote.created.value, info, cfg, serviceUrl)))
  }

  /** The requests follow the fixed order: sign in, list subscriptions, create the API, set its policy. */
  ghost predicate InProtocolOrder(calls: seq<Call>) {
    && |calls| <= 4
    && (|calls| > 0 ==> calls[0].Authenticate?)
    && (|calls| > 1 ==> calls[1].ListSubscriptions?)
    && (|calls| > 2 ==> calls[2].CreateApi?)
    && (|calls| > 3 ==> calls[3].SetPolicy?)
  }

  /**
   * Whatever Azure answers, the requests come in protocol order; the create and
   * policy requests use the first subscription and the configured names; the policy
   * is set only after the create call has returned an API.
   */
  lemma ImportOrder(cfg: ImportConfig, files: FileSystem, remote: Remote)
    ensures var calls := Import(cfg, files, remote).calls;
      && InProtocolOrder(calls)
      && (forall k :: 0 <= k < |calls| && (calls[k].CreateApi? || calls[k].SetPolicy?) ==>
            && remote.subscriptions.Some? && remote.subscriptions.value != []
            && calls[k].subscriptionId == remote.subscriptions.value[0]
            && calls[k].resourceGroup == cfg.resourceGroup
            && calls[k].serviceName == cfg.apimName
            && calls[k].apiId == cfg.apiId)
      && (forall k :: 0 <= k < |calls| && calls[k].SetPolicy? ==>
            && k == 3 && calls[2].CreateApi? && remote.created.Some?
            && calls[k].policyId == PolicyId && calls[k].contract == PolicyContractFor())
  {
    var run := Import(cfg, files, remote);
    if BackendUrl(cfg.environment).None? {
      assert run.calls == [];
    } else if !remote.credentialBuilt {
      assert run.calls == [Authenticate];
    } else if remote.subscriptions.None? || remote.subscriptions.value == []
        || LoadText(files, cfg.specPath).None? || ApiInfoFromFile(files, cfg.specPath).None? {
      assert run.calls == [Authenticate, ListSubscriptions];
    } else {
      var subscriptionId := remote.subscriptions.value[0];
      var create := CreateApi(cfg.resourceGroup, cfg.apimName, subscriptionId, cfg.apiId,
                              ParamsFor(ApiInfoFromFile(files, cfg.specPath).value, BackendUrl(cfg.environment).value,
                                        cfg, LoadText(files, cfg.specPath).value));
      var policy := SetPolicy(cfg.resourceGroup, cfg.apimName, subscriptionId, cfg.apiId, PolicyId, PolicyContractFor());
      if remote.created.None? {
        assert run.calls == [Authenticate, ListSubscriptions, create];
      } else {
        assert run.calls == [Authenticate, ListSubscriptions, create, policy];
      }
    }
  }

  /** An environment other than "sandbox" or "production" fails before any request is sent. */
  lemma InvalidEnvironmentSendsNothing(cfg: ImportConfig, files: FileSystem, remote: Remote)
    requires cfg.environment != "sandbox" && cfg.environment != "production"
    ensures Import(cfg, files, remote) == ImportRun(false, [], None)
  {
  }

  /** Without a subscription, or with a document that cannot be read, nothing is created or changed. */
  lemma NoChangeWithoutSubscriptionOrDocument(cfg: ImportConfig, files: FileSystem, remote: Remote)
    requires remote.subscriptions == Some([])
      || LoadText(files, cfg.specPath).None?
      || ApiInfoFromFile(files, cfg.specPath).None?
    ensures var run := Import(cfg, files, remote);
      && !run.ok
      && forall k :: 0 <= k < |run.calls| ==> !run.calls[k].CreateApi? && !run.calls[k].SetPolicy?
  {
  }

  /**
   * A successful import sends exactly four requests, one create and then one policy
   * request; the API is created from the document's info, the environment's backend
   * and the file's text, and the report's gateway URL uses the path Azure returned.
   */
  lemma ImportSuccess(cfg: ImportConfig, files: FileSystem, remote: Remote)
    requires AllStepsSucceed(cfg, files, remote)
    ensures var run, info, result := Import(cfg, files, remote), ApiInfoFromFile(files, cfg.specPath).value, remote.created.value;
      && run.ok
      && |run.calls| == 4
      && run.calls[2] == CreateApi(cfg.resourceGroup, cfg.apimName, remote.subscriptions.value[0], cfg.apiId,
                                   ParamsFor(info, BackendUrl(cfg.environment).value, cfg, LoadText(files, cfg.specPath).value))
      && run.calls[3] == SetPolicy(cfg.resourceGroup, cfg.apimName, remote.subscriptions.value[0], cfg.apiId,
                                   PolicyId, PolicyContractFor())
      && run.report == Some(ImportReport(result.displayName, info.version, result.path, result.name,
                                         cfg.environment, BackendUrl(cfg.environment).value,
                                         GatewayUrl(cfg.apimName, result.path)))
  {
  }

  // ----- Azure, and the imperative import -----

  /** The Azure clients the command talks to, answering from `remote`, with every request recorded. */
  class Azure {
    const remote: Remote
    ghost var calls: seq<Call>

    constructor (remote: Remote)
      ensures this.remote == remote && calls == []
    {
      this.remote := remote;
      calls := [];
    }

    /** `DefaultAzureCredential()`: builds the credential chain, or raises. */
    method Authenticate() returns (ok: bool)
      modifies this
      ensures ok == remote.credentialBuilt
      ensures calls == old(calls) + [Call.Authenticate]
    {
      ok := remote.credentialBuilt;
      calls := calls + [Call.Authenticate];
    }

    /** `SubscriptionClient(credential).subscriptions.list()` */
    method ListSubscriptions() returns (subscriptions: Option<seq<string>>)
      modifies this
      ensures subscriptions == remote.subscriptions
      ensures calls == old(calls) + [Call.ListSubscriptions]
    {
      subscriptions := remote.subscriptions;
      calls := calls + [Call.ListSubscriptions];
    }

    /** `api.begin_create_or_update(...).result()` */
    method CreateOrUpdateApi(resourceGroup: string, serviceName: string, subscriptionId: string, apiId: string,
                             params: ApiParams) returns (result: Option<ApiResult>)
      modifies this
      ensures result == remote.created
      ensures calls == old(calls) + [CreateApi(resourceGroup, serviceName, subscriptionId, apiId, params)]
    {
      result := remote.created;
      calls := calls + [CreateApi(resourceGroup, serviceName, subscriptionId, apiId, params)];
    }

    /** `api_policy.create_or_update(...)` */
    method CreateOrUpdatePolicy(resourceGroup: string, serviceName: string, subscriptionId: string, apiId: string,
                                policyId: string, contract: PolicyContract) returns (ok: bool)
      modifies this
      ensures ok == remote.policyAccepted
      ensures calls == old(calls) + [SetPolicy(resourceGroup, serviceName, subscriptionId, apiId, policyId, contract)]
    {
      ok := remote.policyAccepted;
      calls := calls + [SetPolicy(resourceGroup, serviceName, subscriptionId, apiId, policyId, contract)];
    }
  }

  /** `import_api_to_apim`: the ordered requests, with an early `False` at each failure. */
  method ImportApiToApim(cfg: ImportConfig, files: FileSystem, azure: Azure) returns (ok: bool, report: Option<ImportReport>)
    modifies azure
    ensures var run := Import(cfg, files, azure.remote);
      ok == run.ok && report == run.report && azure.calls == old(azure.calls) + run.calls
  {
    ok, report := false, None;
    ghost var run := Import(cfg, files, azure.remote);
    var serviceUrl := BackendUrl(cfg.environment);
    if serviceUrl.None? {
      assert run == ImportRun(false, [], None);
      return;
    }
    var signedIn := azure.Authenticate();
    if !signedIn {
      assert run == ImportRun(false, [Call.Authenticate], None);
      return;
    }
    var subscriptions := azure.ListSubscriptions();
    if subscriptions.None? || subscriptions.value == [] {
      assert run == ImportRun(false, [Call.Authenticate, Call.ListSubscriptions], None);
      return;
    }
    var subscriptionId := subscriptions.value[0];
    var text := LoadText(files, cfg.specPath);
    var info := ApiInfoFromFile(files, cfg.specPath);
    var listed := [Call.Authenticate, Call.ListSubscriptions];
    if text.None? || info.None? {
      assert run == ImportRun(false, listed, None);
      return;
    }
    ghost var before := azure.calls;
    assert before == old(azure.calls) + listed;
    ghost var deployed := Deploy(cfg, azure.remote, subscriptionId, info.value, serviceUrl.value, text.value);
    assert run == ImportRun(deployed.ok, listed + deployed.calls, deployed.report);
    ok, report := DeployApi(cfg, azure, subscriptionId, info.value, serviceUrl.value, text.value);
    assert azure.calls == old(azure.calls) + (listed + deployed.calls);
  }

  /** The create call and, once it has returned, the policy call. */
  method DeployApi(cfg: ImportConfig, azure: Azure, subscriptionId: string, info: ApiInfo, serviceUrl: string,
                   text: string) returns (ok: bool, report: Option<ImportReport>)
    modifies azure
    ensures var run := Deploy(cfg, azure.remote, subscriptionId, info, serviceUrl, text);
      ok == run.ok && report == run.report && azure.calls == old(azure.calls) + run.calls
  {
    ok, report := false, None;
    var params := ParamsFor(info, serviceUrl, cfg, text);
    var result := azure.CreateOrUpdateApi(cfg.resourceGroup, cfg.apimName, subscriptionId, cfg.apiId, params);
    if result.None? {
      return;
    }
    var policySet := azure.CreateOrUpdatePolicy(cfg.resourceGroup, cfg.apimName, subscriptionId, cfg.apiId,
                                                PolicyId, PolicyContractFor());
    if !policySet {
      return;
    }
    ok, report := true, Some(ReportFor(result.value, info, cfg, serviceUrl));
  }

  // ----- the command -----

  /** The environments `--environment` accepts (argparse `choices`). */
  const EnvironmentChoices: seq<string> := ["sandbox", "production"]

  /** The options as given on the command line; an omitted optional one is `None`. */
  datatype Options = Options(
    resourceGroup: string,
    apimName: string,
    openapiSpec: string,
    apiId: Option<string>,
    apiPath: Option<string>,
    environment: Option<string>)

  /**
   * What `parser.parse_args()` hands to `main`: omitted options take their defaults,
   * and an environment outside `choices` is refused (`None`: argparse reports it and
   * exits with status 2 before `main` goes on).
   */
  function ConfigFor(opts: Options): (cfg: Option<ImportConfig>)
    ensures cfg.Some? <==> opts.environment.None? || opts.environment.value in EnvironmentChoices
    ensures cfg.Some? ==> BackendUrl(cfg.value.environment).Some?
    ensures cfg.Some? ==>
      && cfg.value.resourceGroup == opts.resourceGroup
      && cfg.value.apimName == opts.apimName
      && cfg.value.specPath == opts.openapiSpec
    ensures cfg.Some? && opts.apiId.None? ==> cfg.value.apiId == DefaultApiId
    ensures cfg.Some? && opts.apiId.Some? ==> cfg.value.apiId == opts.apiId.value
    ensures cfg.Some? && opts.apiPath.None? ==> cfg.value.apiPath == DefaultApiPath
    ensures cfg.Some? && opts.apiPath.Some? ==> cfg.value.apiPath == opts.apiPath.value
    ensures cfg.Some? && opts.environment.None? ==> cfg.value.environment == DefaultEnvironment
    ensures cfg.Some? && opts.environment.Some? ==> cfg.value.environment == opts.environment.value
  {
    var environment := opts.environment.GetOr(DefaultEnvironment);
    if environment !in EnvironmentChoices then None
    else Some(ImportConfig(opts.resourceGroup, opts.apimName, opts.openapiSpec,
                           opts.apiId.GetOr(DefaultApiId), opts.apiPath.GetOr(DefaultApiPath), environment))
  }

  /**
   * A configuration argparse accepts always passes the environment check, so its
   * import gets as far as constructing the credential.
   */
  lemma ParsedConfigHasBackend(opts: Options, files: FileSystem, remote: Remote)
    requires ConfigFor(opts).Some?
    ensures var calls := Import(ConfigFor(opts).value, files, remote).calls;
      |calls| >= 1 && calls[0] == Call.Authenticate
  {
  }

  datatype CliRun = CliRun(exitCode: int, calls: seq<Call>)

  /** `main`, after argument parsing: 1 without importing when the file is missing, else 0 exactly when the import succeeds. */
  function Cli(cfg: ImportConfig, files: FileSystem, remote: Remote): (run: CliRun)
    ensures run.exitCode == 0 || run.exitCode == 1
    ensures cfg.specPath !in files ==> run == CliRun(1, [])
    ensures run.exitCode == 0 <==> cfg.specPath in files && AllStepsSucceed(cfg, files, remote)
    ensures cfg.specPath in files ==> run.calls == Import(cfg, files, remote).calls
  {
    if cfg.specPath !in files then CliRun(1, [])
    else
      var run := Import(cfg, files, remote);
      CliRun(if run.ok then 0 else 1, run.calls)
  }

  /** `main` run against Azure. */
  method RunCli(cfg: ImportConfig, files: FileSystem, azure: Azure) returns (exitCode: int)
    modifies azure
    ensures var run := Cli(cfg, files, azure.remote);
      exitCode == run.exitCode && azure.calls == old(azure.calls) + run.calls
  {
    if cfg.specPath !in files {
      return 1;
    }
    var ok, _ := ImportApiToApim(cfg, files, azure);
    exitCode := if ok then 0 else 1;
  }
}
