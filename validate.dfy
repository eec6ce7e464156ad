/**
 * The validator command: it loads the document, shows a summary of it (version,
 * title, version, description, number of paths and of operations), hands it to an
 * OpenAPI 3.0 schema validator, and turns the outcome into an exit code.
 */
module Validate {
  import opened Wrappers
  import opened OpenApi

  /** What the summary shows for a field the document does not have. */
  const NotAvailable: string := "N/A"
  /** How much of the info description the summary shows before "...". */
  const DescriptionWidth: nat := 100
  /** The keys the summary counts as operations; unlike the analyser it leaves out "trace". */
  const CountedMethods: seq<string> := ["get", "post", "put", "patch", "delete", "options", "head"]

  /** The rows of the summary table. */
  datatype SpecInfo = SpecInfo(
    openapiVersion: string,
    title: string,
    version: string,
    description: string,
    pathCount: nat,
    operationCount: nat)

  /** The description cell: "N/A" when absent, cut to 100 characters and "..." when longer. */
  function DescriptionCell(description: Option<string>): (cell: string)
    ensures description.None? ==> cell == NotAvailable
    ensures description.Some? && |description.value| <= DescriptionWidth ==> cell == description.value
    ensures description.Some? && |description.value| > DescriptionWidth ==>
      && |cell| == DescriptionWidth + 3
      && cell[..DescriptionWidth] == description.value[..DescriptionWidth]
      && cell[DescriptionWidth..] == "..."
  {
    if |description.GetOr("")| > DescriptionWidth then description.value[..DescriptionWidth] + "..."
    else description.GetOr(NotAvailable)
  }

  /** `len(spec.get("paths", {}))`: every key of the Paths Object, whatever its value. */
  function PathCount(paths: Option<Paths>): (n: nat)
    ensures paths.None? ==> n == 0
    ensures paths.Some? ==> n == |paths.value|
  {
    if paths.None? then 0 else |paths.value|
  }

  /** The operations of one path item: its keys that are counted methods, and none for a non-mapping. */
  function ItemOperationCount(item: PathItem): (n: nat)
    ensures item.ItemOther? ==> n == 0
    ensures item.Item? ==> n <= |item.entries|
  {
    match item
    case ItemOther => 0
    case Item(entries) => CountKeysIn(entries, CountedMethods)
  }

  /** The sum of the operation counts of the path items. */
  function OperationCount(paths: Paths): (n: nat)
    ensures n == 0 <==> forall i :: 0 <= i < |paths| ==> ItemOperationCount(paths[i].1) == 0
  {
    if paths == [] then 0
    else OperationCount(paths[..|paths| - 1]) + ItemOperationCount(paths[|paths| - 1].1)
  }

  /** The summary table of a document. */
  function SpecSummary(doc: Document): (s: SpecInfo)
    ensures s.openapiVersion == doc.openapi.GetOr(NotAvailable)
    ensures s.title == InfoOf(doc).title.GetOr(NotAvailable)
    ensures s.version == InfoOf(doc).version.GetOr(NotAvailable)
    ensures s.description == DescriptionCell(InfoOf(doc).description)
    ensures s.pathCount == PathCount(doc.paths)
    ensures doc.paths.None? ==> s.operationCount == 0
    ensures doc.paths.Some? ==> s.operationCount == OperationCount(doc.paths.value)
  {
    var info := InfoOf(doc);
    SpecInfo(
      doc.openapi.GetOr(NotAvailable),
      info.title.GetOr(NotAvailable),
      info.version.GetOr(NotAvailable),
      DescriptionCell(info.description),
      PathCount(doc.paths),
      if doc.paths.None? then 0 else OperationCount(doc.paths.value))
  }

  // ----- what the counts mean -----

  /** Removing one key that is not a counted method leaves the count of a mapping unchanged. */
  lemma {:induction false} CountIgnoresOtherKeys(entries: Entries, i: nat)
    requires i < |entries| && entries[i].0 !in CountedMethods
    ensures CountKeysIn(entries[..i] + entries[i + 1..], CountedMethods) == CountKeysIn(entries, CountedMethods)
  {
    var rest := entries[..i] + entries[i + 1..];
    if i == |entries| - 1 {
      assert rest == entries[..|entries| - 1];
    } else {
      var init := entries[..|entries| - 1];
      CountIgnoresOtherKeys(init, i);
      assert rest[..|rest| - 1] == init[..i] + init[i + 1..];
      assert rest[|rest| - 1] == entries[|entries| - 1];
    }
  }

  /** The operations of a document are those of its first paths and those of the rest. */
  lemma {:induction false} OperationCountAppend(front: Paths, back: Paths)
    ensures OperationCount(front + back) == OperationCount(front) + OperationCount(back)
  {
    if back == [] {
      assert front + back == front;
    } else {
      var init := back[..|back| - 1];
      assert (front + back)[..|front + back| - 1] == front + init;
      assert (front + back)[|front + back| - 1] == back[|back| - 1];
      OperationCountAppend(front, init);
    }
  }

  // ----- the sample documents of the test suite -----

  /** The sample document: two paths, three operations. */
  function SampleSpec(): Document {
    Document(
      Some("3.0.0"),
      Some(Info(Some("PhoneAppli API"), Some("1.0.0"), Some("API for PhoneAppli services"))),
      Some([
        ("/users", Item([("get", Operation(None, Some("Get users"), None)),
                         ("post", Operation(None, Some("Create user"), None))])),
        ("/items", Item([("get", Operation(None, Some("Get items"), None))]))]))
  }

  lemma SampleSummary()
    ensures SpecSummary(SampleSpec())
      == SpecInfo("3.0.0", "PhoneAppli API", "1.0.0", "API for PhoneAppli services", 2, 3)
  {
    var paths := SampleSpec().paths.value;
    var users, items := paths[0].1.entries, paths[1].1.entries;
    assert users[..1] == [users[0]] && users[..1][..0] == [];
    assert CountKeysIn(users[..1], CountedMethods) == 1;
    assert ItemOperationCount(paths[0].1) == 2;
    assert items[..0] == [];
    assert ItemOperationCount(paths[1].1) == 1;
    assert paths[..1] == [paths[0]] && paths[..1][..0] == [];
    assert OperationCount(paths[..1]) == 2;
  }

  /** An empty document shows "N/A" everywhere and counts nothing, without failing. */
  lemma EmptySummary()
    ensures SpecSummary(Document(None, None, None)) == SpecInfo(NotAvailable, NotAvailable, NotAvailable, NotAvailable, 0, 0)
  {
  }

  // ----- loading, validating, exit codes -----

  datatype LoadError = FileNotFound | InvalidYaml | Unreadable

  /** `load_openapi_spec`: the loaded YAML value of an existing, readable, well-formed file. */
  function LoadOpenApiSpec(files: FileSystem, path: string): (r: Result<YamlValue, LoadError>)
    ensures r == Err(FileNotFound) <==> path !in files
    ensures r.Ok? <==> path in files && files[path].contents.Parsed?
    ensures r.Ok? ==> r.value == files[path].contents.value
    ensures r == Err(InvalidYaml) <==> path in files && files[path].contents.Malformed?
  {
    if path !in files then Err(FileNotFound)
    else match files[path].contents
      case Undecodable => Err(Unreadable)
      case Malformed => Err(InvalidYaml)
      case Parsed(v) => Ok(v)
  }

  /**
   * The schema validator's outcome on a document: it accepts, it raises the
   * validator's own error, or it raises some other exception.
   */
  datatype Verdict = Conforms | Violation(message: string) | Crash(message: string)

  /**
   * The schema validator reads the whole mapping, `responses`, `servers` and
   * `components` included, of which `Document` keeps only a part. It is therefore
   * given the loaded file, whose text fixes the whole mapping.
   */
  type Validator = SpecFile -> Verdict

  /**
   * `validate_openapi_spec`: `Ok(true)` when the validator accepts, `Ok(false)` when it
   * reports a violation, and the exception passed on (`Err`) for anything else.
   */
  function ValidateOpenApiSpec(spec: SpecFile, validator: Validator): (r: Result<bool, string>)
    ensures r == Ok(true) <==> validator(spec).Conforms?
    ensures r == Ok(false) <==> validator(spec).Violation?
    ensures r.Err? <==> validator(spec).Crash?
  {
    match validator(spec)
    case Conforms => Ok(true)
    case Violation(_) => Ok(false)
    case Crash(message) => Err(message)
  }

  /** What the command shows, in order: the summary table, then the validation of the loaded file. */
  datatype Event = Displayed(info: SpecInfo) | Validated(spec: SpecFile)

  datatype CliRun = CliRun(exitCode: int, events: seq<Event>)

  /** The document the command would validate, when the arguments name a file holding a mapping. */
  ghost predicate Loads(argv: seq<string>, files: FileSystem, doc: Document) {
    && |argv| >= 2
    && argv[1] in files
    && files[argv[1]].contents == Parsed(DocumentValue(doc))
  }

  /**
   * `main`, after the banner: exit code 1 without arguments, when the file cannot be
   * loaded, when it does not hold a mapping (showing the summary raises), when the
   * validator rejects it or raises; 0 only when the validator accepts it.
   */
  function Cli(argv: seq<string>, files: FileSystem, validator: Validator): (run: CliRun)
    ensures run.exitCode == 0 || run.exitCode == 1
    ensures run.exitCode == 0 <==> exists doc :: Loads(argv, files, doc) && validator(files[argv[1]]).Conforms?
    ensures |argv| < 2 || argv[1] !in files ==> run == CliRun(1, [])
    ensures forall doc :: Loads(argv, files, doc) ==>
      run.events == [Displayed(SpecSummary(doc)), Validated(files[argv[1]])]
    ensures (forall doc :: !Loads(argv, files, doc)) ==> run == CliRun(1, [])
  {
    if |argv| < 2 then CliRun(1, [])
    else match LoadOpenApiSpec(files, argv[1])
      case Err(_) => CliRun(1, [])
      case Ok(OtherValue) => CliRun(1, [])
      case Ok(DocumentValue(doc)) =>
        assert Loads(argv, files, doc);
        var spec := files[argv[1]];
        var events := [Displayed(SpecSummary(doc)), Validated(spec)];
        if ValidateOpenApiSpec(spec, validator) == Ok(true) then CliRun(0, events) else CliRun(1, events)
  }

  /**
   * Two files that agree on every modelled field, one with its `responses` and one
   * without, can get different exit codes: the verdict is not fixed by `Document`.
   */
  lemma VerdictSeesWholeFile()
    ensures var complete := SpecFile("with responses", Parsed(DocumentValue(SampleSpec())));
      var stripped := SpecFile("without responses", Parsed(DocumentValue(SampleSpec())));
      var validator := (f: SpecFile) => if f == complete then Conforms else Violation("responses required");
      && Cli(["validate.py", "openapi.yaml"], map["openapi.yaml" := complete], validator).exitCode == 0
      && Cli(["validate.py", "openapi.yaml"], map["openapi.yaml" := stripped], validator).exitCode == 1
  {
  }

  /** The validator is consulted at most once, and only after the summary is shown. */
  lemma ValidatedOnceAfterDisplay(argv: seq<string>, files: FileSystem, validator: Validator)
    ensures var events := Cli(argv, files, validator).events;
      forall k :: 0 <= k < |events| && events[k].Validated? ==>
        k == 1 && events[0].Displayed? && forall k' :: 0 <= k' < |events| && k' != k ==> !events[k'].Validated?
  {
    if |argv| >= 2 && argv[1] in files && files[argv[1]].contents.Parsed? && files[argv[1]].contents.value.DocumentValue? {
      assert Loads(argv, files, files[argv[1]].contents.value.doc);
    }
  }
}
