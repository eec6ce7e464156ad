/**
 * The description-length analyser: one endpoint record per operation of the
 * document, ordered by description length (longest first), with the records whose
 * description is over the 1000-character limit picked out, the extreme lengths, a
 * table row per record and a detail block per over-long record.
 */
module AnalyzeDescriptions {
  import opened Wrappers
  import opened OpenApi

  /** The description length above which a record is flagged. */
  const Limit: nat := 1000
  /** The width of the summary column of the table. */
  const SummaryWidth: nat := 30
  /** How much of an over-long description the detail block shows. */
  const PreviewWidth: nat := 200
  /** Shown in a detail block for an empty operation id or summary. */
  const Unset: string := "未設定"

  /** The operation keys the analyser visits, in the order it visits them. */
  const SupportedMethods: seq<string> := ["get", "post", "put", "patch", "delete", "options", "head", "trace"]

  datatype Endpoint = Endpoint(
    httpMethod: string,
    path: string,
    operationId: string,
    summary: string,
    descriptionLength: nat,
    description: string,
    exceeds1000: bool)

  /** The invariant every record the analyser builds satisfies. */
  ghost predicate Consistent(e: Endpoint) {
    e.descriptionLength == |e.description| && (e.exceeds1000 <==> e.descriptionLength > Limit)
  }

  function UpperChar(c: char): char {
    if 'a' <= c <= 'z' then (c as int - 32) as char else c
  }

  /** `str.upper()` on the ASCII method names it is applied to. */
  function Upper(s: string): string {
    seq(|s|, i requires 0 <= i < |s| => UpperChar(s[i]))
  }

  /** The supported method names as the analyser stores them. */
  lemma UpperMethodNames()
    ensures Upper("get") == "GET" && Upper("post") == "POST" && Upper("put") == "PUT"
    ensures Upper("patch") == "PATCH" && Upper("delete") == "DELETE" && Upper("options") == "OPTIONS"
    ensures Upper("head") == "HEAD" && Upper("trace") == "TRACE"
  {
  }

  /** The record built for key `m` of path `path`, whose value is `op`. */
  function EndpointOf(path: string, m: string, op: Operation): (e: Endpoint)
    ensures Consistent(e)
    ensures e.httpMethod == Upper(m) && e.path == path
    ensures e.description == (if op.description.Some? then op.description.value else "")
    ensures e.summary == (if op.summary.Some? then op.summary.value else "")
    ensures e.operationId == (if op.operationId.Some? then op.operationId.value else "")
  {
    var description := op.description.GetOr("");
    Endpoint(Upper(m), path, op.operationId.GetOr(""), op.summary.GetOr(""),
             |description|, description, |description| > Limit)
  }

  /**
   * The records for the names `ms` of one mapping: what the inner loop
   * `for method in supported_methods: if method in path_item: endpoints.append(...)` appends.
   */
  function MethodEndpoints(path: string, entries: Entries, ms: seq<string>): (r: seq<Endpoint>)
    ensures |r| <= |ms|
  {
    if ms == [] then []
    else
      var m := ms[|ms| - 1];
      MethodEndpoints(path, entries, ms[..|ms| - 1])
      + (if m in Keys(entries) then [EndpointOf(path, m, Lookup(entries, m))] else [])
  }

  /**
   * A mapping yields exactly one record per listed name that is one of its keys, in
   * the order of the list, built from the value stored under that key; other keys
   * yield nothing.
   */
  lemma {:induction false} MethodEndpointsAre(path: string, entries: Entries, ms: seq<string>)
    ensures var r, present := MethodEndpoints(path, entries, ms), PresentMethods(entries, ms);
      && |r| == |present|
      && forall k :: 0 <= k < |r| ==>
           && present[k] in ms && present[k] in Keys(entries)
           && r[k] == EndpointOf(path, present[k], Lookup(entries, present[k]))
  {
    if ms != [] {
      var init, m := ms[..|ms| - 1], ms[|ms| - 1];
      MethodEndpointsAre(path, entries, init);
      assert ms == init + [m];
    }
  }

  /**
   * The records of one path. The analyser passes `SupportedMethods`; keeping the
   * list a parameter keeps the proofs about the traversal independent of its eight
   * literal names.
   */
  function PathEndpoints(path: string, item: PathItem, methods: seq<string>): (r: seq<Endpoint>)
    ensures |r| <= |methods|
    ensures item.ItemOther? ==> r == []
  {
    match item
    case ItemOther => []
    case Item(entries) => MethodEndpoints(path, entries, methods)
  }

  /** Every record of the document, in path order and then in the order of `methods`. */
  function Collected(paths: Paths, methods: seq<string>): seq<Endpoint>
  {
    if paths == [] then []
    else Collected(paths[..|paths| - 1], methods) + PathEndpoints(paths[|paths| - 1].0, paths[|paths| - 1].1, methods)
  }

  lemma {:induction false} CollectedConsistent(paths: Paths, methods: seq<string>)
    ensures AllConsistent(Collected(paths, methods))
  {
    if paths != [] {
      var init, last := paths[..|paths| - 1], paths[|paths| - 1];
      CollectedConsistent(init, methods);
      var front, here := Collected(init, methods), PathEndpoints(last.0, last.1, methods);
      assert Collected(paths, methods) == front + here;
      forall k | 0 <= k < |here| ensures Consistent(here[k]) {
        if last.1.Item? {
          MethodEndpointsAre(last.0, last.1.entries, methods);
        }
      }
    }
  }

  lemma DropLastOfAppend<T>(a: seq<T>, b: seq<T>)
    requires b != []
    ensures (a + b)[..|a + b| - 1] == a + b[..|b| - 1]
    ensures (a + b)[|a + b| - 1] == b[|b| - 1]
  {
  }

  lemma ConcatAssociates<T>(a: seq<T>, b: seq<T>, c: seq<T>)
    ensures (a + b) + c == a + (b + c)
  {
  }

  /** The records of a document are those of its first paths followed by those of the rest. */
  lemma {:induction false} CollectedAppend(front: Paths, back: Paths, methods: seq<string>)
    ensures Collected(front + back, methods) == Collected(front, methods) + Collected(back, methods)
  {
    if back == [] {
      assert front + back == front;
    } else {
      var init, last := back[..|back| - 1], back[|back| - 1];
      DropLastOfAppend(front, back);
      CollectedAppend(front, init, methods);
      var here := PathEndpoints(last.0, last.1, methods);
      assert Collected(back, methods) == Collected(init, methods) + here;
      assert Collected(front + back, methods) == Collected(front + init, methods) + here;
      ConcatAssociates(Collected(front, methods), Collected(init, methods), here);
    }
  }

  // ----- the sort: `endpoints.sort(key=description_length, reverse=True)` -----

  ghost predicate SortedByLengthDesc(s: seq<Endpoint>) {
    forall i, j :: 0 <= i < j < |s| ==> s[i].descriptionLength >= s[j].descriptionLength
  }

  /** The records of length `n`, in their order in `s`. */
  function WithLength(s: seq<Endpoint>, n: nat): seq<Endpoint> {
    if s == [] then []
    else (if s[0].descriptionLength == n then [s[0]] else []) + WithLength(s[1..], n)
  }

  /** Inserts `x` in front of the first record that is not longer than it. */
  function InsertByLength(x: Endpoint, s: seq<Endpoint>): (r: seq<Endpoint>)
    ensures |r| == |s| + 1
  {
    if s == [] || s[0].descriptionLength <= x.descriptionLength then [x] + s
    else [s[0]] + InsertByLength(x, s[1..])
  }

  /** A stable sort by description length, longest first. */
  function SortByLengthDesc(s: seq<Endpoint>): (r: seq<Endpoint>)
    ensures |r| == |s|
  {
    if s == [] then [] else InsertByLength(s[0], SortByLengthDesc(s[1..]))
  }

  lemma WithLengthCons(x: Endpoint, s: seq<Endpoint>, n: nat)
    ensures WithLength([x] + s, n) == (if x.descriptionLength == n then [x] else []) + WithLength(s, n)
  {
    assert ([x] + s)[1..] == s;
  }

  lemma {:induction false} InsertByLengthPermutes(x: Endpoint, s: seq<Endpoint>)
    ensures multiset(InsertByLength(x, s)) == multiset(s) + multiset{x}
  {
    if s != [] && s[0].descriptionLength > x.descriptionLength {
      InsertByLengthPermutes(x, s[1..]);
      assert s == [s[0]] + s[1..];
    }
  }

  lemma {:induction false} InsertByLengthSorted(x: Endpoint, s: seq<Endpoint>)
    requires SortedByLengthDesc(s)
    ensures SortedByLengthDesc(InsertByLength(x, s))
  {
    if s != [] && s[0].descriptionLength > x.descriptionLength {
      var rest := InsertByLength(x, s[1..]);
      assert SortedByLengthDesc(s[1..]);
      InsertByLengthSorted(x, s[1..]);
      InsertByLengthPermutes(x, s[1..]);
      forall k | 0 <= k < |rest| ensures rest[k].descriptionLength <= s[0].descriptionLength {
        assert rest[k] in multiset(rest);
        if rest[k] != x {
          assert rest[k] in multiset(s[1..]);
          var j :| 0 <= j < |s[1..]| && s[1..][j] == rest[k];
          assert s[j + 1] == rest[k];
        }
      }
      assert InsertByLength(x, s) == [s[0]] + rest;
    }
  }

  lemma {:induction false} InsertByLengthWithLength(x: Endpoint, s: seq<Endpoint>, n: nat)
    requires SortedByLengthDesc(s)
    ensures WithLength(InsertByLength(x, s), n) == (if x.descriptionLength == n then [x] else []) + WithLength(s, n)
  {
    if s == [] || s[0].descriptionLength <= x.descriptionLength {
      WithLengthCons(x, s, n);
    } else {
      assert SortedByLengthDesc(s[1..]);
      InsertByLengthWithLength(x, s[1..], n);
      WithLengthCons(s[0], InsertByLength(x, s[1..]), n);
      WithLengthCons(s[0], s[1..], n);
      assert s == [s[0]] + s[1..];
    }
  }

  /**
   * The sort yields records in non-increasing length, is a permutation of its
   * input, and keeps records of equal length in their input order.
   */
  lemma {:induction false} SortByLengthDescFacts(s: seq<Endpoint>)
    ensures SortedByLengthDesc(SortByLengthDesc(s))
    ensures multiset(SortByLengthDesc(s)) == multiset(s)
    ensures forall n :: WithLength(SortByLengthDesc(s), n) == WithLength(s, n)
  {
    if s != [] {
      SortByLengthDescFacts(s[1..]);
      InsertByLengthPermutes(s[0], SortByLengthDesc(s[1..]));
      InsertByLengthSorted(s[0], SortByLengthDesc(s[1..]));
      assert s == [s[0]] + s[1..];
      forall n ensures WithLength(SortByLengthDesc(s), n) == WithLength(s, n) {
        InsertByLengthWithLength(s[0], SortByLengthDesc(s[1..]), n);
        WithLengthCons(s[0], s[1..], n);
      }
    }
  }

  // ----- statistics -----

  ghost predicate AllConsistent(s: seq<Endpoint>) {
    forall k :: 0 <= k < |s| ==> Consistent(s[k])
  }

  /** `[ep for ep in endpoints if ep['exceeds_1000']]` */
  function Exceeding(s: seq<Endpoint>): (r: seq<Endpoint>)
    ensures |r| <= |s|
  {
    if s == [] then []
    else (if s[0].exceeds1000 then [s[0]] else []) + Exceeding(s[1..])
  }

  /** The filter keeps exactly the flagged records. */
  lemma {:induction false} ExceedingMembers(s: seq<Endpoint>)
    ensures forall e :: e in Exceeding(s) <==> e in s && e.exceeds1000
  {
    if s != [] {
      ExceedingMembers(s[1..]);
      assert s == [s[0]] + s[1..];
    }
  }

  lemma {:induction false} NoneExceeding(s: seq<Endpoint>)
    requires forall k :: 0 <= k < |s| ==> !s[k].exceeds1000
    ensures Exceeding(s) == []
  {
    if s != [] {
      NoneExceeding(s[1..]);
    }
  }

  /** In a list sorted longest first, the flagged records are exactly a prefix. */
  lemma {:induction false} ExceedingIsPrefix(s: seq<Endpoint>)
    requires SortedByLengthDesc(s) && AllConsistent(s)
    ensures Exceeding(s) == s[..|Exceeding(s)|]
    ensures forall k :: |Exceeding(s)| <= k < |s| ==> !s[k].exceeds1000
  {
    if s != [] {
      var tail := s[1..];
      assert SortedByLengthDesc(tail) && AllConsistent(tail);
      ExceedingIsPrefix(tail);
      if s[0].exceeds1000 {
        var m := |Exceeding(tail)|;
        assert Exceeding(s) == [s[0]] + tail[..m];
        assert s[..m + 1] == [s[0]] + tail[..m];
      } else {
        assert Consistent(s[0]);
        forall k | 0 <= k < |tail| ensures !tail[k].exceeds1000 {
          assert Consistent(s[k + 1]);
        }
        NoneExceeding(tail);
      }
    }
  }

  /** `(endpoints[0].length, endpoints[-1].length)` when there is at least one record. */
  function Extremes(sorted: seq<Endpoint>): (r: Option<(nat, nat)>)
    ensures r.None? <==> sorted == []
  {
    if sorted == [] then None
    else Some((sorted[0].descriptionLength, sorted[|sorted| - 1].descriptionLength))
  }

  /** The greatest description length of a non-empty list, as a reference definition. */
  function MaxLength(s: seq<Endpoint>): nat
    requires s != []
  {
    if |s| == 1 then s[0].descriptionLength
    else var m := MaxLength(s[1..]); if s[0].descriptionLength >= m then s[0].descriptionLength else m
  }

  /** The least description length of a non-empty list, as a reference definition. */
  function MinLength(s: seq<Endpoint>): nat
    requires s != []
  {
    if |s| == 1 then s[0].descriptionLength
    else var m := MinLength(s[1..]); if s[0].descriptionLength <= m then s[0].descriptionLength else m
  }

  /** Every length lies between the two reference extremes. */
  lemma {:induction false} MaxMinBounds(s: seq<Endpoint>)
    requires s != []
    ensures forall k :: 0 <= k < |s| ==> MinLength(s) <= s[k].descriptionLength <= MaxLength(s)
  {
    if |s| > 1 {
      MaxMinBounds(s[1..]);
      assert forall k :: 1 <= k < |s| ==> s[k] == s[1..][k - 1];
    }
  }

  /** Both reference extremes are the length of some record. */
  lemma {:induction false} MaxMinAttained(s: seq<Endpoint>) returns (hi: nat, lo: nat)
    requires s != []
    ensures hi < |s| && s[hi].descriptionLength == MaxLength(s)
    ensures lo < |s| && s[lo].descriptionLength == MinLength(s)
  {
    if |s| == 1 {
      hi, lo := 0, 0;
    } else {
      var h, l := MaxMinAttained(s[1..]);
      hi := if s[0].descriptionLength >= MaxLength(s[1..]) then 0 else h + 1;
      lo := if s[0].descriptionLength <= MinLength(s[1..]) then 0 else l + 1;
    }
  }

  /** Where a record of `s` sits in a permutation `r` of it. */
  lemma IndexIn(r: seq<Endpoint>, s: seq<Endpoint>, i: nat) returns (j: nat)
    requires multiset(r) == multiset(s) && i < |s|
    ensures j < |r| && r[j] == s[i]
  {
    assert s[i] in multiset(r);
    j :| 0 <= j < |r| && r[j] == s[i];
  }

  /** A list sorted longest first starts at the maximum of any permutation of it. */
  lemma SortedFirst(r: seq<Endpoint>, s: seq<Endpoint>)
    requires SortedByLengthDesc(r) && multiset(r) == multiset(s) && s != []
    ensures r != [] && r[0].descriptionLength == MaxLength(s)
  {
    MaxMinBounds(s);
    var hi, _ := MaxMinAttained(s);
    var i := IndexIn(r, s, hi);
    var i0 := IndexIn(s, r, 0);
  }

  /** A list sorted longest first ends at the minimum of any permutation of it. */
  lemma SortedLast(r: seq<Endpoint>, s: seq<Endpoint>)
    requires SortedByLengthDesc(r) && multiset(r) == multiset(s) && s != []
    ensures r != [] && r[|r| - 1].descriptionLength == MinLength(s)
  {
    MaxMinBounds(s);
    var _, lo := MaxMinAttained(s);
    var j := IndexIn(r, s, lo);
    var j0 := IndexIn(s, r, |r| - 1);
  }

  /** The first and last lengths of the sorted list are the maximum and minimum over all records. */
  lemma ExtremesAreMaxMin(s: seq<Endpoint>)
    ensures Extremes(SortByLengthDesc(s)) == if s == [] then None else Some((MaxLength(s), MinLength(s)))
  {
    SortByLengthDescFacts(s);
    if s != [] {
      SortedFirst(SortByLengthDesc(s), s);
      SortedLast(SortByLengthDesc(s), s);
    }
  }

  // ----- what is displayed -----

  /** The summary column: unchanged up to 30 characters, else 27 characters and "...". */
  function Abbreviate(summary: string): (r: string)
    ensures |r| <= SummaryWidth
    ensures |summary| <= SummaryWidth <==> r == summary
    ensures |summary| > SummaryWidth ==>
      |r| == SummaryWidth && r[..SummaryWidth - 3] == summary[..SummaryWidth - 3] && r[SummaryWidth - 3..] == "..."
  {
    if |summary| > SummaryWidth then summary[..SummaryWidth - 3] + "..." else summary
  }

  /** The first 200 characters of a description. */
  function Preview(description: string): (p: string)
    ensures p <= description
    ensures |p| <= PreviewWidth
    ensures p == description || |p| == PreviewWidth
  {
    if |description| <= PreviewWidth then description else description[..PreviewWidth]
  }

  /** An empty operation id or summary is shown as "未設定". */
  function Label(s: string): (r: string)
    ensures r != ""
    ensures s != "" ==> r == s
    ensures s == "" ==> r == Unset
  {
    if s == "" then Unset else s
  }

  datatype Row = Row(httpMethod: string, path: string, length: nat, exceeds: bool, summary: string)

  /** The table row of a record: its method, path, length, status and abbreviated summary. */
  function RowOf(e: Endpoint): (r: Row)
    ensures r.httpMethod == e.httpMethod && r.path == e.path && r.length == e.descriptionLength
    ensures r.exceeds == e.exceeds1000
    ensures Consistent(e) ==> (r.exceeds <==> r.length > Limit)
    ensures r.summary == Abbreviate(e.summary)
  {
    Row(e.httpMethod, e.path, e.descriptionLength, e.exceeds1000, Abbreviate(e.summary))
  }

  function Rows(s: seq<Endpoint>): seq<Row> {
    seq(|s|, k requires 0 <= k < |s| => RowOf(s[k]))
  }

  /** The detail block of an over-long record; `elided` says whether "..." follows the preview. */
  datatype Detail = Detail(
    index: nat,
    httpMethod: string,
    path: string,
    operationId: string,
    summary: string,
    length: nat,
    overflow: int,
    preview: string,
    elided: bool)

  function DetailOf(index: nat, e: Endpoint): (d: Detail)
    ensures d.index == index && d.httpMethod == e.httpMethod && d.path == e.path
    ensures d.operationId == Label(e.operationId) && d.summary == Label(e.summary)
    ensures d.length == e.descriptionLength
    ensures Consistent(e) && e.exceeds1000 ==> d.overflow >= 1 && d.length == d.overflow + Limit
    ensures d.preview == Preview(e.description)
    ensures d.preview <= e.description
    ensures d.elided <==> |e.description| > PreviewWidth
    ensures !d.elided ==> d.preview == e.description
  {
    Detail(index, e.httpMethod, e.path, Label(e.operationId), Label(e.summary), e.descriptionLength,
           e.descriptionLength - Limit, Preview(e.description), |e.description| > PreviewWidth)
  }

  /** The detail blocks, numbered from 1 (`enumerate(exceeding_endpoints, 1)`). */
  function Details(s: seq<Endpoint>): seq<Detail> {
    seq(|s|, k requires 0 <= k < |s| => DetailOf(k + 1, s[k]))
  }

  datatype Analysis = Analysis(
    endpoints: seq<Endpoint>,
    exceeding: seq<Endpoint>,
    extremes: Option<(nat, nat)>,
    rows: seq<Row>,
    details: seq<Detail>)

  /** Everything the analyser computes from the collected records. */
  function Summary(records: seq<Endpoint>): Analysis {
    var sorted := SortByLengthDesc(records);
    var exceeding := Exceeding(sorted);
    Analysis(sorted, exceeding, Extremes(sorted), Rows(sorted), Details(exceeding))
  }

  /** Everything the analyser computes from the Paths Object. */
  function AnalysisOf(paths: Paths): Analysis {
    Summary(Collected(paths, SupportedMethods))
  }

  datatype AnalysisError = FileNotFound | YamlParseError | ReadFailed | Aborted | NoPathsSection

  /** The whole analysis of the file at `specFile`, or the reason it stops early. */
  function Analyze(files: FileSystem, specFile: string): (r: Result<Analysis, AnalysisError>)
    ensures specFile !in files ==> r == Err(FileNotFound)
    ensures r.Ok? <==>
      && specFile in files
      && files[specFile].contents.Parsed?
      && files[specFile].contents.value.DocumentValue?
      && files[specFile].contents.value.doc.paths.Some?
    ensures r.Ok? ==> r.value == AnalysisOf(files[specFile].contents.value.doc.paths.value)
    ensures r == Err(NoPathsSection) <==>
      && specFile in files
      && files[specFile].contents.Parsed?
      && files[specFile].contents.value.DocumentValue?
      && files[specFile].contents.value.doc.paths.None?
  {
    if specFile !in files then Err(FileNotFound)
    else match files[specFile].contents
      case Undecodable => Err(ReadFailed)
      case Malformed => Err(YamlParseError)
      case Parsed(OtherValue) => Err(Aborted)
      case Parsed(DocumentValue(doc)) =>
        if doc.paths.None? then Err(NoPathsSection) else Ok(AnalysisOf(doc.paths.value))
  }

  /** The reported records are the collected ones, sorted longest first, stably. */
  lemma SummarySorted(c: seq<Endpoint>)
    ensures var a := Summary(c);
      && SortedByLengthDesc(a.endpoints)
      && multiset(a.endpoints) == multiset(c)
      && (forall n :: WithLength(a.endpoints, n) == WithLength(c, n))
      && |a.endpoints| == |c|
  {
    var sorted := SortByLengthDesc(c);
    SortByLengthDescFacts(c);
    assert |sorted| == |multiset(sorted)| == |multiset(c)| == |c|;
  }

  /** The flagged records are a prefix of the report, and exactly the collected records over the limit. */
  lemma SummaryExceeding(c: seq<Endpoint>)
    requires AllConsistent(c)
    ensures var a := Summary(c);
      && a.exceeding == a.endpoints[..|a.exceeding|]
      && (forall e :: e in a.exceeding <==> e in c && e.descriptionLength > Limit)
      && AllConsistent(a.exceeding)
      && forall k :: 0 <= k < |a.exceeding| ==> a.exceeding[k].exceeds1000
  {
    var sorted := SortByLengthDesc(c);
    var exceeding := Exceeding(sorted);
    SortByLengthDescFacts(c);
    PermutationKeepsConsistent(sorted, c);
    ExceedingIsPrefix(sorted);
    ExceedingMembers(sorted);
    forall e ensures e in exceeding <==> e in c && e.descriptionLength > Limit {
      assert e in sorted <==> e in multiset(sorted);
      assert e in c <==> e in multiset(c);
      if e in c {
        var j :| 0 <= j < |c| && c[j] == e;
        assert Consistent(c[j]);
      }
    }
    forall k | 0 <= k < |exceeding| ensures Consistent(exceeding[k]) && exceeding[k].exceeds1000 {
      assert exceeding[k] == sorted[k];
      assert exceeding[k] in exceeding;
    }
  }

  /**
   * One table row per reported record, in order, showing its length, its abbreviated
   * summary and, for records the analyser built, a status that is set iff the length
   * is over the limit.
   */
  lemma SummaryRows(c: seq<Endpoint>)
    ensures var a := Summary(c);
      && |a.rows| == |a.endpoints| == |c|
      && forall k :: 0 <= k < |a.rows| ==>
           && a.rows[k].httpMethod == a.endpoints[k].httpMethod && a.rows[k].path == a.endpoints[k].path
           && a.rows[k].length == a.endpoints[k].descriptionLength
           && a.rows[k].summary == Abbreviate(a.endpoints[k].summary)
    ensures AllConsistent(c) ==> var a := Summary(c);
      forall k :: 0 <= k < |a.rows| ==> (a.rows[k].exceeds <==> a.rows[k].length > Limit)
  {
    var a := Summary(c);
    SummarySorted(c);
    forall k | 0 <= k < |a.rows|
      ensures a.rows[k] == RowOf(a.endpoints[k])
    {
    }
    if AllConsistent(c) {
      PermutationKeepsConsistent(a.endpoints, c);
      forall k | 0 <= k < |a.rows| ensures (a.rows[k].exceeds <==> a.rows[k].length > Limit) {
        assert Consistent(a.endpoints[k]);
        assert a.rows[k] == RowOf(a.endpoints[k]);
      }
    }
  }

  /**
   * One detail block per flagged record, numbered from 1, each at least 1 over the
   * limit and previewing the first 200 characters of its record's description.
   */
  lemma SummaryDetails(c: seq<Endpoint>)
    requires AllConsistent(c)
    ensures var a := Summary(c);
      && |a.details| == |a.exceeding|
      && forall k :: 0 <= k < |a.details| ==>
           && a.details[k].index == k + 1 && a.details[k].overflow >= 1
           && a.details[k].preview == Preview(a.exceeding[k].description)
  {
    var a := Summary(c);
    SummaryExceeding(c);
    forall k | 0 <= k < |a.details|
      ensures a.details[k].index == k + 1 && a.details[k].overflow >= 1
      ensures a.details[k].preview == Preview(a.exceeding[k].description)
    {
      assert a.details[k] == DetailOf(k + 1, a.exceeding[k]);
      assert Consistent(a.exceeding[k]) && a.exceeding[k].exceeds1000;
    }
  }

  /**
   * What the analysis of a document promises about the records it reports: sorted
   * longest first, a stable permutation of the collected records, the flagged ones a
   * prefix of it, the extremes the true maximum and minimum, every overflow at least 1.
   */
  lemma AnalysisOfFacts(paths: Paths)
    ensures var a, c := AnalysisOf(paths), Collected(paths, SupportedMethods);
      && SortedByLengthDesc(a.endpoints)
      && multiset(a.endpoints) == multiset(c)
      && (forall n :: WithLength(a.endpoints, n) == WithLength(c, n))
      && a.exceeding == a.endpoints[..|a.exceeding|]
      && (forall e :: e in a.exceeding <==> e in c && e.descriptionLength > Limit)
      && a.extremes == (if c == [] then None else Some((MaxLength(c), MinLength(c))))
      && |a.rows| == |c|
      && (forall k :: 0 <= k < |a.rows| ==>
            && a.rows[k].length == a.endpoints[k].descriptionLength
            && a.rows[k].summary == Abbreviate(a.endpoints[k].summary)
            && (a.rows[k].exceeds <==> a.rows[k].length > Limit))
      && |a.details| == |a.exceeding|
      && forall k :: 0 <= k < |a.details| ==>
           && a.details[k].index == k + 1 && a.details[k].overflow >= 1
           && a.details[k].preview == Preview(a.exceeding[k].description)
  {
    var c := Collected(paths, SupportedMethods);
    CollectedConsistent(paths, SupportedMethods);
    SummarySorted(c);
    SummaryExceeding(c);
    SummaryRows(c);
    SummaryDetails(c);
    ExtremesAreMaxMin(c);
  }

  lemma PermutationKeepsConsistent(a: seq<Endpoint>, b: seq<Endpoint>)
    requires multiset(a) == multiset(b) && AllConsistent(b)
    ensures AllConsistent(a)
  {
    forall k | 0 <= k < |a| ensures Consistent(a[k]) {
      assert a[k] in multiset(b);
      var j :| 0 <= j < |b| && b[j] == a[k];
    }
  }

  /**
   * `count_description_lengths`: reads the file, collects one record per operation with
   * nested loops, sorts, and builds the statistics and the two tables.
   */
  method CountDescriptionLengths(files: FileSystem, specFile: string) returns (r: Result<Analysis, AnalysisError>)
    ensures r == Analyze(files, specFile)
  {
    if specFile !in files {
      return Err(FileNotFound);
    }
    var doc: Document;
    match files[specFile].contents {
      case Undecodable => return Err(ReadFailed);
      case Malformed => return Err(YamlParseError);
      case Parsed(OtherValue) => return Err(Aborted);
      case Parsed(DocumentValue(d)) => doc := d;
    }
    if doc.paths.None? {
      return Err(NoPathsSection);
    }
    var paths := doc.paths.value;

    var endpoints := CollectEndpoints(paths);
    endpoints := SortByLengthDesc(endpoints);
    var exceeding := Exceeding(endpoints);
    var extremes: Option<(nat, nat)> := None;
    if endpoints != [] {
      extremes := Some((endpoints[0].descriptionLength, endpoints[|endpoints| - 1].descriptionLength));
    }

    var rows := BuildRows(endpoints);
    var details := BuildDetails(exceeding);
    r := Ok(Analysis(endpoints, exceeding, extremes, rows, details));
  }

  /** The outer loop over the paths, in document order. */
  method CollectEndpoints(paths: Paths) returns (endpoints: seq<Endpoint>)
    ensures endpoints == Collected(paths, SupportedMethods)
  {
    endpoints := [];
    for i := 0 to |paths|
      invariant endpoints == Collected(paths[..i], SupportedMethods)
    {
      var path, item := paths[i].0, paths[i].1;
      assert paths[..i + 1][..i] == paths[..i];
      if item.Item? {
        var found := CollectPath(path, item.entries, SupportedMethods);
        endpoints := endpoints + found;
      }
    }
    assert paths[..|paths|] == paths;
  }

  /** The inner loop over the method names, appending a record for each one the path item has. */
  method CollectPath(path: string, entries: Entries, methods: seq<string>) returns (found: seq<Endpoint>)
    ensures found == MethodEndpoints(path, entries, methods)
  {
    found := [];
    for j := 0 to |methods|
      invariant found == MethodEndpoints(path, entries, methods[..j])
    {
      var m := methods[j];
      assert methods[..j + 1][..j] == methods[..j];
      if m in Keys(entries) {
        found := found + [EndpointOf(path, m, Lookup(entries, m))];
      }
    }
    assert methods[..|methods|] == methods;
  }

  /** The table loop: one row per sorted record. */
  method BuildRows(endpoints: seq<Endpoint>) returns (rows: seq<Row>)
    ensures rows == Rows(endpoints)
  {
    rows := [];
    for k := 0 to |endpoints|
      invariant |rows| == k
      invariant forall i :: 0 <= i < k ==> rows[i] == RowOf(endpoints[i])
    {
      rows := rows + [RowOf(endpoints[k])];
    }
  }

  /** The detail loop: one block per flagged record, numbered from 1. */
  method BuildDetails(exceeding: seq<Endpoint>) returns (details: seq<Detail>)
    ensures details == Details(exceeding)
  {
    details := [];
    for k := 0 to |exceeding|
      invariant |details| == k
      invariant forall i :: 0 <= i < k ==> details[i] == DetailOf(i + 1, exceeding[i])
    {
      details := details + [DetailOf(k + 1, exceeding[k])];
    }
  }

  /** A description of exactly 1000 characters is not flagged; one of 1001 is. */
  lemma LimitIsExclusive(path: string, m: string, op: Operation)
    requires op.description.Some?
    ensures |op.description.value| == Limit ==> !EndpointOf(path, m, op).exceeds1000
    ensures |op.description.value| == Limit + 1 ==> EndpointOf(path, m, op).exceeds1000
  {
  }
}
