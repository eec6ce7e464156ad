/**
 * How the two ways of counting operations relate: the analyser visits "trace" as
 * well as the seven methods the validator's summary counts, so for a document whose
 * path items are genuine mappings (no repeated key) it reports one record more
 * for every path that has a "trace" operation.
 */
module Consistency {
  import opened OpenApi
  import AnalyzeDescriptions
  import Validate

  /** The number of path items that have a "trace" key. */
  function TraceCount(paths: Paths): (n: nat)
    ensures n <= |paths|
  {
    if paths == [] then 0
    else
      var item := paths[|paths| - 1].1;
      TraceCount(paths[..|paths| - 1]) + (if item.Item? && "trace" in Keys(item.entries) then 1 else 0)
  }

  ghost predicate AllUniqueKeys(paths: Paths) {
    forall i :: 0 <= i < |paths| ==> paths[i].1.Item? ==> UniqueKeys(paths[i].1.entries)
  }

  lemma SupportedIsCountedPlusTrace()
    ensures AnalyzeDescriptions.SupportedMethods == Validate.CountedMethods + ["trace"]
    ensures Distinct(Validate.CountedMethods)
  {
  }

  /** One path item: the analyser's records are its counted operations plus its "trace" operation, if any. */
  lemma ItemRecords(path: string, entries: Entries)
    requires UniqueKeys(entries)
    ensures |AnalyzeDescriptions.MethodEndpoints(path, entries, AnalyzeDescriptions.SupportedMethods)|
      == Validate.ItemOperationCount(Item(entries)) + (if "trace" in Keys(entries) then 1 else 0)
  {
    var counted := Validate.CountedMethods;
    SupportedIsCountedPlusTrace();
    var supported := AnalyzeDescriptions.SupportedMethods;
    assert supported[..|supported| - 1] == counted;
    AnalyzeDescriptions.MethodEndpointsAre(path, entries, supported);
    assert PresentMethods(entries, supported)
      == PresentMethods(entries, counted) + (if "trace" in Keys(entries) then ["trace"] else []);
    CountKeysInIsPresentMethods(entries, counted);
  }

  /**
   * The analyser's record count is the validator's operation count plus the
   * number of paths that have a "trace" operation.
   */
  lemma {:induction false} RecordCountIsOperationCountPlusTrace(paths: Paths)
    requires AllUniqueKeys(paths)
    ensures |AnalyzeDescriptions.Collected(paths, AnalyzeDescriptions.SupportedMethods)|
      == Validate.OperationCount(paths) + TraceCount(paths)
  {
    if paths != [] {
      var init, last := paths[..|paths| - 1], paths[|paths| - 1];
      assert AllUniqueKeys(init);
      RecordCountIsOperationCountPlusTrace(init);
      if last.1.Item? {
        ItemRecords(last.0, last.1.entries);
      }
    }
  }

  /** Without "trace" operations the two counts agree. */
  lemma CountsAgreeWithoutTrace(paths: Paths)
    requires AllUniqueKeys(paths)
    requires forall i :: 0 <= i < |paths| ==> paths[i].1.Item? ==> "trace" !in Keys(paths[i].1.entries)
    ensures |AnalyzeDescriptions.Collected(paths, AnalyzeDescriptions.SupportedMethods)| == Validate.OperationCount(paths)
  {
    RecordCountIsOperationCountPlusTrace(paths);
    NoTrace(paths);
  }

  lemma {:induction false} NoTrace(paths: Paths)
    requires forall i :: 0 <= i < |paths| ==> paths[i].1.Item? ==> "trace" !in Keys(paths[i].1.entries)
    ensures TraceCount(paths) == 0
  {
    if paths != [] {
      NoTrace(paths[..|paths| - 1]);
    }
  }
}
