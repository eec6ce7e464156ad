/**
 * The already-parsed OpenAPI 3.0 document the three tools work on, and the file
 * system they read it from. Only the parts the tools look at are kept: the `openapi`
 * version string, the `info` block, and the Paths Object as an ordered sequence of
 * (path, Path Item) pairs, in the order the YAML loader delivers the mapping.
 */
module OpenApi {
  import opened Wrappers

  /** An Operation Object; only the three fields the tools read. Absent fields are `None`. */
  datatype Operation = Operation(description: Option<string>, summary: Option<string>, operationId: Option<string>)

  /**
   * The keys of a Path Item Object in document order, each with its value. A loaded
   * mapping never repeats a key, so only entries that satisfy `UniqueKeys` stand
   * for documents; the lemmas that depend on it require it.
   */
  type Entries = seq<(string, Operation)>

  /** A Path Item Object: a mapping, or any other YAML value (null, a list, a scalar). */
  datatype PathItem = ItemOther | Item(entries: Entries)

  /** The Paths Object: (path, Path Item) pairs in document order; a loaded one never repeats a path. */
  type Paths = seq<(string, PathItem)>

  datatype Info = Info(title: Option<string>, version: Option<string>, description: Option<string>)

  datatype Document = Document(openapi: Option<string>, info: Option<Info>, paths: Option<Paths>)

  /** `spec.get("info", {})`: an absent info block reads as an empty one. */
  function InfoOf(doc: Document): (info: Info)
    ensures doc.info.Some? ==> info == doc.info.value
    ensures doc.info.None? ==> info.title.None? && info.version.None? && info.description.None?
  {
    doc.info.GetOr(Info(None, None, None))
  }

  /** What `yaml.safe_load` returns: a mapping (a document) or some other value. */
  datatype YamlValue = DocumentValue(doc: Document) | OtherValue

  /** What reading a file yields: a decoding failure, a YAML syntax error, or a value. */
  datatype Contents = Undecodable | Malformed | Parsed(value: YamlValue)

  /** An existing file: its raw text and what the YAML loader makes of it. */
  datatype SpecFile = SpecFile(text: string, contents: Contents)

  /** The files that exist, by path. A path that is not a key does not exist. */
  type FileSystem = map<string, SpecFile>

  /** The keys of a mapping, in order. */
  function Keys(entries: Entries): (ks: seq<string>)
    ensures |ks| == |entries|
    ensures forall i :: 0 <= i < |entries| ==> ks[i] == entries[i].0
  {
    seq(|entries|, i requires 0 <= i < |entries| => entries[i].0)
  }

  /** Python dictionaries never repeat a key. */
  ghost predicate UniqueKeys(entries: Entries) {
    forall i, j :: 0 <= i < j < |entries| ==> entries[i].0 != entries[j].0
  }

  ghost predicate Distinct(s: seq<string>) {
    forall i, j :: 0 <= i < j < |s| ==> s[i] != s[j]
  }

  /**
   * `path_item[k]`: the value stored under key `k`. It returns the first entry with
   * that key, which for `UniqueKeys` entries is the only one.
   */
  function Lookup(entries: Entries, k: string): (op: Operation)
    requires k in Keys(entries)
    ensures (k, op) in entries
    ensures UniqueKeys(entries) ==> forall i :: 0 <= i < |entries| && entries[i].0 == k ==> entries[i].1 == op
  {
    if entries[0].0 == k then entries[0].1
    else
      assert Keys(entries) == [entries[0].0] + Keys(entries[1..]);
      Lookup(entries[1..], k)
  }

  /**
   * The names in `ms` that are keys of the mapping, in the order of `ms`: what
   * `for m in ms: if m in path_item` visits.
   */
  function PresentMethods(entries: Entries, ms: seq<string>): (r: seq<string>)
    ensures |r| <= |ms|
  {
    if ms == [] then []
    else
      PresentMethods(entries, ms[..|ms| - 1])
      + (if ms[|ms| - 1] in Keys(entries) then [ms[|ms| - 1]] else [])
  }

  /** A name is visited exactly when it is listed and is a key of the mapping. */
  lemma {:induction false} PresentMethodsMembers(entries: Entries, ms: seq<string>)
    ensures forall m :: m in PresentMethods(entries, ms) <==> m in ms && m in Keys(entries)
  {
    if ms != [] {
      PresentMethodsMembers(entries, ms[..|ms| - 1]);
      assert ms == ms[..|ms| - 1] + [ms[|ms| - 1]];
    }
  }

  /** The number of keys of the mapping that belong to `ms`: `len([k for k in item.keys() if k in ms])`. */
  function CountKeysIn(entries: Entries, ms: seq<string>): (n: nat)
    ensures n <= |entries|
  {
    if entries == [] then 0
    else
      CountKeysIn(entries[..|entries| - 1], ms) + (if entries[|entries| - 1].0 in ms then 1 else 0)
  }

  /** The names that are both keys of the mapping and in `ms`. */
  ghost function Shared(entries: Entries, ms: seq<string>): set<string> {
    set k | k in Keys(entries) && k in ms
  }

  lemma {:induction false} CountKeysInIsShared(entries: Entries, ms: seq<string>)
    requires UniqueKeys(entries)
    ensures CountKeysIn(entries, ms) == |Shared(entries, ms)|
  {
    if entries != [] {
      var init, last := entries[..|entries| - 1], entries[|entries| - 1];
      assert UniqueKeys(init);
      CountKeysInIsShared(init, ms);
      assert Keys(entries) == Keys(init) + [last.0];
      assert last.0 !in Keys(init);
      if last.0 in ms {
        assert Shared(entries, ms) == Shared(init, ms) + {last.0};
      } else {
        assert Shared(entries, ms) == Shared(init, ms);
      }
    }
  }

  lemma {:induction false} PresentMethodsIsShared(entries: Entries, ms: seq<string>)
    requires Distinct(ms)
    ensures |PresentMethods(entries, ms)| == |Shared(entries, ms)|
  {
    if ms != [] {
      var init, last := ms[..|ms| - 1], ms[|ms| - 1];
      assert ms == init + [last];
      assert Distinct(init);
      PresentMethodsIsShared(entries, init);
      assert last !in init;
      PresentMethodsMembers(entries, init);
      assert last !in Shared(entries, init);
      assert PresentMethods(entries, ms)
        == PresentMethods(entries, init) + (if last in Keys(entries) then [last] else []);
      if last in Keys(entries) {
        assert Shared(entries, ms) == Shared(entries, init) + {last};
      } else {
        assert Shared(entries, ms) == Shared(entries, init);
      }
    }
  }

  /**
   * Counting the keys of a dictionary that are method names gives the same number
   * as counting the method names that are keys of it.
   */
  lemma CountKeysInIsPresentMethods(entries: Entries, ms: seq<string>)
    requires UniqueKeys(entries) && Distinct(ms)
    ensures CountKeysIn(entries, ms) == |PresentMethods(entries, ms)|
  {
    CountKeysInIsShared(entries, ms);
    PresentMethodsIsShared(entries, ms);
  }
}
