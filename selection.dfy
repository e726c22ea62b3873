/** Which resource a run of the `datastore` command pushes: the allow-list of MIME types
    and formats, the skip test, and the nested loop over packages and their resources. */
module Selection {
  import opened Wrappers

  /** `DataStore.DATA_FORMATS`: the MIME types and formats accepted for upload. */
  const DataFormats: seq<string> := [
    "csv",
    "tsv",
    "text/csv",
    "txt",
    "text/plain",
    "text/tsv",
    "text/tab-separated-values",
    "xls",
    "application/ms-excel",
    "application/vnd.ms-excel",
    "application/xls",
    "application/octet-stream",
    "text/comma-separated-values",
    "application/x-zip-compressed",
    "application/zip"
  ]

  function LowerChar(c: char): char {
    if 'A' <= c <= 'Z' then (c as int - 'A' as int + 'a' as int) as char else c
  }

  /** `s.lower()` on ASCII letters. */
  function Lower(s: string): (r: string)
    ensures |r| == |s| && forall i :: 0 <= i < |s| ==> r[i] == LowerChar(s[i])
  {
    if s == [] then [] else [LowerChar(s[0])] + Lower(s[1..])
  }

  lemma LowerIdempotent(s: string)
    ensures Lower(Lower(s)) == Lower(s)
  {
    assert forall i :: 0 <= i < |s| ==> LowerChar(LowerChar(s[i])) == LowerChar(s[i]);
  }

  /** A catalogue resource, as far as the skip test reads it. The MIME type may be
      `None`; the `mimetype` key itself is always present. */
  datatype ResourceInfo = ResourceInfo(mimetype: Option<string>, format: string)

  /** A package; a package without a `resources` key has none. */
  datatype Package = Package(resources: seq<ResourceInfo>)

  /** Python truthiness of the MIME type: neither `None` nor empty. */
  predicate HasMimetype(r: ResourceInfo) {
    r.mimetype.Some? && r.mimetype.value != ""
  }

  /** The resource is skipped: it declares a MIME type, and either that type or its
      lower-cased format is not on the allow-list. Only a resource that declares a MIME
      type can be skipped, and one with a MIME type off the list always is, whatever
      its format. */
  predicate Skipped(r: ResourceInfo): (b: bool)
    ensures b ==> HasMimetype(r)
    ensures HasMimetype(r) && r.mimetype.value !in DataFormats ==> b
  {
    HasMimetype(r) && (r.mimetype.value !in DataFormats || Lower(r.format) !in DataFormats)
  }

  /** The skip test in both directions: a resource with a MIME type is pushed exactly when
      both it and its format are allowed, and the case of the format does not matter. */
  lemma SkippedExactly(r: ResourceInfo)
    ensures HasMimetype(r) ==>
      (!Skipped(r) <==> r.mimetype.value in DataFormats && Lower(r.format) in DataFormats)
    ensures Skipped(r) == Skipped(r.(format := Lower(r.format)))
  {
    LowerIdempotent(r.format);
  }

  /** The index of the first resource of the list that is not skipped. */
  function FirstPushable(rs: seq<ResourceInfo>): (k: Option<nat>)
    ensures k.Some? ==> k.value < |rs| && !Skipped(rs[k.value]) &&
                        forall j :: 0 <= j < k.value ==> Skipped(rs[j])
    ensures k.None? ==> forall j :: 0 <= j < |rs| ==> Skipped(rs[j])
  {
    if rs == [] then None
    else if !Skipped(rs[0]) then Some(0)
    else match FirstPushable(rs[1..])
      case None => None
      case Some(k) => Some(k + 1)
  }

  /** The loops of `command`: the resources of the first package are tried in order, a
      skipped one is passed over (`continue`), the first one not skipped is pushed and
      the inner loop stops (`break`); the outer loop stops after the first package
      whatever happened (`break`). Returns the index, within the first package, of the
      resource pushed, if any: at most one resource is pushed per run. */
  method Command(packages: seq<Package>) returns (pushed: Option<nat>)
    ensures packages == [] ==> pushed == None
    ensures packages != [] ==> pushed == FirstPushable(packages[0].resources)
  {
    pushed := None;
    var p := 0;
    // `stopped` stands for the outer `break`, which ends the loop after its first pass.
    var stopped := false;
    while p < |packages| && !stopped
      invariant p <= 1 && p <= |packages| && (stopped <==> p == 1)
      invariant !stopped ==> pushed == None
      invariant stopped ==> pushed == FirstPushable(packages[0].resources)
      decreases |packages| - p
    {
      var resources := packages[p].resources;
      var j := 0;
      while j < |resources|
        invariant 0 <= j <= |resources|
        invariant pushed == None
        invariant forall k :: 0 <= k < j ==> Skipped(resources[k])
      {
        if Skipped(resources[j]) {
          j := j + 1;
          continue;
        }
        pushed := Some(j);
        break;
      }
      stopped := true;
      p := p + 1;
    }
  }
}
