/** lib/tracking.ts: the client of the tracking service. `getDetections`
    reads the detected objects and keeps those whose label contains a filter
    text, ignoring case; `navigateTarget` and `drive` post a command and
    answer with the service's JSON body, under an `accepted` flag that
    defaults to whether the HTTP status was ok. The HTTP exchanges
    themselves are parameters: the status of the reply and its parsed body. */
module Tracking {
  import opened Wrappers
  import opened Strings

  /** JSON values; numbers are integers here. */
  datatype Json =
    | JNull
    | JBool(b: bool)
    | JNum(n: int)
    | JString(s: string)
    | JArray(items: seq<Json>)
    | JObject(fields: map<string, Json>)

  /** A detected object: `name` is its `label` field (`label` is a Dafny
      keyword), None when the service sent none. The numeric fields
      (confidence, distance, box) play no part here. */
  datatype Detection = Detection(name: Option<string>, side: Option<string>)

  /** Why `getDetections` rejects: a non-ok status, with the thrown message,
      or a body that is not JSON. */
  datatype Failure = HttpStatus(message: string) | UnreadableBody

  /** The filter's test: `(o.label || "").toLowerCase().includes(filter.toLowerCase())`. */
  predicate Kept(o: Detection, filter: string) {
    Contains(ToLower(if o.name.None? then "" else o.name.value), ToLower(filter))
  }

  /** `arr.filter(...)`: every detection that passes the test is kept, as
      many times as it occurs, and no other. */
  function FilterByLabel(arr: seq<Detection>, filter: string): (r: seq<Detection>)
    ensures |r| <= |arr|
    ensures forall o :: o in r <==> o in arr && Kept(o, filter)
    ensures forall o :: multiset(r)[o] == if Kept(o, filter) then multiset(arr)[o] else 0
  {
    if |arr| == 0 then []
    else
      var rest := FilterByLabel(arr[1..], filter);
      var r := if Kept(arr[0], filter) then [arr[0]] + rest else rest;
      FilterStep(arr, rest, r, o => Kept(o, filter));
      r
  }

  /** One step of a filter with test `keep`: keeping or dropping the head
      preserves the count of every detection. */
  lemma FilterStep(arr: seq<Detection>, rest: seq<Detection>, r: seq<Detection>, keep: Detection -> bool)
    requires |arr| > 0 && |rest| <= |arr| - 1
    requires forall o :: multiset(rest)[o] == if keep(o) then multiset(arr[1..])[o] else 0
    requires r == if keep(arr[0]) then [arr[0]] + rest else rest
    ensures |r| <= |arr|
    ensures forall o :: multiset(r)[o] == if keep(o) then multiset(arr)[o] else 0
    ensures forall o :: o in r <==> o in arr && keep(o)
  {
    assert arr == [arr[0]] + arr[1..];
    assert multiset(arr) == multiset([arr[0]]) + multiset(arr[1..]);
    assert multiset([arr[0]] + rest) == multiset([arr[0]]) + multiset(rest);
    assert forall o :: o in r <==> multiset(r)[o] > 0;
    assert forall o :: o in arr <==> multiset(arr)[o] > 0;
  }

  /** `getDetections`, from the reply's ok flag and status and its parsed
      body (None when `r.json()` rejects). A missing or empty filter returns
      the list as it came. */
  function GetDetections(ok: bool, status: int, body: Option<seq<Detection>>, filter: Option<string>): Result<seq<Detection>, Failure> {
    if !ok then Err(HttpStatus("detections http " + IntToString(status)))
    else if body.None? then Err(UnreadableBody)
    else if filter.None? || filter.value == "" then Ok(body.value)
    else Ok(FilterByLabel(body.value, filter.value))
  }

  /** `b` is `a` with some elements left out, the rest in their order. */
  predicate IsSubsequence(b: seq<Detection>, a: seq<Detection>)
    decreases |a|
  {
    if |b| == 0 then true
    else if |a| == 0 then false
    else if b[0] == a[0] then IsSubsequence(b[1..], a[1..])
    else IsSubsequence(b, a[1..])
  }

  /** Filtering keeps the order of the detections it keeps. */
  lemma {:induction false} FilterIsSubsequence(arr: seq<Detection>, filter: string)
    ensures IsSubsequence(FilterByLabel(arr, filter), arr)
    decreases |arr|
  {
    if |arr| > 0 {
      FilterIsSubsequence(arr[1..], filter);
      var rest := FilterByLabel(arr[1..], filter);
      if Kept(arr[0], filter) {
        assert ([arr[0]] + rest)[1..] == rest;
      } else {
        SubsequenceSkip(rest, arr);
      }
    }
  }

  /** A subsequence of `a[1..]` is a subsequence of `a`. */
  lemma {:induction false} SubsequenceSkip(b: seq<Detection>, a: seq<Detection>)
    requires |a| > 0 && IsSubsequence(b, a[1..])
    ensures IsSubsequence(b, a)
    decreases |a|, 0
  {
    if |b| > 0 && b[0] == a[0] {
      SubsequenceTail(b, a[1..]);
    }
  }

  /** Dropping the first element of a subsequence leaves a subsequence. */
  lemma {:induction false} SubsequenceTail(b: seq<Detection>, a: seq<Detection>)
    requires |b| > 0 && IsSubsequence(b, a)
    ensures IsSubsequence(b[1..], a)
    decreases |a|, 1
  {
    if b[0] != a[0] {
      SubsequenceTail(b, a[1..]);
    }
    SubsequenceSkip(b[1..], a);
  }

  /** A detection with no label is treated as labelled "": it survives only
      a filter that lower-cases to nothing. */
  lemma MissingLabelIsEmpty(o: Detection, filter: string)
    requires o.name.None?
    ensures Kept(o, filter) <==> filter == ""
  {
    if filter != "" {
      assert |ToLower(filter)| > 0;
      assert !OccursAt("", ToLower(filter), 0);
      ContainsIff("", ToLower(filter));
    }
    if filter == "" {
      assert OccursAt("", ToLower(filter), 0);
      ContainsAt("", ToLower(filter), 0);
    }
  }

  /** Matching ignores case on both sides. */
  lemma KeptIgnoresCase(text: string, filter: string, side: Option<string>)
    ensures Kept(Detection(Some(text), side), filter) == Kept(Detection(Some(ToLower(text)), side), ToLower(filter))
  {
    ToLowerIdempotent(text);
    ToLowerIdempotent(filter);
  }

  /** `getDetections`: a non-ok status rejects with its message; with no
      filter or an empty one the list comes back unchanged; otherwise the
      result holds exactly the detections whose label contains the filter,
      each as often as in the input, in their order. */
  lemma GetDetectionsCases(ok: bool, status: int, arr: seq<Detection>, filter: Option<string>)
    ensures !ok ==> GetDetections(ok, status, Some(arr), filter) == Err(HttpStatus("detections http " + IntToString(status)))
    ensures ok && (filter.None? || filter.value == "") ==> GetDetections(ok, status, Some(arr), filter) == Ok(arr)
    ensures ok && filter.Some? && filter.value != "" ==>
              var r := GetDetections(ok, status, Some(arr), filter).value;
              && IsSubsequence(r, arr)
              && (forall o :: o in r <==> o in arr && Kept(o, filter.value))
              && (forall o :: multiset(r)[o] == if Kept(o, filter.value) then multiset(arr)[o] else 0)
  {
    if filter.Some? {
      FilterIsSubsequence(arr, filter.value);
    }
  }

  /** `{ accepted: r.ok, ...body }`: the spread comes second, so a body field
      named `accepted` overrides the status. An unreadable body counts as
      `{}`. */
  function ReplyFields(ok: bool, body: Option<map<string, Json>>): map<string, Json> {
    map["accepted" := JBool(ok)] + body.GetOr(map[])
  }

  /** The merged reply has every field of the body with its value, and an
      `accepted` field that is the body's own if it has one and the status
      flag otherwise. */
  lemma ReplyFieldsMerge(ok: bool, body: Option<map<string, Json>>)
    ensures var r := ReplyFields(ok, body);
            && r.Keys == body.GetOr(map[]).Keys + {"accepted"}
            && (forall k :: k in body.GetOr(map[]) ==> r[k] == body.GetOr(map[])[k])
            && r["accepted"] == (if "accepted" in body.GetOr(map[]) then body.GetOr(map[])["accepted"] else JBool(ok))
  {
  }

  /** An unreadable body gives just the status flag. */
  lemma UnreadableBodyIsEmpty(ok: bool)
    ensures ReplyFields(ok, None) == map["accepted" := JBool(ok)]
  {
  }

  const DefaultChoice: string := "closest"

  /** The body `navigateTarget` posts: `choice` defaults to "closest", and
      `index` is omitted by `JSON.stringify` when undefined. */
  function NavigateRequest(target: string, choice: Option<string>, index: Option<int>): map<string, Json> {
    var fields := map["label" := JString(target), "choice" := JString(choice.GetOr(DefaultChoice))];
    if index.Some? then fields["index" := JNum(index.value)] else fields
  }

  /** The body `drive` posts: `speed` defaults to 1. */
  function DriveRequest(direction: string, speed: Option<int>): map<string, Json> {
    map["direction" := JString(direction), "speed" := JNum(speed.GetOr(1))]
  }

  /** The defaults of the two commands. */
  lemma RequestDefaults(target: string, direction: string)
    ensures NavigateRequest(target, None, None) == map["label" := JString(target), "choice" := JString("closest")]
    ensures "index" !in NavigateRequest(target, None, None)
    ensures DriveRequest(direction, None)["speed"] == JNum(1)
    ensures forall i :: NavigateRequest(target, None, Some(i))["index"] == JNum(i)
  {
  }
}
