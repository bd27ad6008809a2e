/** The JSON coercion helpers: EnsureSlice in its two revisions,
    ContainsString and the pointer helpers ToStringPtr, ToIntPtr and
    EqualPointers. A Go pointer (`*string`, `*int`) is an Option. */
module Coerce {
  import opened Wrappers
  import opened Json

  /** The string an element of a coerced array becomes: itself when it is a
      string, the zero value "" otherwise. */
  function StringOrBlank(v: Json): string {
    if v.JString? then v.s else ""
  }

  /** What EnsureSlice returns, as a value: an array keeps its length, its
      strings stay at their index and every other element is blanked; every
      non-array value, null included, gives the empty list. */
  function CoercedStrings(value: Json): (r: seq<string>)
    ensures value.JArray? ==> |r| == |value.items|
    ensures value.JArray? ==> forall i :: 0 <= i < |r| ==> r[i] == StringOrBlank(value.items[i])
    ensures !value.JArray? ==> r == []
  {
    if value.JArray? then seq(|value.items|, i requires 0 <= i < |value.items| => StringOrBlank(value.items[i]))
    else []
  }

  /** The revision of searchableentry.go, which also wraps a lone string. */
  function CoercedStringsOrSingleton(value: Json): (r: seq<string>)
    ensures value.JString? ==> r == [value.s]
    ensures !value.JString? ==> r == CoercedStrings(value)
  {
    if value.JString? then [value.s] else CoercedStrings(value)
  }

  /** EnsureSlice of common/utils/slice.go, util/util.go and
      util/slice_utils.go: fills a fresh zeroed array by index. */
  method EnsureSlice(value: Json) returns (r: seq<string>)
    ensures value.JArray? ==> |r| == |value.items|
    ensures value.JArray? ==> forall i :: 0 <= i < |r| ==> r[i] == StringOrBlank(value.items[i])
    ensures !value.JArray? ==> r == []
    ensures r == CoercedStrings(value)
  {
    match value
    case JArray(items) =>
      var result := new string[|items|](_ => "");
      for i := 0 to |items|
        invariant forall j :: 0 <= j < i ==> result[j] == StringOrBlank(items[j])
        invariant forall j :: i <= j < |items| ==> result[j] == ""
      {
        if items[i].JString? {
          result[i] := items[i].s;
        }
      }
      r := result[..];
    case _ =>
      r := [];
  }

  /** EnsureSlice of searchableentry.go: as above, and a lone string becomes
      a one-element list. */
  method EnsureSliceOrSingleton(value: Json) returns (r: seq<string>)
    ensures value.JString? ==> r == [value.s]
    ensures value.JArray? ==> |r| == |value.items|
    ensures value.JArray? ==> forall i :: 0 <= i < |r| ==> r[i] == StringOrBlank(value.items[i])
    ensures !value.JArray? && !value.JString? ==> r == []
    ensures r == CoercedStringsOrSingleton(value)
  {
    match value
    case JArray(items) =>
      var result := new string[|items|](_ => "");
      for i := 0 to |items|
        invariant forall j :: 0 <= j < i ==> result[j] == StringOrBlank(items[j])
        invariant forall j :: i <= j < |items| ==> result[j] == ""
      {
        if items[i].JString? {
          result[i] := items[i].s;
        }
      }
      r := result[..];
    case JString(s) =>
      r := [s];
    case _ =>
      r := [];
  }

  /** The two revisions differ exactly on a lone string. */
  lemma RevisionsDifferOnlyOnLoneString(value: Json)
    ensures CoercedStringsOrSingleton(value) != CoercedStrings(value) <==> value.JString?
  {
  }

  /** ContainsString: a linear search for an equal element. */
  function ContainsString(slice: seq<string>, target: string): (r: bool)
    ensures r <==> exists i :: 0 <= i < |slice| && slice[i] == target
  {
    if slice == [] then false
    else if slice[0] == target then true
    else
      var rest := ContainsString(slice[1..], target);
      assert rest ==> exists i :: 0 <= i < |slice| && slice[i] == target by {
        if rest {
          var i :| 0 <= i < |slice[1..]| && slice[1..][i] == target;
          assert slice[i + 1] == target;
        }
      }
      rest
  }

  /** ToStringPtr: the string itself when the value is a string, nil
      otherwise. */
  function ToStringPtr(v: Json): (r: Option<string>)
    ensures r.Some? <==> v.JString?
    ensures r.Some? ==> r.value == v.s
  {
    if v.JString? then Some(v.s) else None
  }

  /** ToIntPtr: the number when the value is a JSON number, nil otherwise. */
  function ToIntPtr(v: Json): (r: Option<int>)
    ensures r.Some? <==> v.JNumber?
    ensures r.Some? ==> r.value == v.n
  {
    if v.JNumber? then Some(v.n) else None
  }

  /** EqualPointers: when either pointer is nil, the pointers themselves are
      compared (so both must be nil); otherwise the pointees are. */
  function EqualPointers<T(==)>(a: Option<T>, b: Option<T>): (r: bool)
    ensures a.None? || b.None? ==> (r <==> a.None? && b.None?)
    ensures a.Some? && b.Some? ==> (r <==> a.value == b.value)
  {
    if a.None? || b.None? then a == b else a.value == b.value
  }

  /** EqualPointers is reflexive and symmetric. */
  lemma EqualPointersIsEquivalence<T>(a: Option<T>, b: Option<T>)
    ensures EqualPointers(a, a)
    ensures EqualPointers(a, b) == EqualPointers(b, a)
  {
  }
}
