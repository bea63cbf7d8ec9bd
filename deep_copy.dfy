/**
 _CFArrayCreateDeepCopy: copies every element of an array into a fresh
 array, all or nothing. Allocation is an input: `bufferOk` says whether the
 values buffer was allocated and `failing` holds the indices whose element
 copy fails.
 */
module DeepCopy {
  import opened HostTypes

  method CreateDeepCopy<T>(items: seq<T>, bufferOk: bool, failing: set<nat>) returns (r: Option<seq<T>>)
    ensures |items| == 0 ==> r == Some([])
    ensures |items| > 0 ==> (r.Some? <==> bufferOk && forall i :: 0 <= i < |items| ==> i !in failing)
    ensures r.Some? ==> r.value == items
  {
    var c := |items|;
    if c == 0 {
      return Some([]);
    }
    if !bufferOk {
      return None;
    }
    var values := new T[c](_ => items[0]);
    var i := 0;
    while i < c
      invariant 0 <= i <= c
      invariant values[..i] == items[..i]
      invariant forall k :: 0 <= k < i ==> k !in failing
    {
      if i in failing {
        break;
      }
      // a copy of a string, a data or a property list equals its original
      values[i] := items[i];
      i := i + 1;
    }
    assert i == c ==> values[..] == values[..i] && items == items[..i];
    r := if i == c then Some(values[..]) else None;
  }
}
