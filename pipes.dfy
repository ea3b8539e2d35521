/** The demo application's array pipes. Both are pure: they build a result
    from the input array and leave the array itself untouched. */
module GetPipe {
  import opened Wrappers
  import opened JsValues

  /** No element before position `i` passes the `find` callback (so none of
      them made it throw either). */
  predicate NoMatchBefore(value: seq<Value>, key: string, val: Value, i: int)
    requires i <= |value|
  {
    forall j :: 0 <= j < i ==> !Nullish(value[j]) && Member(value[j], key) != val
  }

  /** `value.find(v => v[key] === val)`: the first element whose `key`
      property is strictly equal to `val`, or undefined when there is none;
      reaching a null or undefined element first throws. */
  function Transform(value: seq<Value>, key: string, val: Value): (r: Result<Value, TypeError>)
    ensures r.Failure? <==> exists i :: 0 <= i < |value| && Nullish(value[i]) && NoMatchBefore(value, key, val, i)
    ensures r.Success? && r.value != Undefined ==>
      exists i :: 0 <= i < |value| && value[i] == r.value && !Nullish(value[i]) && Member(value[i], key) == val
        && NoMatchBefore(value, key, val, i)
    ensures r == Success(Undefined) <==> NoMatchBefore(value, key, val, |value|)
  {
    if value == [] then Success(Undefined)
    else if Nullish(value[0]) then Failure(CannotReadProperties(value[0], key))
    else if Member(value[0], key) == val then Success(value[0])
    else
      var r := Transform(value[1..], key, val);
      assert forall i :: 0 < i <= |value| ==> (NoMatchBefore(value, key, val, i) <==> NoMatchBefore(value[1..], key, val, i - 1));
      if r.Failure? then
        var k :| 0 <= k < |value[1..]| && Nullish(value[1..][k]) && NoMatchBefore(value[1..], key, val, k);
        assert value[k + 1] == value[1..][k];
        r
      else if r.value != Undefined then
        var k :| 0 <= k < |value[1..]| && value[1..][k] == r.value && !Nullish(value[1..][k])
          && Member(value[1..][k], key) == val && NoMatchBefore(value[1..], key, val, k);
        assert value[k + 1] == value[1..][k];
        r
      else r
  }
}

module PluckPipe {
  import opened Wrappers
  import opened JsValues

  /** `value.map(v => v[key])`: each element's `key` property, in order; a
      null or undefined element throws. */
  function Transform(value: seq<Value>, key: string): (r: Result<seq<Value>, TypeError>)
    ensures r.Failure? <==> exists i :: 0 <= i < |value| && Nullish(value[i])
    ensures r.Success? ==> |r.value| == |value|
    ensures r.Success? ==> forall i :: 0 <= i < |value| ==> !Nullish(value[i]) && r.value[i] == Member(value[i], key)
  {
    if value == [] then Success([])
    else if Nullish(value[0]) then Failure(CannotReadProperties(value[0], key))
    else match Transform(value[1..], key)
      case Failure(e) =>
        assert exists i :: 0 <= i < |value[1..]| && Nullish(value[1..][i]);
        Failure(e)
      case Success(rest) => Success([Member(value[0], key)] + rest)
  }
}
