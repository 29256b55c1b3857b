/**
 * `URLSearchParams` as an ordered list of name-value pairs, with the
 * `get`, `append` and `set` operations of the WHATWG URL Standard and its
 * `application/x-www-form-urlencoded` serialisation (the percent-encoding of
 * each name and value is a parameter).
 */
module UrlParams {
  import opened Wrappers
  import Text

  datatype Param = Param(name: string, value: string)

  /** `params.get(name)`: the value of the first pair with that name. */
  function Get(ps: seq<Param>, name: string): (r: Option<string>)
    ensures r.None? <==> Count(ps, name) == 0
    decreases |ps|
  {
    if |ps| == 0 then None
    else if ps[0].name == name then Some(ps[0].value)
    else Get(ps[1..], name)
  }

  /** How many pairs carry `name`. */
  function Count(ps: seq<Param>, name: string): (r: nat)
    decreases |ps|
  {
    if |ps| == 0 then 0 else (if ps[0].name == name then 1 else 0) + Count(ps[1..], name)
  }

  /** The pairs that do not carry `name`, in order. */
  function Without(ps: seq<Param>, name: string): (r: seq<Param>)
    decreases |ps|
  {
    if |ps| == 0 then []
    else if ps[0].name == name then Without(ps[1..], name)
    else [ps[0]] + Without(ps[1..], name)
  }

  /** `params.append(name, value)` */
  function Append(ps: seq<Param>, name: string, value: string): (r: seq<Param>) {
    ps + [Param(name, value)]
  }

  /**
   * `params.set(name, value)`: the first pair named `name` takes the new
   * value and the later ones are removed; without such a pair, one is appended.
   */
  function Set(ps: seq<Param>, name: string, value: string): (r: seq<Param>)
    ensures Get(r, name) == Some(value)
    ensures Count(r, name) == 1
    ensures Without(r, name) == Without(ps, name)
    ensures Count(ps, name) == 0 ==> r == ps + [Param(name, value)]
    decreases |ps|
  {
    if |ps| == 0 then [Param(name, value)]
    else if ps[0].name == name then
      var rest := Without(ps[1..], name);
      WithoutHasNone(ps[1..], name);
      WithoutTwice(ps[1..], name);
      assert ([Param(name, value)] + rest)[1..] == rest;
      [Param(name, value)] + rest
    else
      var r := [ps[0]] + Set(ps[1..], name, value);
      assert r[1..] == Set(ps[1..], name, value);
      r
  }

  lemma {:induction false} WithoutHasNone(ps: seq<Param>, name: string)
    ensures Count(Without(ps, name), name) == 0
    decreases |ps|
  {
    if |ps| > 0 {
      WithoutHasNone(ps[1..], name);
    }
  }

  lemma {:induction false} WithoutTwice(ps: seq<Param>, name: string)
    ensures Without(Without(ps, name), name) == Without(ps, name)
    decreases |ps|
  {
    if |ps| > 0 {
      WithoutTwice(ps[1..], name);
    }
  }

  lemma {:induction false} CountAppend(ps: seq<Param>, qs: seq<Param>, name: string)
    ensures Count(ps + qs, name) == Count(ps, name) + Count(qs, name)
    decreases |ps|
  {
    if |ps| == 0 {
      assert ps + qs == qs;
    } else {
      assert (ps + qs)[0] == ps[0];
      assert (ps + qs)[1..] == ps[1..] + qs;
      CountAppend(ps[1..], qs, name);
    }
  }

  lemma {:induction false} GetAppendPresent(ps: seq<Param>, qs: seq<Param>, name: string)
    requires Count(ps, name) > 0
    ensures Get(ps + qs, name) == Get(ps, name)
    decreases |ps|
  {
    if ps[0].name != name {
      assert (ps + qs)[1..] == ps[1..] + qs;
      GetAppendPresent(ps[1..], qs, name);
    }
  }

  lemma {:induction false} GetAppendAbsent(ps: seq<Param>, qs: seq<Param>, name: string)
    requires Count(ps, name) == 0
    ensures Get(ps + qs, name) == Get(qs, name)
    decreases |ps|
  {
    if |ps| == 0 {
      assert ps + qs == qs;
    } else {
      assert (ps + qs)[0] == ps[0];
      assert (ps + qs)[1..] == ps[1..] + qs;
      GetAppendAbsent(ps[1..], qs, name);
    }
  }

  /** `append` never changes what `get` already returned for that name. */
  lemma GetAfterAppend(ps: seq<Param>, name: string, value: string)
    ensures Get(Append(ps, name, value), name) ==
            (if Count(ps, name) > 0 then Get(ps, name) else Some(value))
  {
    if Count(ps, name) > 0 {
      GetAppendPresent(ps, [Param(name, value)], name);
    } else {
      GetAppendAbsent(ps, [Param(name, value)], name);
    }
  }

  /** `params.toString()`: `name=value` pairs joined by `&`, each part encoded. */
  function Serialize(ps: seq<Param>, encode: string -> string): (r: string)
    ensures |ps| == 0 ==> r == ""
  {
    Text.Join(seq(|ps|, i requires 0 <= i < |ps| => encode(ps[i].name) + "=" + encode(ps[i].value)), "&")
  }
}
