/** The execution providers of the inference engine and their fixed fallback order. */
module Providers {
  import opened Wrappers

  /** The three provider names the upscaler accepts: "webgpu", "wasm" and "cpu". */
  datatype Provider = WebGpu | Wasm | Cpu

  /** The priority list `["webgpu", "wasm", "cpu"]` written out in both the class and the view. */
  const Order: seq<Provider> := [WebGpu, Wasm, Cpu]

  /** `Array.prototype.indexOf`: the first position of `p` in `s`, or -1 when it is absent. */
  function IndexOf(s: seq<Provider>, p: Provider): (i: int)
    ensures -1 <= i < |s|
    ensures i == -1 <==> p !in s
    ensures 0 <= i ==> s[i] == p && forall j :: 0 <= j < i ==> s[j] != p
  {
    if s == [] then -1
    else if s[0] == p then 0
    else
      var i := IndexOf(s[1..], p);
      if i == -1 then -1 else i + 1
  }

  /**
   * The successor of `current` in the priority list, or `None` past its end:
   * `providers[providers.indexOf(current) + 1] || null`.
   */
  function NextProvider(current: Provider): (r: Option<Provider>)
    ensures current == WebGpu ==> r == Some(Wasm)
    ensures current == Wasm ==> r == Some(Cpu)
    ensures current == Cpu ==> r == None
    ensures r.Some? ==> IndexOf(Order, r.value) == IndexOf(Order, current) + 1
  {
    var i := IndexOf(Order, current);
    if i + 1 < |Order| then Some(Order[i + 1]) else None
  }

  /**
   * Every provider occurs in the priority list exactly once, so following
   * `NextProvider` from the first entry visits the whole list in order and stops.
   */
  lemma {:induction false} OrderIsChain(i: nat)
    requires i < |Order|
    ensures IndexOf(Order, Order[i]) == i
    ensures NextProvider(Order[i]) == if i + 1 < |Order| then Some(Order[i + 1]) else None
  {
  }
}
