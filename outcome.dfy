/** The outcome of one invocation of the loader (`BootGoResult`) and the queries callers ask of it. */
module Outcome {
  import opened Wrappers
  import opened CTypes

  /** The raw `br_hdr` pointer of a boot response: null, or the address of an image header. */
  datatype HeaderRef = NullHeader | HeaderAt(address: nat)

  /** The response slot the loader fills in: which image it selected to boot. */
  datatype BootRsp = BootRsp(hdr: HeaderRef, flashDevId: int, imageOff: int)

  /** The response as the wrapper sets it up before the loader runs. */
  const EMPTY_RSP: BootRsp := BootRsp(NullHeader, 0, 0)

  /** The return code by which the loader reports that the flash simulation stopped it. */
  const STOPPED_SENTINEL: i32 := -0x13579

  /**
   * Either the run was stopped by the flash simulation, or the loader ran to completion
   * with a result code, an assert tally and a response.
   */
  datatype BootGoResult =
    | Stopped
    | Normal(result: i32, asserts: u8, resp: BootRsp)
  {
    /** True exactly when the flash simulation stopped the run before the loader returned. */
    function Interrupted(): (b: bool)
      ensures b <==> this == Stopped
    {
      Stopped?
    }

    /** The response, present exactly when the run was not interrupted. */
    function Resp(): (r: Option<BootRsp>)
      ensures r == None <==> Interrupted()
      ensures r != None ==> r == Some(resp)
    {
      match this
      case Normal(_, _, resp) => Some(resp)
      case Stopped => None
    }

    /** The assert tally; an interrupted run is considered to have no asserts. */
    function Asserts(): (n: u8)
      ensures Interrupted() ==> n == 0
      ensures Resp() != None ==> n == asserts
    {
      match this
      case Normal(_, asserts, _) => asserts
      case Stopped => 0
    }

    /** The loader ran to completion and returned 0. */
    function Success(): (b: bool)
      ensures b ==> !Interrupted() && Resp() != None
      ensures b <==> !Interrupted() && result == 0
    {
      match this
      case Normal(0, _, _) => true
      case _ => false
    }

    /** Success, and no assert fired. */
    function SuccessNoAsserts(): (b: bool)
      ensures b <==> Success() && Asserts() == 0
      ensures b ==> !Interrupted()
    {
      match this
      case Normal(0, 0, _) => true
      case _ => false
    }
  }

  /**
   * The wrapper's classification of the loader's return code: the sentinel means the run
   * was stopped; any other code is kept, with the final tally and response, in `Normal`.
   */
  function Classify(result: i32, asserts: u8, rsp: BootRsp): (r: BootGoResult)
    ensures r.Interrupted() <==> result == STOPPED_SENTINEL
    ensures !r.Interrupted() ==> r.result == result && r.asserts == asserts && r.resp == rsp
    ensures r.Normal? ==> r.result != STOPPED_SENTINEL
  {
    if result == STOPPED_SENTINEL then Stopped else Normal(result, asserts, rsp)
  }

  /**
   * What a caller learns from the queries on a classified outcome, in terms of the loader's
   * raw return code, tally and response: a stopped run hides whatever the loader tallied.
   */
  lemma ClassifiedQueries(result: i32, asserts: u8, rsp: BootRsp)
    ensures Classify(result, asserts, rsp).Success() <==> result == 0
    ensures Classify(result, asserts, rsp).SuccessNoAsserts() <==> result == 0 && asserts == 0
    ensures Classify(result, asserts, rsp).Asserts() == if result == STOPPED_SENTINEL then 0 else asserts
    ensures Classify(result, asserts, rsp).Resp() == if result == STOPPED_SENTINEL then None else Some(rsp)
  {
  }
}
