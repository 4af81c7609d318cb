/**
 * The `boot_go` protocol: bind the flash devices into the registry the loader reads them
 * from, hand the loader a fresh simulation context, run it once, write the fault counter
 * back to the caller, unbind the devices and classify the loader's return code.
 */
module Invocation {
  import opened Wrappers
  import opened CTypes
  import opened Outcome

  /** The fields of the simulation context, as a value (the setjmp buffer is not modelled). */
  datatype ContextState = ContextState(flashCounter: i32, jumped: i32, cAsserts: u8, cCatchAsserts: u8)

  /** The simulation context the loader observes and updates during the call. */
  class SimContext {
    var flashCounter: i32
    var jumped: i32
    var cAsserts: u8
    var cCatchAsserts: u8

    constructor (flashCounter: i32, jumped: i32, cAsserts: u8, cCatchAsserts: u8)
      ensures State() == ContextState(flashCounter, jumped, cAsserts, cCatchAsserts)
    {
      this.flashCounter := flashCounter;
      this.jumped := jumped;
      this.cAsserts := cAsserts;
      this.cCatchAsserts := cCatchAsserts;
    }

    function State(): (s: ContextState)
      reads this
    {
      ContextState(flashCounter, jumped, cAsserts, cCatchAsserts)
    }
  }

  /** How the loader leaves things: its return code, the context and the response slot. */
  datatype LoaderExit = LoaderExit(ret: i32, ctx: ContextState, rsp: BootRsp)

  /**
   * The loader (`invoke_boot_go`), foreign code that is not modelled: `run` is whatever it
   * does with the context, the area descriptor, the bound flash devices and the response slot,
   * so every property proved of the wrapper holds for every loader.
   */
  class BootLoader<Flash, Area> {
    const run: (ContextState, Area, map<int, Flash>, BootRsp) -> LoaderExit

    constructor (run: (ContextState, Area, map<int, Flash>, BootRsp) -> LoaderExit)
      ensures this.run == run
    {
      this.run := run;
    }

    /** One call into the loader; it may change every field of the context and fills `rsp`. */
    method Invoke(ctx: SimContext, areadesc: Area, flashes: map<int, Flash>, rsp: BootRsp)
      returns (ret: i32, rsp': BootRsp)
      modifies ctx
      ensures run(old(ctx.State()), areadesc, flashes, rsp) == LoaderExit(ret, ctx.State(), rsp')
    {
      var exit := run(ctx.State(), areadesc, flashes, rsp);
      ctx.flashCounter, ctx.jumped := exit.ctx.flashCounter, exit.ctx.jumped;
      ctx.cAsserts, ctx.cCatchAsserts := exit.ctx.cAsserts, exit.ctx.cCatchAsserts;
      ret, rsp' := exit.ret, exit.rsp;
    }
  }

  /** The caller's optional counter slot: the fault budget carried from one invocation to the next. */
  class FlashCounter {
    var value: i32
  }

  /** The context the wrapper hands the loader, for a caller counter (if any) and the catch flag. */
  function StartContext(counter: Option<i32>, catchAsserts: bool): (s: ContextState)
    ensures s.flashCounter == if counter.Some? then counter.value else 0
    ensures s.jumped == 0 && s.cAsserts == 0
    ensures s.cCatchAsserts == 1 <==> catchAsserts
    ensures s.cCatchAsserts == 0 <==> !catchAsserts
  {
    ContextState(match counter case None => 0 case Some(c) => c, 0, 0, if catchAsserts then 1 else 0)
  }

  /** What the loader does in one invocation: its starting context and response are the wrapper's. */
  ghost function ExitFor<Flash, Area>(loader: BootLoader<Flash, Area>, counter: Option<i32>, catchAsserts: bool,
                                      areadesc: Area, flashes: map<int, Flash>): (exit: LoaderExit)
  {
    loader.run(StartContext(counter, catchAsserts), areadesc, flashes, EMPTY_RSP)
  }

  /** The registry after `set_flash` for each device id of `order`, in that order. */
  ghost function BindEach<Flash>(reg: map<int, Flash>, multiflash: map<int, Flash>, order: seq<int>): (r: map<int, Flash>)
    requires forall k :: k in order ==> k in multiflash
  {
    if order == [] then reg
    else
      var last := order[|order| - 1];
      BindEach(reg, multiflash, order[..|order| - 1])[last := multiflash[last]]
  }

  /** The registry after `clear_flash` for each device id of `order`, in that order. */
  ghost function ClearEach<Flash>(reg: map<int, Flash>, order: seq<int>): (r: map<int, Flash>)
  {
    if order == [] then reg
    else ClearEach(reg, order[..|order| - 1]) - {order[|order| - 1]}
  }

  /**
   * Binding in any order, repetitions included, binds exactly the visited devices over the
   * old registry: the outcome does not depend on the hash map's iteration order.
   */
  lemma {:induction false} BindEachIsUnion<Flash>(reg: map<int, Flash>, multiflash: map<int, Flash>, order: seq<int>)
    requires forall k :: k in order ==> k in multiflash
    ensures BindEach(reg, multiflash, order) == reg + map k | k in multiflash && k in order :: multiflash[k]
  {
    if order != [] {
      var front, last := order[..|order| - 1], order[|order| - 1];
      assert forall k :: k in front ==> k in order;
      BindEachIsUnion(reg, multiflash, front);
      assert forall k :: k in order <==> k in front || k == last;
    }
  }

  /** Clearing in any order removes exactly the visited devices and leaves every other binding. */
  lemma {:induction false} ClearEachIsDifference<Flash>(reg: map<int, Flash>, order: seq<int>)
    ensures ClearEach(reg, order) == reg - set k | k in order
  {
    if order != [] {
      var front, last := order[..|order| - 1], order[|order| - 1];
      ClearEachIsDifference(reg, front);
      assert forall k :: k in order <==> k in front || k == last;
    }
  }

  /** A set that is not empty has a member to visit next. */
  lemma NonEmptyHasMember(s: set<int>)
    requires s != {}
    ensures exists k :: k in s
  {
    if forall k :: k !in s {
      assert false;  // s would then equal {}
    }
  }

  /** The registry through which the loader reaches the simulated flash devices, by device id. */
  class Registry<Flash> {
    var bound: map<int, Flash>

    /** `api::set_flash`: bind a device id to a flash device, replacing any earlier binding. */
    method SetFlash(devId: int, flash: Flash)
      modifies this
      ensures bound == old(bound)[devId := flash]
    {
      bound := bound[devId := flash];
    }

    /** `api::clear_flash`: remove the binding of a device id. */
    method ClearFlash(devId: int)
      modifies this
      ensures bound == old(bound) - {devId}
    {
      bound := bound - {devId};
    }

    /**
     * Invoke the loader on the devices of `multiflash`. The loader sees every device bound
     * over the old registry and starts from the wrapper's context; afterwards none of the
     * set's ids is bound, every other binding is as before, the caller's counter slot (if
     * any) holds the loader's final counter, and the outcome is the classification of the
     * loader's return code.
     */
    method BootGo<Area>(multiflash: map<int, Flash>, areadesc: Area, counter: FlashCounter?, catchAsserts: bool,
                        loader: BootLoader<Flash, Area>)
      returns (res: BootGoResult)
      modifies this, counter
      ensures var exit := ExitFor(loader, if counter == null then None else Some(old(counter.value)), catchAsserts,
                                  areadesc, old(bound) + multiflash);
              && res == Classify(exit.ret, exit.ctx.cAsserts, exit.rsp)
              && (res.Stopped? <==> exit.ret == STOPPED_SENTINEL)
              && (counter != null ==> counter.value == exit.ctx.flashCounter)
      ensures bound == old(bound) - multiflash.Keys
    {
      ghost var before := bound;
      ghost var order: seq<int> := [];
      var pending := multiflash.Keys;
      while pending != {}
        invariant forall k :: k in order ==> k in multiflash
        invariant forall k :: k in multiflash ==> (k in order <==> k !in pending)
        invariant pending <= multiflash.Keys
        invariant bound == BindEach(before, multiflash, order)
        modifies this
        decreases pending
      {
        NonEmptyHasMember(pending);
        var devId :| devId in pending;
        SetFlash(devId, multiflash[devId]);
        order := order + [devId];
        pending := pending - {devId};
      }
      BindEachIsUnion(before, multiflash, order);
      assert forall k :: k in multiflash ==> k in order;
      assert (map k | k in multiflash && k in order :: multiflash[k]) == multiflash;

      var initial := StartContext(if counter == null then None else Some(counter.value), catchAsserts);
      var ctx := new SimContext(initial.flashCounter, initial.jumped, initial.cAsserts, initial.cCatchAsserts);
      var rsp := EMPTY_RSP;
      var result;
      result, rsp := loader.Invoke(ctx, areadesc, bound, rsp);
      var asserts := ctx.cAsserts;
      if counter != null {
        counter.value := ctx.flashCounter;
      }

      ghost var during := bound;
      ghost var cleared: seq<int> := [];
      var remaining := multiflash.Keys;
      while remaining != {}
        invariant forall k :: k in multiflash ==> (k in cleared <==> k !in remaining)
        invariant forall k :: k in cleared ==> k in multiflash
        invariant remaining <= multiflash.Keys
        invariant bound == ClearEach(during, cleared)
        modifies this
        decreases remaining
      {
        NonEmptyHasMember(remaining);
        var devId :| devId in remaining;
        ClearFlash(devId);
        cleared := cleared + [devId];
        remaining := remaining - {devId};
      }
      ClearEachIsDifference(during, cleared);
      assert forall k :: k in (set k | k in cleared) <==> k in multiflash;
      assert (set k | k in cleared) == multiflash.Keys;

      res := Classify(result, asserts, rsp);
    }
  }
}
