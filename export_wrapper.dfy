/**
 * The object `require('detox')` exports (detox/src/DetoxExportWrapper.js):
 * one slot holding either the shared `none` placeholder or the live
 * orchestrator, `init` and `cleanup` moving it between the two, and
 * members that forward to whatever the slot holds when they are called.
 *
 * Composing the configuration and the orchestrator's own `init`/`cleanup`
 * are oracles: the caller says whether each of them fails, and with what.
 */
module ExportWrapper {
  import opened Common

  /** What the slot holds: the placeholder, or the orchestrator with this serial number. */
  datatype Slot = NoneSentinel | Live(instance: nat)

  /** The `params` argument of `init`: absent, or present with its `initGlobals` value. */
  datatype InitParams = NoParams | Params(initGlobals: Option<bool>)

  /** The forwarding members: seven passthrough methods and two lazy proxies. */
  datatype Member = BeforeEach | AfterEach | SuiteStart | SuiteEnd | Element | Expect | WaitFor | By | Device

  /** The `none` placeholder, shared by every wrapper: it owns the globals and the recorded init error. */
  class Placeholder {
    var contextInstalled: bool
    var recordedError: Option<string>

    constructor ()
      ensures !contextInstalled && recordedError == None
    {
      contextInstalled := false;
      recordedError := None;
    }
  }

  /** Whether `init` installs the globals: unless `params.initGlobals` is exactly `false`. */
  predicate InstallsGlobals(params: InitParams) {
    params.NoParams? || params.initGlobals != Some(false)
  }

  lemma InstallsGlobalsCases(params: InitParams)
    ensures !InstallsGlobals(params) <==> params == Params(Some(false))
  {
  }

  class Wrapper {
    const none: Placeholder
    var slot: Slot
    /** Serial number the next orchestrator gets, so that every `new Detox` is a distinct instance. */
    var nextInstance: nat
    /** The instances whose `cleanup` was called, in order. */
    var cleaned: seq<nat>

    ghost predicate Valid()
      reads this
    {
      slot.Live? ==> slot.instance < nextInstance
    }

    constructor (none: Placeholder)
      ensures this.none == none && slot == NoneSentinel && nextInstance == 0 && cleaned == []
      ensures Valid()
    {
      this.none := none;
      slot := NoneSentinel;
      nextInstance := 0;
      cleaned := [];
    }

    /**
     * `init`: globals first (unless declined), the recorded error cleared,
     * then compose and construct; the new orchestrator is stored before its
     * own init runs, so a failing init leaves it in the slot. Any failure is
     * recorded on the placeholder and rethrown.
     */
    method Init(params: InitParams, composeError: Option<string>, initError: Option<string>)
      returns (r: Result<nat, string>)
      requires Valid()
      modifies this`slot, this`nextInstance, none`contextInstalled, none`recordedError
      ensures Valid()
      ensures none.contextInstalled == (old(none.contextInstalled) || InstallsGlobals(params))
      ensures composeError.Some? ==>
        && r == Err(composeError.value) && none.recordedError == composeError
        && slot == old(slot) && nextInstance == old(nextInstance)
      ensures composeError.None? ==>
        && slot == Live(old(nextInstance)) && nextInstance == old(nextInstance) + 1
        && (initError.Some? ==> r == Err(initError.value) && none.recordedError == initError)
        && (initError.None? ==> r == Ok(old(nextInstance)) && none.recordedError == None)
    {
      if InstallsGlobals(params) {
        none.contextInstalled := true;
      }
      none.recordedError := None;
      if composeError.Some? {
        none.recordedError := composeError;
        return Err(composeError.value);
      }
      slot := Live(nextInstance);
      nextInstance := nextInstance + 1;
      if initError.Some? {
        none.recordedError := initError;
        return Err(initError.value);
      }
      return Ok(slot.instance);
    }

    /**
     * `cleanup`: the globals are always removed; a live orchestrator is
     * cleaned and then replaced by the placeholder. If its cleanup throws,
     * the error propagates before the slot is reset.
     */
    method Cleanup(cleanupError: Option<string>) returns (r: Result<(), string>)
      requires Valid()
      modifies this`slot, this`cleaned, none`contextInstalled
      ensures Valid()
      ensures !none.contextInstalled
      ensures old(slot) == NoneSentinel ==> r.Ok? && slot == NoneSentinel && cleaned == old(cleaned)
      ensures old(slot).Live? ==> cleaned == old(cleaned) + [old(slot).instance]
      ensures old(slot).Live? && cleanupError.None? ==> r.Ok? && slot == NoneSentinel
      ensures old(slot).Live? && cleanupError.Some? ==> r == Err(cleanupError.value) && slot == old(slot)
    {
      none.contextInstalled := false;
      if slot.Live? {
        cleaned := cleaned + [slot.instance];
        if cleanupError.Some? {
          return Err(cleanupError.value);
        }
        slot := NoneSentinel;
      }
      return Ok(());
    }

    /** A forwarding member reaches whatever the slot holds at the moment of the call. */
    method Forward(member: Member) returns (target: Slot, forwarded: Member)
      ensures target == slot && forwarded == member
    {
      target, forwarded := slot, member;
    }
  }

  /**
   * A successful init is followed by forwarding to the new orchestrator; a
   * cleanup after it sends forwarding back to the placeholder, and a second
   * cleanup cleans nothing more.
   */
  method InitForwardCleanup(w: Wrapper, params: InitParams, member: Member)
    requires w.Valid() && w.slot == NoneSentinel
    modifies w, w.none
    ensures w.cleaned == old(w.cleaned) + [old(w.nextInstance)]
    ensures w.slot == NoneSentinel
  {
    var r := w.Init(params, None, None);
    var target, forwarded := w.Forward(member);
    assert target == Live(old(w.nextInstance));
    var c1 := w.Cleanup(None);
    target, forwarded := w.Forward(member);
    assert target == NoneSentinel;
    var c2 := w.Cleanup(None);
  }

  /** A failing orchestrator init still leaves that orchestrator in the slot, so cleanup reaches it. */
  method FailedInitIsCleaned(w: Wrapper, params: InitParams, error: string)
    requires w.Valid() && w.slot == NoneSentinel
    modifies w, w.none
    ensures w.cleaned == old(w.cleaned) + [old(w.nextInstance)]
    ensures w.none.recordedError == Some(error)
  {
    var r := w.Init(params, None, Some(error));
    assert r == Err(error);
    var c := w.Cleanup(None);
  }
}
