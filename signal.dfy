/** Signal handles: a SignalData entry holding one optional closure, a trampoline that calls
    it with the signal number, and start/start_oneshot/stop. */
module Signal {
  import opened Crate
  import opened Payload
  import opened Runtime
  import opened EventLoop

  datatype SignalHandle = SignalHandle(ptr: Ptr)

  /** `uv_signal_cb`: calls the stored closure with the signal number received, only when
      the entry exists, is SignalData and holds Some. */
  method Callback(w: World, h: Ptr, signum: int)
    modifies w`fired
    ensures w.fired == old(w.fired) + InvocationOf(Dispatch(w.data, h, SignalCb), SignalArgs(h, signum))
    ensures w.fired != old(w.fired) <==>
              h in w.data && w.data[h].SignalData? && w.data[h].signalCb.Some?
  {
    w.Fire(Dispatch(w.data, h, SignalCb), SignalArgs(h, signum));
  }

  /** `SignalHandle::new`: ENOMEM when the allocation fails (no native init, no entry); the
      init error when uv_signal_init fails (the block is released, no entry); otherwise a
      fresh block carrying a SignalData entry with no closure. */
  method New(w: World, lp: Loop) returns (r: Result<SignalHandle>)
    requires w.Valid()
    modifies w`blocks, w`next, w`data, w`log
    ensures w.Valid()
    ensures w.log == old(w.log) ==>
      r == Err(ENOMEM) && w.blocks == old(w.blocks) && w.data == old(w.data)
    ensures w.log != old(w.log) ==>
      OneMore(old(w.log), w.log) &&
      var e := w.log[|old(w.log)|];
      e.call.SignalInit? && e.call.lp == lp.handle && e.call.h != NULL && e.call.h !in old(w.blocks) &&
      (e.status < 0 ==>
         r == Err(FromCode(e.status)) && w.blocks == old(w.blocks) && w.data == old(w.data)) &&
      (0 <= e.status ==>
         r == Ok(SignalHandle(e.call.h)) && w.blocks == old(w.blocks) + {e.call.h} &&
         e.call.h !in old(w.data) && w.data == old(w.data)[e.call.h := SignalData(None)])
  {
    var h := w.Alloc();
    if h == NULL {
      return Err(ENOMEM);
    }
    var status := w.Native(SignalInit(lp.handle, h));
    if status < 0 {
      w.Dealloc(h);
      return Err(FromCode(status));
    }
    w.InitializeData(h, SignalData(None));
    r := Ok(SignalHandle(h));
  }

  /** `start`: stores `cb` (or None) in the SignalData entry when there is one, whatever
      libuv then answers; registers the trampoline exactly when `cb` is Some. */
  method Start(w: World, h: SignalHandle, cb: Option<Closure>, signum: int) returns (r: Result<()>)
    requires w.Valid()
    modifies w`data, w`log
    ensures w.Valid()
    ensures w.data == Store(old(w.data), h.ptr, SignalCb, cb)
    ensures h.ptr in w.data && w.data[h.ptr].SignalData? ==> Dispatch(w.data, h.ptr, SignalCb) == cb
    ensures Made(old(w.log), w.log, SignalStart(h.ptr, cb.Some?, signum))
    ensures r == UvRet(LastStatus(w.log))
  {
    w.data := Store(w.data, h.ptr, SignalCb, cb);
    var status := w.Native(SignalStart(h.ptr, cb.Some?, signum));
    r := UvRet(status);
  }

  /** `start_oneshot`: the payload changes exactly as in `start`; only the native call
      differs. */
  method StartOneshot(w: World, h: SignalHandle, cb: Option<Closure>, signum: int) returns (r: Result<()>)
    requires w.Valid()
    modifies w`data, w`log
    ensures w.Valid()
    ensures w.data == Store(old(w.data), h.ptr, SignalCb, cb)
    ensures h.ptr in w.data && w.data[h.ptr].SignalData? ==> Dispatch(w.data, h.ptr, SignalCb) == cb
    ensures Made(old(w.log), w.log, SignalStartOneshot(h.ptr, cb.Some?, signum))
    ensures r == UvRet(LastStatus(w.log))
  {
    w.data := Store(w.data, h.ptr, SignalCb, cb);
    var status := w.Native(SignalStartOneshot(h.ptr, cb.Some?, signum));
    r := UvRet(status);
  }

  /** `stop`: reaches libuv only; the stored closure stays. */
  method Stop(w: World, h: SignalHandle) returns (r: Result<()>)
    modifies w`log
    ensures w.data == old(w.data)
    ensures Made(old(w.log), w.log, SignalStop(h.ptr))
    ensures r == UvRet(LastStatus(w.log))
  {
    var status := w.Native(SignalStop(h.ptr));
    r := UvRet(status);
  }
}
