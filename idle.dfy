/** Idle handles: an IdleData entry holding one optional closure, a trampoline that calls it
    once per loop iteration, and start/stop. */
module Idle {
  import opened Crate
  import opened Payload
  import opened Runtime
  import opened EventLoop

  datatype IdleHandle = IdleHandle(ptr: Ptr)

  /** `idle_cb`: calls the stored closure only when the entry exists, is IdleData and holds
      Some. */
  method Callback(w: World, h: Ptr)
    modifies w`fired
    ensures w.fired == old(w.fired) + InvocationOf(Dispatch(w.data, h, IdleCb), HandleArgs(h))
    ensures w.fired != old(w.fired) <==>
              h in w.data && w.data[h].IdleData? && w.data[h].idleCb.Some?
  {
    w.Fire(Dispatch(w.data, h, IdleCb), HandleArgs(h));
  }

  /** `IdleHandle::new`: ENOMEM when the allocation fails; the init error when uv_idle_init
      fails (the block is released, no entry); otherwise a fresh block carrying an IdleData
      entry with no closure. */
  method New(w: World, lp: Loop) returns (r: Result<IdleHandle>)
    requires w.Valid()
    modifies w`blocks, w`next, w`data, w`log
    ensures w.Valid()
    ensures w.log == old(w.log) ==>
      r == Err(ENOMEM) && w.blocks == old(w.blocks) && w.data == old(w.data)
    ensures w.log != old(w.log) ==>
      OneMore(old(w.log), w.log) &&
      var e := w.log[|old(w.log)|];
      e.call.IdleInit? && e.call.lp == lp.handle && e.call.h != NULL && e.call.h !in old(w.blocks) &&
      (e.status < 0 ==>
         r == Err(FromCode(e.status)) && w.blocks == old(w.blocks) && w.data == old(w.data)) &&
      (0 <= e.status ==>
         r == Ok(IdleHandle(e.call.h)) && w.blocks == old(w.blocks) + {e.call.h} &&
         e.call.h !in old(w.data) && w.data == old(w.data)[e.call.h := IdleData(None)])
  {
    var h := w.Alloc();
    if h == NULL {
      return Err(ENOMEM);
    }
    var status := w.Native(IdleInit(lp.handle, h));
    if status < 0 {
      w.Dealloc(h);
      return Err(FromCode(status));
    }
    w.InitializeData(h, IdleData(None));
    r := Ok(IdleHandle(h));
  }

  /** `start`: stores `cb` (or None) in the IdleData entry when there is one; registers the
      trampoline exactly when `cb` is Some. */
  method Start(w: World, h: IdleHandle, cb: Option<Closure>) returns (r: Result<()>)
    requires w.Valid()
    modifies w`data, w`log
    ensures w.Valid()
    ensures w.data == Store(old(w.data), h.ptr, IdleCb, cb)
    ensures h.ptr in w.data && w.data[h.ptr].IdleData? ==> Dispatch(w.data, h.ptr, IdleCb) == cb
    ensures Made(old(w.log), w.log, IdleStart(h.ptr, cb.Some?))
    ensures r == UvRet(LastStatus(w.log))
  {
    w.data := Store(w.data, h.ptr, IdleCb, cb);
    var status := w.Native(IdleStart(h.ptr, cb.Some?));
    r := UvRet(status);
  }

  /** `stop`: reaches libuv only; the stored closure stays. */
  method Stop(w: World, h: IdleHandle) returns (r: Result<()>)
    modifies w`log
    ensures w.data == old(w.data)
    ensures Made(old(w.log), w.log, IdleStop(h.ptr))
    ensures r == UvRet(LastStatus(w.log))
  {
    var status := w.Native(IdleStop(h.ptr));
    r := UvRet(status);
  }
}
