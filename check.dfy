/** Check handles: a CheckData entry holding one optional closure, a trampoline that calls it
    once per loop iteration right after polling, start/stop, and the checked conversion from
    a generic handle. */
module Check {
  import opened Crate
  import opened Payload
  import opened Runtime
  import opened EventLoop

  datatype CheckHandle = CheckHandle(ptr: Ptr)

  /** libuv's handle types, as a generic handle reports them. */
  datatype HandleType =
    | UNKNOWN_HANDLE | ASYNC | CHECK | FS_EVENT | FS_POLL | HANDLE | IDLE | NAMED_PIPE | POLL
    | PREPARE | PROCESS | STREAM | TCP | TIMER | TTY | UDP | SIGNAL | FILE

  /** A generic handle together with the type it reports. */
  datatype Handle = Handle(ptr: Ptr, handleType: HandleType)

  datatype ConversionError = ConversionError(actual: HandleType, expected: HandleType)

  datatype Conversion = Converted(handle: CheckHandle) | NotConverted(error: ConversionError)

  /** `TryFrom<Handle>`: succeeds, on the same pointer, exactly when the handle is a check
      handle; otherwise the error names the actual and the expected type. */
  function TryFrom(h: Handle): (r: Conversion)
    ensures r.Converted? <==> h.handleType == CHECK
    ensures r.Converted? ==> r.handle.ptr == h.ptr
    ensures r.NotConverted? ==> r.error.actual == h.handleType && r.error.expected == CHECK
  {
    if h.handleType != CHECK then NotConverted(ConversionError(h.handleType, CHECK))
    else Converted(CheckHandle(h.ptr))
  }

  /** `uv_check_cb`: calls the stored closure only when the entry exists, is CheckData and
      holds a callback. */
  method Callback(w: World, h: Ptr)
    modifies w`fired
    ensures w.fired == old(w.fired) + InvocationOf(Dispatch(w.data, h, CheckCb), HandleArgs(h))
    ensures w.fired != old(w.fired) <==>
              h in w.data && w.data[h].CheckData? && w.data[h].checkCb.Some?
  {
    w.Fire(Dispatch(w.data, h, CheckCb), HandleArgs(h));
  }

  /** `CheckHandle::new`: ENOMEM when the allocation fails; the init error when uv_check_init
      fails (the block is released, no entry); otherwise a fresh block carrying a default
      CheckData entry. */
  method New(w: World, lp: Loop) returns (r: Result<CheckHandle>)
    requires w.Valid()
    modifies w`blocks, w`next, w`data, w`log
    ensures w.Valid()
    ensures w.log == old(w.log) ==>
      r == Err(ENOMEM) && w.blocks == old(w.blocks) && w.data == old(w.data)
    ensures w.log != old(w.log) ==>
      OneMore(old(w.log), w.log) &&
      var e := w.log[|old(w.log)|];
      e.call.CheckInit? && e.call.lp == lp.handle && e.call.h != NULL && e.call.h !in old(w.blocks) &&
      (e.status < 0 ==>
         r == Err(FromCode(e.status)) && w.blocks == old(w.blocks) && w.data == old(w.data)) &&
      (0 <= e.status ==>
         r == Ok(CheckHandle(e.call.h)) && w.blocks == old(w.blocks) + {e.call.h} &&
         e.call.h !in old(w.data) && w.data == old(w.data)[e.call.h := CheckData(None)])
  {
    var h := w.Alloc();
    if h == NULL {
      return Err(ENOMEM);
    }
    var status := w.Native(CheckInit(lp.handle, h));
    if status < 0 {
      w.Dealloc(h);
      return Err(FromCode(status));
    }
    w.InitializeData(h, CheckData(None));
    r := Ok(CheckHandle(h));
  }

  /** `start`: stores `cb` in the CheckData entry when there is one; registers the trampoline
      exactly when there is a callback; succeeds when there is one. Without a callback the
      result is libuv's answer through `uvret`. */
  method Start(w: World, h: CheckHandle, cb: Option<Closure>) returns (r: Result<()>)
    requires w.Valid()
    modifies w`data, w`log
    ensures w.Valid()
    ensures w.data == Store(old(w.data), h.ptr, CheckCb, cb)
    ensures h.ptr in w.data && w.data[h.ptr].CheckData? ==> Dispatch(w.data, h.ptr, CheckCb) == cb
    ensures Made(old(w.log), w.log, CheckStart(h.ptr, cb.Some?))
    ensures r == UvRet(LastStatus(w.log))
    ensures cb.Some? ==> r == Ok(())
  {
    w.data := Store(w.data, h.ptr, CheckCb, cb);
    var status := w.Native(CheckStart(h.ptr, cb.Some?));
    r := UvRet(status);
  }

  /** `stop`: always succeeds and leaves the stored callback alone. */
  method Stop(w: World, h: CheckHandle) returns (r: Result<()>)
    modifies w`log
    ensures w.data == old(w.data)
    ensures Made(old(w.log), w.log, CheckStop(h.ptr))
    ensures r == Ok(())
  {
    var status := w.Native(CheckStop(h.ptr));
    r := UvRet(status);
  }
}
