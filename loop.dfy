/** The event loop wrapper: the run-mode mapping and the ownership of the native loop. A
    `Loop` owns its native loop only when it created it; dropping it deletes the native loop
    in that case only, and nulls the handle so that a second drop does nothing. */
module EventLoop {
  import opened Crate
  import opened Runtime

  datatype RunMode = Default | Once | NoWait

  /** libuv's `uv_run_mode` values. */
  const UV_RUN_DEFAULT: int := 0
  const UV_RUN_ONCE: int := 1
  const UV_RUN_NOWAIT: int := 2

  /** `Into<uv_run_mode>`: each mode has its own native mode. */
  function NativeMode(m: RunMode): (n: int)
    ensures n == UV_RUN_DEFAULT <==> m == Default
    ensures n == UV_RUN_ONCE <==> m == Once
    ensures n == UV_RUN_NOWAIT <==> m == NoWait
  {
    match m
    case Default => UV_RUN_DEFAULT
    case Once => UV_RUN_ONCE
    case NoWait => UV_RUN_NOWAIT
  }

  /** The three modes map to three distinct native modes. */
  lemma NativeModeInjective(a: RunMode, b: RunMode)
    ensures NativeMode(a) == NativeMode(b) ==> a == b
  {
  }

  /** Whether dropping a loop deletes its native loop. */
  predicate DeletesOnDrop(handle: Ptr, shouldDrop: bool)
  {
    handle != NULL && shouldDrop
  }

  class Loop {
    var handle: Ptr
    var shouldDrop: bool

    /** The struct literal `Loop { handle, should_drop }`. */
    constructor (handle: Ptr, shouldDrop: bool)
      ensures this.handle == handle && this.shouldDrop == shouldDrop
    {
      this.handle := handle;
      this.shouldDrop := shouldDrop;
    }

    /** `From<*mut uv_loop_t>`: a loop made from a raw pointer never owns it. */
    constructor From(handle: Ptr)
      ensures this.handle == handle && !shouldDrop
    {
      this.handle := handle;
      this.shouldDrop := false;
    }

    /** `Loop::new`: ENOMEM when uv_loop_new gives null; the init error when uv_loop_init
        fails (the native loop is then not released); otherwise a loop that owns its native
        loop. */
    static method New(w: World) returns (r: Result<Loop>)
      requires w.Valid()
      modifies w`loops, w`next, w`log
      ensures w.Valid()
      ensures w.log == old(w.log) ==> r == Err(ENOMEM) && w.loops == old(w.loops)
      ensures w.log != old(w.log) ==>
        OneMore(old(w.log), w.log) &&
        var e := w.log[|old(w.log)|];
        e.call.LoopInit? && e.call.lp != NULL && e.call.lp !in old(w.loops) &&
        w.loops == old(w.loops) + {e.call.lp} &&
        (e.status < 0 ==> r == Err(FromCode(e.status))) &&
        (0 <= e.status ==> r.Ok? && fresh(r.value) &&
                           r.value.handle == e.call.lp && r.value.shouldDrop)
    {
      var p := w.NewLoop();
      if p == NULL {
        return Err(ENOMEM);
      }
      var status := w.Native(LoopInit(p));
      if status < 0 {
        return Err(FromCode(status));
      }
      var l := new Loop(p, true);
      r := Ok(l);
    }

    /** `Loop::default`: ENOMEM when uv_default_loop gives null; otherwise a loop that does
        not own the native loop. */
    static method DefaultLoop(w: World) returns (r: Result<Loop>)
      ensures w.defaultLoop == NULL ==> r == Err(ENOMEM)
      ensures w.defaultLoop != NULL ==>
        r.Ok? && fresh(r.value) && r.value.handle == w.defaultLoop && !r.value.shouldDrop
    {
      var p := w.defaultLoop;
      if p == NULL {
        return Err(ENOMEM);
      }
      var l := new Loop(p, false);
      r := Ok(l);
    }

    /** `Drop`: deletes the native loop only when the handle is non-null and the loop owns
        it, and always leaves the handle null, so a second drop changes nothing. */
    method Drop(w: World)
      requires w.Valid()
      modifies this`handle, w`loops, w`log
      ensures w.Valid()
      ensures handle == NULL
      ensures DeletesOnDrop(old(handle), shouldDrop) ==>
        w.loops == old(w.loops) - {old(handle)} &&
        w.log == old(w.log) + [Event(LoopDelete(old(handle)), 0)]
      ensures !DeletesOnDrop(old(handle), shouldDrop) ==>
        w.loops == old(w.loops) && w.log == old(w.log)
    {
      if handle != NULL {
        if shouldDrop {
          w.DeleteLoop(handle);
        }
        handle := NULL;
      }
    }

    /** `block_signal`: the status of uv_loop_configure through `uvret`. */
    method BlockSignal(w: World, signum: int) returns (r: Result<()>)
      modifies w`log
      ensures Made(old(w.log), w.log, LoopConfigureBlockSignal(handle, signum))
      ensures r == UvRet(LastStatus(w.log))
    {
      var status := w.Native(LoopConfigureBlockSignal(handle, signum));
      r := UvRet(status);
    }

    /** `close`: the status of uv_loop_close through `uvret`. */
    method Close(w: World) returns (r: Result<()>)
      modifies w`log
      ensures Made(old(w.log), w.log, LoopClose(handle))
      ensures r == UvRet(LastStatus(w.log))
    {
      var status := w.Native(LoopClose(handle));
      r := UvRet(status);
    }

    /** `run`: uv_run with the mapped mode, its status through `uvret`. */
    method Run(w: World, mode: RunMode) returns (r: Result<()>)
      modifies w`log
      ensures Made(old(w.log), w.log, Call.Run(handle, NativeMode(mode)))
      ensures r == UvRet(LastStatus(w.log))
    {
      var status := w.Native(Call.Run(handle, NativeMode(mode)));
      r := UvRet(status);
    }

    /** `is_alive`: true exactly when uv_loop_alive answers non-zero. */
    method IsAlive(w: World) returns (alive: bool)
      modifies w`log
      ensures Made(old(w.log), w.log, LoopAlive(handle))
      ensures alive <==> LastStatus(w.log) != 0
    {
      var status := w.Native(LoopAlive(handle));
      alive := status != 0;
    }

    /** `stop`: forwards to uv_stop. */
    method Stop(w: World)
      modifies w`log
      ensures Made(old(w.log), w.log, LoopStop(handle))
    {
      var _ := w.Native(LoopStop(handle));
    }

    /** `fork`: the status of uv_loop_fork through `uvret`. */
    method Fork(w: World) returns (r: Result<()>)
      modifies w`log
      ensures Made(old(w.log), w.log, LoopFork(handle))
      ensures r == UvRet(LastStatus(w.log))
    {
      var status := w.Native(LoopFork(handle));
      r := UvRet(status);
    }
  }
}
