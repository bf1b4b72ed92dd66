/** The stream capability: a StreamData entry with three callback slots (alloc, connection,
    read) and the transport's auxiliary data; three trampolines; listen/read_start, which
    store closures; and write/write2/shutdown, which create a request and destroy it again
    when libuv refuses it. */
module Stream {
  import opened Crate
  import opened Payload
  import opened Runtime

  datatype StreamHandle = StreamHandle(ptr: Ptr)
  datatype WriteReq = WriteReq(ptr: Ptr)
  datatype ShutdownReq = ShutdownReq(ptr: Ptr)

  /** A caller-owned buffer; only the number of buffers, cast to `c_uint`, reaches the
      model's libuv calls. */
  datatype Buf = Buf(bytes: seq<bv8>)

  /** `initialize_data`: attaches a StreamData entry with no closures and the given
      auxiliary data, unchanged. */
  method InitializeData(w: World, s: Ptr, addl: StreamExtra)
    requires w.Valid() && s in w.blocks
    modifies w`data
    ensures w.Valid()
    ensures w.data == old(w.data)[s := StreamData(None, None, None, addl)]
    ensures GetData(w.data, s, StreamKind).Some?
    ensures forall slot :: Has(w.data[s], slot) ==> Dispatch(w.data, s, slot) == None
  {
    w.InitializeData(s, StreamData(None, None, None, addl));
  }

  /** `free_data`: the entry is gone, so every later lookup gives null. */
  method FreeData(w: World, s: Ptr)
    requires w.Valid()
    modifies w`data
    ensures w.Valid()
    ensures w.data == old(w.data) - {s}
    ensures GetData(w.data, s, StreamKind) == None
  {
    w.FreeData(s);
  }

  /** `uv_alloc_cb`: calls the stored alloc closure, with the native arguments unchanged,
      only when the stream entry exists and holds one. */
  method AllocCallback(w: World, h: Ptr, suggestedSize: nat, buf: Ptr)
    modifies w`fired
    ensures w.fired == old(w.fired) +
              InvocationOf(Dispatch(w.data, h, AllocCb), AllocArgs(h, suggestedSize, buf))
    ensures w.fired != old(w.fired) <==>
              h in w.data && w.data[h].StreamData? && w.data[h].allocCb.Some?
  {
    w.Fire(Dispatch(w.data, h, AllocCb), AllocArgs(h, suggestedSize, buf));
  }

  /** `uv_connection_cb`: calls the stored connection closure with the status unchanged,
      only when the stream entry exists and holds one. */
  method ConnectionCallback(w: World, s: Ptr, status: int)
    modifies w`fired
    ensures w.fired == old(w.fired) +
              InvocationOf(Dispatch(w.data, s, ConnectionCb), ConnectionArgs(s, status))
    ensures w.fired != old(w.fired) <==>
              s in w.data && w.data[s].StreamData? && w.data[s].connectionCb.Some?
  {
    w.Fire(Dispatch(w.data, s, ConnectionCb), ConnectionArgs(s, status));
  }

  /** `uv_read_cb`: calls the stored read closure with the byte count and buffer unchanged,
      only when the stream entry exists and holds one. */
  method ReadCallback(w: World, s: Ptr, nread: int, buf: Ptr)
    modifies w`fired
    ensures w.fired == old(w.fired) +
              InvocationOf(Dispatch(w.data, s, ReadCb), ReadArgs(s, nread, buf))
    ensures w.fired != old(w.fired) <==>
              s in w.data && w.data[s].StreamData? && w.data[s].readCb.Some?
  {
    w.Fire(Dispatch(w.data, s, ReadCb), ReadArgs(s, nread, buf));
  }

  /** The request creation of `write`, `write2` and `shutdown`: a fresh block, or ENOMEM. */
  method NewReq(w: World) returns (r: Result<Ptr>)
    requires w.Valid()
    modifies w`blocks, w`next
    ensures w.Valid()
    ensures r.Err? ==> r.error == ENOMEM && w.blocks == old(w.blocks)
    ensures r.Ok? ==>
      r.value != NULL && r.value !in old(w.blocks) && r.value !in w.data &&
      w.blocks == old(w.blocks) + {r.value}
  {
    var p := w.Alloc();
    if p == NULL {
      return Err(ENOMEM);
    }
    r := Ok(p);
  }

  /** `shutdown`: creates the request (its error is passed on, nothing is submitted); when
      uv_shutdown fails, destroys the request and returns the error; otherwise returns the
      live request. */
  method Shutdown(w: World, s: StreamHandle, cb: Option<Closure>) returns (r: Result<ShutdownReq>)
    requires w.Valid()
    modifies w`blocks, w`next, w`data, w`log
    ensures w.Valid()
    ensures w.data == old(w.data)
    ensures w.log == old(w.log) ==> r == Err(ENOMEM) && w.blocks == old(w.blocks)
    ensures w.log != old(w.log) ==>
      OneMore(old(w.log), w.log) &&
      var e := w.log[|old(w.log)|];
      e.call.Shutdown? && e.call.h == s.ptr && e.call.req != NULL && e.call.req !in old(w.blocks) &&
      (e.status < 0 ==> r == Err(FromCode(e.status)) && w.blocks == old(w.blocks)) &&
      (0 <= e.status ==> r == Ok(ShutdownReq(e.call.req)) && w.blocks == old(w.blocks) + {e.call.req})
  {
    var req :- NewReq(w);
    var status := w.Native(Call.Shutdown(req, s.ptr));
    var result := UvRet(status);
    if result.Err? {
      w.DestroyReq(req);
      return Err(result.error);
    }
    r := Ok(ShutdownReq(req));
  }

  /** `listen`: stores exactly `cb` (or None) as the connection closure when the stream entry
      exists; registers the connection trampoline exactly when `cb` is Some; the result is
      uv_listen's status through `uvret`. */
  method Listen(w: World, s: StreamHandle, backlog: int, cb: Option<Closure>) returns (r: Result<()>)
    requires w.Valid()
    modifies w`data, w`log
    ensures w.Valid()
    ensures w.data == Store(old(w.data), s.ptr, ConnectionCb, cb)
    ensures s.ptr in w.data && w.data[s.ptr].StreamData? ==> Dispatch(w.data, s.ptr, ConnectionCb) == cb
    ensures Made(old(w.log), w.log, Call.Listen(s.ptr, backlog, cb.Some?))
    ensures r == UvRet(LastStatus(w.log))
  {
    w.data := Store(w.data, s.ptr, ConnectionCb, cb);
    var status := w.Native(Call.Listen(s.ptr, backlog, cb.Some?));
    r := UvRet(status);
  }

  /** `accept`: reaches libuv only; no stored closure changes. */
  method Accept(w: World, s: StreamHandle, client: StreamHandle) returns (r: Result<()>)
    modifies w`log
    ensures w.data == old(w.data)
    ensures Made(old(w.log), w.log, Call.Accept(s.ptr, client.ptr))
    ensures r == UvRet(LastStatus(w.log))
  {
    var status := w.Native(Call.Accept(s.ptr, client.ptr));
    r := UvRet(status);
  }

  /** `read_start`: replaces the alloc and read closures together when the stream entry
      exists; each native callback is registered exactly when its closure is Some. */
  method ReadStart(w: World, s: StreamHandle, allocCb: Option<Closure>, readCb: Option<Closure>)
    returns (r: Result<()>)
    requires w.Valid()
    modifies w`data, w`log
    ensures w.Valid()
    ensures w.data == Store(Store(old(w.data), s.ptr, AllocCb, allocCb), s.ptr, ReadCb, readCb)
    ensures s.ptr in w.data && w.data[s.ptr].StreamData? ==>
              Dispatch(w.data, s.ptr, AllocCb) == allocCb && Dispatch(w.data, s.ptr, ReadCb) == readCb &&
              w.data[s.ptr].connectionCb == old(w.data)[s.ptr].connectionCb
    ensures Made(old(w.log), w.log, Call.ReadStart(s.ptr, allocCb.Some?, readCb.Some?))
    ensures r == UvRet(LastStatus(w.log))
  {
    w.data := Store(Store(w.data, s.ptr, AllocCb, allocCb), s.ptr, ReadCb, readCb);
    var status := w.Native(Call.ReadStart(s.ptr, allocCb.Some?, readCb.Some?));
    r := UvRet(status);
  }

  /** `read_stop`: reaches libuv only; no stored closure changes. */
  method ReadStop(w: World, s: StreamHandle) returns (r: Result<()>)
    modifies w`log
    ensures w.data == old(w.data)
    ensures Made(old(w.log), w.log, Call.ReadStop(s.ptr))
    ensures r == UvRet(LastStatus(w.log))
  {
    var status := w.Native(Call.ReadStop(s.ptr));
    r := UvRet(status);
  }

  /** `write`: creates the request (its error is passed on, nothing is submitted); when
      uv_write fails, destroys the request and returns the error; otherwise returns the live
      request. */
  method Write(w: World, s: StreamHandle, bufs: seq<Buf>, cb: Option<Closure>) returns (r: Result<WriteReq>)
    requires w.Valid()
    modifies w`blocks, w`next, w`data, w`log
    ensures w.Valid()
    ensures w.data == old(w.data)
    ensures w.log == old(w.log) ==> r == Err(ENOMEM) && w.blocks == old(w.blocks)
    ensures w.log != old(w.log) ==>
      OneMore(old(w.log), w.log) &&
      var e := w.log[|old(w.log)|];
      e.call.Write? && e.call.h == s.ptr && e.call.nbufs == AsCUint(|bufs|) &&
      e.call.req != NULL && e.call.req !in old(w.blocks) &&
      (e.status < 0 ==> r == Err(FromCode(e.status)) && w.blocks == old(w.blocks)) &&
      (0 <= e.status ==> r == Ok(WriteReq(e.call.req)) && w.blocks == old(w.blocks) + {e.call.req})
  {
    var req :- NewReq(w);
    var status := w.Native(Call.Write(req, s.ptr, AsCUint(|bufs|)));
    var result := UvRet(status);
    if result.Err? {
      w.DestroyReq(req);
      return Err(result.error);
    }
    r := Ok(WriteReq(req));
  }

  /** `write2`: as `write`, with the handle to send passed to uv_write2. */
  method Write2(w: World, s: StreamHandle, sendHandle: StreamHandle, bufs: seq<Buf>, cb: Option<Closure>)
    returns (r: Result<WriteReq>)
    requires w.Valid()
    modifies w`blocks, w`next, w`data, w`log
    ensures w.Valid()
    ensures w.data == old(w.data)
    ensures w.log == old(w.log) ==> r == Err(ENOMEM) && w.blocks == old(w.blocks)
    ensures w.log != old(w.log) ==>
      OneMore(old(w.log), w.log) &&
      var e := w.log[|old(w.log)|];
      e.call.Write2? && e.call.h == s.ptr && e.call.nbufs == AsCUint(|bufs|) && e.call.sendHandle == sendHandle.ptr &&
      e.call.req != NULL && e.call.req !in old(w.blocks) &&
      (e.status < 0 ==> r == Err(FromCode(e.status)) && w.blocks == old(w.blocks)) &&
      (0 <= e.status ==> r == Ok(WriteReq(e.call.req)) && w.blocks == old(w.blocks) + {e.call.req})
  {
    var req :- NewReq(w);
    var status := w.Native(Call.Write2(req, s.ptr, AsCUint(|bufs|), sendHandle.ptr));
    var result := UvRet(status);
    if result.Err? {
      w.DestroyReq(req);
      return Err(result.error);
    }
    r := Ok(WriteReq(req));
  }

  /** The result of `try_write`: the native return itself when it is non-negative (the
      number of bytes written), an error carrying it otherwise. */
  function TryWriteResult(ret: int): (r: Result<int>)
    ensures r.Ok? <==> 0 <= ret
    ensures r.Ok? ==> r.value == ret
    ensures r.Err? ==> r == Err(FromCode(ret))
  {
    match UvRet(ret)
    case Ok(_) => Ok(ret)
    case Err(e) => Err(e)
  }

  /** `try_write`: one call to uv_try_write; never creates a request and changes no closure. */
  method TryWrite(w: World, s: StreamHandle, bufs: seq<Buf>) returns (r: Result<int>)
    modifies w`log
    ensures w.blocks == old(w.blocks) && w.data == old(w.data)
    ensures Made(old(w.log), w.log, Call.TryWrite(s.ptr, AsCUint(|bufs|)))
    ensures r == TryWriteResult(LastStatus(w.log))
  {
    var status := w.Native(Call.TryWrite(s.ptr, AsCUint(|bufs|)));
    r := TryWriteResult(status);
  }

  /** `set_blocking`: passes 1 or 0 to libuv; no stored closure changes. */
  method SetBlocking(w: World, s: StreamHandle, blocking: bool) returns (r: Result<()>)
    modifies w`log
    ensures w.data == old(w.data)
    ensures Made(old(w.log), w.log, Call.SetBlocking(s.ptr, if blocking then 1 else 0))
    ensures r == UvRet(LastStatus(w.log))
  {
    var status := w.Native(Call.SetBlocking(s.ptr, if blocking then 1 else 0));
    r := UvRet(status);
  }
}
