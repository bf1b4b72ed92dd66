/** Work requests: a WorkData entry holding the work and after-work callbacks, a worker
    trampoline, a completion trampoline that reports the status and then destroys the request,
    and `queue_work`, which destroys the request itself when submission fails. Only the
    sequential order is modelled: created, work callback, completion, self-destroy. */
module Work {
  import opened Crate
  import opened Payload
  import opened Runtime
  import opened EventLoop

  datatype WorkReq = WorkReq(ptr: Ptr)

  /** The status the completion trampoline hands to the after-work callback: a negative
      status is an error carrying that code, any other one is success with that value. */
  function CompletionStatus(status: int): (r: Result<int>)
    ensures r.Err? <==> status < 0
    ensures r.Err? ==> r.error == FromCode(status)
    ensures r.Ok? ==> r.value == status && 0 <= r.value
  {
    if status < 0 then Err(FromCode(status)) else Ok(status)
  }

  /** The completion status follows `uvret`'s rule but keeps a non-negative value instead of
      discarding it. */
  lemma CompletionStatusAgreesWithUvRet(status: int)
    ensures CompletionStatus(status).Err? <==> UvRet(status).Err?
    ensures status < 0 ==> CompletionStatus(status).error == UvRet(status).error
  {
  }

  /** `uv_work_cb`: calls the work callback only when the entry exists and is WorkData. */
  method WorkCallback(w: World, req: Ptr)
    modifies w`fired
    ensures w.fired == old(w.fired) + InvocationOf(Dispatch(w.data, req, WorkCb), WorkArgs(req))
    ensures w.fired != old(w.fired) <==>
              req in w.data && w.data[req].WorkData? && w.data[req].workCb.Some?
  {
    w.Fire(Dispatch(w.data, req, WorkCb), WorkArgs(req));
  }

  /** `uv_after_work_cb`: calls the after-work callback (when the entry exists and is
      WorkData) with the mapped status, then always destroys the request, payload and block,
      even when no entry was found. A completed request is gone: it cannot complete again. */
  method AfterWorkCallback(w: World, req: Ptr, status: int)
    requires w.Valid() && req in w.blocks
    modifies w`fired, w`data, w`blocks
    ensures w.Valid()
    ensures w.fired == old(w.fired) +
              InvocationOf(Dispatch(old(w.data), req, AfterWorkCb), AfterWorkArgs(req, CompletionStatus(status)))
    ensures w.data == old(w.data) - {req}
    ensures w.blocks == old(w.blocks) - {req}
  {
    w.Fire(Dispatch(w.data, req, AfterWorkCb), AfterWorkArgs(req, CompletionStatus(status)));
    Destroy(w, WorkReq(req));
  }

  /** `WorkReq::new`: ENOMEM when the allocation fails (no entry); otherwise a fresh block
      carrying a WorkData entry with both given callbacks. */
  method New(w: World, workCb: Option<Closure>, afterWorkCb: Option<Closure>) returns (r: Result<WorkReq>)
    requires w.Valid()
    modifies w`blocks, w`next, w`data
    ensures w.Valid()
    ensures r.Err? ==> r.error == ENOMEM && w.blocks == old(w.blocks) && w.data == old(w.data)
    ensures r.Ok? ==>
      r.value.ptr != NULL && r.value.ptr !in old(w.blocks) && r.value.ptr !in old(w.data) &&
      w.blocks == old(w.blocks) + {r.value.ptr} &&
      w.data == old(w.data)[r.value.ptr := WorkData(workCb, afterWorkCb)]
  {
    var p := w.Alloc();
    if p == NULL {
      return Err(ENOMEM);
    }
    w.InitializeData(p, WorkData(workCb, afterWorkCb));
    r := Ok(WorkReq(p));
  }

  /** `destroy`: frees the payload entry, then releases the request's block. */
  method Destroy(w: World, req: WorkReq)
    requires w.Valid() && req.ptr in w.blocks
    modifies w`data, w`blocks
    ensures w.Valid()
    ensures w.data == old(w.data) - {req.ptr}
    ensures w.blocks == old(w.blocks) - {req.ptr}
  {
    w.DestroyReq(req.ptr);
  }

  /** `Loop::queue_work`: creates the request (ENOMEM is passed on, nothing is submitted),
      submits it with the worker trampoline exactly when there is a work callback, destroys it
      when submission fails and returns the error, and otherwise returns the live request. */
  method QueueWork(w: World, lp: Loop, workCb: Option<Closure>, afterWorkCb: Option<Closure>)
    returns (r: Result<WorkReq>)
    requires w.Valid()
    modifies w`blocks, w`next, w`data, w`log
    ensures w.Valid()
    ensures w.log == old(w.log) ==>
      r == Err(ENOMEM) && w.blocks == old(w.blocks) && w.data == old(w.data)
    ensures w.log != old(w.log) ==>
      OneMore(old(w.log), w.log) &&
      var e := w.log[|old(w.log)|];
      e.call.QueueWork? && e.call.lp == lp.handle && e.call.trampoline == workCb.Some? &&
      e.call.req != NULL && e.call.req !in old(w.blocks) &&
      (e.status < 0 ==>
         r == Err(FromCode(e.status)) && w.blocks == old(w.blocks) && w.data == old(w.data)) &&
      (0 <= e.status ==>
         r == Ok(WorkReq(e.call.req)) && w.blocks == old(w.blocks) + {e.call.req} &&
         w.data == old(w.data)[e.call.req := WorkData(workCb, afterWorkCb)])
  {
    var req :- New(w, workCb, afterWorkCb);
    var status := w.Native(Call.QueueWork(lp.handle, req.ptr, workCb.Some?));
    var result := UvRet(status);
    if result.Err? {
      Destroy(w, req);
      assert w.data == old(w.data);
      return Err(result.error);
    }
    r := Ok(req);
  }
}
