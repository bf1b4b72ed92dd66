/** The state the binding works on: the blocks it allocated, the payload store, the native
    loops, and libuv itself. libuv is an oracle: every call into it is logged with its
    arguments and returns an integer status about which no contract says anything (except
    where check.rs's doc-comments promise a result, see `Native`). */
module Runtime {
  import opened Crate
  import opened Payload

  /** Each call the binding makes into libuv, with the arguments that matter to the binding.
      A `trampoline` flag says whether a native callback was passed (Some) or NULL (None). */
  datatype Call =
    | LoopInit(lp: Ptr)
    | LoopDelete(lp: Ptr)
    | LoopConfigureBlockSignal(lp: Ptr, signum: int)
    | LoopClose(lp: Ptr)
    | Run(lp: Ptr, mode: int)
    | LoopAlive(lp: Ptr)
    | LoopStop(lp: Ptr)
    | LoopFork(lp: Ptr)
    | SignalInit(lp: Ptr, h: Ptr)
    | SignalStart(h: Ptr, trampoline: bool, signum: int)
    | SignalStartOneshot(h: Ptr, trampoline: bool, signum: int)
    | SignalStop(h: Ptr)
    | IdleInit(lp: Ptr, h: Ptr)
    | IdleStart(h: Ptr, trampoline: bool)
    | IdleStop(h: Ptr)
    | CheckInit(lp: Ptr, h: Ptr)
    | CheckStart(h: Ptr, trampoline: bool)
    | CheckStop(h: Ptr)
    | QueueWork(lp: Ptr, req: Ptr, trampoline: bool)
    | Shutdown(req: Ptr, h: Ptr)
    | Listen(h: Ptr, backlog: int, trampoline: bool)
    | Accept(h: Ptr, client: Ptr)
    | ReadStart(h: Ptr, allocTrampoline: bool, readTrampoline: bool)
    | ReadStop(h: Ptr)
    | Write(req: Ptr, h: Ptr, nbufs: nat)
    | Write2(req: Ptr, h: Ptr, nbufs: nat, sendHandle: Ptr)
    | TryWrite(h: Ptr, nbufs: nat)
    | SetBlocking(h: Ptr, blocking: int)

  /** A call and the status libuv returned for it. */
  datatype Event = Event(call: Call, status: int)

  /** The arguments a trampoline passes on to a user closure. */
  datatype Args =
    | SignalArgs(h: Ptr, signum: int)
    | HandleArgs(h: Ptr)
    | AllocArgs(h: Ptr, suggestedSize: nat, buf: Ptr)
    | ConnectionArgs(h: Ptr, status: int)
    | ReadArgs(h: Ptr, nread: int, buf: Ptr)
    | WorkArgs(req: Ptr)
    | AfterWorkArgs(req: Ptr, result: Result<int>)

  datatype Invocation = Invocation(closure: Closure, args: Args)

  /** The invocations made when `f` is what a trampoline found. */
  function InvocationOf(f: Option<Closure>, args: Args): seq<Invocation>
  {
    if f.Some? then [Invocation(f.value, args)] else []
  }

  /** `after` is `before` followed by exactly one call, `c`. */
  predicate Made(before: seq<Event>, after: seq<Event>, c: Call)
  {
    |after| == |before| + 1 && after[..|before|] == before && after[|before|].call == c
  }

  /** `after` is `before` followed by exactly one call. */
  predicate OneMore(before: seq<Event>, after: seq<Event>)
  {
    |after| == |before| + 1 && after[..|before|] == before
  }

  /** The status of the latest call. */
  function LastStatus(log: seq<Event>): int
    requires log != []
  {
    log[|log| - 1].status
  }

  class World {
    /** Blocks obtained from the allocator and not yet released. */
    var blocks: set<Ptr>
    /** Native loops obtained from uv_loop_new and not yet deleted. */
    var loops: set<Ptr>
    /** The payload store. */
    var data: Table
    /** Every call made into libuv, in order, with its status. */
    var log: seq<Event>
    /** Every closure call made by a trampoline, in order. */
    var fired: seq<Invocation>

    /** The oracle's own state: the next address the allocator hands out, the status of the
        n-th native call, whether the n-th allocation succeeds, and the default loop. */
    var next: Ptr
    const reply: nat -> int
    const allocates: nat -> bool
    const defaultLoop: Ptr

    /** The payload store refers only to allocated blocks, and every live address lies below
        the allocator's next address. */
    ghost predicate Valid()
      reads this
    {
      NULL < next &&
      data.Keys <= blocks &&
      (forall p :: p in blocks ==> NULL < p < next) &&
      (forall p :: p in loops ==> NULL < p < next)
    }

    constructor (reply: nat -> int, allocates: nat -> bool, defaultLoop: Ptr)
      ensures Valid()
      ensures blocks == {} && loops == {} && data == map[] && log == [] && fired == []
      ensures this.defaultLoop == defaultLoop
    {
      this.reply := reply;
      this.allocates := allocates;
      this.defaultLoop := defaultLoop;
      blocks, loops, data, log, fired := {}, {}, map[], [], [];
      next := 1;
    }

    /** `std::alloc::alloc`: null, or a block that was not live before. */
    method Alloc() returns (p: Ptr)
      requires Valid()
      modifies this`blocks, this`next
      ensures Valid()
      ensures p == NULL ==> blocks == old(blocks)
      ensures p != NULL ==> p !in old(blocks) && p !in data && blocks == old(blocks) + {p}
    {
      if allocates(next) {
        p := next;
        blocks := blocks + {p};
        next := next + 1;
      } else {
        p := NULL;
      }
    }

    /** `std::alloc::dealloc` of a live block whose payload entry is already gone. */
    method Dealloc(p: Ptr)
      requires Valid() && p in blocks && p !in data
      modifies this`blocks
      ensures Valid()
      ensures blocks == old(blocks) - {p}
    {
      blocks := blocks - {p};
    }

    /** `uv_loop_new`: null, or a native loop that was not live before. */
    method NewLoop() returns (p: Ptr)
      requires Valid()
      modifies this`loops, this`next
      ensures Valid()
      ensures p == NULL ==> loops == old(loops)
      ensures p != NULL ==> p !in old(loops) && loops == old(loops) + {p}
    {
      if allocates(next) {
        p := next;
        loops := loops + {p};
        next := next + 1;
      } else {
        p := NULL;
      }
    }

    /** `uv_loop_delete`. */
    method DeleteLoop(p: Ptr)
      requires Valid()
      modifies this`loops, this`log
      ensures Valid()
      ensures loops == old(loops) - {p}
      ensures log == old(log) + [Event(LoopDelete(p), 0)]
    {
      loops := loops - {p};
      log := log + [Event(LoopDelete(p), 0)];
    }

    /** A call into libuv. Its status is arbitrary, except for what check.rs's doc-comments
        promise: starting a check handle with a callback succeeds, and stopping one always
        succeeds. */
    method Native(c: Call) returns (status: int)
      modifies this`log
      ensures log == old(log) + [Event(c, status)]
      ensures c.CheckStart? && c.trampoline ==> status == 0
      ensures c.CheckStop? ==> status == 0
    {
      status :=
        if c.CheckStart? && c.trampoline then 0
        else if c.CheckStop? then 0
        else reply(|log|);
      log := log + [Event(c, status)];
    }

    /** `initialize_data`: attach an entry to an allocated block. */
    method InitializeData(h: Ptr, p: Payload)
      requires Valid() && h in blocks
      modifies this`data
      ensures Valid()
      ensures data == old(data)[h := p]
    {
      data := data[h := p];
    }

    /** `free_data`: detach and drop the entry of `h`. */
    method FreeData(h: Ptr)
      requires Valid()
      modifies this`data
      ensures Valid()
      ensures data == old(data) - {h}
    {
      data := data - {h};
    }

    /** A request's `destroy`: free its payload entry, then release its block. */
    method DestroyReq(req: Ptr)
      requires Valid() && req in blocks
      modifies this`data, this`blocks
      ensures Valid()
      ensures data == old(data) - {req}
      ensures blocks == old(blocks) - {req}
    {
      FreeData(req);
      Dealloc(req);
    }

    /** Call the closure a trampoline found, if any. */
    method Fire(f: Option<Closure>, args: Args)
      modifies this`fired
      ensures fired == old(fired) + InvocationOf(f, args)
    {
      fired := fired + InvocationOf(f, args);
    }
  }
}
