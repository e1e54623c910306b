# uvw lifetimes, verified

uvw wraps libuv in C++ objects. libuv keeps raw pointers to those objects, so the heart of uvw is a
protocol about who keeps an object alive: a started handle or request stores a `shared_ptr` to itself, its
completion moves that reference into the callback and then publishes, every resource owns its loop, and the
hidden requests of a stream own the handle they report to. This project models that protocol as a state
machine over an object graph with strong counts and proves its safety, conservation and leak properties for
every run; it then models six smaller pieces of uvw that carry logic of their own.

## How it is built

| file | content |
|---|---|
| `Wrappers.dfy`, `Words.dfy` | optional values; 32-bit integers |
| `Refs.dfy` | objects, strong counts, and the release cascade `Drop` |
| `Lifetime.dfy` | the state, 26 actions, `Enabled` (what callers and libuv respect) and `Step` |
| `Books.dfy` | accounting: every reference and buffer has one owner at every state |
| `Protocol.dfy` | what each action keeps about handles, requests, running listeners, events |
| `Safety.dfy` | the invariant `Inv` and its preservation by every action |
| `Stability.dfy` | what no action undoes: the fixed part of objects, explicit closes, libuv's view |
| `Visibility.dfy` | what user code never gets hold of, and how long it lives |
| `Cycles.dfy` | alive means reached: from what keeps itself, cycles of captures included |
| `Runs.dfy` | theorems about every reachable state |
| `Effects.dfy` | the exact next state of the actions that publish, close or resume, branch by branch |
| `Entries.dfy` | events published, counted over whole runs |
| `Listeners.dfy` | which listener an event calls, over whole runs |
| `Causes.dfy` | those events against the actions that cause them, over whole runs |
| `Laws.dfy` | refused starts, restarting from inside a callback |
| `Forwarding.dfy` | one stream operation from submission to the return of its listeners |
| `Quiescence.dfy` | what is left at the end, and how walk-and-close gets there |
| `Limits.dfy` | runs that show what the code does not promise |
| `Runtime.dfy` | the operations as uvw performs them, a class whose methods equal the machine's steps |
| `Fnv.dfy`, `Stdio.dfy`, `FileReq.dfy`, `TryRead.dfy`, `Singletons.dfy`, `Walk.dfy` | the smaller pieces |

A token is a strong reference or a buffer. Objects are indices into a heap that only grows; a strong count of
zero means destroyed. Tokens are owned by objects (self-reference, loop, listener captures, user data,
outgoing buffer), by user code (`roots`), by listener invocations in progress (`frames`) or by a start
function in progress (`call`). Destroying an object drops what it owns, which may destroy more.

Five kinds of pointer in libuv or uvw own nothing, and the state names them: file system requests, the loop
`uv_run` is working on (`running`), the loop a worker thread hands a request back to, the handle sent along with
a write (`sent`), and the streams a process handle was given for the child (`streams`). The modelled loops are
those of `loop::create()`, which own their `uv_loop_t`: an explicit close frees it, busy or not
(`src/uvw/loop.ipp:8-17`).

What libuv is taken to promise, and nothing else about it:

- a start that returns an error registers nothing and one that succeeds registers the handle or the request;
  only `uv_spawn` may fail after it has initialised the handle, which then is registered;
- an accepted request is completed exactly once, never inside the start call;
- an initialised handle gets exactly one close callback after `uv_close`, not while one of its own event
  callbacks is running; after that it gets no events;
- events of a handle's own are errors, ends and the like; close, write, connect, shutdown and send events come
  from callbacks of their own;
- each allocated read buffer comes back in exactly one read or receive callback;
- a worker thread may run a queued task from the moment libuv accepts it until it is completed, and then hands
  it back to its loop;
- `uv_run` touches its loop whenever it regains control; a pending write touches the handle sent along; a
  spawn looks at the streams it is given, unless they are to be ignored;
- callbacks are made for loops uvw has not let go; they may come at any time, which only adds runs.

What callers are taken to respect, because the code relies on it:

- a resource is not started again while libuv has it: there is one self-reference
  (`src/uvw/resource.hpp:20-26`);
- a start function is called through a reference the caller holds, or from inside a callback that holds one or
  whose listener captures one;
- a listener does not replace or reset its own slot while it runs, since `publish` calls it in place
  (`src/uvw/emitter.h:101-104`);
- only initialised handles are closed, and `close_reset` only open ones: it has no `closing()` guard
  (`src/uvw/tcp.ipp:78-80`);
- after an explicit `loop::close()` nothing is run, started, cancelled or closed on that loop any more: its libuv
  loop is gone (`src/uvw/loop.ipp:50-59`); a loop that is running is not run again from inside.

Otherwise user code is unrestricted: it may touch any live object uvw does not hide, at any time and from
inside any listener, create cycles of captures, close busy loops, drop references in any order, also from other
threads while a start function is between libuv's answer and `leak_if`.

## Where the code and its documentation part

- `README.md:251-255` promises that requests keep themselves alive. File system requests never call
  `leak_if` (`src/uvw/fs.ipp:36-57`): `FileSystemRequestLost` is a run in which one is used after its
  destruction.
- Nobody keeps a loop alive while it runs (`src/uvw/loop.ipp:61-63`): `RunningLoopLost` drops the last user
  reference in the close listener of the last handle, and `uv_run` goes on with a destroyed loop.
- An explicit close frees a busy loop (`src/uvw/loop.ipp:50-59`): in `RunningLoopClosed` `uv_run` goes on with it,
  in `WorkLoopClosed` a worker thread hands a request back to it.
- The extended write keeps no reference to the handle it sends (`src/uvw/stream.h:325-368`), and a process
  handle none to the streams of its child (`src/uvw/process.h:179-186`): `SentHandleLost`, `StdioStreamLost`.
- `FaultExactly` shows that nothing else is used after its destruction, and that these are exactly when nobody
  refers to the target any more or the loop was closed explicitly; `HoldersSafe` says what a caller has to hold.
- `process_handle::spawn` stores the self-reference before it asks libuv and whatever the answer is
  (`src/uvw/process.ipp:51-54`). `FailedSpawnLeaks` is a run that leaks the handle and its loop; `LeakExactly`
  says that at quiescence exactly what such a handle, or a cycle of captures, leads to is alive.
- `loop::close()` lets go of the libuv loop even on error, so it cannot be repeated: `SecondClose` and
  `BusyCloseForgets`.
- `try_read` builds its retried result from a C string, so a long value with a NUL in it is cut there; a short
  one is not (`TryRead.TryRead`).
- `file_req::open` on a request that already holds a descriptor forgets the old one: `LostExactly`,
  `ReopenLoses`.
- `loop::walk` casts any non-null data pointer of a known category; a handle of another library that uses its
  data pointer is mistaken for a uvw object, exactly when `Separate` does not hold (`Walk.Visits`,
  `ForeignTimer`).

## Model

| member | source | states |
|---|---|---|
| `Refs.DropCounted` | src/uvw/uv_type.hpp:74-80 | if every count equals the incoming references, it still does after a release cascade, and no destroyed object is released again |
| `Refs.DropIsGreatest` | src/uvw/stream.h:269-280 | a cascade through requests, captured handles and loops leaves alive exactly the greatest set of objects that are held or keep each other alive |
| `Refs.DropOrderIrrelevant` | src/uvw/resource.hpp:28-30 | the order in which references are dropped changes neither the resulting heap nor what is freed |
| `Refs.DropOnce` | src/uvw/loop.ipp:44-48 | each object a cascade destroys is destroyed once, and they are exactly those that were alive and are not any more |
| `Refs.DropFrees` | src/uvw/stream.h:94-97 | a cascade frees each buffer exactly as often as it leaves its owners |
| `Refs.DropKeepsObjects` | src/uvw/uv_type.hpp:78-80 | a cascade changes counts only, and only downwards |
| `Refs.DropAppend` | src/uvw/stream.h:269-280 | locals going out of scope together or one after the other give the same outcome |
| `Refs.CountedUnique` | src/uvw/resource.hpp:20-30 | the set of live objects and the outside references determine every strong count |
| `Safety.StepInv` | src/uvw/resource.hpp:20-30 | each of the 26 actions keeps the invariant, and uses something destroyed iff libuv follows one of the pointers that own nothing to a destroyed target, or `uv_run` or a worker thread goes on with a loop closed explicitly |
| `Runs.ReachableInv` | src/uvw/resource.hpp:20-30 | the invariant holds in every state of every run |
| `Runs.NoDangling` | src/uvw/resource.hpp:20-26 | in every reachable state each handle known to libuv and each accepted request that is not a file system request is alive, and so is the object of a start function in progress |
| `Runs.FramesAlive` | src/uvw/handle.hpp:25-30 | every listener in progress runs on a live object, is still in its slot, and everything it captures is alive, the target of a forward included |
| `Runs.FaultExactly` | src/uvw/loop.ipp:50-63 | something destroyed is used exactly when libuv touches a file system request, the loop it runs, a handle sent along or a stream of a child that nobody refers to any more, or `uv_run` or a worker thread goes on with a loop closed explicitly |
| `Runs.HoldersSafe` | src/uvw/stream.h:325-368 | no such use happens while the caller holds a reference to each of these or libuv still knows it, and neither `uv_run` nor a worker thread is at work for a loop closed explicitly |
| `Runs.FileSystemExactly` | src/uvw/fs.ipp:6-30 | completing a file system request is a use after destruction iff no strong reference to it is left |
| `Runs.DiscardExactly` | src/uvw/uv_type.hpp:78-78 | dropping a user's reference destroys the object iff it was the last strong reference |
| `Runs.LoopsCloseIdle` | src/uvw/loop.ipp:44-59 | a loop is destroyed, or finds itself busy when it closes itself, only with destroyed file system requests of its own in libuv |
| `Runs.CountsExact` | src/uvw/uv_type.hpp:19-20 | strong counts equal incoming references in every reachable state; destroyed objects were destroyed once, live ones never |
| `Runs.BuffersOnce` | src/uvw/stream.h:117-136 | every buffer ever allocated has exactly one owner or has been freed exactly once |
| `Runs.BuffersNotEarly` | src/uvw/stream.h:81-97 | data handed over is not freed while its request is pending; data in the user's hands, borrowed or not, is never freed by uvw |
| `Entries.Conservation` | src/uvw/stream.h:171-181 | in every run, for every handle and kind of operation: what libuv accepted equals how often its event was published on the handle plus how often an error event was published for it plus those pending |
| `Entries.ClosedOnce` | src/uvw/handle.hpp:112-116 | in every run the close event of a handle is published at most once per `uv_close`, which is issued at most once per initialisation, and is outstanding exactly while libuv knows the handle |
| `Causes.EventsCaused` | src/uvw/stream.h:117-147 | in every run without a fault, on every object and for every event: it is published exactly as often as libuv's reports give cause for it, namely end of stream for UV_EOF, data above zero, an error for the other negative values, data for an addressed empty datagram, the close event for a close callback, success or error for a completion and once more on the handle it is forwarded to |
| `Causes.OperationsAnswered` | src/uvw/stream.h:171-181 | in every run: the accepted write, connect, shutdown or send calls on a handle are as many as their events published on it, the errors published for them and those pending |
| `Causes.ClosesAnswered` | src/uvw/tcp.ipp:78-80 | in every run: the calls of `close` and the successful ones of `close_reset` on an open handle lie between its close events and its initialisations; libuv knows it iff a close event is outstanding, and it is open iff no such call has followed its last initialisation |
| `Causes.StepTold` | src/uvw/handle.hpp:112-116 | each action asks libuv to close a handle, initialises one or submits an operation exactly when it is one of those calls; nothing else is ever recorded |
| `Listeners.ListenerInstalled` | src/uvw/emitter.h:122-131 | in every run each slot of an object of the user's holds the listener of the last `on` for that event, and none after a `reset` or without any |
| `Listeners.ListenerCalled` | src/uvw/emitter.h:100-105 | in every run each listener in progress is the one installed last for the event it was called with |
| `Effects.ReadExactly` | src/uvw/stream.h:117-136 | what a read callback leaves behind for each value of `nread`: which listener is entered with which buffer, or the buffer freed |
| `Effects.RecvExactly` | src/uvw/udp.ipp:29-46 | the same for a receive callback, with or without a sender |
| `Effects.DeliverExactly` | src/uvw/emitter.h:100-105 | an event of the handle's own enters the listener installed for that very event and changes nothing else |
| `Effects.CloseExactly` | src/uvw/handle.hpp:112-116 | an open handle is closing afterwards with one `uv_close` issued; a closing or closed one is left as it was |
| `Effects.CloseResetExactly` | src/uvw/tcp.ipp:78-80 | a successful `close_reset` leaves the handle closing with one close issued, a failed one changes nothing |
| `Effects.CloseLoopExactly` | src/uvw/loop.ipp:50-59 | an open loop is let go, recorded as busy iff it was; a loop already let go is left as it was |
| `Effects.ResumeExactly` | src/uvw/loop.ipp:61-63 | `uv_run` is over iff it returns, and changes nothing else |
| `Effects.MoveOutExactly` | src/uvw/stream.h:34-39 | taking the data out of a data event hands its buffer to the user, once, and changes nothing else |
| `Effects.AlwaysKept` | src/uvw/stream.h:50-53 | a request started through a function that returns nothing keeps itself although libuv has not taken it |
| `Effects.CompleteExactly` | src/uvw/request.hpp:21-25 | the self-reference of a completed request becomes the callback's, and its own listener for success or for errors is entered |
| `Effects.ForwardExactly` | src/uvw/stream.h:72-78 | a completed hidden request enters its own listener and that of its handle, success as success and failure as an error |
| `Safety.PendingAlive` | src/uvw/work.ipp:9-23 | a pending request is alive whenever the worker may run its task, also before the self-reference is stored |
| `Safety.CallAlive` | src/uvw/work.ipp:21-23 | between libuv's answer and `leak_if` the object is alive although other threads may drop references |
| `Safety.OwnerAlive` | src/uvw/uv_type.hpp:78-78 | a live resource keeps its loop alive |
| `Laws.RefusedStart` | src/uvw/resource.hpp:20-26 | a start refused by libuv leaves the whole state as it was |
| `Laws.RefusedSubmit` | src/uvw/stream.h:86-92 | a refused write, send, connect or shutdown destroys its hidden request and frees the data handed over; nothing else changes |
| `Laws.RefusedResource` | src/uvw/loop.h:163-167 | `loop::resource` whose `init` fails leaves a destroyed object and no other trace |
| `Laws.Rearm` | src/uvw/request.hpp:21-25 | a request restarted inside its own completion listener: one full round is the identity on the state |
| `Laws.RearmForever` | src/uvw/work.ipp:13-23 | any number of such rounds, with any outcomes, is legal and the identity |
| `Laws.Reopen` | src/uvw/handle.hpp:25-30 | a handle re-initialised inside its close listener is open again with its self-reference, and no count has changed |
| `Laws.ReopenForever` | src/uvw/handle.hpp:112-116 | closing and re-initialising from the close listener, any number of times, is legal and changes nothing but the record of it |
| `Forwarding.SubmitAccepted` | src/uvw/stream.h:269-280 | an accepted write, send, connect or shutdown leaves a request held by itself alone, two references more on the handle, one more on the loop, and changes nothing else but the data handed over |
| `Forwarding.Delivers` | src/uvw/stream.h:72-78 | the completion of such a request enters the handle's listener for success or error, on a live handle, with no strong count changed |
| `Forwarding.WholeOperation` | src/uvw/udp.ipp:129-140 | submission, completion and return of the listeners: one event delivered, the data freed once, the request gone, every other object, count and record as before |
| `Visibility.HiddenExactly` | src/uvw/stream.h:269-280 | in every reachable state a request uvw made for a stream operation is alive iff libuv has it, a start that did not register left it behind, its callback is running, or the operation that makes it is |
| `Visibility.StepHidden` | src/uvw/stream.h:270-277 | no action puts such a request into a user variable or a user listener |
| `Cycles.AliveExactly` | src/uvw/uv_type.hpp:74-80 | in every reachable state an object is alive iff a chain of references leads to it from a variable, callback or call that holds something, from what libuv has, from an orphan, or from a cycle of captures |
| `Cycles.StepCycles` | src/uvw/emitter.h:122-131 | a cycle of captures is closed between live objects only and no action destroys a member of one |
| `Quiescence.LeakExactly` | src/uvw/process.ipp:51-54 | with nothing held by users or libuv, an object is alive iff a chain of references leads to it from a cycle of captures or from an orphan, an object whose last start stored the self-reference and did not register; nothing is alive iff there is neither |
| `Quiescence.OrphanStays` | src/uvw/process.ipp:51-54 | an orphan stays alive through every run that does not register it after all |
| `Quiescence.NoLeak` | src/uvw/handle.hpp:25-30 | if user listeners capture no references, at quiescence nothing is alive, loops included, iff there is no orphan |
| `Cycles.Climb` | src/uvw/stream.h:272-277 | following owners upwards from any live object ends in something that keeps itself or in a cycle: the chain down from there is returned |
| `Quiescence.WalkCloses` | src/uvw/loop.h:288-345 | closing handles from `walk` is legal, leaves none of them open and changes nothing else in libuv |
| `Quiescence.WalkIs` | src/uvw/loop.h:288-345 | that run of closes is closing the handles one by one |
| `Quiescence.Drain` | src/uvw/handle.hpp:112-116 | along any run that starts nothing on a loop, its last callbacks and the handles and requests it loses are equally many, whatever mix of repeated closes occurs and whatever other loops do |
| `Quiescence.WalkAndCloseDrains` | src/uvw/loop.h:288-345 | after all handles of one loop are closed from `walk`, all callbacks it still makes are as many as the handles and requests it loses, so no more than it had, and when none is left to make it is idle |
| `Limits.FileSystemRequestLost` | src/uvw/fs.ipp:51-54 | a legal run that uses a forgotten file system request after its destruction |
| `Limits.FailedSpawnLeaks` | src/uvw/process.ipp:51-54 | a legal run after which user and libuv hold nothing and the process handle and its loop are alive, and the handle stays so in every continuation that does not register it |
| `Limits.RunningLoopLost` | src/uvw/loop.ipp:61-63 | a legal run that destroys a loop while `uv_run` is working on it |
| `Limits.RunningLoopClosed` | src/uvw/loop.ipp:50-59 | a legal run that closes a loop explicitly while `uv_run` is working on it |
| `Limits.WorkLoopClosed` | src/uvw/loop.ipp:50-59 | a legal run that closes a loop explicitly while a worker thread has a request of it |
| `Limits.SentHandleLost` | src/uvw/stream.h:325-368 | a legal run that destroys the handle sent along with a pending write |
| `Limits.StdioStreamLost` | src/uvw/process.h:179-186 | a legal run that spawns with a destroyed stream |
| `Limits.SecondClose` | src/uvw/loop.ipp:50-59 | over any run in between, every later close reports success, and does so on a loop that is still busy iff the first close reported an error |
| `Limits.BusyCloseForgets` | src/uvw/loop.ipp:50-59 | a reachable loop with one open handle whose first close fails and whose second succeeds while it is busy |
| `Runtime.Process.ReleaseTok` | src/uvw/uv_type.hpp:74-80 | dropping one reference imperatively, with nested destructors, is the cascade |
| `Runtime.Process.Destroy` | src/uvw/loop.ipp:44-48 | a destructor closes an open loop, then drops what the object owns |
| `Runtime.Process.LeakIf` | src/uvw/resource.hpp:20-26 | the self-reference is stored iff the error is zero, replacing one already there; the error is returned |
| `Runtime.Process.SelfReset` | src/uvw/resource.hpp:28-30 | the self-reference is cleared and released: the object lives on if another reference is held and is destroyed otherwise |
| `Runtime.Process.TakeOver` | src/uvw/request.hpp:21-25 | a local reference taken before the reset: the self-reference moves to the caller |
| `Runtime.Process.CloseCallback` | src/uvw/handle.hpp:25-30 | local reference, reset, publish is the machine's close step |
| `Runtime.Process.RequestCallback` | src/uvw/stream.h:72-78 | reserve and publish success or error, forwarded to the owning handle, is the machine's completion step |
| `Runtime.Process.ReadCallback` | src/uvw/stream.h:117-136 | on a live handle: end at UV_EOF, data above zero, an error otherwise below zero, each with the new buffer in the event, and at zero nothing with the buffer freed; it is the machine's read step, also on a destroyed handle |
| `Runtime.Process.RecvCallback` | src/uvw/udp.ipp:29-46 | on a live handle: data above zero and for an empty datagram with a sender, an error below zero, nothing and the buffer freed otherwise; it is the machine's receive step, also on a destroyed handle |
| `Runtime.Process.SpawnProcess` | src/uvw/process.ipp:51-54 | the self-reference is stored whether libuv registers the process or not; a destroyed stream is a use after destruction |
| `Runtime.Process.WalkAndClose` | src/uvw/handle.hpp:112-116 | closing in a loop, each close guarded by `closing()`, is closing the handles one by one |
| `Runtime.Process.LeaveListener` | src/uvw/handle.hpp:25-30 | when a callback returns its buffer and its local reference are released with all they kept |
| `Runtime.Process.Listen` | src/uvw/emitter.h:123-131 | the new listener takes the slot, the old one's captures are released |
| `Runtime.Process.CloseLoop` | src/uvw/loop.ipp:50-59 | an error iff the loop was open and busy; the loop is let go either way |
| `Runtime.Process.StartResource` | src/uvw/work.ipp:21-23 | asking libuv and then `leak_if` is the start step followed by its finish |
| `Runtime.Process.SubmitRequest` | src/uvw/stream.h:270-280 | creating the request, capturing the handle, installing both listeners, submitting, `leak_if` and dropping the locals is the submit step followed by its finish |
| `Runtime.Process.CreateForward` | src/uvw/stream.h:294-300 | the hidden request owns data, loop and, in two listener slots, the handle |
| `Fnv.Fnv1a` | src/uvw/type_info.hpp:18-28 | the loop computes the fold of section 2 of draft-eastlake-fnv and stays below 2^32 |
| `Fnv.Recover` | src/uvw/type_info.hpp:23-25 | running the hash backwards over what was hashed gives the starting value |
| `Fnv.PrefixRecoverable` | src/uvw/type_info.hpp:21-27 | the hash of a prefix follows from the hash of the whole and the suffix |
| `Fnv.CommonSuffix` | src/uvw/type_info.hpp:21-27 | two prefixes collide under a common suffix iff they collide by themselves |
| `Fnv.OneOctetSeparates` | src/uvw/type_info.hpp:18-28 | strings of equal length that differ in exactly one octet never hash alike |
| `Fnv.MulInverse` | src/uvw/type_info.hpp:24-24 | multiplication by the prime modulo 2^32 is undone by its inverse |
| `Fnv.MixSeparates` | src/uvw/type_info.hpp:24-24 | one step takes distinct octets to distinct values |
| `Fnv.KnownAnswers` | src/uvw/type_info.hpp:18-28 | the offset basis and the prime are those of the draft, and the hashes of the empty string and of "a" are its test vectors |
| `Stdio.Options.StdioFd` | src/uvw/process.ipp:75-95 | search, update in place or append keeps the table the ordered map of all calls: distinct descriptors in first-mention order, each with its last flags |
| `Stdio.Options.StdioStream` | src/uvw/process.h:179-186 | the entry of each stream call stands after those of the stream calls before it, with its own stream and flags; no descriptor is disturbed |
| `Stdio.Options.SpawnStdio` | src/uvw/process.ipp:43-49 | libuv gets the ordered map followed by one entry per stream call, the n-th for the n-th; the count is right iff it fits an int |
| `Stdio.OrderedMapUnique` | src/uvw/process.ipp:75-95 | the calls determine the table |
| `Stdio.InCallOrderUnique` | src/uvw/process.h:179-186 | the calls determine the streams and their order |
| `Words.ToInt32Exactly` | src/uvw/process.ipp:48-48 | the conversion to int keeps what fits and otherwise gives the one int congruent to its argument |
| `Stdio.Distinct` | src/uvw/process.ipp:80-94 | no two entries name the same descriptor |
| `FileReq.Request.Start` | src/uvw/fs.ipp:36-39 | an asynchronous call passes the current descriptor on and changes nothing visible |
| `FileReq.Request.Callback` | src/uvw/fs.ipp:6-30 | an error event carrying the result and no change, or the descriptor update and a success event carrying the result, with the buffer iff it was a read; descriptor, descriptors passed and outcomes are those of a synchronous run, and every answer of the run tells what libuv reported |
| `FileReq.Request.Blocking` | src/uvw/fs.ipp:41-87 | the blocking twins add the same outcome to the same run; success, size and data returned tell what libuv reported |
| `FileReq.SyncHolds` | src/uvw/fs.ipp:41-69 | the descriptor is that of the last successful open without a later successful close, else -1 |
| `FileReq.HeldUnique` | src/uvw/fs.ipp:6-22 | that description has one solution |
| `FileReq.LostExactly` | src/uvw/fs.ipp:56-69 | no open descriptor but the one in the slot exists iff no successful open found the slot occupied |
| `FileReq.ReopenLoses` | src/uvw/fs.ipp:56-69 | two successful opens in a row leave two descriptors open and one in the slot |
| `TryRead.TryRead` | src/uvw/util.h:252-271 | the answer is the value seen by the successful call, or nothing; it is complete iff the value did not come from the retry or has no NUL, and otherwise cut at the first NUL |
| `TryRead.Getter` | src/uvw/util.h:257-261 | libuv's size contract: value, NUL and length, or the size that would have been enough |
| `TryRead.SteadyValue` | src/uvw/util.h:252-271 | a value that does not change is returned whole iff it is short or NUL-free |
| `TryRead.LongAbstractName` | src/uvw/util.h:259-265 | a long value that starts with NUL comes back empty |
| `Singletons.DefaultLoop.GetDefault` | src/uvw/loop.ipp:24-42 | the one live wrapper is shared, or a new one is made, or nothing when libuv has no default loop; at most one is alive |
| `Singletons.DefaultLoop.Release` | src/uvw/loop.ipp:44-48 | the wrapper is destroyed exactly when its last holder goes; over a run, destructor runs equal returns to zero holders |
| `Singletons.ModeMemo.ConstructTty` | src/uvw/tty.ipp:10-23 | every tty handle shares the one live memo |
| `Singletons.ModeMemo.DestroyTty` | src/uvw/tty.ipp:6-8 | the terminal mode is reset exactly when the last tty handle goes; over a run, resets equal returns to zero handles |
| `Walk.GuessExactly` | src/uvw/util.ipp:168-207 | each handle type is guessed from the category it is named after and from no other |
| `Walk.CastExactly` | src/uvw/util.ipp:168-207 | the switch reaches a class exactly from the category that class initialises, and nothing otherwise |
| `Walk.Visits` | src/uvw/loop.h:288-345 | the handles with a data pointer and the category of a class, and no others, are visited once, in order, at that class; each uvw handle so at its own, and nothing else iff no foreign handle of such a category uses its data pointer |
| `Walk.ForeignTimer` | src/uvw/loop.h:328-330 | a foreign timer with a data pointer is visited |

## Left out

- libuv itself (polling, thread pool, sockets): present only as the promises listed above.
- Timer, idle, check, prepare, signal, poll, fs_event, fs_poll and async wrappers: instances of the generic handle, one-line forwards.
- DNS requests: instances of the generic request around foreign calls.
- A void-returning connect function: present as the `always` flag of the submit action; uvw itself passes none.
- `try_write` and `try_send`: the buffer is freed on return, which is a user's discard of a buffer; no request is involved.
- A custom allocation callback for reading: the default one, one fresh buffer per callback, is modelled.
- UDP with `UDP_RECVMMSG`: one buffer is then shared by several callbacks.
- FileReq.Request.Start: `scandir`, `readdir` and the memory behind `uv_fs_req_cleanup` are not modelled, because libuv's handling of that memory is not visible here.
- FileReq.LostExactly: descriptors are opened and closed through one request only.
- TryRead.Getter: getters that cut a long value silently instead of asking for more room do not follow this contract.
- `loop::create(uv_loop_t *)` and the loop of `get_default` do not own the `uv_loop_t`, so that an explicit close of a busy one frees nothing: the faults after an explicit close are those of `loop::create()`.
- Several loops run by several threads at once: there is one stack of listeners and one start function in progress for the whole process, with worker threads and dropped references beside them.
- `thread` hands itself to libuv as a raw pointer (`src/uvw/thread.ipp:48-55`); the join in its destructor protects it.
- Callbacks are not tied to a run in progress of their loop, and returns from `uv_run` not to the stack of listeners: both only add runs.
- Stdio.Options.SpawnStdio: the conversion of an oversized count wraps around, as common compilers do; working directory, flags, user and group are plain assignments.
- Singletons.DefaultLoop.GetDefault: the static pointer is used from one thread, as the code assumes.
- `ip_addr`, `sock_addr`: text conversion in libuv and raw structure reinterpretation.
- Mutexes, locks, semaphores, conditions, barriers, thread-local storage, shared libraries, `loop::timeout`, system information, enumeration operators: direct foreign calls or single expressions.
