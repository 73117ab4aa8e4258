# Host-side bridge of the space-invader WebAssembly game

The game's logic runs in a WebAssembly module; `zig-out/index.js` is the host
glue that lets that module drive WebGL. This project models the stateful part
of that glue and proves properties of it:

- **Handle tables** (`WasmHandler.shaders`, `glPrograms`, `glBuffers`,
  `glUniformLocations`): append-only arrays that turn WebGL objects into
  small integer ids. Every creating call pushes one object and returns
  `length - 1`. Every other call indexes a table with an id the module
  passes in.
- **Memory windows**: `readCharStr` and `logWasm` select byte ranges of the
  module's linear memory through `new Uint8Array(memory.buffer, offset, length)`.
- **Shared input state** (`CanvasInputHandler`): a 3-byte record in module
  memory (move_left, move_right, shoot). The key handlers overwrite it in
  place and the module polls it every frame.

Modules:

- `Wrappers` (wrappers.dfy): `Option` (JavaScript's `undefined`) and `Result`.
- `MemoryWindow` (memory_window.dfy): bytes, the in-bounds rule of the
  typed-array constructor, `ReadCharStr` and `LogWasm`.
- `HandleTables` (handle_tables.dfy): host references and `Lookup`, which is
  JavaScript array indexing with no range check.
- `CallBridge` (call_bridge.dfy): the four tables as a value, one `Step` per
  call the module makes, and runs of calls with the lemmas about them.
- `WasmHandlers` (wasm_handler.dfy): the class `WasmHandler`, with the four
  tables as `seq` fields. Each method is written like its JavaScript
  counterpart and is proved equal to `CallBridge.Step`.
- `InputState` (input_state.dfy): key events as functions on memory, runs of
  events, and the class `CanvasInputHandler`, which writes into an `array`
  in place.

Inputs and conventions:

- The host API is not modelled. What it decides is an input of each call:
  the object `createShader`, `createProgram`, `createBuffer` or
  `getUniformLocation` hands back, the compile and link status, and the info
  log.
- What the bridge passes to the host is recorded as the table entries it
  resolved (`forwarded`). `None` stands for the `undefined` that an
  out-of-range id produces.
- Pointers and lengths are `int`, because the 32-bit values from the module
  reach JavaScript as signed numbers. A window with a negative offset or
  length, or one that runs past the end of the buffer, makes the typed-array
  constructor throw `RangeError`. The model returns that error instead of
  requiring it away.
- `WasmHandler`'s operations only read memory, so they take the current
  contents of `memory.buffer` as a `seq`.

JavaScript behaviour the model keeps where a reader might expect otherwise:

- An id outside its table is not reported as an invalid handle. JavaScript
  yields `undefined` and that value goes to WebGL.
- A zero-length `readCharStr` still builds its view, so an offset past the
  end of memory still throws `RangeError`. Only `logWasm` returns early on a
  zero length.
- Compile and link failures throw a plain string: `"Error compiling shader:"`
  or `"Error linking program:"` followed by the host's info log.
- `glGetAttribLocation` drops the location and returns `undefined`.

## Model

| member | source | states |
|---|---|---|
| `MemoryWindow.ReadCharStr` | zig-out/index.js:11-14 | succeeds exactly when `[ptr, ptr+len)` lies inside memory (a negative offset or length fails too); otherwise it is a RangeError; on success the result holds exactly the `len` bytes starting at `ptr` |
| `MemoryWindow.LogWasm` | zig-out/index.js:70-76 | a zero length logs nothing and never fails, whatever the pointer; otherwise it always logs a window when it succeeds, succeeds exactly when `[s, s+2*len)` lies inside memory and selects exactly those `2*len` bytes, and fails with RangeError otherwise |
| `MemoryWindow.LogWasmTakesUtf16Window` | zig-out/index.js:70-76 | for a nonzero length, `logWasm` fails or succeeds exactly as `readCharStr` would for `2*len` bytes at the same pointer, and on success selects the same bytes |
| `MemoryWindow.ReadUnaffectedOutsideWindow` | zig-out/index.js:11-14 | overwriting one byte outside a window does not change what is read from the window |
| `HandleTables.Lookup` | zig-out/index.js:30-31 | JavaScript `table[id]`: an id in `[0, length)` yields that entry, and any other id, negative included, yields `undefined` (`None`) |
| `HandleTables.LookupAfterPush` | zig-out/index.js:24-25 | after a push, the returned id `length - 1` (the old length) resolves to the pushed object, and every other id resolves as before |
| `HandleTables.LookupInExtension` | zig-out/index.js:4-7 | an id that resolves in a table resolves to the same object in any table that extends it; an id that does not resolve in the larger table does not resolve in the smaller |
| `CallBridge.Push` | zig-out/index.js:24-25 | pushing onto a table appends exactly the object to that table |
| `CallBridge.PushLeavesOtherTables` | zig-out/index.js:4-7 | pushing onto one table leaves the other three unchanged |
| `CallBridge.PushExtends` | zig-out/index.js:4-7 | pushing never removes or changes an entry: each old table is a prefix of the new one |
| `CallBridge.Step` | zig-out/index.js:16-68 | a call that returns an id is a creating call; the id is the old length of that call's own table and resolves to the created object; exactly that one object is appended to that one table. Every other ending, a throw included, leaves all four tables unchanged. A compile returns an id iff the source window is in bounds and the status is true; an out-of-bounds source throws RangeError and a failed compile throws `"Error compiling shader:"` + info log. A link forwards the two `shaders` lookups, returns an id iff the status is true and otherwise throws `"Error linking program:"` + info log. getAttribLocation and getUniformLocation throw RangeError and forward nothing for an out-of-bounds name window, and otherwise forward the `glPrograms` lookup; getAttribLocation then returns `undefined`, getUniformLocation an id, even when the host hands back `Null` (in the model only: for an out-of-range program id the host itself throws a TypeError, see Left out). uniform4fv, bindBuffer and useProgram forward the lookup in their own table and return `undefined`. createBuffer always returns an id. A RangeError comes only from an out-of-bounds source or name window |
| `CallBridge.TableLengthCountsIssuedIds` | zig-out/index.js:16-68 | after any run of calls, each table's length is its starting length plus the number of calls in the run that returned an id into it |
| `CallBridge.AfterPrefixIsExtended` | zig-out/index.js:16-68 | each table after any prefix of a run is a prefix of the same table after the whole run |
| `CallBridge.IssuedIdStaysValid` | zig-out/index.js:16-68 | the id returned by the k-th call of a run is the table's starting length plus the number of ids issued into that table before it (from empty tables, the n-th successful insert gets id n - 1); after the whole run the id still resolves to the object that call appended |
| `CallBridge.UnissuedIdsDoNotResolve` | zig-out/index.js:16-68 | an id at or beyond the issued range of a table does not resolve after the run |
| `CallBridge.IssuedIdsAreDistinct` | zig-out/index.js:16-68 | two calls of a run that get ids from the same table get different ids, and the later call gets the larger one |
| `WasmHandlers.WasmHandler.constructor` | zig-out/index.js:2-9 | all four tables start empty |
| `WasmHandlers.WasmHandler.CompileShader` | zig-out/index.js:16-26 | new tables and returned id are those of `Step` for the compile call: shader pushed and `shaders.length - 1` returned only when the source window is readable and compilation succeeded; RangeError or the compile-error string otherwise, with all tables unchanged |
| `WasmHandlers.WasmHandler.LinkShaderProgram` | zig-out/index.js:28-38 | agrees with `Step` for the link call: the two shader lookups are forwarded whether or not linking succeeds; the program is pushed onto `glPrograms` only on success; `shaders` is never changed |
| `WasmHandlers.WasmHandler.GlGetAttribLocation` | zig-out/index.js:40-45 | changes no table; unless the name window is out of bounds it returns `undefined` and forwards exactly the `glPrograms` entry the id names (`undefined` outside the table) |
| `WasmHandlers.WasmHandler.GlGetUniformLocation` | zig-out/index.js:47-56 | agrees with `Step`: whatever the host returns, `Null` included, is pushed onto `glUniformLocations` and its index returned, unless the name window throws; no other table changes |
| `WasmHandlers.WasmHandler.GlUniform4fv` | zig-out/index.js:58-63 | the forwarded location is defined iff the id is in range of `glUniformLocations` and is then that entry; no table changes |
| `WasmHandlers.WasmHandler.GlCreateBuffer` | zig-out/index.js:65-68 | agrees with `Step`: always pushes the created buffer and returns its index; no other table changes |
| `WasmHandlers.WasmHandler.GlBindBuffer` | zig-out/index.js:190 | the forwarded buffer is defined iff the id is in range of `glBuffers` and is then that entry; no table changes |
| `WasmHandlers.WasmHandler.GlUseProgram` | zig-out/index.js:195 | the forwarded program is defined iff the id is in range of `glPrograms` and is then that entry; no table changes |
| `InputState.FieldOf` | zig-out/index.js:121-127 | key `a` drives field 0 (move_left), `d` field 1 (move_right), `j` field 2 (shoot), each in both directions; no other key drives a field, and every field lies inside the 3-byte record |
| `InputState.Handle` | zig-out/index.js:121-154 | a key event writes its flag (1 for down, 0 for up) to the byte of its key's field; every other byte of memory keeps its value, the other two record bytes included; a key other than `a`, `d`, `j` writes nothing |
| `InputState.HandleAllField` | zig-out/index.js:121-154 | after any run of key events, each field holds the flag of the last event for its key, or its old value if no event in the run was for its key |
| `InputState.HandleAllOutsideRecord` | zig-out/index.js:121-154 | no run of key events changes a byte outside the 3-byte record |
| `InputState.PressThenRelease` | zig-out/index.js:148-154 | key down then key up of the same key has the effect of the key up alone: that field ends at 0 and every other byte keeps what it held before |
| `InputState.IndependentFieldsCommute` | zig-out/index.js:121-154 | events for keys that drive different fields commute, so setting one field never disturbs another |
| `InputState.FlagsStayFlags` | zig-out/index.js:97 | a record whose three bytes are booleans (0 or 1) stays so under any run of key events |
| `InputState.HandleKeepsOtherWindows` | zig-out/index.js:98 | a key event never changes what `readCharStr` reads from a window that does not overlap the record |
| `InputState.CanvasInputHandler.constructor` | zig-out/index.js:95-98 | the handler keeps the module's memory and the record offset it reports, and the 3-byte view lies inside memory |
| `InputState.CanvasInputHandler.InputStateView` | zig-out/index.js:98 | the view has three bytes, and byte i of the view is byte `inputPtr + i` of memory |
| `InputState.CanvasInputHandler.OnKeyDown` | zig-out/index.js:101-128 | memory afterwards is `Handle` of the old memory with a key-down event: byte `inputPtr + 0/1/2` set to 1 for `a`/`d`/`j`, nothing else changed; through the view, the key's field reads 1 and the other fields keep their old values |
| `InputState.CanvasInputHandler.OnKeyUp` | zig-out/index.js:130-155 | memory afterwards is `Handle` of the old memory with a key-up event: byte `inputPtr + 0/1/2` cleared to 0 for `a`/`d`/`j`, nothing else changed; through the view, the key's field reads 0 and the other fields keep their old values |

## Left out

- The WebGL calls themselves (`createShader`, `shaderSource`, `compileShader`, `attachShader`, `linkProgram`, `getAttribLocation`, `uniform4fv`, `bindBuffer`, `useProgram` and the rest) are host behaviour. Their results are inputs to the calls, and what they are handed is recorded as `forwarded`.
- WebGL's reaction to an `undefined` argument is not modelled. `attachShader`, `getAttribLocation` and `getUniformLocation` reject it; `bindBuffer`, `useProgram` and `uniform4fv` treat it as null. The model records that `undefined` was forwarded and lets the link status input decide a link's outcome.
- UTF-8 and UTF-16 decoding with `TextDecoder` is a library call. Only the selected byte window is modelled.
- Enum and float arguments are forwarded unchanged and not carried: the shader type, the `glBindBuffer` target, the four floats of `glUniform4fv`.
- `glBufferData`'s `Float32Array` view, `logf32`, and the pass-through imports `glClearColor`, `glEnable`, `glDepthFunc`, `glClear`, `glEnableVertexAttribArray`, `glVertexAttribPointer` and `glDrawArrays` touch no table and carry float payloads or plain forwarding.
- `instantiateWasmModule`, `init` and the `requestAnimationFrame` loop are asynchronous loading and event-loop scheduling.
- `onResize` and `setCanvasCallbacks` are DOM and canvas manipulation.
- The commented-out shared key-string buffer code, and the `keysPressed` set that only that code uses, are dead code.
- `WasmHandler.memory` is `null` until the module is instantiated. A call that reads memory before then throws a TypeError; the model always has a memory.
- Memory growth is not modelled; memory has a fixed size. After a `memory.grow`, the view that `CanvasInputHandler` built at construction is detached, and writes through it are dropped.
- InputState.CanvasInputHandler.constructor: requires the 3-byte view to fit in memory; the source's typed-array constructor throws a RangeError there instead.
