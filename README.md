# Tower-of-Hanoi actor: a Dafny model

This project models the Tower-of-Hanoi actor in `src/lib.rs` and proves properties of it. The actor is a deterministic state machine that runs inside a content-addressed execution environment. Its state record holds three towers of discs. Each tower is a `Vec<u8>` whose last element is the top disc. The actor has three methods:

- method 1 is the constructor, which lays out five discs on tower 1;
- method 2 reports the current state;
- method 3 moves one disc. Its two parameter bytes are ASCII digits naming the source and target towers.

Each abort of the actor becomes a typed `Error` value. `Error.Code` gives the exit code it aborts with.

The project has two modules.

- `Hanoi` (`hanoi.dfy`) covers the state record.
  - `Towers` is the value of the record. `IsLegal` (`is_legal`) and `Move` (the effect of `move_disc`) are pure functions of it.
  - `State` is the class the actor mutates in place. Its constructor is `new`: a loop pushes `1..=n` and the tower is then reversed. `MoveDisc` pops the source tower and pushes onto the target tower, and it is proved against `Move`.
  - The lemmas prove the two invariants and show that each move is undone by the move back. Invariant I1: each disc `1..=n` is on the towers exactly once. Invariant I2: every tower strictly decreases from bottom to top.
- `Actor` (`actor.dfy`) covers the layer around the state record:
  - dispatch on the method number;
  - the constructor's caller check (the caller id is a parameter);
  - the decoding `params[i] - b'0'` with `u8` wrap-around;
  - the four entry points `constructor`, `get`, `move_disc(params)` and `invoke`.

  The persisted root is modelled as the state value it points to, or `None` while no root is set.

Three details of the code that the model keeps:

- `is_legal` returns `false` for an empty source before it looks at `to`. An invalid `to` therefore aborts only when the source tower is non-empty.
- `new(0)` is accepted and gives three empty towers.
- Every load failure aborts with the same exit code, `USR_ILLEGAL_STATE`. The model has the one error `NoState`.

## Model

| member | source | states |
|---|---|---|
| `Hanoi.Error.Code` | src/lib.rs:14-21 | Each abort site reports its exit code: an invalid `from` or `to` (lines 50, 58) gives `USR_ILLEGAL_ARGUMENT`; an illegal move or a non-init caller (lines 68, 168) gives `USR_FORBIDDEN`; a load failure (lines 96, 102, 103) gives `USR_ILLEGAL_STATE`; an unknown method (line 142) gives `USR_UNHANDLED_MESSAGE`; too few parameter bytes (lines 196-197) is a panic with no exit code of its own. Each code comes from exactly these sites. |
| `Hanoi.State.constructor` | src/lib.rs:32-43 | `new(n)` builds tower 1 as `[n, ..., 1]` and leaves towers 2 and 3 empty. The loop pushes `1..=n` and the result is reversed. |
| `Hanoi.CountdownAt` | src/lib.rs:37-40 | The initial tower 1 has `n` discs, with disc `n - k` at position `k`. |
| `Hanoi.CountdownEachOnce` | src/lib.rs:37-40 | The initial tower 1 holds each disc `1..=n` exactly once and no other disc. |
| `Hanoi.Reverse` | src/lib.rs:40 | `reverse` gives a sequence of the same length whose position `k` holds the input's position `len - 1 - k`. |
| `Hanoi.InitialValid` | src/lib.rs:32-43 | The state `new(n)` satisfies I1 (each of `1..=n` exactly once) and I2 (every tower strictly decreasing). |
| `Hanoi.Towers.IsLegal` | src/lib.rs:45-64 | An invalid `from` aborts with an illegal-argument error. An empty source is never legal, even with an invalid `to`. With a non-empty source, an invalid `to` aborts. An empty target is always legal. Otherwise the move is legal iff top(source) < top(target). A legal pair names two distinct towers, so a move onto the same tower is never legal. |
| `Hanoi.LegalIffOrderKept` | src/lib.rs:52-63 | On an ordered state, a pair is legal exactly when three things hold: the source is non-empty, the towers differ, and the target stays strictly decreasing with the source's top put on it. |
| `Hanoi.PushKeepsDecreasing` | src/lib.rs:60-63 | Putting a disc on a strictly decreasing tower keeps it strictly decreasing iff the tower is empty or its top is larger. |
| `Hanoi.ExactlyOneDirection` | src/lib.rs:53-63 | Take a state that holds each disc once and two different non-empty towers. Exactly one of the two moves between them is legal. |
| `Hanoi.Towers.Move` | src/lib.rs:66-84 | The legality check's abort is passed on. An illegal pair fails as a forbidden `IllegalMove`. A legal pair succeeds: the source loses exactly its top, the target gains that disc as its new top, and the third tower is unchanged. |
| `Hanoi.MoveKeepsOrder` | src/lib.rs:60-83 | A legal move keeps every tower strictly decreasing (I2). |
| `Hanoi.MoveKeepsDiscs` | src/lib.rs:76-83 | A legal move keeps the multiset of all discs unchanged. |
| `Hanoi.MoveKeepsValid` | src/lib.rs:66-84 | A legal move keeps both I1 and I2, so every state reachable from `new(n)` satisfies them. |
| `Hanoi.MoveBackLegal` | src/lib.rs:60-63 | After a legal move from a strictly decreasing tower, moving the disc back is legal. |
| `Hanoi.MoveUndone` | src/lib.rs:66-84 | A legal move from a strictly decreasing tower, followed by the move back, restores the original state. |
| `Hanoi.State.MoveDisc` | src/lib.rs:66-85 | The object's new towers are exactly those `Move` gives on the old towers. On an abort or an illegal pair the result is that error and no field changes. Ordering and the multiset of discs are kept. |
| `Hanoi.State.PopTop` | src/lib.rs:70-76 | `pop().unwrap()` returns the top disc of the named tower and removes it. The other towers are unchanged. |
| `Hanoi.State.PushOnto` | src/lib.rs:77-83 | `push` makes the disc the new top of the named tower. The other towers are unchanged. |
| `Hanoi.State.Load` | src/lib.rs:92-105 | The record decoded from the root has exactly the towers of the stored value. |
| `Actor.MethodOf` | src/lib.rs:134-143 | Numbers 1, 2 and 3 dispatch to the constructor, `get` and `move_disc`. Mapping the method back gives the same number. Every other number is unhandled and keeps its value. |
| `Actor.CheckCaller` | src/lib.rs:162-169 | The constructor's check passes iff the caller is the init actor (id 1). Any other caller gets a forbidden error. |
| `Actor.DecodeDigit` | src/lib.rs:196-197 | `b - b'0'` on a `u8`. A byte from `'0'` upwards gives its digit value. A smaller byte wraps to 208 or more. The result is a tower id iff the byte is `'1'`, `'2'` or `'3'`. |
| `Actor.DecodeMove` | src/lib.rs:194-197 | Decoding succeeds iff there are at least two parameter bytes. It then gives the decoded first and second bytes. With fewer bytes it fails with `ParamsTooShort`, the index panic. |
| `Actor.MoveParamsAreDigits` | src/lib.rs:196-198 | A move request succeeds only if its first two bytes are two different ASCII digits from `'1'` to `'3'`. |
| `Actor.HanoiActor.Load` | src/lib.rs:92-105 | With no root, loading aborts with `NoState`. Otherwise it gives a fresh record equal to the rooted state. |
| `Actor.HanoiActor.Save` | src/lib.rs:107-121 | The saved record becomes the new root. |
| `Actor.HanoiActor.Constructor` | src/lib.rs:160-174 | A caller other than the init actor is refused and the root is untouched. The init actor roots `new(5)` and receives no data. |
| `Actor.HanoiActor.Get` | src/lib.rs:177-191 | With no root, `get` aborts. Otherwise it reports the rooted state and changes nothing. |
| `Actor.HanoiActor.MoveDisc` | src/lib.rs:194-212 | The order is: load (no root aborts), decode the parameters (too few bytes abort), then `Move`. An abort keeps the old root. Success roots the moved state and reports it. |
| `Actor.HanoiActor.Invoke` | src/lib.rs:132-154 | Dispatch to the three methods, or an unhandled-method abort. Every abort leaves the root untouched. Every invocation keeps I1 and I2 of the rooted five-disc state. |

## Left out

- Hashing and encoding: the DAG-CBOR encoding of the record, the Blake2b-256 content address and the returned `Cid` are host library calls (src/lib.rs:107-121). The root is modelled as the value it points to.
- `Actor.HanoiActor.Save`: does not model the failures of serialisation, `put` or `set_root`, because their causes lie in the host. A save in the model always succeeds.
- `Actor.HanoiActor.Load`: folds the three load failures into the one `NoState` error: no root, no block, or a block that does not decode. All three abort with `USR_ILLEGAL_STATE`.
- Host ABI plumbing in `invoke`: `params_raw`, `put_block` of the return value and `NO_DATA_BLOCK_ID` (src/lib.rs:138, 147-153). The reply is modelled as `NoData` or `Dump(state)`.
- The `format!("{:?}", ...)` rendering returned by `get` and `move_disc(params)`, and the abort if serialising that string fails (src/lib.rs:183-189, 204-210): it is Rust `Debug` output with no logic, and the failure lies in the host's encoder. `Dump` carries the state it renders.
- The `abort!` macro's host call (src/lib.rs:14-21): each abort is an `Error` value returned to the caller, and `Error.Code` names its exit code.
- `Actor.DecodeDigit`: follows a release build, where `params[i] - b'0'` wraps. A debug build panics for bytes below `'0'`. Either way such a byte never names a tower.
- The default arms of the second `from`/`to` match in `move_disc` (src/lib.rs:70-82): `is_legal` has already accepted both ids, so these arms are never reached.
- Concurrency and re-entrancy: the host runs one invocation at a time, and the model has no concurrency.
