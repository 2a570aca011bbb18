# nearcore-gas metering shim in Dafny

This project models the gas and stack metering shim that the `nearcore` host
links into an instrumented WebAssembly guest. The shim keeps two process-wide
`u64` registers:

- `NEARCORE_GAS` holds the gas remaining.
- `REMAINING_STACK` holds the stack budget remaining.

It exports entry points that the instrumentation calls before each costly
instruction. Every entry point does guarded 64-bit arithmetic on a register.
When a guard fails, it leaves the register as it was and calls one of the
host's four `nearcore` imports with the exact overflow amount.

The model has three modules:

- `Word` holds `u64` and `u32` as newtypes and the Rust primitives the source
  uses: `overflowing_sub`, `overflowing_add`, `checked_mul`, `checked_add`,
  `saturating_add` and the wrapping `+` of a release build. Because the types
  are newtypes, every unchecked subtraction or addition in the model carries a
  proof that it stays in range. Two examples are `gas - NEARCORE_GAS` in
  `consume_gas` and `total_replaced - (u64::MAX - REMAINING_STACK + 1)` in
  `finite_wasm_unstack`.
- `Metering` states each entry point as a pure function. It takes the registers
  before the call and returns a `Step`: the registers after the call and the
  host notifications issued, in order. `Run` applies a sequence of calls one
  after another. The lemmas here relate the entry points to each other and
  state what holds over whole runs.
- `Shim` holds the class `Meter`. Its fields are the two registers and a ghost
  log of host notifications. Its methods mirror the Rust functions statement by
  statement and update the fields in place. Each method's contract ties the new
  registers and the added notifications to the matching `Metering` function.

A host import is modelled as "append to the log, change no register". A host
that never returns from a notification just cuts the log short, so every
statement about a prefix of the log still holds. The registers in `Step.after`
assume a host that returns. When the host traps at an earlier notification,
the charge that would follow never happens. In `finite_wasm_stack` that is the
frame surcharge after `StackExhausted`. In `linear_gas` it is the gas charge
after `ParamsOverflowed`.

Notes on what the code does:

- The doc comment at src/lib.rs:61-62 says `nearcore_params_overflowed` is
  called with the original parameters. The code differs on the second call.
  When `checked_add` overflows in `linear_gas`, that call passes the shadowed
  product as `linear` (`u64::MAX` if the multiply overflowed). The model follows
  the code. `ParamsNotificationCarriesProduct` and `ParamsNotifiedTwice` show
  this.
- After a parameter overflow, `linear_gas` charges `u64::MAX`. If the gas
  register holds less than `u64::MAX`, the register is unchanged and
  `nearcore_gas_exhausted(u64::MAX - gas)` follows. If it holds exactly
  `u64::MAX`, the charge drains it to 0 with no notification (`LinearGas`).
- `finite_wasm_unstack` reports the wrapped sum `before + total - 2^64` as the
  overflow. That amount is 0 when the sum is exactly 2^64
  (`UnstackOverflowCanReportZero`).
- The gas surcharge adds 7 to `frame_size` without a check. The model uses
  release-build wrap-around, so a `frame_size` above `u64::MAX - 7` is charged
  0 gas (`FrameSurcharge`).

## Model

| member | source | states |
|---|---|---|
| `Word.OverflowingSub` | src/lib.rs:43 | borrows exactly when the subtrahend is larger; the result is the difference, plus 2^64 on a borrow |
| `Word.OverflowingAdd` | src/lib.rs:159 | carries exactly when the sum exceeds `u64::MAX`; the result plus 2^64 on a carry is the true sum |
| `Word.WrapRoundTrip` | src/lib.rs:159 | a fact about the primitives alone, pairing `overflowing_add` with `overflowing_sub`: a wrapped subtraction undoes a wrapped addition, and the borrow equals the carry |
| `Word.CheckedMul` | src/lib.rs:66 | `None` exactly when the product exceeds `u64::MAX`, otherwise the true product |
| `Word.CheckedAdd` | src/lib.rs:71 | `None` exactly when the sum exceeds `u64::MAX`, otherwise the true sum |
| `Word.SaturatingAdd` | src/lib.rs:139 | at least either operand and at most their sum; it falls short of the sum only by clamping to `u64::MAX` |
| `Word.WrappingAdd` | src/lib.rs:148 | the true sum when it fits, otherwise the sum minus 2^64 |
| `Metering.ConsumeGas` | src/lib.rs:41-50 | within budget, gas drops by the amount with no notification; over budget, the registers are unchanged and exactly one `GasExhausted(amount - gas)` is issued; the stack is never touched |
| `Metering.LinearCharge` | src/lib.rs:64-75 | a cost that fits is charged exactly with no notification; otherwise `u64::MAX` is charged; a product overflow notifies the original parameters, followed by a second notification with `linear = u64::MAX` when `constant > 0`; an overflow of the sum alone notifies with `linear` replaced by the product |
| `Metering.LinearGas` | src/lib.rs:64-77 | a cost that fits behaves exactly as `consume_gas` of `constant + count * linear`; otherwise the parameter notifications come first, then `u64::MAX` is charged: gas is unchanged and `GasExhausted(u64::MAX - gas)` is issued, unless gas was `u64::MAX` and drops to 0; the stack is never touched |
| `Metering.FrameWords` | src/lib.rs:148 | `(frame + 7) / 8` is the ceiling of `frame / 8` |
| `Metering.FrameSurcharge` | src/lib.rs:148 | up to `u64::MAX - 7`, the surcharge is `REGULAR_OP_COST` per started 8-byte word; above that, the `+ 7` wraps and the surcharge is 0 |
| `Metering.Stack` | src/lib.rs:134-150 | with `total = min(operand + frame, u64::MAX)`: either the stack drops by `total` with no stack notification, or the stack is unchanged and `StackExhausted(total - stack)` is issued first; the frame surcharge is charged through `consume_gas` in both cases |
| `Metering.Unstack` | src/lib.rs:153-168 | either the stack rises by `total` with no notification, or the registers are unchanged and one `UnstackOverflowed(stack + total - 2^64)` is issued; gas is never touched |
| `Metering.Entry` | src/lib.rs:52-168 | no entry point raises gas; `finite_wasm_unstack` leaves gas alone; only the two stack entry points move the stack |
| `Metering.RunNeverRaisesGas` | src/lib.rs:41-50 | over any sequence of calls, the gas register never increases |
| `Metering.RunWithoutFramesKeepsStack` | src/lib.rs:41-131 | a sequence of gas, memory and table calls leaves the stack register unchanged |
| `Metering.LinearGasReportsShortfalls` | src/lib.rs:64-77 | every exhaustion that `linear_gas` reports names a positive shortfall |
| `Metering.EntryReportsShortfalls` | src/lib.rs:41-168 | every gas or stack exhaustion that an entry point reports names a positive shortfall |
| `Metering.RunReportsShortfalls` | src/lib.rs:41-168 | over any sequence of calls, every gas or stack exhaustion reported names a positive shortfall |
| `Metering.StackUnstackRoundTrip` | src/lib.rs:134-168 | leaving a frame right after entering it within budget restores the stack register with no notification, and the gas charged on entry stays charged |
| `Metering.UnstackOverflowIsWrappedSum` | src/lib.rs:159-163 | the reported unstack overflow equals the wrapped sum that `overflowing_add` returned |
| `Metering.UnstackOverflowCanReportZero` | src/lib.rs:159-163 | giving `u64::MAX` back to a budget of 1 reports an overflow of 0 |
| `Metering.FrameSurchargeBoundaries` | src/lib.rs:148 | the surcharge for frames of 0, 1, 7, 8 and 9 bytes is 0, 1, 1, 1 and 2, and for `u64::MAX` it is 0 |
| `Metering.ParamsNotificationCarriesProduct` | src/lib.rs:66-75 | with `count = 2, linear = 1, constant = u64::MAX`, the notification carries `linear = 2` |
| `Metering.ParamsNotifiedTwice` | src/lib.rs:66-76 | when the product overflows and `constant > 0`, two parameter notifications come before the gas exhaustion, the second with `linear = u64::MAX` |
| `Metering.GasAllFixtures` | src/lib.rs:237-254 | each `gas_all` fixture gives the expected remaining gas, the expected exhaustion amount and the expected parameter notification |
| `Shim.Meter.constructor` | src/lib.rs:1-12 | both registers start at 0 and no notification has been issued |
| `Shim.Meter.NotifyGasExhausted` | src/lib.rs:18-19 | appends `GasExhausted` to the log and changes no register |
| `Shim.Meter.NotifyParamsOverflowed` | src/lib.rs:20-21 | appends `ParamsOverflowed` to the log and changes no register |
| `Shim.Meter.NotifyStackExhausted` | src/lib.rs:22-23 | appends `StackExhausted` to the log and changes no register |
| `Shim.Meter.NotifyUnstackOverflowed` | src/lib.rs:24-25 | appends `UnstackOverflowed` to the log and changes no register |
| `Shim.Meter.ConsumeGas` | src/lib.rs:41-50 | the registers and new notifications are those of `Metering.ConsumeGas`; the stack field is not modified |
| `Shim.Meter.FiniteWasmGas` | src/lib.rs:52-55 | same as `consume_gas` |
| `Shim.Meter.LinearGas` | src/lib.rs:64-77 | the registers and new notifications are those of `Metering.LinearGas`; the stack field is not modified |
| `Shim.Meter.FiniteWasmMemoryCopy` | src/lib.rs:79-86 | same as `linear_gas` |
| `Shim.Meter.FiniteWasmMemoryFill` | src/lib.rs:88-95 | same as `linear_gas` |
| `Shim.Meter.FiniteWasmMemoryInit` | src/lib.rs:97-104 | same as `linear_gas` |
| `Shim.Meter.FiniteWasmTableCopy` | src/lib.rs:106-113 | same as `linear_gas` |
| `Shim.Meter.FiniteWasmTableFill` | src/lib.rs:115-122 | same as `linear_gas` |
| `Shim.Meter.FiniteWasmTableInit` | src/lib.rs:124-131 | same as `linear_gas` |
| `Shim.Meter.FiniteWasmStack` | src/lib.rs:133-150 | the registers and new notifications are those of `Metering.Stack` |
| `Shim.Meter.FiniteWasmUnstack` | src/lib.rs:152-168 | the registers and new notifications are those of `Metering.Unstack`; the gas field is not modified |
| `Shim.EnterThenLeave` | src/lib.rs:133-168 | a caller who enters a frame within budget and then leaves it gets the stack register back; only the frame surcharge has been charged and notified |

## Left out

- The host's reaction to a notification is not modelled: trapping the guest, or refilling a register before it returns. A notification only appends to the log.
- Writes the host makes to `NEARCORE_GAS` or `REMAINING_STACK` between calls are not modelled as an operation. The fields are public, so a client can assign them.
- The `extern "C"` import block, the `no_mangle`/`link` attributes and `static mut` linkage (src/lib.rs:3-26) are not modelled: they are foreign-function mechanics. The registers become fields of one `Meter` object.
- A debug build would panic on `frame_size + 7` for a `frame_size` above `u64::MAX - 7`. The model follows release-build wrap-around instead.
- The test harness's atomics and `println!` calls (src/lib.rs:172-202, 264, 270) are not modelled. The `gas_all` fixtures appear only as `GasAllFixtures`.
- The `wasm_stack` test is only `todo!()` (src/lib.rs:277-280), so there is nothing to model.
- Concurrent use of the registers is not modelled. The source relies on a single execution context.
