/** The metering arithmetic of the shim as pure functions over the two
    process-wide registers: the remaining gas (`NEARCORE_GAS`) and the remaining
    stack budget (`REMAINING_STACK`).

    Each entry point is a function from the registers before the call to a
    `Step`: the registers after the call and the host notifications it issued,
    in order. A host notification never changes a register; a host that does not
    return from a notification simply cuts the list short, so everything stated
    about a prefix of the notifications still holds. The registers in `after`
    are those of a host that returns from every notification: a host that traps
    at an earlier one also skips the gas charge that would follow it. */
module Metering {
  import opened Word

  /** `REGULAR_OP_COST`: the gas charged per 8 bytes of stack frame. */
  const REGULAR_OP_COST: u32 := 1

  /** One call into the host's `nearcore` import module. */
  datatype Event =
    | GasExhausted(overflow: u64)
    | ParamsOverflowed(count: u32, linear: u64, constant: u64)
    | StackExhausted(overflow: u64)
    | UnstackOverflowed(overflow: u64)

  datatype Registers = Registers(gas: u64, stack: u64)

  /** The effect of one call: the registers afterwards and the notifications issued. */
  datatype Step = Step(after: Registers, notes: seq<Event>)

  /** The amount a linear cost charges, and the parameter-overflow notifications
      issued while computing it. */
  datatype Charge = Charge(amount: u64, notes: seq<Event>)

  /** The exported entry points, as one instrumented call site invokes them. */
  datatype Call =
    | WasmGas(amount: u64)
    | MemoryCopy(count: u32, linear: u64, constant: u64)
    | MemoryFill(count: u32, linear: u64, constant: u64)
    | MemoryInit(count: u32, linear: u64, constant: u64)
    | TableCopy(count: u32, linear: u64, constant: u64)
    | TableFill(count: u32, linear: u64, constant: u64)
    | TableInit(count: u32, linear: u64, constant: u64)
    | WasmStack(operandSize: u64, frameSize: u64)
    | WasmUnstack(operandSize: u64, frameSize: u64)

  // ---------------------------------------------------------------------------
  // Gas
  // ---------------------------------------------------------------------------

  /** `consume_gas`: a guarded decrement of the gas register. Within budget the
      register drops by `amount` and the host hears nothing; over budget the
      register is left as it was and the host is told the exact shortfall. The
      stack register is never touched. */
  function ConsumeGas(r: Registers, amount: u64): (s: Step)
    ensures s.after.stack == r.stack
    ensures amount <= r.gas ==>
      s.after.gas as int == r.gas as int - amount as int && s.notes == []
    ensures amount > r.gas ==>
      s.after == r && |s.notes| == 1 && s.notes[0].GasExhausted? &&
      s.notes[0].overflow as int == amount as int - r.gas as int
  {
    var (res, overflowed) := OverflowingSub(r.gas, amount);
    if overflowed then Step(r, [GasExhausted(amount - r.gas)])
    else Step(r.(gas := res), [])
  }

  /** The first half of `linear_gas`: `constant + count * linear` in two checked
      steps. When the product overflows, the host hears the parameters as passed
      and the product becomes `u64::MAX`; when the sum then overflows, the host
      hears the parameters again, but with `linear` replaced by that product (the
      source shadows `linear`), and the amount becomes `u64::MAX`. */
  function LinearCharge(count: u32, linear: u64, constant: u64): (c: Charge)
    ensures var cost := constant as int + count as int * linear as int;
      (cost <= U64_MAX ==> c == Charge(cost as u64, [])) &&
      (cost > U64_MAX ==> c.amount == MAX && c.notes != [])
    ensures var product := count as int * linear as int;
      product > U64_MAX ==>
        c.notes == [ParamsOverflowed(count, linear, constant)] +
                   (if constant > 0 then [ParamsOverflowed(count, MAX, constant)] else [])
    ensures var product := count as int * linear as int;
      product <= U64_MAX < product + constant as int ==>
        c.notes == [ParamsOverflowed(count, product as u64, constant)]
  {
    var mul := CheckedMul(count as u64, linear);
    var product := if mul.Some? then mul.value else MAX;
    var first := if mul.Some? then [] else [ParamsOverflowed(count, linear, constant)];
    var add := CheckedAdd(constant, product);
    var second := if add.Some? then [] else [ParamsOverflowed(count, product, constant)];
    Charge(if add.Some? then add.value else MAX, first + second)
  }

  /** `linear_gas`: when the cost fits in 64 bits this is exactly `consume_gas`
      of the cost. Otherwise the parameter-overflow notifications come first and
      then `u64::MAX` is charged, which leaves the register unchanged and reports
      `u64::MAX - gas` unless the register itself held `u64::MAX`. */
  function LinearGas(r: Registers, count: u32, linear: u64, constant: u64): (s: Step)
    ensures s.after.stack == r.stack
    ensures var cost := constant as int + count as int * linear as int;
      cost <= U64_MAX ==> s == ConsumeGas(r, cost as u64)
    ensures var cost := constant as int + count as int * linear as int;
      cost > U64_MAX ==>
        s.after.gas == (if r.gas == MAX then 0 else r.gas) &&
        s.notes == LinearCharge(count, linear, constant).notes +
                   (if r.gas == MAX then [] else [GasExhausted(MAX - r.gas)])
  {
    var c := LinearCharge(count, linear, constant);
    var charged := ConsumeGas(r, c.amount);
    Step(charged.after, c.notes + charged.notes)
  }

  // ---------------------------------------------------------------------------
  // Stack
  // ---------------------------------------------------------------------------

  /** The number of 8-byte words a frame of `frame` bytes occupies, rounded up. */
  function FrameWords(frame: u64): (w: int)
    ensures w * 8 >= frame as int && (w - 1) * 8 < frame as int
  {
    (frame as int + 7) / 8
  }

  /** The gas surcharge of `finite_wasm_stack`: `((frame + 7) / 8) * REGULAR_OP_COST`
      with the unchecked `+ 7` of a release build. For every frame up to
      `u64::MAX - 7` that is one regular operation per 8-byte word; above it the
      sum wraps and nothing is charged. */
  function FrameSurcharge(frame: u64): (g: u64)
    ensures frame as int <= U64_MAX - 7 ==>
      g as int == FrameWords(frame) * REGULAR_OP_COST as int
    ensures frame as int > U64_MAX - 7 ==> g == 0
  {
    (WrappingAdd(frame, 7) / 8) * (REGULAR_OP_COST as u64)
  }

  /** `finite_wasm_stack`: reserve `operand + frame` (clamped to `u64::MAX`) of
      the stack budget, or leave the budget as it was and report the exact
      shortfall; then, whatever happened, charge the frame surcharge as gas. */
  function Stack(r: Registers, operand: u64, frame: u64): (s: Step)
    ensures var total := SaturatingAdd(operand, frame);
      var charge := ConsumeGas(r, FrameSurcharge(frame));
      s.after.gas == charge.after.gas &&
      (total <= r.stack ==>
        s.after.stack as int == r.stack as int - total as int && s.notes == charge.notes) &&
      (total > r.stack ==>
        s.after.stack == r.stack &&
        s.notes == [StackExhausted(total - r.stack)] + charge.notes)
  {
    var total := SaturatingAdd(operand, frame);
    var (res, overflowed) := OverflowingSub(r.stack, total);
    var reserved := if overflowed then Step(r, [StackExhausted(total - r.stack)])
                    else Step(r.(stack := res), []);
    var charged := ConsumeGas(reserved.after, FrameSurcharge(frame));
    Step(charged.after, reserved.notes + charged.notes)
  }

  /** `finite_wasm_unstack`: give back `operand + frame` (clamped to `u64::MAX`)
      to the stack budget, or, when the budget would pass `u64::MAX`, leave it as
      it was and report `before + total - 2^64`. The gas register is never
      touched. */
  function Unstack(r: Registers, operand: u64, frame: u64): (s: Step)
    ensures s.after.gas == r.gas
    ensures var total := SaturatingAdd(operand, frame) as int;
      r.stack as int + total <= U64_MAX ==>
        s.after.stack as int == r.stack as int + total && s.notes == []
    ensures var total := SaturatingAdd(operand, frame) as int;
      r.stack as int + total > U64_MAX ==>
        s.after == r && |s.notes| == 1 && s.notes[0].UnstackOverflowed? &&
        s.notes[0].overflow as int == r.stack as int + total - MODULUS
  {
    var total := SaturatingAdd(operand, frame);
    var (res, overflowed) := OverflowingAdd(r.stack, total);
    if overflowed then
      // The sum wrapped, so `r.stack >= 1` and the room left below 2^64 is in range.
      var room := MAX - r.stack + 1;
      Step(r, [UnstackOverflowed(total - room)])
    else
      Step(r.(stack := res), [])
  }

  // ---------------------------------------------------------------------------
  // The exported entry points and sequences of calls
  // ---------------------------------------------------------------------------

  /** A notification is well-formed when an exhaustion report names a positive
      shortfall: the host is never told that a budget was exceeded by nothing. */
  predicate ReportsShortfall(e: Event) {
    (e.GasExhausted? || e.StackExhausted?) ==> e.overflow >= 1
  }

  predicate AllReportShortfall(notes: seq<Event>) {
    forall i :: 0 <= i < |notes| ==> ReportsShortfall(notes[i])
  }

  /** One exported entry point. The six memory and table entry points all
      delegate to `linear_gas`. */
  function Entry(r: Registers, c: Call): (s: Step)
    ensures s.after.gas <= r.gas
    ensures c.WasmUnstack? ==> s.after.gas == r.gas
    ensures !c.WasmStack? && !c.WasmUnstack? ==> s.after.stack == r.stack
  {
    match c
    case WasmGas(amount) => ConsumeGas(r, amount)
    case MemoryCopy(count, linear, constant) => LinearGas(r, count, linear, constant)
    case MemoryFill(count, linear, constant) => LinearGas(r, count, linear, constant)
    case MemoryInit(count, linear, constant) => LinearGas(r, count, linear, constant)
    case TableCopy(count, linear, constant) => LinearGas(r, count, linear, constant)
    case TableFill(count, linear, constant) => LinearGas(r, count, linear, constant)
    case TableInit(count, linear, constant) => LinearGas(r, count, linear, constant)
    case WasmStack(operand, frame) => Stack(r, operand, frame)
    case WasmUnstack(operand, frame) => Unstack(r, operand, frame)
  }

  /** A specification device, not a routine of the shim: a guest's instrumented
      calls, one after another, each seeing the registers the previous one left
      behind, as the process-wide `NEARCORE_GAS` and `REMAINING_STACK` persist
      between calls. */
  function Run(r: Registers, calls: seq<Call>): (s: Step)
    decreases |calls|
  {
    if calls == [] then Step(r, [])
    else
      var first := Entry(r, calls[0]);
      var rest := Run(first.after, calls[1..]);
      Step(rest.after, first.notes + rest.notes)
  }

  /** Gas is only ever consumed: no sequence of calls raises the gas register. */
  lemma {:induction false} RunNeverRaisesGas(r: Registers, calls: seq<Call>)
    ensures Run(r, calls).after.gas <= r.gas
    decreases |calls|
  {
    if calls != [] {
      RunNeverRaisesGas(Entry(r, calls[0]).after, calls[1..]);
    }
  }

  /** Only the stack entry points move the stack register. */
  lemma {:induction false} RunWithoutFramesKeepsStack(r: Registers, calls: seq<Call>)
    requires forall i :: 0 <= i < |calls| ==> !calls[i].WasmStack? && !calls[i].WasmUnstack?
    ensures Run(r, calls).after.stack == r.stack
    decreases |calls|
  {
    if calls != [] {
      RunWithoutFramesKeepsStack(Entry(r, calls[0]).after, calls[1..]);
    }
  }

  /** Of the notifications `linear_gas` issues, only the last can be an
      exhaustion, and it names a positive shortfall. */
  lemma LinearGasReportsShortfalls(r: Registers, count: u32, linear: u64, constant: u64)
    ensures AllReportShortfall(LinearGas(r, count, linear, constant).notes)
  {
    var c := LinearCharge(count, linear, constant);
    var charged := ConsumeGas(r, c.amount);
    assert forall i :: 0 <= i < |c.notes| ==> c.notes[i].ParamsOverflowed?;
    assert AllReportShortfall(charged.notes);
  }

  /** Every exhaustion one entry point reports names a positive shortfall. */
  lemma EntryReportsShortfalls(r: Registers, c: Call)
    ensures AllReportShortfall(Entry(r, c).notes)
  {
    if c.WasmGas? || c.WasmStack? || c.WasmUnstack? {
    } else {
      LinearGasReportsShortfalls(r, c.count, c.linear, c.constant);
    }
  }

  /** Every exhaustion the host hears of over a whole run names a positive shortfall. */
  lemma {:induction false} RunReportsShortfalls(r: Registers, calls: seq<Call>)
    ensures AllReportShortfall(Run(r, calls).notes)
    decreases |calls|
  {
    if calls != [] {
      var first := Entry(r, calls[0]);
      EntryReportsShortfalls(r, calls[0]);
      RunReportsShortfalls(first.after, calls[1..]);
    }
  }

  // ---------------------------------------------------------------------------
  // Relations between entry points
  // ---------------------------------------------------------------------------

  /** Leaving a frame right after entering it without exhausting the stack gives
      back exactly what was reserved, without any notification, and does not
      touch the gas the entry charged. */
  lemma StackUnstackRoundTrip(r: Registers, operand: u64, frame: u64)
    requires SaturatingAdd(operand, frame) <= r.stack
    ensures var entered := Stack(r, operand, frame);
      var left := Unstack(entered.after, operand, frame);
      left.after == entered.after.(stack := r.stack) && left.notes == []
  {
  }

  /** The unstack overflow magnitude is the wrapped sum that `overflowing_add`
      computed and the source discards; it is zero when the sum is exactly 2^64. */
  lemma UnstackOverflowIsWrappedSum(r: Registers, operand: u64, frame: u64)
    requires OverflowingAdd(r.stack, SaturatingAdd(operand, frame)).1
    ensures Unstack(r, operand, frame).notes ==
      [UnstackOverflowed(OverflowingAdd(r.stack, SaturatingAdd(operand, frame)).0)]
  {
  }

  /** Returning `u64::MAX` to a budget holding 1 overflows by a reported amount of 0. */
  lemma UnstackOverflowCanReportZero(gas: u64)
    ensures Unstack(Registers(gas, 1), MAX, 0) == Step(Registers(gas, 1), [UnstackOverflowed(0)])
  {
  }

  /** The surcharge at the boundary frame sizes: one regular operation per
      started 8-byte word. */
  lemma FrameSurchargeBoundaries()
    ensures FrameSurcharge(0) == 0
    ensures FrameSurcharge(1) == 1 && FrameSurcharge(7) == 1 && FrameSurcharge(8) == 1
    ensures FrameSurcharge(9) == 2
    ensures FrameSurcharge(MAX) == 0
  {
  }

  /** When only the addition overflows, the second notification carries the
      product, not the `linear` the caller passed. */
  lemma ParamsNotificationCarriesProduct(r: Registers)
    ensures LinearGas(r, 2, 1, MAX).notes[0] == ParamsOverflowed(2, 2, MAX)
  {
  }

  /** When the product overflows and the constant is positive, the host hears of
      the parameters twice, the second time with the product clamped to
      `u64::MAX`, and then of the exhausted gas. */
  lemma ParamsNotifiedTwice(r: Registers)
    requires r.gas < MAX
    ensures LinearGas(r, 2, 0x8000_0000_0000_0000, 1).notes ==
      [ParamsOverflowed(2, 0x8000_0000_0000_0000, 1), ParamsOverflowed(2, MAX, 1),
       GasExhausted(MAX - r.gas)]
  {
  }

  /** The fixtures of the `gas_all` test. */
  lemma GasAllFixtures(stack: u64)
    ensures ConsumeGas(Registers(0, stack), 0) == Step(Registers(0, stack), [])
    ensures ConsumeGas(Registers(1, stack), 1) == Step(Registers(0, stack), [])
    ensures ConsumeGas(Registers(1, stack), 2) == Step(Registers(1, stack), [GasExhausted(1)])
    ensures ConsumeGas(Registers(1, stack), 20) == Step(Registers(1, stack), [GasExhausted(19)])
    ensures LinearGas(Registers(0, stack), 0, 0, 0) == Step(Registers(0, stack), [])
    ensures LinearGas(Registers(1, stack), 0, 0, 1) == Step(Registers(0, stack), [])
    ensures LinearGas(Registers(2, stack), 2, 1, 0) == Step(Registers(0, stack), [])
    ensures LinearGas(Registers(3, stack), 2, 1, 1) == Step(Registers(0, stack), [])
    ensures LinearGas(Registers(10, stack), 2, 1, 1) == Step(Registers(7, stack), [])
    ensures LinearGas(Registers(MAX, stack), 0, 0, MAX) == Step(Registers(0, stack), [])
    ensures LinearGas(Registers(2, stack), 2, 1, 1) == Step(Registers(2, stack), [GasExhausted(1)])
    ensures LinearGas(Registers(1, stack), 0, 0, MAX) ==
      Step(Registers(1, stack), [GasExhausted(MAX - 1)])
    ensures LinearGas(Registers(2, stack), 1, 1, MAX) ==
      Step(Registers(2, stack), [ParamsOverflowed(1, 1, MAX), GasExhausted(MAX - 2)])
  {
  }
}
