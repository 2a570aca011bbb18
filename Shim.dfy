/** The guest-side shim itself: the two registers the host reads and writes,
    and the exported entry points that update them in place. The host's
    `nearcore` imports are modelled by appending to a ghost log of
    notifications; they leave both registers as they were.

    Every method is specified by the corresponding function of `Metering`: the
    registers afterwards are that function's, and the log grows by exactly the
    notifications it lists. */
module Shim {
  import opened Word
  import Metering

  class Meter {
    /** `NEARCORE_GAS`: the gas remaining. */
    var gas: u64
    /** `REMAINING_STACK`: the stack budget remaining. */
    var stack: u64
    /** The notifications the host has received, oldest first. */
    ghost var events: seq<Metering.Event>

    function Regs(): Metering.Registers
      reads this
    {
      Metering.Registers(gas, stack)
    }

    /** Both registers start at zero until the host sets them. */
    constructor ()
      ensures gas == 0 && stack == 0 && events == []
    {
      gas, stack := 0, 0;
      events := [];
    }

    // The host imports.

    method NotifyGasExhausted(overflow: u64)
      modifies this`events
      ensures events == old(events) + [Metering.GasExhausted(overflow)]
    {
      events := events + [Metering.GasExhausted(overflow)];
    }

    method NotifyParamsOverflowed(count: u32, linear: u64, constant: u64)
      modifies this`events
      ensures events == old(events) + [Metering.ParamsOverflowed(count, linear, constant)]
    {
      events := events + [Metering.ParamsOverflowed(count, linear, constant)];
    }

    method NotifyStackExhausted(overflow: u64)
      modifies this`events
      ensures events == old(events) + [Metering.StackExhausted(overflow)]
    {
      events := events + [Metering.StackExhausted(overflow)];
    }

    method NotifyUnstackOverflowed(overflow: u64)
      modifies this`events
      ensures events == old(events) + [Metering.UnstackOverflowed(overflow)]
    {
      events := events + [Metering.UnstackOverflowed(overflow)];
    }

    // The metering routines.

    method ConsumeGas(amount: u64)
      modifies this`gas, this`events
      ensures Regs() == Metering.ConsumeGas(old(Regs()), amount).after
      ensures events == old(events) + Metering.ConsumeGas(old(Regs()), amount).notes
    {
      var (res, overflowed) := OverflowingSub(gas, amount);
      if overflowed {
        NotifyGasExhausted(amount - gas);
      } else {
        gas := res;
      }
    }

    method FiniteWasmGas(amount: u64)
      modifies this`gas, this`events
      ensures Regs() == Metering.ConsumeGas(old(Regs()), amount).after
      ensures events == old(events) + Metering.ConsumeGas(old(Regs()), amount).notes
    {
      ConsumeGas(amount);
    }

    method LinearGas(count: u32, linear: u64, constant: u64)
      modifies this`gas, this`events
      ensures Regs() == Metering.LinearGas(old(Regs()), count, linear, constant).after
      ensures events == old(events) + Metering.LinearGas(old(Regs()), count, linear, constant).notes
    {
      ghost var before := Regs();
      var product: u64;
      var mul := CheckedMul(count as u64, linear);
      if mul.Some? {
        product := mul.value;
      } else {
        NotifyParamsOverflowed(count, linear, constant);
        product := MAX;
      }
      var amount: u64;
      var add := CheckedAdd(constant, product);
      if add.Some? {
        amount := add.value;
      } else {
        // `linear` is shadowed by the product at this point in the source.
        NotifyParamsOverflowed(count, product, constant);
        amount := MAX;
      }
      assert amount == Metering.LinearCharge(count, linear, constant).amount;
      assert events == old(events) + Metering.LinearCharge(count, linear, constant).notes;
      assert Regs() == before;
      ConsumeGas(amount);
    }

    method FiniteWasmMemoryCopy(count: u32, linear: u64, constant: u64)
      modifies this`gas, this`events
      ensures Regs() == Metering.LinearGas(old(Regs()), count, linear, constant).after
      ensures events == old(events) + Metering.LinearGas(old(Regs()), count, linear, constant).notes
    {
      LinearGas(count, linear, constant);
    }

    method FiniteWasmMemoryFill(count: u32, linear: u64, constant: u64)
      modifies this`gas, this`events
      ensures Regs() == Metering.LinearGas(old(Regs()), count, linear, constant).after
      ensures events == old(events) + Metering.LinearGas(old(Regs()), count, linear, constant).notes
    {
      LinearGas(count, linear, constant);
    }

    method FiniteWasmMemoryInit(count: u32, linear: u64, constant: u64)
      modifies this`gas, this`events
      ensures Regs() == Metering.LinearGas(old(Regs()), count, linear, constant).after
      ensures events == old(events) + Metering.LinearGas(old(Regs()), count, linear, constant).notes
    {
      LinearGas(count, linear, constant);
    }

    method FiniteWasmTableCopy(count: u32, linear: u64, constant: u64)
      modifies this`gas, this`events
      ensures Regs() == Metering.LinearGas(old(Regs()), count, linear, constant).after
      ensures events == old(events) + Metering.LinearGas(old(Regs()), count, linear, constant).notes
    {
      LinearGas(count, linear, constant);
    }

    method FiniteWasmTableFill(count: u32, linear: u64, constant: u64)
      modifies this`gas, this`events
      ensures Regs() == Metering.LinearGas(old(Regs()), count, linear, constant).after
      ensures events == old(events) + Metering.LinearGas(old(Regs()), count, linear, constant).notes
    {
      LinearGas(count, linear, constant);
    }

    method FiniteWasmTableInit(count: u32, linear: u64, constant: u64)
      modifies this`gas, this`events
      ensures Regs() == Metering.LinearGas(old(Regs()), count, linear, constant).after
      ensures events == old(events) + Metering.LinearGas(old(Regs()), count, linear, constant).notes
    {
      LinearGas(count, linear, constant);
    }

    method FiniteWasmStack(operandSize: u64, frameSize: u64)
      modifies this`gas, this`stack, this`events
      ensures Regs() == Metering.Stack(old(Regs()), operandSize, frameSize).after
      ensures events == old(events) + Metering.Stack(old(Regs()), operandSize, frameSize).notes
    {
      var totalUsed := SaturatingAdd(operandSize, frameSize);
      var (res, overflowed) := OverflowingSub(stack, totalUsed);
      if overflowed {
        NotifyStackExhausted(totalUsed - stack);
      } else {
        stack := res;
      }
      var cost := (WrappingAdd(frameSize, 7) / 8) * (Metering.REGULAR_OP_COST as u64);
      assert cost == Metering.FrameSurcharge(frameSize);
      ConsumeGas(cost);
    }

    method FiniteWasmUnstack(operandSize: u64, frameSize: u64)
      modifies this`stack, this`events
      ensures Regs() == Metering.Unstack(old(Regs()), operandSize, frameSize).after
      ensures events == old(events) + Metering.Unstack(old(Regs()), operandSize, frameSize).notes
    {
      var totalReplaced := SaturatingAdd(operandSize, frameSize);
      var (res, overflowed) := OverflowingAdd(stack, totalReplaced);
      if overflowed {
        // The sum wrapped, so the amount is totalReplaced - (MAX - stack + 1).
        var overflow := totalReplaced - (MAX - stack + 1);
        NotifyUnstackOverflowed(overflow);
      } else {
        stack := res;
      }
    }
  }

  /** The stack entry points as a caller sees them: entering a frame within the
      budget and leaving it again restores the budget without a notification. */
  method EnterThenLeave(m: Meter, operandSize: u64, frameSize: u64)
    requires SaturatingAdd(operandSize, frameSize) <= m.stack
    modifies m
    ensures m.stack == old(m.stack)
    ensures m.gas == Metering.ConsumeGas(old(m.Regs()), Metering.FrameSurcharge(frameSize)).after.gas
    ensures m.events == old(m.events) + Metering.ConsumeGas(old(m.Regs()), Metering.FrameSurcharge(frameSize)).notes
  {
    m.FiniteWasmStack(operandSize, frameSize);
    m.FiniteWasmUnstack(operandSize, frameSize);
  }
}
