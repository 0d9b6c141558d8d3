/**
 * The core as registers and a RAM array that change on the clock: the object whose every edge is
 * `RegisterCache.Clock`.
 */
module RegisterCore {
  import opened Isa
  import opened StackMachine
  import opened RegisterCache
  import Proofs = RegisterCacheProofs

  /** A synchronous RAM of 256 words. */
  class IceRam {
    const ram: array<Word>
    var dataOut: Word

    ghost predicate Valid()
      reads this
    {
      ram.Length == 256
    }

    constructor ()
      ensures Valid() && fresh(ram) && dataOut == 0 && forall a | 0 <= a < 256 :: ram[a] == 0
    {
      ram := new Word[256](_ => 0);
      dataOut := 0;
    }

    /** The output register takes the old contents even when the same edge writes. */
    method Edge(address: Address, write: bool, dataIn: Word)
      requires Valid()
      modifies this`dataOut, ram
      ensures dataOut == old(ram[address])
      ensures ram[..] == if write then old(ram[..])[address := dataIn] else old(ram[..])
    {
      var stored := ram[address];
      if write {
        ram[address] := dataIn;
      }
      dataOut := stored;
    }
  }

  /** Every register of the core but the RAM's own; an edge assigns them all at once. */
  datatype Registers = Registers(
    phase: Phase, cycle: bool, pc: Counter, sp: Address, csp: Address, t1: Word, t2: Word, t3: Word,
    ioAddr: Address, ioTo: Register, pushed: bool,
    fetchState: nat, memoryCycle: bool, top1: Word, top2: Word, top3: Word)

  function Assemble(ram: seq<Word>, ramOut: Word, r: Registers): Cpu {
    Cpu(ram, ramOut, r.phase, r.cycle, r.pc, r.sp, r.csp, r.t1, r.t2, r.t3, r.ioAddr, r.ioTo, r.pushed,
        r.fetchState, r.memoryCycle, r.top1, r.top2, r.top3)
  }

  class Core {
    const memory: IceRam
    var r: Registers

    ghost predicate Valid()
      reads this, memory
    {
      memory.Valid() && r.fetchState < 4
    }

    ghost function View(): (c: Cpu)
      reads this, memory, memory.ram
      requires Valid()
      ensures Sane(c)
    {
      Assemble(memory.ram[..], memory.dataOut, r)
    }

    /** After reset and resume: about to fill the stack registers from an empty stack. */
    constructor ()
      ensures Valid() && fresh(memory) && fresh(memory.ram)
      ensures Proofs.Filling(View(), 0) && !r.cycle && Proofs.Saved(View().ram, r.sp, r.csp, [], [])
    {
      memory := new IceRam();
      r := Registers(FetchStack, false, 0, 0, 2, 0, 0, 0, 0, PC, false, 0, false, 0, 0, 0);
    }

    method LatchExecute(o: Outputs, e: Edge, ramOut: Word)
      requires Valid()
      modifies this
      ensures Valid() && View() == Latch(old(View()), o, ramOut).(phase := AfterExecute(o, e), cycle := false)
    {
      r := r.(pc := o.pc, sp := o.sp, csp := o.csp, t1 := o.t1, t2 := o.t2, t3 := o.t3,
              ioAddr := o.ioAddr, ioTo := o.ioTo, phase := AfterExecute(o, e), cycle := false);
      if o.useRam {
        match o.ramTo {
          case PC => r := r.(pc := ramOut % 512);
          case SP => r := r.(sp := ramOut % 256);
          case CSP => r := r.(csp := ramOut % 256);
          case S1 => r := r.(t1 := ramOut);
          case S2 => r := r.(t2 := ramOut);
          case S3 => r := r.(t3 := ramOut);
        }
      }
    }

    method LatchIo(ramOut: Word)
      requires Valid()
      modifies this
      ensures Valid() && View() == IoLatch(old(View()), ramOut).(phase := FetchInstruction, cycle := false)
    {
      match r.ioTo {
        case PC => r := r.(pc := ramOut % 512);
        case SP => r := r.(sp := ramOut % 256);
        case CSP => r := r.(csp := ramOut % 256);
        case S1 => r := r.(t1 := ramOut);
        case S2 => r := r.(t2 := ramOut);
        case S3 => r := r.(t3 := ramOut);
      }
      r := r.(phase := FetchInstruction, cycle := false);
    }

    method LatchFetch(ramOut: Word)
      requires Valid() && r.phase == FetchStack && r.fetchState < 3
      modifies this
      ensures Valid() && View() == FetchEdge(old(View()).(ramOut := ramOut)).(ramOut := old(View()).ramOut)
    {
      if r.memoryCycle {
        if r.fetchState == 0 {
          r := r.(top1 := ramOut);
        } else if r.fetchState == 1 {
          r := r.(top2 := ramOut);
        } else {
          r := r.(top3 := ramOut);
        }
        r := r.(fetchState := r.fetchState + 1);
      }
      r := r.(memoryCycle := !r.memoryCycle);
    }

    /** One edge: registers take what the RAM put out before the edge. */
    method Tick(e: Edge)
      requires Valid()
      modifies this, memory`dataOut, memory.ram
      ensures Valid() && View() == RegisterCache.Clock(old(View()), e)
    {
      var ramOut := memory.dataOut;
      match r.phase {
        case FetchStack =>
          memory.Edge(Plus(r.sp, if r.fetchState == 3 then 0 else r.fetchState), false, 0);
          if r.fetchState == 3 {
            r := r.(t1 := r.top1, t2 := r.top2, t3 := r.top3, phase := FetchInstruction,
                    fetchState := 0, memoryCycle := false);
          } else {
            LatchFetch(ramOut);
          }
          r := r.(pushed := false);
        case FetchInstruction =>
          memory.Edge(r.sp, false, 0);
          r := r.(phase := if e.fetched then Executing else FetchInstruction, pushed := false);
        case Executing =>
          var o := ExecuteBlock(Inputs(e.instruction, e.expectedPc, r.sp, r.csp, r.t1, r.t2, r.t3, e.holds), e.x);
          memory.Edge(o.addr, o.write, o.dataIn);
          r := r.(pushed := false);
          if r.cycle {
            LatchExecute(o, e, ramOut);
          } else {
            r := r.(cycle := true);
          }
        case Io =>
          memory.Edge(r.ioAddr, false, 0);
          r := r.(pushed := false);
          if r.cycle {
            LatchIo(ramOut);
          } else {
            r := r.(cycle := true);
          }
        case PushLower =>
          memory.Edge(e.x.addr, false, 0);
          r := r.(t1 := r.t1 / 256 * 256 + e.instruction,
                  phase := if r.pushed then Executing else PushLower, pushed := true);
        case PushUpper =>
          memory.Edge(e.x.addr, false, 0);
          r := r.(t1 := r.t1 / 0x1000 * 0x1000 + 16 * e.instruction,
                  phase := if r.pushed then Executing else PushUpper, pushed := true);
        case Saving =>
      }
    }
  }
}
