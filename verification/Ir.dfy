/** The subset of LLVM IR the emitters produce, with a step semantics. */

module Ir {
  import opened Int64
  import opened Options
  import opened Syntax
  import opened Values

  /** A constant (a global's address included) or the result of an instruction. */
  datatype Operand = Const(v: Val) | Reg(r: nat)

  datatype Pred = SLT | SGT | SLE | SGE | EQ | NE

  datatype Op = OAdd | OSub | OMul | OSDiv | OSRem | OICmp(pred: Pred)

  datatype Instr =
    | Alloca(dst: nat, ty: Ty)
    | Load(dst: nat, ty: Ty, ptr: Operand)
    | Store(val: Operand, ptr: Operand)
    | Bin(dst: nat, op: Op, a: Operand, b: Operand)
    | XorOnes(dst: nat, a: Operand)
    | AndI1(dst: nat, a: Operand, b: Operand)
    | Trunc(dst: nat, a: Operand)
    | SExt(dst: nat, a: Operand)
    | Phi(dst: nat, v0: Operand, from0: nat, v1: Operand, from1: nat)
    | Br(target: nat)
    | CondBr(c: Operand, thn: nat, els: nat)
    | Switch(v: Operand, default: nat, table: seq<(i64, nat)>)
    | Ret(v: Operand)
    | RetVoid

  type Block = seq<Instr>
  type Cfg = seq<Block>
  type Regs = map<nat, Val>

  predicate IsTerminator(i: Instr) {
    i.Br? || i.CondBr? || i.Switch? || i.Ret? || i.RetVoid?
  }

  function Targets(i: Instr): set<nat> {
    match i
    case Br(t) => {t}
    case CondBr(_, t, f) => {t, f}
    case Switch(_, d, table) => {d} + set k | 0 <= k < |table| :: table[k].1
    case _ => {}
  }

  function Compare(pred: Pred, a: int, b: int): bool {
    match pred
    case SLT => a < b
    case SGT => a > b
    case SLE => a <= b
    case SGE => a >= b
    case EQ => a == b
    case NE => a != b
  }

  /** Operands are 64-bit; `icmp eq` and `icmp ne` also take two i1.  Undefined behaviour and
      operands of other types have no result. */
  function OpVal(op: Op, v: Val, w: Val): Option<Val> {
    match (v, w)
    case (IntV(a), IntV(b)) =>
      (match op
       case OAdd => Some(IntV(Wrap(a + b)))
       case OSub => Some(IntV(Wrap(a - b)))
       case OMul => Some(IntV(Wrap(a * b)))
       case OSDiv =>
         if b == 0 || (a == -TWO_63 && b == -1) then None else Some(IntV(Wrap(Quot(a, b))))
       case OSRem =>
         if b == 0 || (a == -TWO_63 && b == -1) then None else Some(IntV(Wrap(Rem(a, b))))
       case OICmp(pred) => Some(BoolV(Compare(pred, a, b))))
    case (BoolV(a), BoolV(b)) =>
      if op == OICmp(EQ) then Some(BoolV(a == b))
      else if op == OICmp(NE) then Some(BoolV(a != b))
      else None
    case _ => None
  }

  function OperandVal(o: Operand, regs: Regs): Option<Val> {
    match o
    case Const(v) => Some(v)
    case Reg(r) => if r in regs then Some(regs[r]) else None
  }

  /** `prev` is the block control came from.  `Done` and `Trap` are final; `Trap` stands for
      undefined behaviour and for anything the IR's typing rules exclude. */
  datatype Conf =
    | Run(blk: nat, idx: nat, prev: nat, regs: Regs, mem: Mem)
    | Done(ret: Option<Val>, mem: Mem)
    | Trap

  function Jump(c: Conf, target: nat): Conf
    requires c.Run?
  {
    c.(blk := target, idx := 0, prev := c.blk)
  }

  function SetReg(c: Conf, dst: nat, v: Val): Conf
    requires c.Run?
  {
    c.(idx := c.idx + 1, regs := c.regs[dst := v])
  }

  function SwitchTo(table: seq<(i64, nat)>, n: i64, default: nat): nat {
    if table == [] then default
    else if table[0].0 == n then table[0].1
    else SwitchTo(table[1..], n, default)
  }

  function Exec(i: Instr, c: Conf): Conf
    requires c.Run?
  {
    match i
    case Alloca(dst, ty) =>
      Run(c.blk, c.idx + 1, c.prev, c.regs[dst := PtrV(|c.mem|)], c.mem + [Cell(ty, None)])
    case Load(dst, ty, ptr) =>
      (match OperandVal(ptr, c.regs)
       case Some(PtrV(a)) =>
         if a < |c.mem| && c.mem[a].ty == ty && c.mem[a].val.Some? then SetReg(c, dst, c.mem[a].val.value) else Trap
       case _ => Trap)
    case Store(val, ptr) =>
      (match (OperandVal(val, c.regs), OperandVal(ptr, c.regs))
       case (Some(v), Some(PtrV(a))) =>
         if a < |c.mem| && HasType(v, c.mem[a].ty)
         then c.(idx := c.idx + 1, mem := Write(c.mem, a, v)) else Trap
       case _ => Trap)
    case Bin(dst, op, a, b) =>
      (match (OperandVal(a, c.regs), OperandVal(b, c.regs))
       case (Some(v), Some(w)) =>
         (match OpVal(op, v, w)
          case Some(u) => SetReg(c, dst, u)
          case None => Trap)
       case _ => Trap)
    case XorOnes(dst, a) =>
      (match OperandVal(a, c.regs)
       case Some(IntV(n)) => SetReg(c, dst, IntV(-1 - n))
       case _ => Trap)
    case AndI1(dst, a, b) =>
      (match (OperandVal(a, c.regs), OperandVal(b, c.regs))
       case (Some(BoolV(v)), Some(BoolV(w))) => SetReg(c, dst, BoolV(v && w))
       case _ => Trap)
    case Trunc(dst, a) =>
      (match OperandVal(a, c.regs)
       case Some(IntV(n)) => SetReg(c, dst, BoolV(n % 2 == 1))
       case _ => Trap)
    case SExt(dst, a) =>
      (match OperandVal(a, c.regs)
       case Some(BoolV(b)) => SetReg(c, dst, IntV(if b then -1 else 0))
       case _ => Trap)
    case Phi(dst, v0, from0, v1, from1) =>
      (match OperandVal(if c.prev == from0 then v0 else v1, c.regs)
       case Some(v) => if c.prev == from0 || c.prev == from1 then SetReg(c, dst, v) else Trap
       case None => Trap)
    case Br(t) => Jump(c, t)
    case CondBr(o, t, f) =>
      (match OperandVal(o, c.regs)
       case Some(BoolV(b)) => Jump(c, if b then t else f)
       case _ => Trap)
    case Switch(o, d, table) =>
      (match OperandVal(o, c.regs)
       case Some(IntV(n)) => Jump(c, SwitchTo(table, n, d))
       case _ => Trap)
    case Ret(o) =>
      (match OperandVal(o, c.regs)
       case Some(v) => Done(Some(v), c.mem)
       case None => Trap)
    case RetVoid => Done(None, c.mem)
  }

  function Step(g: Cfg, c: Conf): Conf {
    if !c.Run? then c
    else if c.blk < |g| && c.idx < |g[c.blk]| then Exec(g[c.blk][c.idx], c)
    else Trap
  }

  function StepN(g: Cfg, c: Conf, n: nat): Conf
    decreases n
  {
    if n == 0 then c else StepN(g, Step(g, c), n - 1)
  }

  /** Runs compose. */
  lemma {:induction false} StepsAdd(g: Cfg, c: Conf, n: nat, m: nat)
    ensures StepN(g, c, n + m) == StepN(g, StepN(g, c, n), m)
    decreases n
  {
    if n > 0 {
      StepsAdd(g, Step(g, c), n - 1, m);
    }
  }

  /** A run that has stopped stays where it is. */
  lemma {:induction false} StepsFinal(g: Cfg, c: Conf, n: nat)
    requires !c.Run?
    ensures StepN(g, c, n) == c
    decreases n
  {
    if n > 0 {
      StepsFinal(g, c, n - 1);
    }
  }
}
