/** Strings in the compiled program: the source fragment, the instrumented code the emitters
    make of it, and what both do. */

module ArcCode {
  import opened Options
  import opened Int64
  import opened Arc

  datatype Var = Local(i: nat) | Param(i: nat) | Global(i: nat)

  datatype Atom = Text(s: string) | Read(v: Var)

  /** The value of an integer or Boolean part is whatever the run supplies. */
  datatype Part = PText(s: string) | PVar(v: Var) | PInt | PBool

  datatype Arg = ALiteral(s: string) | AVar(v: Var) | AFString(parts: seq<Part>)

  /** Values that are declared, assigned or returned.  A literal becomes an object by wrapping;
      a variable's value is not counted again when it is copied. */
  datatype Rhs =
    | Literal(s: string)
    | Copy(v: Var)
    | Join(a: Atom, b: Atom)
    | FString(parts: seq<Part>)
    | CallString(f: nat, args: seq<Arg>)

  /** `RVar` returns a variable by its name; `RBare` is `return;`, which releases nothing
      (src/codegen/stmt.c:9-29). */
  datatype Ret = RInt | RBare | ROwned(rhs: Rhs) | RVar(v: Var)

  datatype Stmt =
    | Declare(rhs: Rhs)
    | Assign(v: Var, rhs: Rhs)
    | Do(f: nat, args: seq<Arg>)
    | If(thn: seq<Stmt>, els: seq<Stmt>)
    | Loop(body: seq<Stmt>)
    | Break
    | Continue
    | Return(r: Ret)

  /** What a caller may rely on: the globals that may be assigned during a call, and the parameters
      that may be given a literal.  The compiler has no such summary; ArcExact says when one fits. */
  datatype Bound = Bound(writes: set<nat>, plain: set<nat>)

  /** `owning`: the function returns a string. */
  datatype Fun = Fun(params: nat, owning: bool, body: seq<Stmt>, bound: Bound)

  /** Every run is a run for some tape: it holds the conditions and numbers met on the way. */
  type Tape = nat -> i64

  // ---- What the fragment means: strings are values.

  datatype Src = Src(locals: seq<string>, globals: seq<Option<string>>, pos: nat)

  function ValueOf(v: Var, params: seq<string>, s: Src): Option<string> {
    match v
    case Local(i) => if i < |s.locals| then Some(s.locals[i]) else None
    case Param(i) => if i < |params| then Some(params[i]) else None
    case Global(i) => if i < |s.globals| then s.globals[i] else None
  }

  function AtomValue(a: Atom, params: seq<string>, s: Src): Option<string> {
    match a
    case Text(t) => Some(t)
    case Read(v) => ValueOf(v, params, s)
  }

  /** The text of a part, and where the tape is after it. */
  function PartValue(p: Part, params: seq<string>, s: Src, tape: Tape): Option<(string, nat)> {
    match p
    case PText(t) => Some((t, s.pos))
    case PVar(v) => (match ValueOf(v, params, s) case None => None case Some(t) => Some((t, s.pos)))
    case PInt => Some((IntText(tape(s.pos)), s.pos + 1))
    case PBool => Some((BoolText(tape(s.pos)), s.pos + 1))
  }

  function FStringValue(parts: seq<Part>, params: seq<string>, s: Src, tape: Tape): Option<(string, nat)> {
    if parts == [] then Some(("", s.pos))
    else
      match PartValue(parts[0], params, s, tape)
      case None => None
      case Some((t, pos)) =>
        match FStringValue(parts[1..], params, s.(pos := pos), tape)
        case None => None
        case Some((u, pos1)) => Some((t + u, pos1))
  }

  datatype Result<T> = Wrong | Timeout | Ok(value: T)

  datatype Outcome = Normal | Broke | Continued | Returned(v: Option<string>)

  function ArgValue(a: Arg, params: seq<string>, s: Src, tape: Tape): Option<(string, nat)> {
    match a
    case ALiteral(t) => Some((t, s.pos))
    case AVar(v) => (match ValueOf(v, params, s) case None => None case Some(t) => Some((t, s.pos)))
    case AFString(parts) => FStringValue(parts, params, s, tape)
  }

  function ArgValues(args: seq<Arg>, params: seq<string>, s: Src, tape: Tape): Option<(seq<string>, nat)> {
    if args == [] then Some(([], s.pos))
    else
      match ArgValue(args[0], params, s, tape)
      case None => None
      case Some((t, pos)) =>
        match ArgValues(args[1..], params, s.(pos := pos), tape)
        case None => None
        case Some((ts, pos1)) => Some(([t] + ts, pos1))
  }

  /** The value of a right-hand side and the state it leaves. */
  function RhsValue(rhs: Rhs, params: seq<string>, s: Src, tape: Tape, prog: seq<Fun>, fuel: nat): Result<(string, Src)>
    decreases fuel, 1
  {
    match rhs
    case Literal(t) => Ok((t, s))
    case Copy(v) => (match ValueOf(v, params, s) case None => Wrong case Some(t) => Ok((t, s)))
    case Join(a, b) =>
      (match (AtomValue(a, params, s), AtomValue(b, params, s))
       case (Some(t), Some(u)) => Ok((t + u, s))
       case _ => Wrong)
    case FString(parts) =>
      (match FStringValue(parts, params, s, tape)
       case None => Wrong
       case Some((t, pos)) => Ok((t, s.(pos := pos))))
    case CallString(f, args) =>
      match CallValue(f, args, params, s, tape, prog, fuel)
      case Wrong => Wrong
      case Timeout => Timeout
      case Ok((v, s1)) => if v.None? then Wrong else Ok((v.value, s1))
  }

  function CallValue(f: nat, args: seq<Arg>, params: seq<string>, s: Src, tape: Tape, prog: seq<Fun>, fuel: nat): Result<(Option<string>, Src)>
    decreases fuel, 0
  {
    match ArgValues(args, params, s, tape)
    case None => Wrong
    case Some((values, pos)) =>
      if f >= |prog| || |values| != prog[f].params then Wrong
      else if fuel == 0 then Timeout
      else
        match Invoke(prog[f], values, Src([], s.globals, pos), tape, prog, fuel - 1)
        case Wrong => Wrong
        case Timeout => Timeout
        case Ok((v, s1)) => Ok((v, Src(s.locals, s1.globals, s1.pos)))
  }

  function Invoke(f: Fun, values: seq<string>, s: Src, tape: Tape, prog: seq<Fun>, fuel: nat): Result<(Option<string>, Src)>
    decreases fuel, 3
  {
    match RunSeq(f.body, values, s, tape, prog, fuel)
    case Wrong => Wrong
    case Timeout => Timeout
    case Ok((Returned(v), s1)) => if v.Some? == f.owning then Ok((v, s1)) else Wrong
    case Ok((Normal, s1)) => if f.owning then Wrong else Ok((None, s1))
    case _ => Wrong
  }

  function RunSeq(ss: seq<Stmt>, params: seq<string>, s: Src, tape: Tape, prog: seq<Fun>, fuel: nat): Result<(Outcome, Src)>
    decreases fuel, 2, ss, 0
  {
    if ss == [] then Ok((Normal, s))
    else
      match RunStmt(ss[0], params, s, tape, prog, fuel)
      case Ok((Normal, s1)) => RunSeq(ss[1..], params, s1, tape, prog, fuel)
      case r => r
  }

  function SetVar(v: Var, t: string, s: Src): Option<Src> {
    match v
    case Local(i) => if i < |s.locals| then Some(s.(locals := s.locals[i := t])) else None
    case Param(_) => None
    case Global(i) => if i < |s.globals| then Some(s.(globals := s.globals[i := Some(t)])) else None
  }

  function RunStmt(st: Stmt, params: seq<string>, s: Src, tape: Tape, prog: seq<Fun>, fuel: nat): Result<(Outcome, Src)>
    decreases fuel, 2, st, 1
  {
    match st
    case Declare(rhs) =>
      (match RhsValue(rhs, params, s, tape, prog, fuel)
       case Wrong => Wrong
       case Timeout => Timeout
       case Ok((t, s1)) => Ok((Normal, s1.(locals := s1.locals + [t]))))
    case Assign(v, rhs) =>
      (match RhsValue(rhs, params, s, tape, prog, fuel)
       case Wrong => Wrong
       case Timeout => Timeout
       case Ok((t, s1)) => match SetVar(v, t, s1) case None => Wrong case Some(s2) => Ok((Normal, s2)))
    case Do(f, args) =>
      (match CallValue(f, args, params, s, tape, prog, fuel)
       case Wrong => Wrong
       case Timeout => Timeout
       case Ok((_, s1)) => Ok((Normal, s1)))
    case If(thn, els) =>
      if tape(s.pos) != 0 then RunSeq(thn, params, s.(pos := s.pos + 1), tape, prog, fuel)
      else RunSeq(els, params, s.(pos := s.pos + 1), tape, prog, fuel)
    case Loop(body) => RunLoop(body, params, s, tape, prog, fuel)
    case Break => Ok((Broke, s))
    case Continue => Ok((Continued, s))
    case Return(RInt) => Ok((Returned(None), s))
    case Return(RBare) => Ok((Returned(None), s))
    case Return(ROwned(rhs)) =>
      (match RhsValue(rhs, params, s, tape, prog, fuel)
       case Wrong => Wrong
       case Timeout => Timeout
       case Ok((t, s1)) => Ok((Returned(Some(t)), s1)))
    case Return(RVar(v)) =>
      match ValueOf(v, params, s)
      case None => Wrong
      case Some(t) => Ok((Returned(Some(t)), s))
  }

  function RunLoop(body: seq<Stmt>, params: seq<string>, s: Src, tape: Tape, prog: seq<Fun>, fuel: nat): Result<(Outcome, Src)>
    decreases fuel, 2, body, 1
  {
    if fuel == 0 then Timeout
    else if tape(s.pos) == 0 then Ok((Normal, s.(pos := s.pos + 1)))
    else
      match RunSeq(body, params, s.(pos := s.pos + 1), tape, prog, fuel - 1)
      case Ok((Broke, s1)) => Ok((Normal, s1))
      case Ok((Returned(v), s1)) => Ok((Returned(v), s1))
      case Ok((_, s1)) => RunLoop(body, params, s1, tape, prog, fuel - 1)
      case r => r
  }

  // ---- The instrumented code.

  /** An operation of a simple statement.  Those with a result append it to the statement's
      temporaries, which the others name by number. */
  datatype Op =
    | OStatic(text: string)
    | OLoad(v: Var)
    | OWrap(t: nat)
    | OConcat(a: nat, b: nat)
    | OIntText
    | OBoolText
    | ORetain(t: nat)
    | OCall(f: nat, args: seq<nat>)
    | ORelease(t: nat)
    | ODeclare
    | OStore(v: Var, t: nat)

  datatype Code =
    | COps(ops: seq<Op>)
    | CIf(thn: seq<Code>, els: seq<Code>)
    | CLoop(body: seq<Code>)
    | CBreak
    | CContinue
    | CRet(ops: seq<Op>, t: Option<nat>)

  /** `exit` is what a function does when control falls off its end. */
  datatype CFun = CFun(params: nat, owning: bool, code: seq<Code>, exit: seq<Op>)

  /** Operations, the temporary with their result, whether that is a conversion's fresh object,
      and the number of temporaries after them. */
  datatype Emitted = Emitted(ops: seq<Op>, t: nat, heap: bool, n: nat)

  function EmitAtom(a: Atom, n: nat): Emitted {
    match a
    case Text(s) => Emitted([OStatic(s)], n, false, n + 1)
    case Read(v) => Emitted([OLoad(v)], n, false, n + 1)
  }

  function EmitPart(p: Part, n: nat): Emitted {
    match p
    case PText(s) => Emitted([OStatic(s)], n, false, n + 1)
    case PVar(v) => Emitted([OLoad(v)], n, false, n + 1)
    case PInt => Emitted([OIntText], n, true, n + 1)
    case PBool => Emitted([OBoolText], n, true, n + 1)
  }

  function ReleaseIf(heap: bool, t: nat): seq<Op> { if heap then [ORelease(t)] else [] }

  /** One more part is appended to the text so far: a concatenation, then the releases of what
      the step made unneeded (src/codegen/expr.c:1567-1594). */
  function StepOps(e: Emitted, p: Part): seq<Op> {
    var q := EmitPart(p, e.n);
    q.ops + [OConcat(e.t, q.t)] + ReleaseIf(e.heap, e.t) + ReleaseIf(q.heap, q.t)
  }

  function EmitAppend(e: Emitted, p: Part): Emitted {
    var q := EmitPart(p, e.n);
    Emitted(e.ops + StepOps(e, p), q.n, true, q.n + 1)
  }

  function EmitParts(e: Emitted, parts: seq<Part>): Emitted
    decreases |parts|
  {
    if parts == [] then e else EmitParts(EmitAppend(e, parts[0]), parts[1..])
  }

  function EmitFString(parts: seq<Part>, n: nat): Emitted {
    if parts == [] then Emitted([OStatic("")], n, false, n + 1)
    else EmitParts(EmitPart(parts[0], n), parts[1..])
  }

  function EmitArg(a: Arg, n: nat): Emitted {
    match a
    case ALiteral(s) => Emitted([OStatic(s)], n, false, n + 1)
    case AVar(v) => Emitted([OLoad(v)], n, false, n + 1)
    case AFString(parts) => EmitFString(parts, n)
  }

  datatype EmittedArgs = EmittedArgs(ops: seq<Op>, ts: seq<nat>, n: nat)

  function EmitArgs(args: seq<Arg>, n: nat): EmittedArgs {
    if args == [] then EmittedArgs([], [], n)
    else
      var a := EmitArg(args[0], n);
      var more := EmitArgs(args[1..], a.n);
      EmittedArgs(a.ops + more.ops, [a.t] + more.ts, more.n)
  }

  /** After the call, f-string arguments are released (src/codegen/expr.c:1087-1090). */
  function ReleaseArgs(args: seq<Arg>, ts: seq<nat>): seq<Op>
    requires |args| == |ts|
  {
    if args == [] then [] else ReleaseIf(args[0].AFString?, ts[0]) + ReleaseArgs(args[1..], ts[1..])
  }

  function EmitCall(f: nat, args: seq<Arg>, n: nat): Emitted {
    var a := EmitArgs(args, n);
    ArgsLength(args, n);
    Emitted(a.ops + [OCall(f, a.ts)] + ReleaseArgs(args, a.ts), a.n, true, a.n + 1)
  }

  lemma {:induction false} ArgsLength(args: seq<Arg>, n: nat)
    ensures |EmitArgs(args, n).ts| == |args|
    decreases |args|
  {
    if args != [] {
      ArgsLength(args[1..], EmitArg(args[0], n).n);
    }
  }

  function EmitRhs(rhs: Rhs, n: nat): Emitted {
    match rhs
    case Literal(s) => Emitted([OStatic(s)], n, false, n + 1)
    case Copy(v) => Emitted([OLoad(v)], n, false, n + 1)
    case Join(a, b) =>
      var e := EmitAtom(a, n);
      var e1 := EmitAtom(b, e.n);
      Emitted(e.ops + e1.ops + [OConcat(e.t, e1.t)], e1.n, true, e1.n + 1)
    case FString(parts) => EmitFString(parts, n)
    case CallString(f, args) => EmitCall(f, args, n)
  }

  /** A literal is wrapped when it is stored. */
  function EmitWrap(rhs: Rhs, t: nat, n: nat): Emitted {
    if rhs.Literal? then Emitted([OWrap(t)], n, true, n + 1) else Emitted([], t, true, n)
  }

  /** All locals declared so far are released, the last one first. */
  function ReleaseLocals(k: nat, n: nat): seq<Op>
    decreases k
  {
    if k == 0 then [] else [OLoad(Local(k - 1)), ORelease(n)] + ReleaseLocals(k - 1, n + 1)
  }

  predicate Ends(s: Stmt) { s.Break? || s.Continue? || s.Return? }

  /** Statements with `k` locals declared before them; what follows a jump is dropped. */
  function EmitSeq(ss: seq<Stmt>, k: nat): seq<Code>
    decreases ss, 0
  {
    if ss == [] then []
    else [EmitStmt(ss[0], k)] + if Ends(ss[0]) then [] else EmitSeq(ss[1..], if ss[0].Declare? then k + 1 else k)
  }

  function EmitStmt(s: Stmt, k: nat): Code
    decreases s, 1
  {
    match s
    case Declare(rhs) =>
      var e := EmitRhs(rhs, 0);
      var w := EmitWrap(rhs, e.t, e.n);
      COps([ODeclare] + e.ops + w.ops + [OStore(Local(k), w.t)])
    case Assign(v, rhs) =>
      var e := EmitRhs(rhs, 0);
      var w := EmitWrap(rhs, e.t, e.n + 1);
      COps(e.ops + [OLoad(v), ORelease(e.n)] + w.ops + [OStore(v, w.t)])
    case Do(f, args) => COps(EmitCall(f, args, 0).ops)
    case If(thn, els) => CIf(EmitSeq(thn, k), EmitSeq(els, k))
    case Loop(body) => CLoop(EmitSeq(body, k))
    case Break => CBreak
    case Continue => CContinue
    case Return(RInt) => CRet(ReleaseLocals(k, 0), None)
    case Return(RBare) => CRet([], None)
    case Return(ROwned(rhs)) =>
      var e := EmitRhs(rhs, 0);
      CRet(e.ops + ReleaseLocals(k, e.n), Some(e.t))
    case Return(RVar(v)) => CRet([OLoad(v)] + ReleaseLocals(k, 1) + [ORetain(0)], Some(0))
  }

  /** Strings are declared at the top level of a function only. */
  predicate Shallow(s: Stmt, top: bool)
    decreases s
  {
    match s
    case Declare(_) => top
    case If(thn, els) => AllShallow(thn, false) && AllShallow(els, false)
    case Loop(body) => AllShallow(body, false)
    case _ => true
  }

  predicate AllShallow(ss: seq<Stmt>, top: bool)
    decreases ss
  {
    forall i :: 0 <= i < |ss| ==> Shallow(ss[i], top)
  }

  lemma {:induction false} NoneDeclared(ss: seq<Stmt>)
    requires AllShallow(ss, false)
    ensures Declared(ss) == 0
    decreases |ss|
  {
    if ss != [] {
      NoneDeclared(ss[1..]);
    }
  }

  function Declared(ss: seq<Stmt>): nat {
    if ss == [] || Ends(ss[0]) then 0 else (if ss[0].Declare? then 1 else 0) + Declared(ss[1..])
  }

  function EmitFun(f: Fun): CFun {
    CFun(f.params, f.owning, EmitSeq(f.body, 0), ReleaseLocals(Declared(f.body), 0))
  }

  function EmitProgram(prog: seq<Fun>): (r: seq<CFun>)
    ensures |r| == |prog| && forall i :: 0 <= i < |prog| ==> r[i] == EmitFun(prog[i])
  {
    seq(|prog|, i requires 0 <= i < |prog| => EmitFun(prog[i]))
  }

  // ---- What instrumented code does.

  datatype Mach = Mach(heap: Heap, locals: seq<Ptr>, globals: seq<Ptr>, pos: nat, temps: seq<Ptr>)

  function Push(m: Mach, p: Ptr): Mach { m.(temps := m.temps + [p]) }

  function Slot(v: Var, params: seq<Ptr>, m: Mach): Option<Ptr> {
    match v
    case Local(i) => if i < |m.locals| then Some(m.locals[i]) else None
    case Param(i) => if i < |params| then Some(params[i]) else None
    case Global(i) => if i < |m.globals| then Some(m.globals[i]) else None
  }

  function Fresh(m: Mach, text: string): Mach {
    Push(m.(heap := Alloc(m.heap, text)), Obj(m.heap.next))
  }

  function Pick(ts: seq<nat>, temps: seq<Ptr>): Option<seq<Ptr>> {
    if forall i :: 0 <= i < |ts| ==> ts[i] < |temps|
    then Some(seq(|ts|, i requires 0 <= i < |ts| && ts[i] < |temps| => temps[ts[i]])) else None
  }

  /** `Wrong` stands for every touch of memory that is not a live object's. */
  function Exec(op: Op, params: seq<Ptr>, m: Mach, tape: Tape, prog: seq<CFun>, fuel: nat): Result<Mach>
    decreases fuel, 0
  {
    match op
    case OStatic(text) => Ok(Push(m, Static(text)))
    case OLoad(v) => (match Slot(v, params, m) case None => Wrong case Some(p) => Ok(Push(m, p)))
    case OWrap(t) =>
      if t >= |m.temps| then Wrong
      else (match Content(m.heap, m.temps[t]) case None => Wrong case Some(text) => Ok(Fresh(m, text)))
    case OConcat(a, b) =>
      if a >= |m.temps| || b >= |m.temps| then Wrong
      else
        (match Concat(m.heap, m.temps[a], m.temps[b])
         case None => Wrong
         case Some(h) => Ok(Push(m.(heap := h), Obj(m.heap.next))))
    case OIntText => Ok(Fresh(m.(pos := m.pos + 1), IntText(tape(m.pos))))
    case OBoolText => Ok(Fresh(m.(pos := m.pos + 1), BoolText(tape(m.pos))))
    case ORetain(t) =>
      if t >= |m.temps| then Wrong
      else (match Retain(m.heap, m.temps[t]) case None => Wrong case Some(h) => Ok(Push(m.(heap := h), m.temps[t])))
    case ORelease(t) =>
      if t >= |m.temps| then Wrong
      else (match Release(m.heap, m.temps[t]) case None => Wrong case Some(h) => Ok(m.(heap := h)))
    case ODeclare => Ok(m.(locals := m.locals + [Null]))
    case OStore(v, t) =>
      if t >= |m.temps| then Wrong
      else
        (match v
         case Local(i) => if i < |m.locals| then Ok(m.(locals := m.locals[i := m.temps[t]])) else Wrong
         case Param(_) => Wrong
         case Global(i) => if i < |m.globals| then Ok(m.(globals := m.globals[i := m.temps[t]])) else Wrong)
    case OCall(f, ts) =>
      match Pick(ts, m.temps)
      case None => Wrong
      case Some(args) =>
        if f >= |prog| || |args| != prog[f].params then Wrong
        else if fuel == 0 then Timeout
        else
          match Enter(prog[f], args, Mach(m.heap, [], m.globals, m.pos, []), tape, prog, fuel - 1)
          case Wrong => Wrong
          case Timeout => Timeout
          case Ok((p, m1)) => Ok(Push(Mach(m1.heap, m.locals, m1.globals, m1.pos, m.temps), p))
  }

  function ExecOps(ops: seq<Op>, params: seq<Ptr>, m: Mach, tape: Tape, prog: seq<CFun>, fuel: nat): Result<Mach>
    decreases fuel, 1, |ops|
  {
    if ops == [] then Ok(m)
    else
      match Exec(ops[0], params, m, tape, prog, fuel)
      case Ok(m1) => ExecOps(ops[1..], params, m1, tape, prog, fuel)
      case r => r
  }

  datatype Exit = Next | Out | Again | Gone(p: Ptr)

  function Enter(f: CFun, args: seq<Ptr>, m: Mach, tape: Tape, prog: seq<CFun>, fuel: nat): Result<(Ptr, Mach)>
    decreases fuel, 4
  {
    match RunCode(f.code, args, m, tape, prog, fuel)
    case Wrong => Wrong
    case Timeout => Timeout
    case Ok((Gone(p), m1)) => Ok((p, m1))
    case Ok((Next, m1)) =>
      (match ExecOps(f.exit, args, m1.(temps := []), tape, prog, fuel)
       case Wrong => Wrong
       case Timeout => Timeout
       case Ok(m2) => Ok((Null, m2)))
    case _ => Wrong
  }

  function RunCode(cs: seq<Code>, params: seq<Ptr>, m: Mach, tape: Tape, prog: seq<CFun>, fuel: nat): Result<(Exit, Mach)>
    decreases fuel, 3, cs, 0
  {
    if cs == [] then Ok((Next, m))
    else
      match RunOne(cs[0], params, m, tape, prog, fuel)
      case Ok((Next, m1)) => RunCode(cs[1..], params, m1, tape, prog, fuel)
      case r => r
  }

  function RunOne(c: Code, params: seq<Ptr>, m: Mach, tape: Tape, prog: seq<CFun>, fuel: nat): Result<(Exit, Mach)>
    decreases fuel, 3, c, 1
  {
    match c
    case COps(ops) =>
      (match ExecOps(ops, params, m.(temps := []), tape, prog, fuel)
       case Wrong => Wrong
       case Timeout => Timeout
       case Ok(m1) => Ok((Next, m1)))
    case CIf(thn, els) =>
      if tape(m.pos) != 0 then RunCode(thn, params, m.(pos := m.pos + 1), tape, prog, fuel)
      else RunCode(els, params, m.(pos := m.pos + 1), tape, prog, fuel)
    case CLoop(body) => RunAgain(body, params, m, tape, prog, fuel)
    case CBreak => Ok((Out, m))
    case CContinue => Ok((Again, m))
    case CRet(ops, t) =>
      match ExecOps(ops, params, m.(temps := []), tape, prog, fuel)
      case Wrong => Wrong
      case Timeout => Timeout
      case Ok(m1) =>
        if t.None? then Ok((Gone(Null), m1))
        else if t.value < |m1.temps| then Ok((Gone(m1.temps[t.value]), m1))
        else Wrong
  }

  function RunAgain(body: seq<Code>, params: seq<Ptr>, m: Mach, tape: Tape, prog: seq<CFun>, fuel: nat): Result<(Exit, Mach)>
    decreases fuel, 3, body, 1
  {
    if fuel == 0 then Timeout
    else if tape(m.pos) == 0 then Ok((Next, m.(pos := m.pos + 1)))
    else
      match RunCode(body, params, m.(pos := m.pos + 1), tape, prog, fuel - 1)
      case Ok((Out, m1)) => Ok((Next, m1))
      case Ok((Gone(p), m1)) => Ok((Gone(p), m1))
      case Ok((_, m1)) => RunAgain(body, params, m1, tape, prog, fuel - 1)
      case r => r
  }
}
