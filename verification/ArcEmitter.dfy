/** The emitters of counted strings as the code generator runs them: instructions are appended
    in place and loops walk over parts, arguments and variables. */

module ArcEmitter {
  import opened Options
  import opened ArcCode

  class Emitter {
    var ops: seq<Op>
    var temps: nat
    /** Locals the function has declared so far. */
    var varCount: nat

    constructor (varCount: nat)
      ensures ops == [] && temps == 0 && this.varCount == varCount
    {
      ops, temps, this.varCount := [], 0, varCount;
    }

    /** An instruction with a result. */
    method Value(op: Op) returns (t: nat)
      modifies this`ops, this`temps
      ensures ops == old(ops) + [op] && t == old(temps) && temps == t + 1
    {
      ops, t, temps := ops + [op], temps, temps + 1;
    }

    method Effect(op: Op)
      modifies this`ops
      ensures ops == old(ops) + [op]
    {
      ops := ops + [op];
    }

    method Part(p: Part) returns (t: nat, isHeap: bool)
      modifies this`ops, this`temps
      ensures var e := EmitPart(p, old(temps)); ops == old(ops) + e.ops && (t, isHeap, temps) == (e.t, e.heap, e.n)
    {
      match p
      case PText(s) => t := Value(OStatic(s)); isHeap := false;
      case PVar(v) => t := Value(OLoad(v)); isHeap := false;
      case PInt => t := Value(OIntText); isHeap := true;
      case PBool => t := Value(OBoolText); isHeap := true;
    }

    /** One more part joined to the text so far. */
    method Append(oldResult: nat, oldIsHeap: bool, p: Part) returns (result: nat)
      modifies this`ops, this`temps
      ensures ops == old(ops) + StepOps(Emitted([], oldResult, oldIsHeap, old(temps)), p)
      ensures var q := EmitPart(p, old(temps)); result == q.n && temps == q.n + 1
    {
      var part, partIsHeap := Part(p);
      result := Value(OConcat(oldResult, part));
      if oldIsHeap { Effect(ORelease(oldResult)); }
      if partIsHeap { Effect(ORelease(part)); }
    }

    method FString(parts: seq<Part>) returns (result: nat, resultIsHeap: bool)
      modifies this`ops, this`temps
      ensures var e := EmitFString(parts, old(temps));
        ops == old(ops) + e.ops && (result, resultIsHeap, temps) == (e.t, e.heap, e.n)
    {
      hide EmitPart, StepOps, EmitParts;
      if parts == [] {
        result := Value(OStatic(""));
        return result, false;
      }
      ghost var first := EmitPart(parts[0], temps);
      result, resultIsHeap := Part(parts[0]);
      ghost var done := first.ops;
      for i := 1 to |parts|
        invariant ops == old(ops) + done
        invariant EmitParts(first, parts[1..]) == EmitParts(Emitted(done, result, resultIsHeap, temps), parts[i..])
      {
        ghost var e := Emitted(done, result, resultIsHeap, temps);
        PartsStep(e, parts, i);
        result := Append(result, resultIsHeap, parts[i]);
        resultIsHeap := true;
        done := EmitAppend(e, parts[i]).ops;
      }
      PartsDone(Emitted(done, result, resultIsHeap, temps), parts);
    }

    method Arg(a: Arg) returns (t: nat)
      modifies this`ops, this`temps
      ensures var e := EmitArg(a, old(temps)); ops == old(ops) + e.ops && (t, temps) == (e.t, e.n)
    {
      match a
      case ALiteral(s) => t := Value(OStatic(s));
      case AVar(v) => t := Value(OLoad(v));
      case AFString(parts) =>
        var isHeap;
        t, isHeap := FString(parts);
    }

    method Args(args: seq<Arg>) returns (ts: seq<nat>)
      modifies this`ops, this`temps
      ensures var e := EmitArgs(args, old(temps)); ops == old(ops) + e.ops && (ts, temps) == (e.ts, e.n)
    {
      hide EmitArg, EmitArgs;
      ts := [];
      ghost var done: seq<Op> := [];
      ghost var all := EmitArgs(args, temps);
      for i := 0 to |args|
        invariant ops == old(ops) + done
        invariant var rest := EmitArgs(args[i..], temps); all == EmittedArgs(done + rest.ops, ts + rest.ts, rest.n)
      {
        ghost var e := EmitArg(args[i], temps);
        ArgsStep(args, i, temps, done, ts);
        var t := Arg(args[i]);
        done, ts := done + e.ops, ts + [t];
      }
      ArgsDone(args, temps);
      assert done + [] == done && ts + [] == ts;
    }

    /** The f-string arguments are released after the call. */
    method ReleaseTemporaries(args: seq<Arg>, ts: seq<nat>)
      requires |args| == |ts|
      modifies this`ops
      ensures ops == old(ops) + ReleaseArgs(args, ts)
    {
      hide ReleaseArgs;
      ghost var done: seq<Op> := [];
      for i := 0 to |args|
        invariant ops == old(ops) + done
        invariant ReleaseArgs(args, ts) == done + ReleaseArgs(args[i..], ts[i..])
      {
        ReleaseArgsStep(args, ts, i, done);
        if args[i].AFString? {
          Effect(ORelease(ts[i]));
        }
        done := done + ReleaseIf(args[i].AFString?, ts[i]);
      }
      ReleaseArgsDone(args, ts);
    }

    method Call(f: nat, args: seq<Arg>) returns (result: nat)
      modifies this`ops, this`temps
      ensures var e := EmitCall(f, args, old(temps)); ops == old(ops) + e.ops && (result, temps) == (e.t, e.n)
    {
      hide EmitArgs, ReleaseArgs;
      ArgsLength(args, temps);
      var ts := Args(args);
      result := Value(OCall(f, ts));
      ReleaseTemporaries(args, ts);
    }

    method Rhs(rhs: Rhs) returns (t: nat)
      modifies this`ops, this`temps
      ensures var e := EmitRhs(rhs, old(temps)); ops == old(ops) + e.ops && (t, temps) == (e.t, e.n)
    {
      match rhs
      case Literal(s) => t := Value(OStatic(s));
      case Copy(v) => t := Value(OLoad(v));
      case Join(a, b) =>
        var x := Atom(a);
        var y := Atom(b);
        t := Value(OConcat(x, y));
      case FString(parts) =>
        var isHeap;
        t, isHeap := FString(parts);
      case CallString(f, args) => t := Call(f, args);
    }

    method Atom(a: Atom) returns (t: nat)
      modifies this`ops, this`temps
      ensures var e := EmitAtom(a, old(temps)); ops == old(ops) + e.ops && (t, temps) == (e.t, e.n)
    {
      match a
      case Text(s) => t := Value(OStatic(s));
      case Read(v) => t := Value(OLoad(v));
    }

    /** The walk over the variables of the function, from the last declared to the first. */
    method ReleaseScope()
      modifies this`ops, this`temps
      ensures ops == old(ops) + ReleaseLocals(varCount, old(temps))
    {
      ghost var done: seq<Op> := [];
      var i: nat := varCount;
      while i > 0
        invariant i <= varCount && ops == old(ops) + done
        invariant ReleaseLocals(varCount, old(temps)) == done + ReleaseLocals(i, temps)
      {
        i := i - 1;
        var val := Value(OLoad(Local(i)));
        Effect(ORelease(val));
        done := done + [OLoad(Local(i)), ORelease(val)];
      }
    }

    /** A declaration stores the wrapped or computed string in a new slot. */
    method VarDecl(rhs: Rhs) returns (code: Code)
      modifies this
      ensures code == EmitStmt(Declare(rhs), old(varCount)) && varCount == old(varCount) + 1
    {
      ops, temps := [], 0;
      Effect(ODeclare);
      var t := Rhs(rhs);
      if rhs.Literal? { t := Value(OWrap(t)); }
      Effect(OStore(Local(varCount), t));
      varCount := varCount + 1;
      code := COps(ops);
    }

    /** The old value is released once the new one is there, and before it is stored. */
    method AssignTo(v: Var, rhs: Rhs) returns (code: Code)
      modifies this`ops, this`temps
      ensures code == EmitStmt(Assign(v, rhs), varCount)
    {
      ops, temps := [], 0;
      var t := Rhs(rhs);
      var oldVal := Value(OLoad(v));
      Effect(ORelease(oldVal));
      if rhs.Literal? { t := Value(OWrap(t)); }
      Effect(OStore(v, t));
      code := COps(ops);
    }

    method ReturnValue(r: Ret) returns (code: Code)
      modifies this`ops, this`temps
      ensures code == EmitStmt(Return(r), varCount)
    {
      ops, temps := [], 0;
      match r
      case RInt =>
        ReleaseScope();
        code := CRet(ops, None);
      case RBare => code := CRet([], None);
      case ROwned(rhs) =>
        var val := Rhs(rhs);
        ReleaseScope();
        code := CRet(ops, Some(val));
      case RVar(v) =>
        var val := Value(OLoad(v));
        ReleaseScope();
        Effect(ORetain(val));
        code := CRet(ops, Some(val));
    }

    method Statement(s: Stmt, top: bool) returns (code: Code)
      requires Shallow(s, top)
      modifies this
      ensures code == EmitStmt(s, old(varCount)) && varCount == old(varCount) + if s.Declare? then 1 else 0
      decreases s, 1
    {
      hide EmitSeq, EmitRhs;
      match s
      case Declare(rhs) => code := VarDecl(rhs);
      case Assign(v, rhs) => code := AssignTo(v, rhs);
      case Do(f, args) =>
        ops, temps := [], 0;
        var t := Call(f, args);
        code := COps(ops);
      case If(thn, els) =>
        NoneDeclared(thn);
        NoneDeclared(els);
        var thnCode := Block(thn, false);
        var elsCode := Block(els, false);
        code := CIf(thnCode, elsCode);
      case Loop(body) =>
        NoneDeclared(body);
        var bodyCode := Block(body, false);
        code := CLoop(bodyCode);
      case Break => code := CBreak;
      case Continue => code := CContinue;
      case Return(r) => code := ReturnValue(r);
    }

    /** Statements in order; what follows a jump is not emitted. */
    method Block(ss: seq<Stmt>, top: bool) returns (code: seq<Code>)
      requires AllShallow(ss, top)
      modifies this
      ensures code == EmitSeq(ss, old(varCount)) && varCount == old(varCount) + Declared(ss)
      decreases ss, 0
    {
      hide EmitStmt, Shallow, EmitSeq, Declared;
      code := [];
      assert ss[0..] == ss;
      for i := 0 to |ss|
        invariant EmitSeq(ss, old(varCount)) == code + EmitSeq(ss[i..], varCount)
        invariant old(varCount) + Declared(ss) == varCount + Declared(ss[i..])
      {
        BlockStep(ss, i, varCount, code);
        var c := Statement(ss[i], top);
        code := code + [c];
        if Ends(ss[i]) {
          assert code + [] == code;
          return;
        }
      }
      BlockDone(ss, varCount);
      assert code + [] == code;
    }

    /** A whole function, with the releases at its end. */
    method Function(f: Fun) returns (code: CFun)
      requires AllShallow(f.body, true)
      modifies this
      ensures code == EmitFun(f)
    {
      varCount := 0;
      var body := Block(f.body, true);
      ops, temps := [], 0;
      ReleaseScope();
      code := CFun(f.params, f.owning, body, ops);
    }
  }

  lemma PartsStep(e: Emitted, parts: seq<Part>, i: nat)
    requires i < |parts|
    ensures EmitParts(e, parts[i..]) == EmitParts(EmitAppend(e, parts[i]), parts[i + 1..])
    ensures StepOps(e, parts[i]) == StepOps(e.(ops := []), parts[i])
  {
    assert parts[i..][1..] == parts[i + 1..];
  }

  lemma PartsDone(e: Emitted, parts: seq<Part>)
    ensures EmitParts(e, parts[|parts|..]) == e
  {
  }

  lemma ArgsStep(args: seq<Arg>, i: nat, n: nat, done: seq<Op>, ts: seq<nat>)
    requires i < |args|
    ensures var a := EmitArg(args[i], n);
      var (rest, more) := (EmitArgs(args[i..], n), EmitArgs(args[i + 1..], a.n));
      done + rest.ops == done + a.ops + more.ops && ts + rest.ts == ts + [a.t] + more.ts && rest.n == more.n
  {
    hide EmitArg;
    assert args[i..][1..] == args[i + 1..];
  }

  lemma ArgsDone(args: seq<Arg>, n: nat)
    ensures EmitArgs(args[|args|..], n) == EmittedArgs([], [], n)
  {
  }

  lemma ReleaseArgsStep(args: seq<Arg>, ts: seq<nat>, i: nat, done: seq<Op>)
    requires i < |args| == |ts|
    ensures done + ReleaseArgs(args[i..], ts[i..]) == done + ReleaseIf(args[i].AFString?, ts[i]) + ReleaseArgs(args[i + 1..], ts[i + 1..])
  {
    assert args[i..][1..] == args[i + 1..] && ts[i..][1..] == ts[i + 1..];
  }

  lemma ReleaseArgsDone(args: seq<Arg>, ts: seq<nat>)
    requires |args| == |ts|
    ensures ReleaseArgs(args[|args|..], ts[|ts|..]) == []
  {
  }

  lemma BlockStep(ss: seq<Stmt>, i: nat, k: nat, code: seq<Code>)
    requires i < |ss|
    ensures var rest := if Ends(ss[i]) then [] else EmitSeq(ss[i + 1..], if ss[i].Declare? then k + 1 else k);
      code + EmitSeq(ss[i..], k) == code + [EmitStmt(ss[i], k)] + rest
    ensures Declared(ss[i..]) == if Ends(ss[i]) then 0 else (if ss[i].Declare? then 1 else 0) + Declared(ss[i + 1..])
  {
    hide EmitStmt;
    assert ss[i..][1..] == ss[i + 1..];
  }

  lemma BlockDone(ss: seq<Stmt>, k: nat)
    ensures EmitSeq(ss[|ss|..], k) == [] && Declared(ss[|ss|..]) == 0
  {
  }
}
