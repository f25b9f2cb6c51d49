/** Register arithmetic of the code_item writer: the registers a parameter
    list occupies, the outgoing-argument count of a method body, and the
    register count finally written. */
module Registers {
  import opened Wrappers
  import opened Normalize
  import OpcodeTable
  import Editor

  /** A long or a double (descriptor J or D) takes a register pair. */
  predicate IsWide(p: Descriptor)
  {
    p[0] == 'J' || p[0] == 'D'
  }

  function WideCount(ps: seq<Descriptor>): (n: nat)
    ensures n <= |ps|
  {
    if |ps| == 0 then 0 else WideCount(ps[..|ps| - 1]) + (if IsWide(ps[|ps| - 1]) then 1 else 0)
  }

  /** One register per parameter, one more per wide parameter, and one for
      `this` unless the method is static. */
  function ParameterRegisters(ps: seq<Descriptor>, isStatic: bool): (n: nat)
    ensures |ps| + (if isStatic then 0 else 1) <= n <= 2 * |ps| + (if isStatic then 0 else 1)
  {
    |ps| + WideCount(ps) + (if isStatic then 0 else 1)
  }

  /** get_parameter_register_count. */
  method GetParameterRegisterCount(parameters: seq<Descriptor>, isStatic: bool) returns (regCount: nat)
    ensures regCount == |parameters| + WideCount(parameters) + (if isStatic then 0 else 1)
  {
    regCount := 0;
    var i := 0;
    while i < |parameters|
      invariant 0 <= i <= |parameters|
      invariant regCount == i + WideCount(parameters[..i])
    {
      var paramType := parameters[i];
      assert parameters[..i + 1][..i] == parameters[..i];
      regCount := regCount + 1;
      if paramType[0] == 'J' || paramType[0] == 'D' {
        regCount := regCount + 1;
      }
      i := i + 1;
    }
    assert parameters[..|parameters|] == parameters;
    if !isStatic {
      regCount := regCount + 1;
    }
  }

  /** Between one register per parameter and two, plus the receiver. */
  lemma {:induction false} WideCountAppend(a: seq<Descriptor>, b: seq<Descriptor>)
    ensures WideCount(a + b) == WideCount(a) + WideCount(b)
    decreases |b|
  {
    if |b| > 0 {
      assert (a + b)[..|a + b| - 1] == a + b[..|b| - 1];
      WideCountAppend(a, b[..|b| - 1]);
    } else {
      assert a + b == a;
    }
  }

  /** Registers add up over a split parameter list, the receiver counted once. */
  lemma ParameterRegistersAppend(a: seq<Descriptor>, b: seq<Descriptor>, isStatic: bool)
    ensures ParameterRegisters(a + b, isStatic) == ParameterRegisters(a, isStatic) + ParameterRegisters(b, true)
  {
    WideCountAppend(a, b);
  }

  /** The outgoing registers one instruction needs: for a method reference,
      the instruction's own register count when it is an invoke-polymorphic,
      and otherwise the callee's parameter registers, without `this` for an
      invoke-static. None for an instruction that refers to no method. */
  function CallRegisters(x: Editor.Insn): (r: Option<nat>)
    ensures r.Some? <==> x.operand.MethodOperand?
    ensures r.Some? && !OpcodeTable.IsInvokePolymorphic(x.op) ==>
      var ps := x.operand.parameters; var receiver := if OpcodeTable.IsInvokeStatic(x.op) then 0 else 1;
      |ps| + receiver <= r.value <= 2 * |ps| + receiver
  {
    match x.operand
    case MethodOperand(ps) =>
      if OpcodeTable.IsInvokePolymorphic(x.op) then Some(x.registerCount)
      else
        Some(ParameterRegisters(ps, OpcodeTable.IsInvokeStatic(x.op)))
    case _ => None
  }

  /** out_param_count after the loop over a body. */
  function Outs(s: seq<Editor.Insn>): (r: nat)
    ensures forall i | 0 <= i < |s| && CallRegisters(s[i]).Some? :: CallRegisters(s[i]).value <= r
    ensures (forall i | 0 <= i < |s| :: CallRegisters(s[i]).None?) ==> r == 0
  {
    if |s| == 0 then 0
    else
      assert forall i | 0 <= i < |s| - 1 :: s[..|s| - 1][i] == s[i];
      var prev := Outs(s[..|s| - 1]);
      match CallRegisters(s[|s| - 1])
      case Some(n) => if n > prev then n else prev
      case None => prev
  }

  /** Outs, which bounds every method reference of a body, is attained by one
      of them unless it is 0: it is their maximum. */
  lemma {:induction false} OutsIsMaximum(s: seq<Editor.Insn>)
    ensures Outs(s) == 0 || exists i | 0 <= i < |s| :: CallRegisters(s[i]) == Some(Outs(s))
  {
    if |s| > 0 {
      var t := s[..|s| - 1];
      OutsIsMaximum(t);
      assert forall i | 0 <= i < |t| :: t[i] == s[i];
      if Outs(s) != 0 && Outs(s) == Outs(t) {
        var i :| 0 <= i < |t| && CallRegisters(t[i]) == Some(Outs(t));
        assert CallRegisters(s[i]) == Some(Outs(s));
      }
    }
  }

  /** The loop of write_code_item over the instructions: code units summed by
      width, and the outgoing registers as the running maximum. */
  method ScanInstructions(instructions: seq<Editor.Insn>) returns (codeUnitCount: nat, outParamCount: nat)
    ensures codeUnitCount == Editor.TotalWidth(instructions)
    ensures outParamCount == Outs(instructions)
  {
    codeUnitCount, outParamCount := 0, 0;
    var paramCount := 0;
    var i := 0;
    while i < |instructions|
      invariant 0 <= i <= |instructions|
      invariant codeUnitCount == Editor.TotalWidth(instructions[..i])
      invariant outParamCount == Outs(instructions[..i])
    {
      var ins := instructions[i];
      assert instructions[..i + 1][..i] == instructions[..i];
      codeUnitCount := codeUnitCount + ins.width;
      if ins.operand.MethodOperand? {
        if OpcodeTable.IsInvokePolymorphic(ins.op) {
          paramCount := ins.registerCount;
        } else {
          paramCount := GetParameterRegisterCount(ins.operand.parameters, OpcodeTable.IsInvokeStatic(ins.op));
        }
        if paramCount > outParamCount {
          outParamCount := paramCount;
        }
      }
      i := i + 1;
    }
    assert instructions[..|instructions|] == instructions;
  }

  /** The register count written: the stored count raised to the parameter
      registers, and raised again to outs when outs is above 5. */
  function FinalRegisterCount(stored: nat, paramRegisters: nat, outs: nat): (r: nat)
    ensures r >= stored && r >= paramRegisters
    ensures outs > 5 ==> r >= outs
    ensures r == stored || r == paramRegisters || (outs > 5 && r == outs)
    ensures outs <= 5 ==> r == (if stored > paramRegisters then stored else paramRegisters)
  {
    var r1 := if stored > paramRegisters then stored else paramRegisters;
    if outs > 5 then (if outs > r1 then outs else r1) else r1
  }
}
