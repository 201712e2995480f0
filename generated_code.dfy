/** What the statement generator's code looks like, proved on the closed-form
    code of module StatementCode: the homework skeleton against the
    solution, call descriptors, printf format strings and argument arrays,
    read sequences and assignment stores. */
module GeneratedCode {
  import opened Common
  import opened Jvm
  import opened StatementCode

  // ---------------------------------------------------------------------------
  // The homework skeleton.

  /** A statement with no if, case, while, for or procedure call anywhere
      in it: the statements the skeleton already implements. */
  predicate Unstubbed(s: Stmt)
    decreases s
  {
    match s
    case Compound(ss) => forall i :: 0 <= i < |ss| ==> Unstubbed(ss[i])
    case Repeat(ss, _) => forall i :: 0 <= i < |ss| ==> Unstubbed(ss[i])
    case Assign(_, _) => true
    case Write(_, _) => true
    case Read(_, _) => true
    case Empty => true
    case If(_, _, _) => false
    case Case(_, _, _, _) => false
    case While(_, _) => false
    case For(_, _, _, _, _) => false
    case ProcedureCall(_, _) => false
  }

  predicate Stubbed(s: Stmt)
  {
    s.If? || s.Case? || s.While? || s.For? || s.ProcedureCall?
  }

  /** The skeleton emits nothing for the statements whose methods it leaves
      empty, and exactly the solution's code for statements built only from
      the ones it implements. */
  lemma HomeworkSkeleton(s: Stmt, cfg: Config, n: nat)
    ensures Stubbed(s) ==> StmtCode(s, cfg.(homework := true), n) == Gen([], n, 0)
    ensures Unstubbed(s) ==> StmtCode(s, cfg.(homework := true), n) == StmtCode(s, cfg.(homework := false), n)
  {
    if Unstubbed(s) {
      HomeworkAgrees(s, cfg, n);
    }
  }

  lemma {:induction false} HomeworkAgrees(s: Stmt, cfg: Config, n: nat)
    requires Unstubbed(s)
    ensures StmtCode(s, cfg.(homework := true), n) == StmtCode(s, cfg.(homework := false), n)
    decreases s, 1
  {
    match s
    case Compound(ss) => HomeworkListAgrees(ss, cfg, n);
    case Repeat(ss, c) => HomeworkListAgrees(ss, cfg, n + 2);
    case Assign(_, _) =>
    case Write(_, _) =>
    case Read(_, _) =>
    case Empty =>
  }

  lemma {:induction false} HomeworkListAgrees(ss: seq<Stmt>, cfg: Config, n: nat)
    requires forall i :: 0 <= i < |ss| ==> Unstubbed(ss[i])
    ensures ListCode(ss, cfg.(homework := true), n) == ListCode(ss, cfg.(homework := false), n)
    decreases ss, 0
  {
    if ss != [] {
      var front := ss[..|ss| - 1];
      HomeworkListAgrees(front, cfg, n);
      HomeworkAgrees(ss[|ss| - 1], cfg, ListCode(front, cfg.(homework := false), n).next);
    }
  }

  // ---------------------------------------------------------------------------
  // Call descriptors.

  predicate DescriptorLetter(c: char)
  {
    c == 'I' || c == 'F' || c == 'Z'
  }

  /** One letter per integer, real or boolean parameter, none for the others. */
  lemma {:induction false} ParamLettersShape(params: seq<Type>)
    ensures |ParamLetters(params)| <= |params|
    ensures forall k :: 0 <= k < |ParamLetters(params)| ==> DescriptorLetter(ParamLetters(params)[k])
    ensures (forall i :: 0 <= i < |params| ==> TypeName(params[i]) in {"integer", "real", "boolean"})
              ==> |ParamLetters(params)| == |params|
    decreases |params|
  {
    if params != [] {
      var front := params[..|params| - 1];
      ParamLettersShape(front);
      var last := params[|params| - 1];
      var l := Letter(last);
      assert |l| <= 1 && forall k :: 0 <= k < |l| ==> DescriptorLetter(l[k]);
      if forall i :: 0 <= i < |params| ==> TypeName(params[i]) in {"integer", "real", "boolean"} {
        assert forall i :: 0 <= i < |front| ==> front[i] == params[i];
        assert TypeName(last) in {"integer", "real", "boolean"};
        assert |l| == 1;
      }
    }
  }

  /** `name(`, the parameter letters, `)`, then the return type's letter
      for a function and V for a procedure. */
  lemma DescriptorShape(r: Routine)
    ensures var d := Descriptor(r);
            var k := |r.name| + 1 + |ParamLetters(r.params)|;
            && k < |d| && d[..|r.name| + 1] == r.name + "(" && d[k] == ')'
            && (forall j :: |r.name| < j < k ==> DescriptorLetter(d[j]))
            && (!r.isFunction ==> |d| == k + 1 + 1 && d[k + 1] == 'V')
            && (r.isFunction ==> |d| <= k + 2 && forall j :: k < j < |d| ==> DescriptorLetter(d[j]))
  {
    var letters := ParamLetters(r.params);
    var ret := if r.isFunction then Letter(r.returnType) else "V";
    ParamLettersShape(r.params);
    assert |ret| <= 1 && forall j :: 0 <= j < |ret| ==> DescriptorLetter(ret[j]) || ret[j] == 'V';
    assert r.isFunction ==> forall j :: 0 <= j < |ret| ==> DescriptorLetter(ret[j]);
    DescriptorParts(r.name, letters, ret, Descriptor(r));
  }

  /** Where the pieces of `name(letters)ret` sit. */
  lemma DescriptorParts(name: string, letters: string, ret: string, d: string)
    requires d == name + "(" + letters + ")" + ret
    ensures var k := |name| + 1 + |letters|;
            && |d| == k + 1 + |ret| && d[..|name| + 1] == name + "(" && d[k] == ')'
            && (forall j :: |name| < j < k ==> d[j] == letters[j - |name| - 1])
            && (forall j :: k < j < |d| ==> d[j] == ret[j - k - 1])
  {
    assert d[..|name| + 1] == name + "(";
  }

  // ---------------------------------------------------------------------------
  // printf formats.

  /** No `%` in the format text an argument contributes other than the
      specifier's own: in a literal's conversion, none; in a field width or
      a decimal count, none. */
  predicate PercentFree(a: WriteArg, convertString: string -> string)
  {
    if IsLiteral(a) then '%' !in convertString(a.text)
    else a.fieldWidth.Some? ==>
      '%' !in a.fieldWidth.value.width
      && (a.fieldWidth.value.decimals.Some? ==> '%' !in a.fieldWidth.value.decimals.value)
  }

  /** The format is in double quotes, with `\n` before the closing quote for
      writeln. */
  lemma FormatQuoted(args: seq<WriteArg>, needLF: bool, convertString: string -> string)
    ensures var f := FormatString(args, needLF, convertString);
            && |f| >= 2 && f[0] == '"' && f[|f| - 1] == '"'
            && (needLF ==> |f| >= 4 && f[|f| - 3..] == "\\n\"")
  {
    FormatOpens(args, convertString);
  }

  lemma {:induction false} FormatOpens(args: seq<WriteArg>, convertString: string -> string)
    ensures |FormatPrefix(args, convertString)| >= 1 && FormatPrefix(args, convertString)[0] == '"'
    decreases |args|
  {
    if args != [] {
      FormatOpens(args[..|args| - 1], convertString);
    }
  }

  /** With no stray `%` in literals and widths, the format has exactly one
      specifier per expression argument: as many as the arguments array
      that printf receives has elements. */
  lemma SpecifierCount(args: seq<WriteArg>, needLF: bool, convertString: string -> string)
    requires forall i :: 0 <= i < |args| ==> PercentFree(args[i], convertString)
    ensures multiset(FormatString(args, needLF, convertString))['%'] == ExprCount(args)
  {
    var prefix := FormatPrefix(args, convertString);
    var close := if needLF then "\\n\"" else "\"";
    PrefixSpecifiers(args, convertString);
    ClosingFree(needLF);
    assert FormatString(args, needLF, convertString) == prefix + close;
    assert multiset(prefix + close) == multiset(prefix) + multiset(close);
  }

  lemma ClosingFree(needLF: bool)
    ensures multiset(if needLF then "\\n\"" else "\"")['%'] == 0
  {
    if needLF {
      assert "\\n\"" == ['\\', 'n', '"'];
    }
  }

  lemma {:induction false} PrefixSpecifiers(args: seq<WriteArg>, convertString: string -> string)
    requires forall i :: 0 <= i < |args| ==> PercentFree(args[i], convertString)
    ensures multiset(FormatPrefix(args, convertString))['%'] == ExprCount(args)
    decreases |args|
  {
    if args != [] {
      var front, last := args[..|args| - 1], args[|args| - 1];
      PrefixSpecifiers(front, convertString);
      ArgSpecifiers(last, convertString);
      assert FormatPrefix(args, convertString) == FormatPrefix(front, convertString) + ArgFormat(last, convertString);
    }
  }

  /** An expression argument contributes one `%`, a literal none. */
  lemma ArgSpecifiers(a: WriteArg, convertString: string -> string)
    requires PercentFree(a, convertString)
    ensures multiset(ArgFormat(a, convertString))['%'] == if IsLiteral(a) then 0 else 1
  {
    if IsLiteral(a) {
      Absent(convertString(a.text));
    } else {
      var w := WidthSpec(a.fieldWidth);
      var f := Flag(a.expr.exprType);
      assert ArgFormat(a, convertString) == "%" + w + f;
      WidthFree(a.fieldWidth);
      Absent(w);
      assert '%' !in f;
      Absent(f);
      assert multiset("%" + w + f) == multiset("%") + multiset(w) + multiset(f);
      assert multiset("%")['%'] == 1;
    }
  }

  lemma WidthFree(fw: Option<FieldWidth>)
    requires fw.Some? ==> '%' !in fw.value.width && (fw.value.decimals.Some? ==> '%' !in fw.value.decimals.value)
    ensures '%' !in WidthSpec(fw)
  {
    if fw.Some? {
      var sign := if fw.value.minus then "-" else "";
      var dec := if fw.value.decimals.Some? then "." + fw.value.decimals.value else "";
      assert WidthSpec(fw) == sign + fw.value.width + dec;
      assert '%' !in dec;
    }
  }

  lemma Absent(s: string)
    requires '%' !in s
    ensures multiset(s)['%'] == 0
  {
  }

  /** The k-th expression argument goes to index k of the arguments array:
      the indices ArrayStores uses grow with the argument's position and
      stay below the array's length, so no element is skipped or
      overwritten. */
  lemma StoreIndices(args: seq<WriteArg>)
    ensures forall i, j :: 0 <= i < j < |args| && !IsLiteral(args[i]) ==> ExprCount(args[..i]) < ExprCount(args[..j])
    ensures forall i :: 0 <= i < |args| && !IsLiteral(args[i]) ==> ExprCount(args[..i]) < ExprCount(args)
  {
    forall i, j | 0 <= i < j <= |args| && !IsLiteral(args[i])
      ensures ExprCount(args[..i]) < ExprCount(args[..j])
    {
      ExprCountGrows(args, i, j);
    }
    forall i | 0 <= i < |args| && !IsLiteral(args[i])
      ensures ExprCount(args[..i]) < ExprCount(args)
    {
      ExprCountGrows(args, i, |args|);
      assert args[..|args|] == args;
    }
  }

  lemma {:induction false} ExprCountGrows(args: seq<WriteArg>, i: nat, j: nat)
    requires i < j <= |args| && !IsLiteral(args[i])
    ensures ExprCount(args[..i]) < ExprCount(args[..j])
    decreases j
  {
    assert args[..j][..j - 1] == args[..j - 1];
    if i < j - 1 {
      ExprCountGrows(args, i, j - 1);
    }
  }

  // ---------------------------------------------------------------------------
  // Read and readln.

  /** The store instructions of `code`, in order. */
  function Stores(code: seq<Instr>): seq<Instr>
    decreases |code|
  {
    if code == [] then []
    else Stores(code[..|code| - 1]) + (if code[|code| - 1].StoreValue? then [code[|code| - 1]] else [])
  }

  lemma {:induction false} StoresAppend(a: seq<Instr>, b: seq<Instr>)
    ensures Stores(a + b) == Stores(a) + Stores(b)
    decreases |b|
  {
    if b == [] {
      assert a + b == a;
    } else {
      var front := b[..|b| - 1];
      assert (a + b)[..|a + b| - 1] == a + front;
      StoresAppend(a, front);
    }
  }

  lemma {:induction false} NoStores(code: seq<Instr>)
    requires forall i :: 0 <= i < |code| ==> !code[i].StoreValue?
    ensures Stores(code) == []
    decreases |code|
  {
    if code != [] {
      NoStores(code[..|code| - 1]);
    }
  }

  /** A store into each variable's own entry, in order. */
  function EntryStores(vars: seq<Variable>): seq<Instr>
    decreases |vars|
  {
    if vars == [] then [] else EntryStores(vars[..|vars| - 1]) + [StoreValue(Some(vars[|vars| - 1].entry), None)]
  }

  lemma OneStore(v: Variable, pn: string)
    ensures Stores(ReadOne(v, pn)) == [StoreValue(Some(v.entry), None)]
  {
    var store := StoreValue(Some(v.entry), None);
    if v.varType == Char {
      var pre := [SysIn(pn), EmptyDelimiter, UseDelimiter, Op(POP), SysIn(pn), NextString, Op(ICONST_0), CharAt];
      var post := [SysIn(pn), ResetScanner];
      assert ReadOne(v, pn) == pre + [store] + post;
      StoreBetween(pre, store, post);
    } else {
      var call := if v.varType == Integer then NextInt
        else if v.varType == Real then NextFloat
        else if v.varType == Boolean then NextBoolean
        else NextString;
      assert ReadOne(v, pn) == [SysIn(pn), call] + [store] + [];
      StoreBetween([SysIn(pn), call], store, []);
    }
  }

  lemma StoreBetween(pre: seq<Instr>, store: Instr, post: seq<Instr>)
    requires forall i :: 0 <= i < |pre| ==> !pre[i].StoreValue?
    requires forall i :: 0 <= i < |post| ==> !post[i].StoreValue?
    requires store.StoreValue?
    ensures Stores(pre + [store] + post) == [store]
  {
    NoStores(pre);
    NoStores(post);
    StoresAppend(pre + [store], post);
    StoresAppend(pre, [store]);
    assert [store][..0] == [];
  }

  /** read and readln store into the listed variables, each once and in
      order, and readln then skips the rest of the input line. */
  lemma {:induction false} ReadStores(vars: seq<Variable>, needSkip: bool, pn: string)
    ensures Stores(ReadCode(vars, needSkip, pn)) == EntryStores(vars)
    ensures needSkip ==> ReadCode(vars, needSkip, pn)[|ReadCode(vars, needSkip, pn)| - 3..] == SkipLine(pn)
  {
    VarStores(vars, pn);
    StoresAppend(ReadVars(vars, pn), if needSkip then SkipLine(pn) else []);
    NoStores(SkipLine(pn));
    NoStores([]);
  }

  lemma {:induction false} VarStores(vars: seq<Variable>, pn: string)
    ensures Stores(ReadVars(vars, pn)) == EntryStores(vars)
    decreases |vars|
  {
    if vars != [] {
      var front, last := vars[..|vars| - 1], vars[|vars| - 1];
      VarStores(front, pn);
      StoresAppend(ReadVars(front, pn), ReadOne(last, pn));
      OneStore(last, pn);
    }
  }

  // ---------------------------------------------------------------------------
  // Assignment.

  /** What an assignment adds after the target's and the value's code: I2F
      occurs there if and only if the target is the predefined real type and
      the value's type is integer or a subrange of integer, and the store
      chosen for the target is the last instruction and the only store. */
  lemma AssignEnding(target: Variable, value: Expr, n: nat)
    ensures var c := AssignCode(target, value, n).code;
            var gv := if |target.modifiers| > 0 then Visit(target.visit, n) else Gen([], n, 0);
            var ge := Visit(value.visit, gv.next);
            var front := |gv.code| + |ge.code|;
            && front < |c| && c[..front] == gv.code + ge.code
            && (Op(I2F) in c[front..] <==>
                  target.varType == Real
                  && (value.exprType == Integer || (value.exprType.SubrangeType? && value.exprType.base == Integer)))
            && Stores(c[front..]) == [StoreFor(target)]
            && c[|c| - 1] == StoreFor(target)
  {
    var code := AssignCode(target, value, n);
    var gv := if |target.modifiers| > 0 then Visit(target.visit, n) else Gen([], n, 0);
    var ge := Visit(value.visit, gv.next);
    var widen := if Widens(target.varType, value.exprType) then [Op(I2F)] else [];
    var prefix, tail := gv.code + ge.code, widen + [StoreFor(target)];
    assert code.code == prefix + tail;
    assert code.code[..|prefix|] == prefix && code.code[|prefix|..] == tail;
    AssignTail(widen, StoreFor(target));
    assert Widens(target.varType, value.exprType) <==>
      target.varType == Real
      && (value.exprType == Integer || (value.exprType.SubrangeType? && value.exprType.base == Integer));
  }

  /** The widening and the store that end an assignment. */
  lemma AssignTail(widen: seq<Instr>, store: Instr)
    requires store.StoreValue? && (widen == [] || widen == [Op(I2F)])
    ensures Stores(widen + [store]) == [store]
    ensures Op(I2F) in widen + [store] <==> widen != []
  {
    var tail := widen + [store];
    assert tail[..|tail| - 1] == widen;
    if widen != [] {
      assert widen[..0] == [];
    }
  }
}
