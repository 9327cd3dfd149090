/**
 * `ParseFile` of the contract preprocessor: it finds the one contract type of a file,
 * collects the other types, and files exported constructors and methods under the type
 * they build or belong to, refusing signatures a contract cannot have.
 */
module PreprocessorParse {
  import opened Wrappers
  import opened GoErrors
  import opened PreprocessorAst

  /** The embedded field that makes a struct a contract. */
  const BaseContract: string := "foundation.BaseContract"

  /** `%q` of an identifier or type text: the text in double quotes. */
  function Quote(s: string): (q: string)
    ensures |q| == |s| + 2 && q[0] == '"' && q[|q| - 1] == '"' && q[1..|q| - 1] == s
  {
    "\"" + s + "\""
  }

  /** The field is unnamed (embedded) and is a selector spelled `foundation.BaseContract`. */
  predicate EmbedsBase(f: Field)
  {
    |f.names| == 0 && f.typ.Selector? && Text(f.typ) == BaseContract
  }

  /** The search of `isContractTypeSpec` over the struct's fields, stopping at the first hit. */
  function EmbedsBaseContract(fields: seq<Field>): (b: bool)
    ensures b <==> exists i :: 0 <= i < |fields| && EmbedsBase(fields[i])
  {
    if fields == [] then false
    else if EmbedsBase(fields[0]) then true
    else
      var rest := EmbedsBaseContract(fields[1..]);
      assert forall i :: 1 <= i < |fields| ==> fields[i] == fields[1..][i - 1];
      rest
  }

  /** `isContractTypeSpec`: a struct type with an embedded `foundation.BaseContract`. */
  function IsContractTypeSpec(ts: TypeSpec): bool
  {
    ts.def.StructType? && NumFields(ts.def.fields) != 0 && EmbedsBaseContract(ts.def.fields)
  }

  /** Named fields, non-struct types and empty structs never make a contract. */
  lemma ContractTypeSpecIff(ts: TypeSpec)
    ensures IsContractTypeSpec(ts) <==>
      ts.def.StructType? && exists i :: 0 <= i < |ts.def.fields| && EmbedsBase(ts.def.fields[i])
    ensures ts.def.StructType? && ts.def.fields == [] ==> !IsContractTypeSpec(ts)
  {
  }

  /** The part of a `ParsedFile` that `parseTypes` fills. */
  datatype TypesState = TypesState(types: map<string, TypeSpec>, contract: string)

  /** A scan's state and the error that stopped it, if one did. */
  datatype Scan<S> = Scan(st: S, err: Option<Error>)

  const MoreThanOneContract: Error := Error("more than one contract in a file")

  /** `parseTypeSpec`: a contract is recorded once, every other type by its name. */
  function ParseTypeSpec(st: TypesState, ts: TypeSpec): Scan<TypesState>
  {
    if IsContractTypeSpec(ts) then
      if st.contract != "" then Scan(st, Some(MoreThanOneContract))
      else Scan(st.(contract := ts.name), None)
    else Scan(st.(types := st.types[ts.name := ts]), None)
  }

  /** The type specs of the `type` declarations, in file order. */
  function TypeSpecs(decls: seq<Decl>): seq<TypeSpec>
  {
    if decls == [] then []
    else TypeSpecs(decls[..|decls| - 1]) + (if decls[|decls| - 1].TypeDecl? then decls[|decls| - 1].specs else [])
  }

  /** `parseTypes` over a list of specs: the first error stops the scan and keeps the state reached. */
  function ScanTypes(specs: seq<TypeSpec>): Scan<TypesState>
  {
    if specs == [] then Scan(TypesState(map[], ""), None)
    else
      var prev := ScanTypes(specs[..|specs| - 1]);
      if prev.err.Some? then prev else ParseTypeSpec(prev.st, specs[|specs| - 1])
  }

  lemma ScanTypesSnoc(specs: seq<TypeSpec>, ts: TypeSpec)
    ensures ScanTypes(specs + [ts])
      == if ScanTypes(specs).err.Some? then ScanTypes(specs) else ParseTypeSpec(ScanTypes(specs).st, ts)
  {
    assert (specs + [ts])[..|specs|] == specs;
  }

  lemma SpecsSnoc(done: seq<TypeSpec>, specs: seq<TypeSpec>, j: nat)
    requires j < |specs|
    ensures done + specs[..j + 1] == (done + specs[..j]) + [specs[j]]
  {
    assert specs[..j + 1] == specs[..j] + [specs[j]];
  }

  lemma SpecsRest(done: seq<TypeSpec>, specs: seq<TypeSpec>, j: nat)
    requires j < |specs|
    ensures done + specs[..j + 1] + specs[j + 1..] == done + specs
  {
    assert specs[..j + 1] + specs[j + 1..] == specs;
  }

  /** Once stopped, later specs change nothing. */
  lemma {:induction false} ScanTypesSticky(specs: seq<TypeSpec>, more: seq<TypeSpec>)
    requires ScanTypes(specs).err.Some?
    ensures ScanTypes(specs + more) == ScanTypes(specs)
    decreases |more|
  {
    if more != [] {
      var m := more[..|more| - 1];
      assert (specs + more)[..|specs + more| - 1] == specs + m;
      ScanTypesSticky(specs, m);
    } else {
      assert specs + more == specs;
    }
  }

  /** The names of the contract types among the specs, in order. */
  function ContractNames(specs: seq<TypeSpec>): seq<string>
  {
    if specs == [] then []
    else ContractNames(specs[..|specs| - 1]) + (if IsContractTypeSpec(specs[|specs| - 1]) then [specs[|specs| - 1].name] else [])
  }

  /**
   * A file's types parse without error iff it has at most one contract type, and the contract
   * recorded is that type's name ("" when there is none). Go type names are never empty.
   */
  lemma {:induction false} ContractIsUnique(specs: seq<TypeSpec>)
    requires forall i :: 0 <= i < |specs| ==> specs[i].name != ""
    ensures ScanTypes(specs).err.None? <==> |ContractNames(specs)| <= 1
    ensures ScanTypes(specs).err.None? ==>
      ScanTypes(specs).st.contract == (if ContractNames(specs) == [] then "" else ContractNames(specs)[0])
    ensures ScanTypes(specs).err.Some? ==> ScanTypes(specs).err == Some(MoreThanOneContract)
    ensures forall k :: 0 <= k < |ContractNames(specs)| ==> ContractNames(specs)[k] != ""
    decreases |specs|
  {
    if specs != [] {
      var init := specs[..|specs| - 1];
      var last := specs[|specs| - 1];
      assert forall i :: 0 <= i < |init| ==> init[i] == specs[i];
      ContractIsUnique(init);
      var cn := ContractNames(init) + (if IsContractTypeSpec(last) then [last.name] else []);
      assert ContractNames(specs) == cn;
      if ScanTypes(init).err.Some? {
        assert ScanTypes(specs) == ScanTypes(init);
      } else {
        assert ScanTypes(specs) == ParseTypeSpec(ScanTypes(init).st, last);
      }
    }
  }

  /** Every non-contract type scanned before a stop is recorded under its name. */
  lemma {:induction false} OtherTypesRecorded(specs: seq<TypeSpec>, i: nat)
    requires i < |specs| && !IsContractTypeSpec(specs[i])
    requires ScanTypes(specs).err.None?
    ensures specs[i].name in ScanTypes(specs).st.types
    decreases |specs|
  {
    var init := specs[..|specs| - 1];
    if i < |specs| - 1 {
      OtherTypesRecorded(init, i);
    }
  }

  /** The part of a `ParsedFile` that `parseFunctionsAndMethods` fills. */
  datatype FuncsState = FuncsState(methods: map<string, seq<FuncDecl>>, constructors: map<string, seq<FuncDecl>>)

  /** `append(m[k], fd)` stored back under `k`; a missing key reads as an empty list. */
  function AppendAt(m: map<string, seq<FuncDecl>>, k: string, fd: FuncDecl): (r: map<string, seq<FuncDecl>>)
    ensures k in r && r[k] == (if k in m then m[k] else []) + [fd]
    ensures forall j :: j != k ==> (j in r <==> j in m) && (j in m ==> r[j] == m[j])
  {
    m[k := (if k in m then m[k] else []) + [fd]]
  }

  function ConstructorResultCountError(name: string): Error
  {
    Error("Constructor " + Quote(name) + " should return exactly two values")
  }

  function ConstructorErrorResultError(name: string): Error
  {
    Error("Constructor " + Quote(name) + " should return 'error'")
  }

  function MethodNoResultError(name: string): Error
  {
    Error("Method " + Quote(name) + " should return at least one result (error)")
  }

  function MethodLastResultError(name: string, last: string): Error
  {
    Error("Method " + Quote(name) + " should return 'error' as last value, but it's " + Quote(last))
  }

  /**
   * The type name of the `k`-th declared result as `res.List[k]` reads it: `None` when the
   * index runs past the entries, where Go panics with an index out of range.
   */
  function ResultAsWritten(results: seq<Field>, k: nat): Option<string>
  {
    if k < |results| then Some(TypeName(results[k].typ)) else None
  }

  /** The type name of the `k`-th declared result, counting each name of a grouped entry. */
  function ResultTypeName(results: seq<Field>, k: nat): (t: string)
    requires k < NumFields(results)
    ensures t == TypeName(Expand(results)[k])
  {
    FieldTypeAtIsExpanded(results, k);
    TypeName(FieldTypeAt(results, k))
  }

  /** Without grouped results the entry index and the declared-result index agree. */
  lemma AsWrittenAgreesWhenUngrouped(results: seq<Field>, k: nat)
    requires forall i :: 0 <= i < |results| ==> |results[i].names| <= 1
    requires k < |results|
    ensures NumFields(results) == |results|
    ensures ResultAsWritten(results, k) == Some(ResultTypeName(results, k))
  {
    UngroupedFieldTypeAt(results, k);
  }

  /** A result entry grouping two or more names makes the declared results outnumber the entries. */
  lemma {:induction false} GroupedOutnumbers(results: seq<Field>, i: nat)
    requires i < |results| && |results[i].names| >= 2
    ensures NumFields(results) > |results|
    decreases |results|
  {
    if i > 0 {
      GroupedOutnumbers(results[1..], i - 1);
    }
  }

  /**
   * Whatever the types, once some result entry groups two or more names, the index of the
   * last declared result (`parseMethod`'s `NumFields()-1`) is past the entry list, and so is
   * index 1 (`parseConstructor`'s) when two results are declared: Go panics there.
   */
  lemma GroupedResultsIndexPastEntries(results: seq<Field>, i: nat)
    requires i < |results| && |results[i].names| >= 2
    ensures ResultAsWritten(results, NumFields(results) - 1).None?
    ensures NumFields(results) == 2 ==> ResultAsWritten(results, 1).None?
  {
    GroupedOutnumbers(results, i);
  }

  /** `func (c *C) M() (a, b int, err error)`: `res.List[2]` is past the two entries. */
  lemma MethodGroupedResultsPanic()
    ensures var results := [Field(["a", "b"], Ident("int")), Field(["err"], Ident("error"))];
      NumFields(results) == 3 && ResultAsWritten(results, NumFields(results) - 1).None?
      && ResultTypeName(results, NumFields(results) - 1) == "error"
  {
    var results := [Field(["a", "b"], Ident("int")), Field(["err"], Ident("error"))];
    assert NumFields(results[1..]) == 1;
    assert FieldTypeAt(results, 2) == FieldTypeAt(results[1..], 0);
  }

  /** `func NewC() (c, err error)`: `res.List[1]` is past the single entry. */
  lemma ConstructorGroupedResultsPanic()
    ensures var results := [Field(["c", "err"], Ident("error"))];
      NumFields(results) == 2 && ResultAsWritten(results, 1).None?
      && ResultTypeName(results, 1) == "error"
  {
    var results := [Field(["c", "err"], Ident("error"))];
    assert NumFields(results[1..]) == 0;
  }

  /**
   * `parseConstructor`: exported functions not named `New…` are not constructors; a
   * constructor returns exactly two values, the second `error`, and is filed under the
   * type name of the first.
   */
  function ParseConstructor(st: FuncsState, fd: FuncDecl): Scan<FuncsState>
  {
    if !HasPrefix(fd.name, "New") then Scan(st, None)
    else if NumFields(fd.results) != 2 then Scan(st, Some(ConstructorResultCountError(fd.name)))
    else if ResultTypeName(fd.results, 1) != "error" then Scan(st, Some(ConstructorErrorResultError(fd.name)))
    else Scan(st.(constructors := AppendAt(st.constructors, TypeName(fd.results[0].typ), fd)), None)
  }

  /** `parseMethod`: at least one result, the last of type `error`; filed under the receiver's type name. */
  function ParseMethod(st: FuncsState, fd: FuncDecl): Scan<FuncsState>
    requires fd.recv != []
  {
    if NumFields(fd.results) < 1 then Scan(st, Some(MethodNoResultError(fd.name)))
    else
      var last := ResultTypeName(fd.results, NumFields(fd.results) - 1);
      if last != "error" then Scan(st, Some(MethodLastResultError(fd.name, last)))
      else Scan(st.(methods := AppendAt(st.methods, TypeName(fd.recv[0].typ), fd)), None)
  }

  /** One declaration of `parseFunctionsAndMethods`: only exported functions are looked at. */
  function ParseFunc(st: FuncsState, d: Decl): Scan<FuncsState>
  {
    if !d.FuncDeclaration? || !IsExported(d.fd.name) then Scan(st, None)
    else if NumFields(d.fd.recv) == 0 then ParseConstructor(st, d.fd)
    else ParseMethod(st, d.fd)
  }

  function ScanFuncs(decls: seq<Decl>): Scan<FuncsState>
  {
    if decls == [] then Scan(FuncsState(map[], map[]), None)
    else
      var prev := ScanFuncs(decls[..|decls| - 1]);
      if prev.err.Some? then prev else ParseFunc(prev.st, decls[|decls| - 1])
  }

  lemma {:induction false} ScanFuncsSticky(decls: seq<Decl>, more: seq<Decl>)
    requires ScanFuncs(decls).err.Some?
    ensures ScanFuncs(decls + more) == ScanFuncs(decls)
    decreases |more|
  {
    if more != [] {
      var m := more[..|more| - 1];
      assert (decls + more)[..|decls + more| - 1] == decls + m;
      ScanFuncsSticky(decls, m);
    } else {
      assert decls + more == decls;
    }
  }

  /** The constructor rules, both directions. */
  lemma ConstructorRules(st: FuncsState, fd: FuncDecl)
    ensures !HasPrefix(fd.name, "New") ==> ParseConstructor(st, fd) == Scan(st, None)
    ensures ParseConstructor(st, fd).err.None? <==>
      !HasPrefix(fd.name, "New") || (NumFields(fd.results) == 2 && TypeName(Expand(fd.results)[1]) == "error")
    ensures HasPrefix(fd.name, "New") && ParseConstructor(st, fd).err.None? ==>
      var k := TypeName(fd.results[0].typ);
      ParseConstructor(st, fd).st.constructors[k] == (if k in st.constructors then st.constructors[k] else []) + [fd]
  {
  }

  /** The method rules, both directions. */
  lemma MethodRules(st: FuncsState, fd: FuncDecl)
    requires fd.recv != []
    ensures ParseMethod(st, fd).err.None? <==>
      NumFields(fd.results) >= 1 && TypeName(Expand(fd.results)[NumFields(fd.results) - 1]) == "error"
    ensures ParseMethod(st, fd).err.None? ==>
      var k := TypeName(fd.recv[0].typ);
      ParseMethod(st, fd).st.methods[k] == (if k in st.methods then st.methods[k] else []) + [fd]
        && ParseMethod(st, fd).st.constructors == st.constructors
  {
  }

  /** Unexported functions and other declarations never fail and are never filed. */
  lemma UnexportedIgnored(st: FuncsState, d: Decl)
    requires !d.FuncDeclaration? || !IsExported(d.fd.name)
    ensures ParseFunc(st, d) == Scan(st, None)
  {
  }

  const NoContract: Error := Error("Only one smart contract must exist")

  /** What `ParseFile` returns after the file is read and parsed into `decls`. */
  function ParseOutcome(decls: seq<Decl>): Result<(TypesState, FuncsState), Error>
  {
    var types := ScanTypes(TypeSpecs(decls));
    if types.err.Some? then Failure(Wrap(types.err.value, ""))
    else
      var funcs := ScanFuncs(decls);
      if funcs.err.Some? then Failure(Wrap(funcs.err.value, ""))
      else if types.st.contract == "" then Failure(NoContract)
      else Success((types.st, funcs.st))
  }

  /**
   * A file without a contract type is refused, and so is one with two: the errors of the
   * scans reach the caller behind an empty wrap message, as ": " and the cause.
   */
  lemma {:induction false} ParseFileNeedsOneContract(decls: seq<Decl>)
    requires forall i :: 0 <= i < |TypeSpecs(decls)| ==> TypeSpecs(decls)[i].name != ""
    ensures |ContractNames(TypeSpecs(decls))| >= 2 ==>
      ParseOutcome(decls) == Failure(Error(": " + MoreThanOneContract.message))
    ensures ContractNames(TypeSpecs(decls)) == [] && ScanFuncs(decls).err.None? ==>
      ParseOutcome(decls) == Failure(NoContract)
    ensures ParseOutcome(decls).Success? ==>
      ContractNames(TypeSpecs(decls)) == [ParseOutcome(decls).value.0.contract]
  {
    ContractIsUnique(TypeSpecs(decls));
    assert "" + ": " + MoreThanOneContract.message == ": " + MoreThanOneContract.message;
  }

  /** A parsed contract file. */
  class ParsedFile {
    var name: string
    var packageName: string
    var decls: seq<Decl>
    var imports: seq<Import>
    var types: map<string, TypeSpec>
    var methods: map<string, seq<FuncDecl>>
    var constructors: map<string, seq<FuncDecl>>
    var contract: string

    /** The fields `ParseFile` sets before the scans. */
    constructor (name: string, packageName: string, decls: seq<Decl>, imports: seq<Import>)
      ensures this.name == name && this.packageName == packageName
      ensures this.decls == decls && this.imports == imports
      ensures types == map[] && methods == map[] && constructors == map[] && contract == ""
    {
      this.name := name;
      this.packageName := packageName;
      this.decls := decls;
      this.imports := imports;
      types := map[];
      methods := map[];
      constructors := map[];
      contract := "";
    }

    /** `parseTypeSpec` on the fields. */
    method ParseTypeSpecInto(ts: TypeSpec) returns (err: Option<Error>)
      modifies this`types, this`contract
      ensures var s := ParseTypeSpec(old(TypesState(types, contract)), ts);
        TypesState(types, contract) == s.st && err == s.err
    {
      if IsContractTypeSpec(ts) {
        if contract != "" {
          return Some(MoreThanOneContract);
        }
        contract := ts.name;
      } else {
        types := types[ts.name := ts];
      }
      return None;
    }

    /** The inner loop of `parseTypes`: the specs of one `type` declaration, after those already scanned. */
    method ParseTypeSpecsInto(ghost done: seq<TypeSpec>, specs: seq<TypeSpec>) returns (err: Option<Error>)
      requires ScanTypes(done) == Scan(TypesState(types, contract), None)
      modifies this`types, this`contract
      ensures ScanTypes(done + specs) == Scan(TypesState(types, contract), err)
    {
      assert done + specs[..0] == done;
      for j := 0 to |specs|
        invariant ScanTypes(done + specs[..j]) == Scan(TypesState(types, contract), None)
      {
        SpecsSnoc(done, specs, j);
        ScanTypesSnoc(done + specs[..j], specs[j]);
        err := ParseTypeSpecInto(specs[j]);
        if err.Some? {
          ScanTypesSticky(done + specs[..j + 1], specs[j + 1..]);
          SpecsRest(done, specs, j);
          return;
        }
      }
      assert specs[..|specs|] == specs;
      err := None;
    }

    /** `parseTypes`: every spec of every `type` declaration, stopping at the first error. */
    method ParseTypes() returns (err: Option<Error>)
      modifies this`types, this`contract
      ensures ScanTypes(TypeSpecs(decls)) == Scan(TypesState(types, contract), err)
    {
      types := map[];
      contract := "";
      for i := 0 to |decls|
        invariant ScanTypes(TypeSpecs(decls[..i])) == Scan(TypesState(types, contract), None)
      {
        assert decls[..i + 1][..i] == decls[..i];
        var specs := if decls[i].TypeDecl? then decls[i].specs else [];
        assert TypeSpecs(decls[..i + 1]) == TypeSpecs(decls[..i]) + specs;
        err := ParseTypeSpecsInto(TypeSpecs(decls[..i]), specs);
        if err.Some? {
          ScanTypesSticky(TypeSpecs(decls[..i + 1]), TypeSpecs(decls[i + 1..]));
          TypeSpecsSplit(decls, i + 1);
          return;
        }
      }
      assert decls[..|decls|] == decls;
      err := None;
    }

    /** `parseFunctionsAndMethods`: every exported function in file order, stopping at the first error. */
    method ParseFunctionsAndMethods() returns (err: Option<Error>)
      modifies this`methods, this`constructors
      ensures ScanFuncs(decls) == Scan(FuncsState(methods, constructors), err)
    {
      methods := map[];
      constructors := map[];
      for i := 0 to |decls|
        invariant ScanFuncs(decls[..i]) == Scan(FuncsState(methods, constructors), None)
      {
        assert decls[..i + 1][..i] == decls[..i];
        var d := decls[i];
        if !d.FuncDeclaration? || !IsExported(d.fd.name) {
          continue;
        }
        var s: Scan<FuncsState>;
        if NumFields(d.fd.recv) == 0 {
          s := ParseConstructor(FuncsState(methods, constructors), d.fd);
        } else {
          s := ParseMethod(FuncsState(methods, constructors), d.fd);
        }
        methods, constructors := s.st.methods, s.st.constructors;
        if s.err.Some? {
          ScanFuncsSticky(decls[..i + 1], decls[i + 1..]);
          assert decls[..i + 1] + decls[i + 1..] == decls;
          return s.err;
        }
      }
      assert decls[..|decls|] == decls;
      err := None;
    }
  }

  lemma {:induction false} TypeSpecsSplit(decls: seq<Decl>, i: nat)
    requires i <= |decls|
    ensures TypeSpecs(decls[..i]) + TypeSpecs(decls[i..]) == TypeSpecs(decls)
    decreases |decls|
  {
    if i == |decls| {
      assert decls[..i] == decls;
      assert decls[i..] == [];
    } else {
      var init := decls[..|decls| - 1];
      TypeSpecsSplit(init, i);
      assert init[..i] == decls[..i];
      assert decls[i..][..|decls[i..]| - 1] == init[i..];
      assert decls[i..][|decls[i..]| - 1] == decls[|decls| - 1];
    }
  }

  /**
   * `ParseFile` once the file has been read and parsed into `decls`: the type scan, the
   * function scan, then the one-contract check; any failure yields no parsed file.
   */
  method ParseFile(fileName: string, packageName: string, decls: seq<Decl>, imports: seq<Import>)
    returns (pf: ParsedFile?, err: Option<Error>)
    ensures err.None? <==> pf != null
    ensures ParseOutcome(decls).Failure? ==> err == Some(ParseOutcome(decls).error)
    ensures ParseOutcome(decls).Success? ==> (pf != null && fresh(pf)
      && pf.name == fileName && pf.packageName == packageName && pf.decls == decls && pf.imports == imports
      && (TypesState(pf.types, pf.contract), FuncsState(pf.methods, pf.constructors)) == ParseOutcome(decls).value)
  {
    var res := new ParsedFile(fileName, packageName, decls, imports);
    var e := res.ParseTypes();
    if e.Some? {
      return null, Some(Wrap(e.value, ""));
    }
    e := res.ParseFunctionsAndMethods();
    if e.Some? {
      return null, Some(Wrap(e.value, ""));
    }
    if res.contract == "" {
      return null, Some(NoContract);
    }
    return res, None;
  }

  /** The machine types a contract can be compiled for. */
  datatype MachineType = Builtin | GoPlugin | OtherMachine(id: int)

  /** `checkMachineType`: only the builtin and Go-plugin machines are supported. */
  function CheckMachineType(m: MachineType): (err: Option<Error>)
    ensures err.None? <==> m == Builtin || m == GoPlugin
    ensures err.Some? ==> err.value == Error("Unsupported machine type")
  {
    if m != GoPlugin && m != Builtin then Some(Error("Unsupported machine type")) else None
  }
}
