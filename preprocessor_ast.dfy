/**
 * The slice of a Go syntax tree the contract preprocessor looks at. A type expression's
 * source text is rebuilt from its parts in gofmt layout (`codeOfNode`).
 */
module PreprocessorAst {
  import opened Wrappers

  /** A type expression: a pointer, a qualified name `pkg.Name`, a plain name, or any other type written out. */
  datatype TypeExpr = Star(x: TypeExpr) | Selector(pkg: string, sel: string) | Ident(name: string) | OtherType(text: string)

  /** One entry of a field list: `a, b T` has two names, an unnamed result or embedded field none. */
  datatype Field = Field(names: seq<string>, typ: TypeExpr)

  /** A type declaration's right-hand side: a struct with its fields, or another kind of type. */
  datatype TypeDef = StructType(fields: seq<Field>) | OtherTypeDef(text: string)

  datatype TypeSpec = TypeSpec(name: string, def: TypeDef)

  /** A function or method declaration; `recv` is empty for a plain function, `doc` holds its comment lines. */
  datatype FuncDecl = FuncDecl(name: string, recv: seq<Field>, params: seq<Field>, results: seq<Field>, doc: seq<string>)

  /** A top-level declaration: a `type` group, a function, or anything else. */
  datatype Decl = TypeDecl(specs: seq<TypeSpec>) | FuncDeclaration(fd: FuncDecl) | OtherDecl

  /** An import: the optional alias and the quoted path literal. */
  datatype Import = Import(alias: Option<string>, path: string)

  /** `codeOfNode` of a type expression. */
  function Text(t: TypeExpr): string
  {
    match t
    case Star(x) => "*" + Text(x)
    case Selector(p, s) => p + "." + s
    case Ident(n) => n
    case OtherType(s) => s
  }

  /** `typeName`: the text of a type with at most one leading pointer star removed. */
  function TypeName(t: TypeExpr): (s: string)
    ensures t.Star? ==> s == Text(t.x)
    ensures !t.Star? ==> s == Text(t)
  {
    if t.Star? then Text(t.x) else Text(t)
  }

  /** Only one star is removed: `**T` is named `*T`. */
  lemma TypeNameStripsOneStar(t: TypeExpr)
    ensures TypeName(Star(Star(t))) == "*" + Text(t)
    ensures TypeName(Star(t)) == Text(t) && TypeName(Ident(Text(t))) == Text(t)
  {
  }

  /** `FieldList.NumFields`: each entry counts its names, an unnamed entry counts one. */
  function NumFields(list: seq<Field>): (n: nat)
    ensures n >= |list|
    ensures list == [] <==> n == 0
  {
    if list == [] then 0
    else (if |list[0].names| == 0 then 1 else |list[0].names|) + NumFields(list[1..])
  }

  /** The field types one per declared field, so `a, b int` contributes `int` twice. */
  function Expand(list: seq<Field>): (types: seq<TypeExpr>)
    ensures |types| == NumFields(list)
  {
    if list == [] then []
    else seq(if |list[0].names| == 0 then 1 else |list[0].names|, _ => list[0].typ) + Expand(list[1..])
  }

  /** The type of the `k`-th declared field, found by walking the grouped entries. */
  function FieldTypeAt(list: seq<Field>, k: nat): TypeExpr
    requires k < NumFields(list)
  {
    var width := if |list[0].names| == 0 then 1 else |list[0].names|;
    if k < width then list[0].typ else FieldTypeAt(list[1..], k - width)
  }

  lemma {:induction false} FieldTypeAtIsExpanded(list: seq<Field>, k: nat)
    requires k < NumFields(list)
    ensures FieldTypeAt(list, k) == Expand(list)[k]
    decreases |list|
  {
    var width := if |list[0].names| == 0 then 1 else |list[0].names|;
    if k >= width {
      FieldTypeAtIsExpanded(list[1..], k - width);
    }
  }

  /** With no grouped entries, declared fields and entries coincide. */
  lemma {:induction false} UngroupedFieldTypeAt(list: seq<Field>, k: nat)
    requires forall i :: 0 <= i < |list| ==> |list[i].names| <= 1
    requires k < |list|
    ensures NumFields(list) == |list| && FieldTypeAt(list, k) == list[k].typ
    decreases |list|
  {
    if k > 0 {
      UngroupedFieldTypeAt(list[1..], k - 1);
    } else if |list| > 1 {
      UngroupedFieldTypeAt(list[1..], 0);
    }
  }

  function HasPrefix(s: string, prefix: string): bool
  {
    |prefix| <= |s| && s[..|prefix|] == prefix
  }

  /** `ast.IsExported`, for ASCII names: the name starts with a capital `A`-`Z`. */
  predicate IsExported(name: string)
  {
    |name| > 0 && 'A' <= name[0] <= 'Z'
  }
}
