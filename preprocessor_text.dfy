/**
 * The code-text builders of the contract preprocessor: the comma-separated variable and
 * parameter lists and the zero-value declarations that fill its wrapper and proxy templates.
 */
module PreprocessorText {
  import opened Decimal
  import opened PreprocessorAst

  /** The doc-comment line that marks a contract method as immutable. */
  const ImmutableFlag: string := "//ins:immutable"

  /** The items separated by `sep`; the reference definition the builders are proved against. */
  function Join(items: seq<string>, sep: string): string
  {
    if |items| == 0 then ""
    else if |items| == 1 then items[0]
    else Join(items[..|items| - 1], sep) + sep + items[|items| - 1]
  }

  /** `commaAppend`: `r` after an empty list, otherwise `l + ", " + r`. */
  function CommaAppend(l: string, r: string): string
  {
    if l == "" then r else l + ", " + r
  }

  /** `name0`, `name1`, …: the variable names the templates number from zero. */
  function Numbered(name: string, n: nat): (names: seq<string>)
    ensures |names| == n
    ensures forall i :: 0 <= i < n ==> names[i] == name + NatToString(i) && names[i] != ""
  {
    seq(n, i requires 0 <= i => name + NatToString(i))
  }

  /** Appending a non-empty item to a joined list with `commaAppend` joins one more item. */
  lemma CommaAppendJoins(items: seq<string>, item: string)
    requires item != ""
    requires |items| > 0 ==> items[0] != ""
    ensures CommaAppend(Join(items, ", "), item) == Join(items + [item], ", ")
  {
    assert (items + [item])[..|items|] == items;
    if |items| == 1 {
      assert Join(items, ", ") == items[0];
    }
  }

  /** `numberedVarsI(n, name)`: "" for 0, otherwise "name0, name1, …, name(n-1)". */
  method NumberedVarsI(n: nat, name: string) returns (res: string)
    ensures res == Join(Numbered(name, n), ", ")
  {
    if n == 0 {
      return "";
    }
    res := "";
    for i := 0 to n
      invariant res == Join(Numbered(name, i), ", ")
    {
      CommaAppendJoins(Numbered(name, i), name + NatToString(i));
      assert Numbered(name, i) + [name + NatToString(i)] == Numbered(name, i + 1);
      res := CommaAppend(res, name + NatToString(i));
    }
  }

  /** `numberedVars`: one numbered variable per declared field of the list. */
  method NumberedVars(list: seq<Field>, name: string) returns (res: string)
    ensures res == Join(Numbered(name, NumFields(list)), ", ")
  {
    if NumFields(list) == 0 {
      return "";
    }
    res := NumberedVarsI(NumFields(list), name);
  }

  /**
   * The `ResultsWithErr` and `ResultsNilError` texts: all results but the last, numbered,
   * then the given final value; with a single result only that value remains.
   */
  lemma ResultsWithFinal(k: nat, final: string)
    requires final != ""
    ensures CommaAppend(Join(Numbered("ret", k), ", "), final) == Join(Numbered("ret", k) + [final], ", ")
    ensures k == 0 ==> CommaAppend(Join(Numbered("ret", k), ", "), final) == final
  {
    CommaAppendJoins(Numbered("ret", k), final);
  }

  /** `typeIndexes`: the positions, ascending, of exactly the entries whose type text is `t`. */
  method TypeIndexes(list: seq<Field>, t: string) returns (rets: seq<nat>)
    ensures forall k :: 0 <= k < |rets| - 1 ==> rets[k] < rets[k + 1]
    ensures forall i :: i in rets <==> 0 <= i < |list| && Text(list[i].typ) == t
  {
    rets := [];
    if NumFields(list) == 0 {
      return;
    }
    for i := 0 to |list|
      invariant forall k :: 0 <= k < |rets| - 1 ==> rets[k] < rets[k + 1]
      invariant forall k :: 0 <= k < |rets| ==> rets[k] < i
      invariant forall j :: j in rets <==> 0 <= j < i && Text(list[j].typ) == t
    {
      if Text(list[i].typ) == t {
        rets := rets + [i];
      }
    }
  }

  /** The type a zero value is declared with: `error` becomes `*foundation.Error`. */
  function ZeroType(t: TypeExpr): string
  {
    if Text(t) == "error" then "*foundation.Error" else Text(t)
  }

  /** The two lines declaring the `i`-th zero value and storing its address. */
  function ZeroDecl(name: string, i: nat, t: TypeExpr): string
  {
    ZeroVar(name, i, ZeroType(t)) + ZeroStore(name, i)
  }

  function ZeroVar(name: string, i: nat, tname: string): string
  {
    "\tvar " + name + NatToString(i) + " " + tname + "\n"
  }

  function ZeroStore(name: string, i: nat): string
  {
    "\t" + name + "[" + NatToString(i) + "] = &" + name + NatToString(i) + "\n"
  }

  /** The zero-value declarations of the first `n` entries. */
  function ZeroDecls(name: string, list: seq<Field>, n: nat): string
    requires n <= |list|
  {
    if n == 0 then "" else ZeroDecls(name, list, n - 1) + ZeroDecl(name, n - 1, list[n - 1].typ)
  }

  /** What `generateZeroListOfTypes` produces. */
  function ZeroList(name: string, list: seq<Field>): string
  {
    if NumFields(list) == 0 then name + " := []interface{}{}\n"
    else name + " := [" + NatToString(NumFields(list)) + "]interface{}{}\n" + ZeroDecls(name, list, |list|)
  }

  /** The body of `generateZeroListOfTypes`' loop: the declaration and the store of one zero value. */
  method ZeroDeclText(name: string, i: nat, t: TypeExpr) returns (piece: string)
    ensures piece == ZeroDecl(name, i, t)
  {
    var tname := Text(t);
    if tname == "error" {
      tname := "*foundation.Error";
    }
    var declare := "\tvar " + name + NatToString(i) + " " + tname + "\n";
    var store := "\t" + name + "[" + NatToString(i) + "] = &" + name + NatToString(i) + "\n";
    assert declare == ZeroVar(name, i, tname) && store == ZeroStore(name, i);
    piece := declare + store;
  }

  /** `generateZeroListOfTypes`: an array of the list's size, then one zero value per entry. */
  method GenerateZeroListOfTypes(name: string, list: seq<Field>) returns (text: string)
    ensures text == ZeroList(name, list)
  {
    if NumFields(list) == 0 {
      return name + " := []interface{}{}\n";
    }
    text := name + " := [" + NatToString(NumFields(list)) + "]interface{}{}\n";
    text := AppendZeroDecls(text, name, list);
  }

  /** The loop of `generateZeroListOfTypes`: one zero value per entry, appended in order. */
  method AppendZeroDecls(header: string, name: string, list: seq<Field>) returns (text: string)
    ensures text == header + ZeroDecls(name, list, |list|)
  {
    text := header;
    for i := 0 to |list|
      invariant text == header + ZeroDecls(name, list, i)
    {
      var piece := ZeroDeclText(name, i, list[i].typ);
      ZeroDeclsStep(header, name, list, i, text, piece);
      text := text + piece;
    }
  }

  lemma ZeroDeclsStep(header: string, name: string, list: seq<Field>, i: nat, text: string, piece: string)
    requires i < |list| && text == header + ZeroDecls(name, list, i) && piece == ZeroDecl(name, i, list[i].typ)
    ensures text + piece == header + ZeroDecls(name, list, i + 1)
  {
    var before := ZeroDecls(name, list, i);
    assert ZeroDecls(name, list, i + 1) == before + piece;
    AppendAssoc(header, before, piece);
  }

  lemma PrefixOfAppend(p: string, a: string, b: string)
    requires p <= a
    ensures p <= a + b
  {
    assert (a + b)[..|p|] == a[..|p|];
  }

  lemma AppendAssoc(a: string, b: string, c: string)
    ensures (a + b) + c == a + (b + c)
  {
  }

  /** Zero values are declared in entry order: the declarations of the first `k` entries begin those of the first `n`. */
  lemma {:induction false} ZeroDeclsPrefix(name: string, list: seq<Field>, k: nat, n: nat)
    requires k <= n <= |list|
    ensures ZeroDecls(name, list, k) <= ZeroDecls(name, list, n)
    decreases n
  {
    if k < n {
      ZeroDeclsPrefix(name, list, k, n - 1);
      var last := ZeroDecl(name, n - 1, list[n - 1].typ);
      PrefixOfAppend(ZeroDecls(name, list, k), ZeroDecls(name, list, n - 1), last);
    }
  }

  /** One parameter in a signature: its first name, if names are wanted, then its type text. */
  function FieldText(f: Field, withNames: bool): string
    requires withNames ==> |f.names| > 0
  {
    (if withNames then f.names[0] + " " else "") + Text(f.typ)
  }

  predicate AllNamed(list: seq<Field>)
  {
    forall i :: 0 <= i < |list| ==> |list[i].names| > 0
  }

  function FieldTexts(list: seq<Field>, withNames: bool): (texts: seq<string>)
    requires withNames ==> AllNamed(list)
    ensures |texts| == |list|
    ensures forall i :: 0 <= i < |list| ==> texts[i] == FieldText(list[i], withNames)
  {
    seq(|list|, i requires 0 <= i < |list| => FieldText(list[i], withNames))
  }

  /**
   * `genFieldList`: the entries' texts separated by ", ". Naming every entry needs every entry
   * to have a name (`Names[0]` of an unnamed entry panics).
   */
  method GenFieldList(list: seq<Field>, withNames: bool) returns (res: string)
    requires withNames ==> AllNamed(list)
    ensures res == Join(FieldTexts(list, withNames), ", ")
  {
    res := "";
    for i := 0 to |list|
      invariant res == Join(FieldTexts(list[..i], withNames), ", ")
    {
      assert FieldTexts(list[..i + 1], withNames)[..i] == FieldTexts(list[..i], withNames);
      if i > 0 {
        res := res + ", ";
      }
      res := res + FieldText(list[i], withNames);
    }
    assert list[..|list|] == list;
  }

  /** Only the first name of a grouped entry is written: `a, b int` becomes `a int`. */
  lemma GroupedParametersLoseNames()
    ensures Join(FieldTexts([Field(["a", "b"], Ident("int"))], true), ", ") == "a int"
  {
    var f := Field(["a", "b"], Ident("int"));
    assert FieldText(f, true) == "a int";
    assert FieldTexts([f], true) == ["a int"];
  }

  /** `isImmutable`: some line of the doc comment is exactly the immutable flag. */
  method IsImmutable(doc: seq<string>) returns (immutable: bool)
    ensures immutable <==> ImmutableFlag in doc
  {
    immutable := false;
    for i := 0 to |doc|
      invariant immutable <==> ImmutableFlag in doc[..i]
    {
      assert doc[..i + 1] == doc[..i] + [doc[i]];
      if doc[i] == ImmutableFlag {
        immutable := true;
      }
    }
    assert doc[..|doc|] == doc;
  }
}
