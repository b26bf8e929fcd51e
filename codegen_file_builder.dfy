/** The generated C file under construction: a map of dependencies keyed by
    include path, with divergence detection, and an append-only body. `Build`
    renders the includes in ascending key order and wraps the body in `main`. */
module CFileBuilders {
  import opened Options
  import opened CDependencies

  /** Lexicographic order on strings, character by character, a proper
      prefix first: the order of the dependency map's keys. */
  predicate Less(a: string, b: string)
    decreases |a|
  {
    b != [] && (a == [] || a[0] < b[0] || (a[0] == b[0] && Less(a[1..], b[1..])))
  }

  lemma {:induction false} LessIrreflexive(a: string)
    ensures !Less(a, a)
    decreases |a|
  {
    if a != [] {
      LessIrreflexive(a[1..]);
    }
  }

  lemma {:induction false} LessTransitive(a: string, b: string, c: string)
    requires Less(a, b) && Less(b, c)
    ensures Less(a, c)
    decreases |a|
  {
    if a != [] && a[0] == b[0] && b[0] == c[0] {
      LessTransitive(a[1..], b[1..], c[1..]);
    }
  }

  lemma {:induction false} LessTotal(a: string, b: string)
    requires a != b
    ensures Less(a, b) || Less(b, a)
    decreases |a|
  {
    if a != [] && b != [] && a[0] == b[0] {
      assert a == [a[0]] + a[1..] && b == [b[0]] + b[1..];
      LessTotal(a[1..], b[1..]);
    }
  }

  /** Entries in strictly ascending include order: a std::map's iteration order. */
  predicate Sorted(es: seq<Dependency>)
  {
    forall i, j :: 0 <= i < j < |es| ==> Less(es[i].includePath, es[j].includePath)
  }

  /** The map the entries represent, keyed by include path. */
  function AsMap(es: seq<Dependency>): map<string, Dependency>
    decreases |es|
  {
    if es == [] then map[] else AsMap(es[1..])[es[0].includePath := es[0]]
  }

  lemma SortedTail(es: seq<Dependency>)
    requires Sorted(es) && es != []
    ensures Sorted(es[1..])
  {
    var rest := es[1..];
    forall i, j | 0 <= i < j < |rest| ensures Less(rest[i].includePath, rest[j].includePath) {
      assert rest[i] == es[i + 1] && rest[j] == es[j + 1];
    }
  }

  /** Every key of the map comes from an entry. */
  lemma {:induction false} AsMapHas(es: seq<Dependency>, k: string) returns (j: nat)
    requires k in AsMap(es)
    ensures j < |es| && es[j].includePath == k
    decreases |es|
  {
    if k == es[0].includePath {
      j := 0;
    } else {
      var j' := AsMapHas(es[1..], k);
      j := j' + 1;
    }
  }

  /** Every entry of sorted entries is in the map under its own key. */
  lemma {:induction false} AsMapAt(es: seq<Dependency>, j: nat)
    requires Sorted(es) && j < |es|
    ensures es[j].includePath in AsMap(es) && AsMap(es)[es[j].includePath] == es[j]
    decreases j
  {
    if j > 0 {
      SortedTail(es);
      AsMapAt(es[1..], j - 1);
      assert es[1..][j - 1] == es[j];
      LessIrreflexive(es[0].includePath);
    }
  }

  /** Removing the first entry removes its key and nothing else. */
  lemma RestMap(es: seq<Dependency>)
    requires Sorted(es) && es != []
    ensures Sorted(es[1..]) && AsMap(es[1..]) == AsMap(es) - {es[0].includePath}
  {
    var rest, k0 := es[1..], es[0].includePath;
    SortedTail(es);
    if k0 in AsMap(rest) {
      var j := AsMapHas(rest, k0);
      assert es[j + 1] == rest[j];
      LessIrreflexive(k0);
    }
    assert AsMap(es) == AsMap(rest)[k0 := es[0]];
  }

  /** Sorted entries are determined by the map they represent: whatever the
      order dependencies were added in, the same map has the same entries. */
  lemma {:induction false} SortedUnique(e1: seq<Dependency>, e2: seq<Dependency>)
    requires Sorted(e1) && Sorted(e2) && AsMap(e1) == AsMap(e2)
    ensures e1 == e2
    decreases |e1|
  {
    if e1 == [] || e2 == [] {
      if e1 != [] {
        AsMapAt(e1, 0);
      }
      if e2 != [] {
        AsMapAt(e2, 0);
      }
    } else {
      var k1, k2 := e1[0].includePath, e2[0].includePath;
      AsMapAt(e1, 0);
      AsMapAt(e2, 0);
      var j2 := AsMapHas(e2, k1);
      var j1 := AsMapHas(e1, k2);
      if k1 != k2 {
        assert Less(k2, k1);
        assert Less(k1, k2);
        LessTransitive(k1, k2, k1);
        LessIrreflexive(k1);
      }
      RestMap(e1);
      RestMap(e2);
      SortedUnique(e1[1..], e2[1..]);
      assert e1 == [e1[0]] + e1[1..] && e2 == [e2[0]] + e2[1..];
    }
  }

  /** Inserting a dependency whose key lies strictly between its neighbours
      keeps the entries sorted. */
  lemma InsertSorted(es: seq<Dependency>, i: nat, d: Dependency)
    requires Sorted(es) && i <= |es|
    requires forall j :: 0 <= j < i ==> Less(es[j].includePath, d.includePath)
    requires i < |es| ==> Less(d.includePath, es[i].includePath)
    ensures Sorted(es[..i] + [d] + es[i..])
  {
    var es' := es[..i] + [d] + es[i..];
    forall a, b | 0 <= a < b < |es'| ensures Less(es'[a].includePath, es'[b].includePath) {
      if a < i && b > i {
        assert es'[a] == es[a] && es'[b] == es[b - 1];
      } else if a == i {
        assert es'[b] == es[b - 1];
        if b - 1 > i {
          LessTransitive(d.includePath, es[i].includePath, es[b - 1].includePath);
        }
      } else if b == i {
        assert es'[a] == es[a];
      } else if a > i {
        assert es'[a] == es[a - 1] && es'[b] == es[b - 1];
      } else {
        assert es'[a] == es[a] && es'[b] == es[b];
      }
    }
  }

  /** The preconditions of an insertion at i: every entry before i sorts
      below the new key and the entry at i above it. */
  ghost predicate FitsAt(es: seq<Dependency>, i: nat, d: Dependency)
  {
    && Sorted(es) && i <= |es|
    && (forall j :: 0 <= j < i ==> Less(es[j].includePath, d.includePath))
    && (i < |es| ==> Less(d.includePath, es[i].includePath))
  }

  /** A key of the map after insertion is the new key or an old key, with
      its old dependency. */
  lemma InsertedKeyWasThere(es: seq<Dependency>, i: nat, d: Dependency, k: string)
    requires FitsAt(es, i, d) && k in AsMap(es[..i] + [d] + es[i..])
    ensures k in AsMap(es)[d.includePath := d]
    ensures AsMap(es[..i] + [d] + es[i..])[k] == AsMap(es)[d.includePath := d][k]
  {
    var es' := es[..i] + [d] + es[i..];
    InsertSorted(es, i, d);
    LessIrreflexive(d.includePath);
    var j := AsMapHas(es', k);
    AsMapAt(es', j);
    if j < i {
      assert es'[j] == es[j];
      AsMapAt(es, j);
    } else if j > i {
      assert es'[j] == es[j - 1];
      assert es'[i] == d;
      AsMapAt(es, j - 1);
    }
  }

  /** Every old key and the new key are in the map after insertion. */
  lemma InsertedKeyIsThere(es: seq<Dependency>, i: nat, d: Dependency, k: string)
    requires FitsAt(es, i, d) && k in AsMap(es)[d.includePath := d]
    ensures k in AsMap(es[..i] + [d] + es[i..])
  {
    var es' := es[..i] + [d] + es[i..];
    InsertSorted(es, i, d);
    if k != d.includePath {
      var j := AsMapHas(es, k);
      if j < i {
        assert es'[j] == es[j];
        AsMapAt(es', j);
      } else {
        assert es'[j + 1] == es[j];
        AsMapAt(es', j + 1);
      }
    } else {
      assert es'[i] == d;
      AsMapAt(es', i);
    }
  }

  /** ... and adds exactly that key to the map. */
  lemma Insert(es: seq<Dependency>, i: nat, d: Dependency)
    requires FitsAt(es, i, d)
    ensures var es' := es[..i] + [d] + es[i..];
      Sorted(es') && AsMap(es') == AsMap(es)[d.includePath := d]
  {
    var es' := es[..i] + [d] + es[i..];
    InsertSorted(es, i, d);
    forall k | k in AsMap(es')
      ensures k in AsMap(es)[d.includePath := d] && AsMap(es')[k] == AsMap(es)[d.includePath := d][k]
    {
      InsertedKeyWasThere(es, i, d, k);
    }
    forall k | k in AsMap(es)[d.includePath := d] ensures k in AsMap(es') {
      InsertedKeyIsThere(es, i, d, k);
    }
  }

  const DivergentHeadline: string := "Cannot add duplicate divergent dependency: "
  const DivergentExplanation: string :=
    "This is caused by the same dependency being included by multiple instructions, but with differing build instructions."
  const DivergentAdvice: string := "This is a compiler bug in code generation. Please report it!"

  /** The same include path added twice with different build instructions. */
  datatype DivergentDependencyError = DivergentDependencyError(includePath: string)
  {
    /** Three lines: the headline naming the include, the explanation and the
        request to report the bug; no final newline. */
    function Message(): string
    {
      DivergentHeadline + includePath + "\n" + DivergentExplanation + "\n" + DivergentAdvice
    }
  }

  lemma Parts(a: string, b: string, rest: string)
    ensures (a + b + rest)[..|a|] == a && (a + b + rest)[|a|..|a| + |b|] == b
  {
  }

  lemma Tail(a: string, b: string)
    ensures (a + b)[|a|..] == b
  {
  }

  /** The include path can be read back from the message's first line, which
      the headline opens, and the message closes with the advice. */
  lemma DivergentMessageLayout(e: DivergentDependencyError)
    ensures var m := e.Message(); var h := |DivergentHeadline|; var p := |e.includePath|;
      && m[..h] == DivergentHeadline
      && m[h..h + p] == e.includePath
      && m[h + p] == '\n'
      && m[|m| - |DivergentAdvice|..] == DivergentAdvice
  {
    var rest := "\n" + DivergentExplanation + "\n" + DivergentAdvice;
    var m := e.Message();
    assert m == DivergentHeadline + e.includePath + rest;
    Parts(DivergentHeadline, e.includePath, rest);
    var front := DivergentHeadline + e.includePath + "\n" + DivergentExplanation + "\n";
    assert m == front + DivergentAdvice;
    Tail(front, DivergentAdvice);
  }

  /** One include line: `<path>` for a system header, `"path"` for a source
      header. */
  function IncludeLine(d: Dependency): string
  {
    match d.kind
    case System => "<" + d.includePath + ">\n"
    case Source => "\"" + d.includePath + "\"\n"
  }

  /** The include lines of the entries, in order. */
  function IncludeSection(es: seq<Dependency>): string
    decreases |es|
  {
    if es == [] then "" else IncludeSection(es[..|es| - 1]) + IncludeLine(es[|es| - 1])
  }

  lemma IncludeSectionStep(es: seq<Dependency>, i: nat)
    requires i < |es|
    ensures IncludeSection(es[..i + 1]) == IncludeSection(es[..i]) + IncludeLine(es[i])
  {
    assert es[..i + 1][..i] == es[..i];
  }

  const MainOpen: string := "int main(int argc, char** argv) {\n"

  /** The whole file: the include lines, an empty line, then the body wrapped
      in `main`, the body followed by a newline and the closing brace. */
  function Rendered(es: seq<Dependency>, body: string): string
  {
    IncludeSection(es) + "\n" + MainOpen + body + "\n" + "}\n"
  }

  class FileBuilder {
    /** The dependency map, held as its entries in ascending key order. */
    var entries: seq<Dependency>
    var body: string

    ghost predicate Valid()
      reads this
    {
      Sorted(entries)
    }

    function Dependencies(): map<string, Dependency>
      reads this
    {
      AsMap(entries)
    }

    constructor ()
      ensures Valid() && entries == [] && body == ""
    {
      entries := [];
      body := "";
    }

    /** `add_dependency`: a new include path is inserted; a known one with an
        equal dependency changes nothing; a known one with a different
        dependency is reported as divergent and changes nothing either. */
    method AddDependency(dep: Dependency) returns (err: Option<DivergentDependencyError>)
      requires Valid()
      modifies this
      ensures Valid() && body == old(body)
      ensures dep.includePath !in old(Dependencies()) ==>
        err == None && Dependencies() == old(Dependencies())[dep.includePath := dep]
      ensures dep.includePath in old(Dependencies()) ==>
        && entries == old(entries)
        && (err == None <==> old(Dependencies())[dep.includePath] == dep)
        && (err.Some? ==> err.value == DivergentDependencyError(dep.includePath))
    {
      var i := 0;
      while i < |entries| && Less(entries[i].includePath, dep.includePath)
        invariant 0 <= i <= |entries|
        invariant forall j :: 0 <= j < i ==> Less(entries[j].includePath, dep.includePath)
      {
        i := i + 1;
      }
      if i < |entries| && entries[i].includePath == dep.includePath {
        AsMapAt(entries, i);
        if entries[i] != dep {
          return Some(DivergentDependencyError(dep.includePath));
        }
        return None;
      }
      if i < |entries| {
        LessTotal(entries[i].includePath, dep.includePath);
      }
      assert dep.includePath !in AsMap(entries) by {
        if dep.includePath in AsMap(entries) {
          var j := AsMapHas(entries, dep.includePath);
          LessIrreflexive(dep.includePath);
        }
      }
      Insert(entries, i, dep);
      entries := entries[..i] + [dep] + entries[i..];
      err := None;
    }

    /** `operator<<`: appends to the body. */
    method Write(code: string)
      modifies this
      ensures body == old(body) + code && entries == old(entries)
    {
      body := body + code;
    }

    /** `build`: the rendered file; neither the map nor the body changes. */
    method Build() returns (out: string)
      requires Valid()
      ensures out == Rendered(entries, body)
    {
      var includes := "";
      var i := 0;
      while i < |entries|
        invariant 0 <= i <= |entries|
        invariant includes == IncludeSection(entries[..i])
      {
        var line := match entries[i].kind
          case System => "<" + entries[i].includePath + ">\n"
          case Source => "\"" + entries[i].includePath + "\"\n";
        IncludeSectionStep(entries, i);
        includes := includes + line;
        i := i + 1;
      }
      assert entries[..i] == entries;
      out := includes + "\n" + MainOpen + body + "\n" + "}\n";
    }
  }

  /** Two builders whose maps and bodies agree render the same file: the
      include order is the key order, not the order of insertion. */
  lemma BuildDependsOnlyOnMap(e1: seq<Dependency>, e2: seq<Dependency>, body: string)
    requires Sorted(e1) && Sorted(e2) && AsMap(e1) == AsMap(e2)
    ensures Rendered(e1, body) == Rendered(e2, body)
  {
    SortedUnique(e1, e2);
  }

  /** A function parameter: its C type and name. */
  datatype Parameter = Parameter(typeName: string, name: string)

  function ParamText(p: Parameter): string
  {
    p.typeName + " " + p.name
  }

  /** The parameters as `type name` joined by ", ". */
  function ParamList(ps: seq<Parameter>): string
    decreases |ps|
  {
    if ps == [] then "" else if |ps| == 1 then ParamText(ps[0]) else ParamText(ps[0]) + ", " + ParamList(ps[1..])
  }

  /** What the definition loop has written after i parameters: each one
      followed by ", ". */
  function ParamPrefix(ps: seq<Parameter>, i: nat): string
    requires i <= |ps|
  {
    if i == 0 then "" else ParamPrefix(ps, i - 1) + ParamText(ps[i - 1]) + ", "
  }

  /** The loop's output followed by the last parameter is the joined list. */
  lemma {:induction false} ParamPrefixThenLast(ps: seq<Parameter>)
    requires ps != []
    ensures ParamPrefix(ps, |ps| - 1) + ParamText(ps[|ps| - 1]) == ParamList(ps)
    decreases |ps|
  {
    if |ps| > 1 {
      var rest := ps[1..];
      ParamPrefixThenLast(rest);
      PrefixShift(ps, |ps| - 1);
    }
  }

  lemma {:induction false} PrefixShift(ps: seq<Parameter>, i: nat)
    requires 1 <= i <= |ps|
    ensures ParamPrefix(ps, i) == ParamText(ps[0]) + ", " + ParamPrefix(ps[1..], i - 1)
  {
    if i > 1 {
      PrefixShift(ps, i - 1);
      assert ps[1..][i - 2] == ps[i - 1];
    }
  }

  /** What `FunctionDefinition` writes when it begins: `type name(`, the
      parameters joined by ", ", then `) {` and a newline. */
  function DefinitionOpen(returnType: string, name: string, params: seq<Parameter>): string
  {
    returnType + " " + name + "(" + ParamList(params) + ") {\n"
  }

  /** Without parameters the list is empty: `type name() {`; with one it is
      that parameter alone. */
  lemma DefinitionParameters(returnType: string, name: string, p: Parameter)
    ensures DefinitionOpen(returnType, name, []) == returnType + " " + name + "(" + ") {\n"
    ensures ParamList([p]) == p.typeName + " " + p.name
  {
  }

  /** ... and when it ends: the closing brace and a newline. */
  const DefinitionClose: string := "}\n"

  /** What `FunctionCall` writes when it begins: `name(`. */
  function CallOpen(name: string): string
  {
    name + "("
  }

  /** ... and when it ends: `);` and a newline. */
  const CallClose: string := ");\n"

  /** What `VariableBinding` writes when it begins: `type name = `. */
  function BindingOpen(typeName: string, name: string): string
  {
    typeName + " " + name + " = "
  }

  /** ... and when it ends: `;` and a newline. */
  const BindingClose: string := ";\n"

  /** `FunctionDefinition`'s constructor, with its loop over all parameters
      but the last. */
  method BeginFunctionDefinition(fb: FileBuilder, returnType: string, name: string, params: seq<Parameter>)
    modifies fb
    ensures fb.entries == old(fb.entries)
    ensures fb.body == old(fb.body) + DefinitionOpen(returnType, name, params)
  {
    ghost var body0 := fb.body;
    fb.Write(returnType + " " + name + "(");
    ghost var start := fb.body;
    if params != [] {
      var i := 0;
      while i < |params| - 1
        invariant 0 <= i <= |params| - 1
        invariant fb.entries == old(fb.entries)
        invariant fb.body == start + ParamPrefix(params, i)
      {
        fb.Write(params[i].typeName + " " + params[i].name + ", ");
        i := i + 1;
      }
      fb.Write(params[|params| - 1].typeName + " " + params[|params| - 1].name);
      ParamPrefixThenLast(params);
    }
    assert fb.body == start + ParamList(params);
    fb.Write(") {\n");
    assert start == body0 + (returnType + " " + name + "(");
  }

  /** `FunctionDefinition`'s destructor. */
  method EndFunctionDefinition(fb: FileBuilder)
    modifies fb
    ensures fb.entries == old(fb.entries) && fb.body == old(fb.body) + DefinitionClose
  {
    fb.Write("}\n");
  }

  /** `FunctionCall`'s constructor. */
  method BeginFunctionCall(fb: FileBuilder, name: string)
    modifies fb
    ensures fb.entries == old(fb.entries) && fb.body == old(fb.body) + CallOpen(name)
  {
    fb.Write(name + "(");
  }

  /** `FunctionCall`'s destructor. */
  method EndFunctionCall(fb: FileBuilder)
    modifies fb
    ensures fb.entries == old(fb.entries) && fb.body == old(fb.body) + CallClose
  {
    fb.Write(");\n");
  }

  /** `VariableBinding`'s constructor. */
  method BeginVariableBinding(fb: FileBuilder, typeName: string, name: string)
    modifies fb
    ensures fb.entries == old(fb.entries) && fb.body == old(fb.body) + BindingOpen(typeName, name)
  {
    fb.Write(typeName + " " + name + " = ");
  }

  /** `VariableBinding`'s destructor. */
  method EndVariableBinding(fb: FileBuilder)
    modifies fb
    ensures fb.entries == old(fb.entries) && fb.body == old(fb.body) + BindingClose
  {
    fb.Write(";\n");
  }

  /** `DirectExpression`: the text verbatim. */
  method DirectExpression(fb: FileBuilder, text: string)
    modifies fb
    ensures fb.entries == old(fb.entries) && fb.body == old(fb.body) + text
  {
    fb.Write(text);
  }
}
