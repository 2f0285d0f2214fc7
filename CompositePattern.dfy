/**
 * The file-system composite: a component is either a file, whose size is
 * fixed when it is made, or a directory, which holds a list of components and
 * whose size is the sum of theirs.
 *
 * Both kinds are one class, told apart by isDirectory; a file's component list
 * stays empty. Repr is the set of objects a component's size depends on: the
 * component itself and everything below it. Valid() says the structure below
 * a component is a finite tree-shaped graph (a directory may hold the same
 * component twice or share it with another directory, but never contains
 * itself), which is what makes the recursive size well defined.
 */
module CompositePattern {
  import opened Lists

  class Component {
    const isDirectory: bool
    const name: string
    const fileSize: int
    var components: seq<Component>
    ghost var Repr: set<object>

    ghost predicate Valid()
      reads this, Repr
      decreases Repr
    {
      && this in Repr
      && (!isDirectory ==> components == [])
      && forall c :: c in components ==>
           c in Repr && c.Repr <= Repr && this !in c.Repr && c.Valid()
    }

    /** new File(name, size). */
    constructor File(name: string, size: int)
      ensures Valid() && fresh(Repr) && Repr == {this}
      ensures !isDirectory && this.name == name && fileSize == size
      ensures Size() == size
    {
      isDirectory := false;
      this.name := name;
      fileSize := size;
      components := [];
      Repr := {this};
    }

    /** new Directory(name): an empty directory, of size 0. */
    constructor Directory(name: string)
      ensures Valid() && fresh(Repr) && Repr == {this}
      ensures isDirectory && this.name == name && components == []
      ensures Size() == 0
    {
      isDirectory := true;
      this.name := name;
      fileSize := 0;
      components := [];
      Repr := {this};
    }

    /** getSize: a file's own size, or the sum of a directory's components' sizes. */
    function Size(): int
      reads this, Repr
      requires Valid()
      decreases Repr, 0
    {
      if isDirectory then SumSizes(components, Repr - {this}) else fileSize
    }

    /** The sizes of the files below this component, depth first, one entry per occurrence. */
    ghost function FileSizes(): seq<int>
      reads this, Repr
      requires Valid()
      decreases Repr, 0
    {
      if isDirectory then FileSizesOf(components, Repr - {this}) else [fileSize]
    }

    /** The size of a component is the total of the sizes of the files below it. */
    lemma {:induction false} SizeIsTotalOfFiles()
      requires Valid()
      ensures Size() == Total(FileSizes())
      decreases Repr, 0
    {
      if isDirectory {
        SumSizesIsTotalOfFiles(components, Repr - {this});
      }
    }

    /** addComponent: the component goes at the end, and the size grows by its size. */
    method AddComponent(c: Component)
      requires Valid() && isDirectory
      requires c.Valid() && this !in c.Repr
      modifies this
      ensures Valid()
      ensures components == old(components) + [c]
      ensures Repr == old(Repr) + c.Repr
      ensures Size() == old(Size() + c.Size())
    {
      ghost var children := components;
      ghost var bound := Repr - {this};
      components := components + [c];
      Repr := Repr + c.Repr;
      assert SumSizes(children, bound) == old(Size());
      assert c.Size() == old(c.Size());
      SumSizesAnyBound(children, bound, Repr - {this});
      SumSizesConcat(children, [c], Repr - {this});
    }

    /**
     * removeComponent: the first occurrence of the component, by identity,
     * goes and the size drops by its size; a component not held changes nothing.
     */
    method RemoveComponent(c: Component)
      requires Valid() && isDirectory
      modifies this
      ensures Valid()
      ensures components == RemoveFirst(old(components), c)
      ensures Repr == old(Repr)
      ensures Size() == old(Size() - if c in components then c.Size() else 0)
    {
      ghost var children := components;
      ghost var bound := Repr - {this};
      var i := IndexOf(components, c);
      if i == -1 {
        return;
      }
      assert children == children[..i] + [c] + children[i + 1..];
      components := RemoveFirst(components, c);
      assert components == children[..i] + children[i + 1..];
      assert SumSizes(children, bound) == old(Size());
      SumSizesConcat(children[..i] + [c], children[i + 1..], bound);
      SumSizesConcat(children[..i], [c], bound);
      SumSizesConcat(children[..i], children[i + 1..], bound);
    }

    /** getComponents: the components in order, as a list of its own. */
    method GetComponents() returns (r: seq<Component>)
      requires Valid()
      ensures r == components
      ensures forall c :: c in r ==> c.Valid() && c.Repr < Repr
    {
      r := components;
    }
  }

  /** The sum of the sizes of a list of components that all lie within bound. */
  function SumSizes(cs: seq<Component>, ghost bound: set<object>): int
    reads bound
    requires forall c :: c in cs ==> c in bound && c.Repr <= bound && c.Valid()
    decreases bound, 1, |cs|
  {
    if cs == [] then 0 else cs[0].Size() + SumSizes(cs[1..], bound)
  }

  ghost function FileSizesOf(cs: seq<Component>, bound: set<object>): seq<int>
    reads bound
    requires forall c :: c in cs ==> c in bound && c.Repr <= bound && c.Valid()
    decreases bound, 1, |cs|
  {
    if cs == [] then [] else cs[0].FileSizes() + FileSizesOf(cs[1..], bound)
  }

  function Total(s: seq<int>): int {
    if s == [] then 0 else s[0] + Total(s[1..])
  }

  lemma {:induction false} TotalConcat(a: seq<int>, b: seq<int>)
    ensures Total(a + b) == Total(a) + Total(b)
  {
    if a != [] {
      assert (a + b)[1..] == a[1..] + b;
      TotalConcat(a[1..], b);
    } else {
      assert a + b == b;
    }
  }

  lemma {:induction false} SumSizesIsTotalOfFiles(cs: seq<Component>, bound: set<object>)
    requires forall c :: c in cs ==> c in bound && c.Repr <= bound && c.Valid()
    ensures SumSizes(cs, bound) == Total(FileSizesOf(cs, bound))
    decreases bound, 1, |cs|
  {
    if cs != [] {
      cs[0].SizeIsTotalOfFiles();
      SumSizesIsTotalOfFiles(cs[1..], bound);
      TotalConcat(cs[0].FileSizes(), FileSizesOf(cs[1..], bound));
    }
  }

  /** The bound only frames the sum; any bound that covers the list gives the same value. */
  lemma {:induction false} SumSizesAnyBound(cs: seq<Component>, b1: set<object>, b2: set<object>)
    requires forall c :: c in cs ==> c in b1 && c.Repr <= b1 && c.Valid()
    requires forall c :: c in cs ==> c in b2 && c.Repr <= b2
    ensures SumSizes(cs, b1) == SumSizes(cs, b2)
  {
    if cs != [] {
      SumSizesAnyBound(cs[1..], b1, b2);
    }
  }

  /** The size of two lists of components together is the sum of their sizes. */
  lemma {:induction false} SumSizesConcat(a: seq<Component>, b: seq<Component>, bound: set<object>)
    requires forall c: Component :: c in a + b ==> c in bound && c.Repr <= bound && c.Valid()
    ensures SumSizes(a + b, bound) == SumSizes(a, bound) + SumSizes(b, bound)
  {
    if a != [] {
      assert (a + b)[1..] == a[1..] + b;
      SumSizesConcat(a[1..], b, bound);
    } else {
      assert a + b == b;
    }
  }

  /** A directory holding new files of the given names and sizes, in order, added with addComponent. */
  method DirectoryOf(name: string, fileNames: seq<string>, sizes: seq<int>) returns (d: Component)
    requires |fileNames| == |sizes|
    ensures d.Valid() && fresh(d.Repr) && d.isDirectory && d.name == name && |d.components| == |sizes|
    ensures d.Size() == Total(sizes)
  {
    d := new Component.Directory(name);
    var i := 0;
    while i < |sizes|
      invariant 0 <= i <= |sizes|
      invariant d.Valid() && fresh(d.Repr) && d.isDirectory && d.name == name && |d.components| == i
      invariant d.Size() == Total(sizes[..i])
    {
      var f := new Component.File(fileNames[i], sizes[i]);
      d.AddComponent(f);
      assert sizes[..i + 1] == sizes[..i] + [sizes[i]];
      TotalConcat(sizes[..i], [sizes[i]]);
      i := i + 1;
    }
    assert sizes[..i] == sizes;
  }

  lemma DemoTotals()
    ensures Total([2048, 1536]) == 2048 + 1536 && Total([1024]) == 1024
  {
    assert [2048, 1536][1..] == [1536];
  }

  /** The demonstration's parts: src with two files, docs with one, and a loose file. */
  method DemoParts() returns (src: Component, docs: Component, config: Component)
    ensures src.Valid() && docs.Valid() && config.Valid()
    ensures fresh(src.Repr) && fresh(docs.Repr) && fresh(config.Repr) && config.Repr == {config}
    ensures src.Size() == 2048 + 1536 && docs.Size() == 1024 && config.Size() == 512
  {
    DemoTotals();
    src := DirectoryOf("src", ["app.java", "test.java"], [2048, 1536]);
    docs := DirectoryOf("docs", ["README.md"], [1024]);
    config := new Component.File("config.json", 512);
  }

  /** The demonstration tree: the project holds both directories and the loose file. */
  method FileSystemScenario() returns (srcSize: int, docsSize: int, totalSize: int)
    ensures srcSize == 2048 + 1536 && docsSize == 1024 && totalSize == 1024 + 512 + 2048 + 1536
  {
    var src, docs, config := DemoParts();
    var project := new Component.Directory("project");
    assert project !in src.Repr && project !in docs.Repr && project !in config.Repr;
    srcSize := src.Size();
    docsSize := docs.Size();
    project.AddComponent(src);
    assert project.Size() == srcSize;
    assert docs.Valid() && docs.Size() == docsSize && config.Valid();
    project.AddComponent(docs);
    assert project.Size() == srcSize + docsSize;
    assert config.Valid() && config.Size() == 512;
    project.AddComponent(config);
    totalSize := project.Size();
  }
}
