/**
 * Inference of the source root directories of a Java compile task's `source` input, used by
 * incremental compilation to find the class file that belongs to a source file.
 *
 * The source input is visited root element by root element. Only elements that are directory
 * trees have a root; any other element (a plain file collection or a generic file tree) means
 * the roots cannot be inferred. Both results are computed on first demand and then cached.
 */
module CompilationSourceDirs {
  import opened Wrappers

  /** One root element of a file tree, as the visitor is shown it. */
  datatype RootElement =
    | FileCollection
    | FileTree
    | DirectoryFileTree(dir: string)

  /**
   * The root recorded for one element: a directory tree contributes its directory's absolute
   * path with the separator appended; other elements contribute nothing.
   */
  function RootOf(element: RootElement, absolutePath: string -> string, separatorChar: char): seq<string>
  {
    match element
    case DirectoryFileTree(dir) => [absolutePath(dir) + [separatorChar]]
    case _ => []
  }

  /** The roots of a sequence of elements, in visiting order. */
  function SourceRootsOf(elements: seq<RootElement>, absolutePath: string -> string, separatorChar: char): seq<string>
  {
    if elements == [] then []
    else SourceRootsOf(elements[..|elements| - 1], absolutePath, separatorChar)
         + RootOf(elements[|elements| - 1], absolutePath, separatorChar)
  }

  /** Roots can be inferred when every element is a directory tree. */
  predicate AllDirectoryTrees(elements: seq<RootElement>)
  {
    forall k :: 0 <= k < |elements| ==> elements[k].DirectoryFileTree?
  }

  /** The roots of a concatenation are the roots of its two parts, one after the other. */
  lemma {:induction false} SourceRootsAppend(a: seq<RootElement>, b: seq<RootElement>,
                                             absolutePath: string -> string, separatorChar: char)
    ensures SourceRootsOf(a + b, absolutePath, separatorChar)
            == SourceRootsOf(a, absolutePath, separatorChar) + SourceRootsOf(b, absolutePath, separatorChar)
    decreases |b|
  {
    if b == [] {
      assert a + b == a;
    } else {
      var b' := b[..|b| - 1];
      assert (a + b)[..|a + b| - 1] == a + b';
      assert (a + b)[|a + b| - 1] == b[|b| - 1];
      SourceRootsAppend(a, b', absolutePath, separatorChar);
    }
  }

  /** The number of directory trees among the elements. */
  function CountDirectoryTrees(elements: seq<RootElement>): nat
  {
    if elements == [] then 0
    else CountDirectoryTrees(elements[..|elements| - 1]) + (if elements[|elements| - 1].DirectoryFileTree? then 1 else 0)
  }

  /**
   * There is exactly one root per directory-tree element (duplicates included), and each root
   * is the absolute path of some directory-tree element followed by the separator.
   */
  lemma {:induction false} SourceRootsShape(elements: seq<RootElement>, absolutePath: string -> string, separatorChar: char)
    ensures |SourceRootsOf(elements, absolutePath, separatorChar)| == CountDirectoryTrees(elements)
    ensures forall r :: r in SourceRootsOf(elements, absolutePath, separatorChar) ==>
              r != [] && r[|r| - 1] == separatorChar
    ensures forall r :: r in SourceRootsOf(elements, absolutePath, separatorChar) ==>
              exists k :: 0 <= k < |elements| && elements[k].DirectoryFileTree?
                          && r == absolutePath(elements[k].dir) + [separatorChar]
  {
    if elements != [] {
      var init := elements[..|elements| - 1];
      SourceRootsShape(init, absolutePath, separatorChar);
      forall r | r in SourceRootsOf(elements, absolutePath, separatorChar)
        ensures exists k :: 0 <= k < |elements| && elements[k].DirectoryFileTree?
                            && r == absolutePath(elements[k].dir) + [separatorChar]
      {
        if r in SourceRootsOf(init, absolutePath, separatorChar) {
          var k :| 0 <= k < |init| && init[k].DirectoryFileTree? && r == absolutePath(init[k].dir) + [separatorChar];
          assert elements[k] == init[k];
        } else {
          assert r in RootOf(elements[|elements| - 1], absolutePath, separatorChar);
        }
      }
    }
  }

  /**
   * Roots keep the visiting order: the directory tree at position k gives the root at position
   * "number of directory trees before k".
   */
  lemma RootPosition(elements: seq<RootElement>, k: nat, absolutePath: string -> string, separatorChar: char)
    requires k < |elements| && elements[k].DirectoryFileTree?
    ensures CountDirectoryTrees(elements[..k]) < |SourceRootsOf(elements, absolutePath, separatorChar)|
    ensures SourceRootsOf(elements, absolutePath, separatorChar)[CountDirectoryTrees(elements[..k])]
            == absolutePath(elements[k].dir) + [separatorChar]
  {
    var before := elements[..k];
    assert elements[..k + 1][..k] == before;
    assert elements == elements[..k + 1] + elements[k + 1..];
    SourceRootsAppend(elements[..k + 1], elements[k + 1..], absolutePath, separatorChar);
    SourceRootsShape(before, absolutePath, separatorChar);
  }

  /** Elements that are not directory trees never change the roots, wherever they stand. */
  lemma OtherElementsAddNoRoot(a: seq<RootElement>, other: RootElement, b: seq<RootElement>,
                               absolutePath: string -> string, separatorChar: char)
    requires !other.DirectoryFileTree?
    ensures SourceRootsOf(a + [other] + b, absolutePath, separatorChar) == SourceRootsOf(a + b, absolutePath, separatorChar)
  {
    assert SourceRootsOf([other], absolutePath, separatorChar) == [] by {
      assert [other][..0] == [];
    }
    SourceRootsAppend(a, [other], absolutePath, separatorChar);
    assert SourceRootsOf(a + [other], absolutePath, separatorChar) == SourceRootsOf(a, absolutePath, separatorChar);
    SourceRootsAppend(a + [other], b, absolutePath, separatorChar);
    SourceRootsAppend(a, b, absolutePath, separatorChar);
  }

  /** Once an element that is not a directory tree has been seen, no longer input restores inference. */
  lemma InferenceLostForGood(a: seq<RootElement>, b: seq<RootElement>)
    requires !AllDirectoryTrees(a)
    ensures !AllDirectoryTrees(a + b)
  {
    var k :| 0 <= k < |a| && !a[k].DirectoryFileTree?;
    assert (a + b)[k] == a[k];
  }

  /** The visitor handed to the source tree: it collects roots and clears the flag. */
  class SourceRootVisitor {
    const absolutePath: string -> string
    const separatorChar: char
    var canInferSourceRoots: bool
    var sourceRoots: seq<string>

    constructor (absolutePath: string -> string, separatorChar: char)
      ensures this.absolutePath == absolutePath && this.separatorChar == separatorChar
      ensures canInferSourceRoots && sourceRoots == []
    {
      this.absolutePath := absolutePath;
      this.separatorChar := separatorChar;
      canInferSourceRoots := true;
      sourceRoots := [];
    }

    /** A plain file collection: roots cannot be inferred; the flag never comes back. */
    method VisitCollection()
      modifies this`canInferSourceRoots
      ensures !canInferSourceRoots
    {
      CannotInferSourceRoots();
    }

    /** A generic file tree: roots cannot be inferred either. */
    method VisitTree()
      modifies this`canInferSourceRoots
      ensures !canInferSourceRoots
    {
      CannotInferSourceRoots();
    }

    /** A directory tree: its root is appended; the flag is left as it was. */
    method VisitDirectoryTree(dir: string)
      modifies this`sourceRoots
      ensures sourceRoots == old(sourceRoots) + [AbsolutePath(dir)]
    {
      sourceRoots := sourceRoots + [AbsolutePath(dir)];
    }

    method CannotInferSourceRoots()
      modifies this`canInferSourceRoots
      ensures !canInferSourceRoots
    {
      canInferSourceRoots := false;
    }

    /** A directory's absolute path with the platform's separator appended. */
    function AbsolutePath(dir: string): (root: string)
      ensures RootOf(DirectoryFileTree(dir), absolutePath, separatorChar) == [root]
      ensures root != [] && root[|root| - 1] == separatorChar && root[..|root| - 1] == absolutePath(dir)
    {
      absolutePath(dir) + [separatorChar]
    }

    /** Shows the visitor one element, by the callback that belongs to its kind. */
    method Visit(element: RootElement)
      modifies this
      ensures sourceRoots == old(sourceRoots) + RootOf(element, absolutePath, separatorChar)
      ensures canInferSourceRoots == (old(canInferSourceRoots) && element.DirectoryFileTree?)
    {
      match element
      case FileCollection => VisitCollection();
      case FileTree => VisitTree();
      case DirectoryFileTree(dir) => VisitDirectoryTree(dir);
    }
  }

  /**
   * The lazily resolved source roots of a compile task's sources. `absolutePath` is the
   * platform's `File.getAbsolutePath` and `separatorChar` its `File.separatorChar`.
   */
  class CompilationSourceDirs {
    const sources: seq<RootElement>
    const absolutePath: string -> string
    const separatorChar: char
    var sourceRoots: Option<seq<string>>
    var canInferSourceRoots: bool
    /** How often the sources have been visited. */
    ghost var resolutions: nat

    /** Resolution happened exactly when the roots are cached, and the cache holds its results. */
    ghost predicate Valid()
      reads this
    {
      && resolutions == (if sourceRoots.Some? then 1 else 0)
      && (sourceRoots.Some? ==>
            && sourceRoots.value == SourceRootsOf(sources, absolutePath, separatorChar)
            && canInferSourceRoots == AllDirectoryTrees(sources))
    }

    constructor (sources: seq<RootElement>, absolutePath: string -> string, separatorChar: char)
      ensures Valid()
      ensures this.sources == sources && this.absolutePath == absolutePath && this.separatorChar == separatorChar
      ensures sourceRoots == None && resolutions == 0
    {
      this.sources := sources;
      this.absolutePath := absolutePath;
      this.separatorChar := separatorChar;
      sourceRoots := None;
      canInferSourceRoots := false;
      resolutions := 0;
    }

    /** The source roots, resolved on the first query of either getter. */
    method GetSourceRoots() returns (roots: seq<string>)
      requires Valid()
      modifies this
      ensures Valid() && sourceRoots.Some? && resolutions == 1
      ensures roots == SourceRootsOf(sources, absolutePath, separatorChar)
      ensures old(sourceRoots).Some? ==> unchanged(this)
    {
      if sourceRoots.None? {
        ResolveRoots();
      }
      roots := sourceRoots.value;
    }

    /** Whether every root element is a directory tree, resolved on the first query of either getter. */
    method CanInferSourceRoots() returns (canInfer: bool)
      requires Valid()
      modifies this
      ensures Valid() && sourceRoots.Some? && resolutions == 1
      ensures canInfer == AllDirectoryTrees(sources)
      ensures old(sourceRoots).Some? ==> unchanged(this)
    {
      if sourceRoots.None? {
        ResolveRoots();
      }
      canInfer := canInferSourceRoots;
    }

    /** Visits every root element once and stores both results together. */
    method ResolveRoots()
      requires Valid() && sourceRoots.None?
      modifies this
      ensures Valid() && sourceRoots.Some? && resolutions == old(resolutions) + 1
    {
      var visitor := new SourceRootVisitor(absolutePath, separatorChar);
      var i := 0;
      while i < |sources|
        invariant 0 <= i <= |sources|
        modifies visitor
        invariant visitor.absolutePath == absolutePath && visitor.separatorChar == separatorChar
        invariant visitor.sourceRoots == SourceRootsOf(sources[..i], absolutePath, separatorChar)
        invariant visitor.canInferSourceRoots == AllDirectoryTrees(sources[..i])
      {
        visitor.Visit(sources[i]);
        assert sources[..i + 1][..i] == sources[..i];
        i := i + 1;
      }
      assert sources[..i] == sources;
      canInferSourceRoots := visitor.canInferSourceRoots;
      sourceRoots := Some(visitor.sourceRoots);
      resolutions := resolutions + 1;
    }
  }
}
