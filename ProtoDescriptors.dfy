/**
  The schema payload the converter registers for each channel
  (`_build_file_descriptor_set_bytes` in kitti_to_mcap.py): the message's
  `.proto` file and, depth first, every file it imports, each name once.
  The payload's serialisation is not modelled; the set is the list of files.
*/
module ProtoDescriptors {

  /** A `.proto` file: its name (empty when it has none) and the files it imports, in order. */
  datatype FileDescriptor = FileDescriptor(name: string, dependencies: seq<FileDescriptor>)

  /** What `add_file` updates: the names seen so far and the files appended to the set. */
  datatype Builder = Builder(seen: set<string>, files: seq<FileDescriptor>)

  /** `add_file(fd)`: files without a name, or with a name already seen, add nothing. */
  function Visit(fd: FileDescriptor, b: Builder): Builder
    decreases fd, |fd.dependencies| + 1
  {
    if fd.name == "" || fd.name in b.seen then b
    else VisitDependencies(fd, |fd.dependencies|, Builder(b.seen + {fd.name}, b.files + [fd]))
  }

  /** The loop over the first `n` dependencies of `fd`. */
  function VisitDependencies(fd: FileDescriptor, n: nat, b: Builder): Builder
    requires n <= |fd.dependencies|
    decreases fd, n
  {
    if n == 0 then b
    else Visit(fd.dependencies[n - 1], VisitDependencies(fd, n - 1, b))
  }

  /** The files of the set built for the message whose file is `root`. */
  function DescriptorSet(root: FileDescriptor): seq<FileDescriptor> {
    Visit(root, Builder({}, [])).files
  }

  /** `add_file`, recursing into each dependency in order. */
  method AddFile(fd: FileDescriptor, seen: set<string>, files: seq<FileDescriptor>)
    returns (seen': set<string>, files': seq<FileDescriptor>)
    ensures Builder(seen', files') == Visit(fd, Builder(seen, files))
    decreases fd
  {
    if fd.name == "" || fd.name in seen {
      return seen, files;
    }
    seen' := seen + {fd.name};
    files' := files + [fd];
    for k := 0 to |fd.dependencies|
      invariant Builder(seen', files') == VisitDependencies(fd, k, Builder(seen + {fd.name}, files + [fd]))
    {
      seen', files' := AddFile(fd.dependencies[k], seen', files');
    }
  }

  /** `_build_file_descriptor_set_bytes`, up to the serialisation of the set. */
  method BuildFileDescriptorSet(root: FileDescriptor) returns (files: seq<FileDescriptor>)
    ensures files == DescriptorSet(root)
  {
    var seen;
    seen, files := AddFile(root, {}, []);
  }

  // ---------------------------------------------------------------------------
  // The depth-first pre-order the traversal follows

  /**
    Every file reachable from `fd` through named files, in depth-first
    pre-order (a file, then the pre-orders of its imports in turn); a file
    without a name hides its imports.
  */
  function PreOrder(fd: FileDescriptor): seq<FileDescriptor>
    decreases fd, |fd.dependencies| + 1
  {
    if fd.name == "" then [] else [fd] + PreOrderOf(fd, |fd.dependencies|)
  }

  /** The pre-orders of the first `n` imports of `fd`, one after the other. */
  function PreOrderOf(fd: FileDescriptor, n: nat): seq<FileDescriptor>
    requires n <= |fd.dependencies|
    decreases fd, n
  {
    if n == 0 then [] else PreOrderOf(fd, n - 1) + PreOrder(fd.dependencies[n - 1])
  }

  /** `xs` is `ys` with some elements left out, the rest in their order. */
  ghost predicate Subsequence<X>(xs: seq<X>, ys: seq<X>)
    decreases |ys|
  {
    if ys == [] then xs == []
    else (xs != [] && xs[0] == ys[0] && Subsequence(xs[1..], ys[1..])) || Subsequence(xs, ys[1..])
  }

  lemma {:induction false} EmptySubsequence<X>(ys: seq<X>)
    ensures Subsequence([], ys)
    decreases |ys|
  {
    if ys != [] {
      EmptySubsequence(ys[1..]);
    }
  }

  lemma {:induction false} SubsequenceConcat<X>(a: seq<X>, b: seq<X>, c: seq<X>, d: seq<X>)
    requires Subsequence(a, c) && Subsequence(b, d)
    ensures Subsequence(a + b, c + d)
    decreases |c|
  {
    if c == [] {
      assert a + b == b && c + d == d;
    } else {
      assert (c + d)[1..] == c[1..] + d;
      if a != [] && a[0] == c[0] && Subsequence(a[1..], c[1..]) {
        SubsequenceConcat(a[1..], b, c[1..], d);
        assert (a + b)[1..] == a[1..] + b;
      } else {
        SubsequenceConcat(a, b, c[1..], d);
      }
    }
  }

  /** The set built so far: named files, no name twice, and `seen` holds exactly their names. */
  ghost predicate Consistent(b: Builder) {
    && (forall i :: 0 <= i < |b.files| ==> b.files[i].name != "")
    && (forall i, j :: 0 <= i < j < |b.files| ==> b.files[i].name != b.files[j].name)
    && (forall x :: x in b.seen <==> exists i :: 0 <= i < |b.files| && b.files[i].name == x)
  }

  /**
    What one visit does: it keeps the files already there and appends, in
    the pre-order of `fd`'s named files, only files whose names were not seen
    before, never the same name twice.
  */
  lemma {:induction false} VisitAppends(fd: FileDescriptor, b: Builder)
    requires Consistent(b)
    ensures var b' := Visit(fd, b);
      && Consistent(b')
      && |b.files| <= |b'.files| && b'.files[..|b.files|] == b.files
      && Subsequence(b'.files[|b.files|..], PreOrder(fd))
      && b.seen <= b'.seen
    decreases fd, |fd.dependencies| + 1
  {
    if fd.name == "" || fd.name in b.seen {
      assert Visit(fd, b).files[|b.files|..] == [];
      EmptySubsequence(PreOrder(fd));
    } else {
      var b1 := Builder(b.seen + {fd.name}, b.files + [fd]);
      AddKeepsConsistent(b, fd);
      VisitDependenciesAppend(fd, |fd.dependencies|, b1);
      var b' := Visit(fd, b);
      assert b'.files[..|b.files|] == b.files by {
        assert b'.files[..|b1.files|][..|b.files|] == b.files;
      }
      assert b'.files[|b.files|..] == [fd] + b'.files[|b1.files|..];
      SubsequenceConcat([fd], b'.files[|b1.files|..], [fd], PreOrderOf(fd, |fd.dependencies|));
    }
  }

  /** Appending a named file whose name was not seen keeps the set consistent. */
  lemma AddKeepsConsistent(b: Builder, fd: FileDescriptor)
    requires Consistent(b) && fd.name != "" && fd.name !in b.seen
    ensures Consistent(Builder(b.seen + {fd.name}, b.files + [fd]))
  {
    var b1 := Builder(b.seen + {fd.name}, b.files + [fd]);
    assert forall i :: 0 <= i < |b.files| ==> b1.files[i] == b.files[i];
    assert forall i :: 0 <= i < |b.files| ==> b.files[i].name in b.seen;
    assert b1.files[|b.files|].name == fd.name;
  }

  lemma {:induction false} VisitDependenciesAppend(fd: FileDescriptor, n: nat, b: Builder)
    requires n <= |fd.dependencies|
    requires Consistent(b)
    ensures var b' := VisitDependencies(fd, n, b);
      && Consistent(b')
      && |b.files| <= |b'.files| && b'.files[..|b.files|] == b.files
      && Subsequence(b'.files[|b.files|..], PreOrderOf(fd, n))
      && b.seen <= b'.seen
    decreases fd, n
  {
    if n == 0 {
      assert VisitDependencies(fd, n, b).files[|b.files|..] == [];
    } else {
      var b1 := VisitDependencies(fd, n - 1, b);
      VisitDependenciesAppend(fd, n - 1, b);
      VisitAppends(fd.dependencies[n - 1], b1);
      var b' := Visit(fd.dependencies[n - 1], b1);
      assert b'.files[..|b.files|] == b.files by {
        assert b'.files[..|b1.files|][..|b.files|] == b.files;
      }
      assert b'.files[|b.files|..] == b1.files[|b.files|..] + b'.files[|b1.files|..];
      SubsequenceConcat(b1.files[|b.files|..], b'.files[|b1.files|..], PreOrderOf(fd, n - 1), PreOrder(fd.dependencies[n - 1]));
    }
  }

  /**
    The descriptor set: each name at most once, every file named, in the
    depth-first pre-order of the files reachable from the root, the root
    first; a root without a name gives the empty set.
  */
  lemma DescriptorSetSpec(root: FileDescriptor)
    ensures var files := DescriptorSet(root);
      && (forall i, j :: 0 <= i < j < |files| ==> files[i].name != files[j].name)
      && (forall i :: 0 <= i < |files| ==> files[i].name != "")
      && Subsequence(files, PreOrder(root))
      && (root.name == "" <==> files == [])
      && (root.name != "" ==> files[0] == root)
  {
    var b := Builder({}, []);
    VisitAppends(root, b);
    if root.name != "" {
      var b1 := Builder({} + {root.name}, [] + [root]);
      assert b1.files[0].name == root.name;
      VisitDependenciesAppend(root, |root.dependencies|, b1);
      assert DescriptorSet(root)[..1] == [root];
    }
  }

  /** Every named import of a file the traversal adds ends up in the set. */
  lemma DirectDependenciesIncluded(fd: FileDescriptor, b: Builder, k: nat)
    requires Consistent(b)
    requires fd.name != "" && fd.name !in b.seen
    requires k < |fd.dependencies| && fd.dependencies[k].name != ""
    ensures fd.dependencies[k].name in Visit(fd, b).seen
  {
    var b1 := Builder(b.seen + {fd.name}, b.files + [fd]);
    VisitIncludesNamed(fd, |fd.dependencies|, b1, k);
  }

  lemma {:induction false} VisitIncludesNamed(fd: FileDescriptor, n: nat, b: Builder, k: nat)
    requires n <= |fd.dependencies| && k < n && fd.dependencies[k].name != ""
    ensures fd.dependencies[k].name in VisitDependencies(fd, n, b).seen
    decreases n
  {
    var b1 := VisitDependencies(fd, n - 1, b);
    SeenGrows(fd.dependencies[n - 1], b1);
    if k < n - 1 {
      VisitIncludesNamed(fd, n - 1, b, k);
    }
  }

  lemma {:induction false} SeenGrows(fd: FileDescriptor, b: Builder)
    ensures b.seen <= Visit(fd, b).seen
    ensures fd.name != "" ==> fd.name in Visit(fd, b).seen
    decreases fd, |fd.dependencies| + 1
  {
    if fd.name != "" && fd.name !in b.seen {
      SeenGrowsDependencies(fd, |fd.dependencies|, Builder(b.seen + {fd.name}, b.files + [fd]));
    }
  }

  lemma {:induction false} SeenGrowsDependencies(fd: FileDescriptor, n: nat, b: Builder)
    requires n <= |fd.dependencies|
    ensures b.seen <= VisitDependencies(fd, n, b).seen
    decreases fd, n
  {
    if n > 0 {
      SeenGrowsDependencies(fd, n - 1, b);
      SeenGrows(fd.dependencies[n - 1], VisitDependencies(fd, n - 1, b));
    }
  }
}
