/**
 * org.eclipse.team.ui.mapping.SynchronizationCompareAdapter: compare inputs, names and path strings
 * for the model objects of a synchronization.
 *
 * Model objects are values of a type parameter `O`; the lookups the adapter makes on them
 * (Utils.getAdapter, Utils.getResource, the ModelProvider cast) are the functions of a `Workbench`.
 */
module SynchronizationCompareAdapter {
  import opened Wrappers

  datatype ResourceType = File | Folder | Project | Root

  /** An IResource: its name and its type. */
  datatype Resource = Resource(name: string, kind: ResourceType)

  /** An IWorkbenchAdapter: getLabel and getParent, null as None. */
  datatype WorkbenchAdapter<!O> = WorkbenchAdapter(getLabel: O -> Option<string>, getParent: O -> Option<O>)

  /** A ModelProvider: its id and the label of its descriptor. */
  datatype ModelProvider = ModelProvider(id: string, descriptorLabel: string)

  /** The lookups made on model objects, and the message shown for the resource model provider. */
  datatype Workbench<!O> = Workbench(
    adapterOf: O -> Option<WorkbenchAdapter<O>>,
    resourceOf: O -> Option<Resource>,
    providerOf: O -> Option<ModelProvider>,
    resourceModelLabel: string)

  /** ModelProvider.RESOURCE_MODEL_PROVIDER_ID. */
  const RESOURCE_MODEL_PROVIDER_ID: string := "org.eclipse.core.resources.modelProvider"

  /** An ISynchronizationContext, reduced to its diff tree: the diff of each resource that has one. */
  datatype SynchronizationContext<D> = SynchronizationContext(diffTree: map<Resource, D>)

  /** A ResourceDiffCompareInput on a diff node. */
  datatype CompareInput<D> = ResourceDiffCompareInput(node: D)

  datatype ResourceMapping<O> = ResourceMapping(modelObject: O)

  /** asCompareInput: a compare input for a file that has a diff; None (null) for anything else. */
  function AsCompareInput<O, D>(w: Workbench<O>, context: SynchronizationContext<D>, o: O): (r: Option<CompareInput<D>>)
    ensures r.Some? <==>
      && w.resourceOf(o).Some?
      && w.resourceOf(o).value.kind == File
      && w.resourceOf(o).value in context.diffTree
    ensures r.Some? ==> r.value.node == context.diffTree[w.resourceOf(o).value]
  {
    match w.resourceOf(o)
    case Some(resource) =>
      if resource.kind == File && resource in context.diffTree then
        Some(ResourceDiffCompareInput(context.diffTree[resource]))
      else None
    case None => None
  }

  /** hasCompareInput. */
  function HasCompareInput<O, D>(w: Workbench<O>, context: SynchronizationContext<D>, o: O): (b: bool)
    ensures b <==> exists r :: w.resourceOf(o) == Some(r) && r.kind == File && r in context.diffTree
  {
    AsCompareInput(w, context, o).Some?
  }

  /** getName: the adapter's label, else the resource name, else the provider's label, else "". */
  function GetName<O>(w: Workbench<O>, mapping: ResourceMapping<O>): (name: string)
    ensures var o := mapping.modelObject;
      || (w.adapterOf(o).Some? && w.adapterOf(o).value.getLabel(o) == Some(name))
      || (w.resourceOf(o).Some? && w.resourceOf(o).value.name == name)
      || (w.providerOf(o).Some? && name in {w.resourceModelLabel, w.providerOf(o).value.descriptorLabel})
      || name == ""
  {
    var o := mapping.modelObject;
    var adapterLabel := (match w.adapterOf(o) case Some(a) => a.getLabel(o) case None => None);
    if adapterLabel.Some? then adapterLabel.value
    else if w.resourceOf(o).Some? then w.resourceOf(o).value.name
    else if w.providerOf(o).Some? then
      var provider := w.providerOf(o).value;
      if provider.id == RESOURCE_MODEL_PROVIDER_ID then w.resourceModelLabel else provider.descriptorLabel
    else ""
  }

  lemma NamePriority<O>(w: Workbench<O>, mapping: ResourceMapping<O>)
    ensures var o := mapping.modelObject;
      && (w.adapterOf(o).Some? && w.adapterOf(o).value.getLabel(o).Some? ==>
            GetName(w, mapping) == w.adapterOf(o).value.getLabel(o).value)
      && ((w.adapterOf(o).None? || w.adapterOf(o).value.getLabel(o).None?) && w.resourceOf(o).Some? ==>
            GetName(w, mapping) == w.resourceOf(o).value.name)
      && ((w.adapterOf(o).None? || w.adapterOf(o).value.getLabel(o).None?) && w.resourceOf(o).None? ==>
            GetName(w, mapping) ==
              match w.providerOf(o)
              case Some(p) => if p.id == RESOURCE_MODEL_PROVIDER_ID then w.resourceModelLabel else p.descriptorLabel
              case None => "")
  {
  }

  /*==================================================================
   * getPathString.
   *==================================================================*/

  /** `chain` lists `o` and its ancestors under the adapter, ending at an object without a parent. */
  ghost predicate IsParentChain<O>(a: WorkbenchAdapter<O>, o: O, chain: seq<O>) {
    && |chain| >= 1
    && chain[0] == o
    && (forall i :: 0 <= i < |chain| - 1 ==> a.getParent(chain[i]) == Some(chain[i + 1]))
    && a.getParent(chain[|chain| - 1]).None?
  }

  /** The parent chain getPathString walks; objects without an adapter need none. */
  ghost predicate HasParentChain<O>(w: Workbench<O>, o: O, chain: seq<O>) {
    match w.adapterOf(o)
    case Some(a) => IsParentChain(a, o, chain)
    case None => true
  }

  /** The segment an object contributes: its label, unless that is null or empty. */
  function Segment<O>(a: WorkbenchAdapter<O>, x: O): seq<string> {
    match a.getLabel(x)
    case Some(text) => if |text| > 0 then [text] else []
    case None => []
  }

  /** The non-empty labels of a chain, object first. */
  function Labels<O>(a: WorkbenchAdapter<O>, chain: seq<O>): seq<string> {
    if chain == [] then [] else Segment(a, chain[0]) + Labels(a, chain[1..])
  }

  /** The segments getPathString collects: each label is put in front of those before it. */
  function Segments<O>(a: WorkbenchAdapter<O>, chain: seq<O>): (segments: seq<string>)
    ensures |segments| <= |chain|
    ensures forall i :: 0 <= i < |segments| ==> |segments[i]| > 0
  {
    if chain == [] then [] else Segment(a, chain[|chain| - 1]) + Segments(a, chain[..|chain| - 1])
  }

  function Reverse<T>(s: seq<T>): seq<T> {
    if s == [] then [] else Reverse(s[1..]) + [s[0]]
  }

  lemma {:induction false} ReverseAppend<T>(s: seq<T>, t: seq<T>)
    ensures Reverse(s + t) == Reverse(t) + Reverse(s)
    decreases |s|
  {
    if s == [] {
      assert s + t == t;
    } else {
      assert (s + t)[1..] == s[1..] + t;
      ReverseAppend(s[1..], t);
    }
  }

  lemma {:induction false} LabelsSnoc<O>(a: WorkbenchAdapter<O>, chain: seq<O>, x: O)
    ensures Labels(a, chain + [x]) == Labels(a, chain) + Segment(a, x)
    decreases |chain|
  {
    if chain == [] {
      assert [x][1..] == [];
    } else {
      assert (chain + [x])[1..] == chain[1..] + [x];
      LabelsSnoc(a, chain[1..], x);
    }
  }

  /** The segments are the non-empty labels of the chain, root first. */
  lemma {:induction false} SegmentsAreLabelsRootFirst<O>(a: WorkbenchAdapter<O>, chain: seq<O>)
    ensures Segments(a, chain) == Reverse(Labels(a, chain))
    decreases |chain|
  {
    if chain != [] {
      var init, x := chain[..|chain| - 1], chain[|chain| - 1];
      assert chain == init + [x];
      SegmentsAreLabelsRootFirst(a, init);
      LabelsSnoc(a, init, x);
      ReverseAppend(Labels(a, init), Segment(a, x));
      assert Reverse(Segment(a, x)) == Segment(a, x) by {
        if Segment(a, x) != [] {
          assert Segment(a, x)[1..] == [];
        }
      }
    }
  }

  /** IPath.append of a segment, with the path written with '/' separators. */
  function Append(path: string, segment: string): string {
    if path == [] then segment else path + "/" + segment
  }

  /** The path made by appending the segments one by one to the empty path. */
  function Join(segments: seq<string>): string {
    if segments == [] then [] else Append(Join(segments[..|segments| - 1]), segments[|segments| - 1])
  }

  /** The parent of the k-th object of a chain is the next one, or null at the root. */
  lemma ParentStep<O>(a: WorkbenchAdapter<O>, o: O, chain: seq<O>, k: nat)
    requires IsParentChain(a, o, chain) && k < |chain|
    ensures a.getParent(chain[k]) == if k + 1 < |chain| then Some(chain[k + 1]) else None
  {
  }

  /** One more object of the chain puts its segment in front of those collected so far. */
  lemma SegmentsPrefixStep<O>(a: WorkbenchAdapter<O>, chain: seq<O>, k: nat)
    requires k < |chain|
    ensures Segments(a, chain[..k + 1]) == Segment(a, chain[k]) + Segments(a, chain[..k])
  {
    assert chain[..k + 1][..k] == chain[..k];
  }

  /** The loop of getPathString that appends each segment to Path.EMPTY, in order. */
  method BuildPath(segments: seq<string>) returns (path: string)
    ensures path == Join(segments)
  {
    path := [];
    var i := 0;
    while i < |segments|
      invariant 0 <= i <= |segments|
      invariant path == Join(segments[..i])
    {
      assert segments[..i + 1][..i] == segments[..i];
      path := Append(path, segments[i]);
      i := i + 1;
    }
    assert segments[..i] == segments;
  }

  /** getPathString: the labels up the parent chain joined as a path, or getName when there are none. */
  method GetPathString<O>(w: Workbench<O>, mapping: ResourceMapping<O>, ghost chain: seq<O>) returns (path: string)
    requires HasParentChain(w, mapping.modelObject, chain)
    ensures w.adapterOf(mapping.modelObject).None? ==> path == GetName(w, mapping)
    ensures w.adapterOf(mapping.modelObject).Some? ==>
      var segments := Segments(w.adapterOf(mapping.modelObject).value, chain);
      path == if segments == [] then GetName(w, mapping) else Join(segments)
  {
    var o := mapping.modelObject;
    var adapter := w.adapterOf(o);
    if adapter.Some? {
      var a := adapter.value;
      var segments: seq<string> := [];
      var parent: Option<O> := Some(o);
      ghost var k := 0;
      assert IsParentChain(a, o, chain);
      while parent.Some?
        invariant 0 <= k <= |chain|
        invariant parent.Some? <==> k < |chain|
        invariant parent.Some? ==> parent.value == chain[k]
        invariant segments == Segments(a, chain[..k])
        decreases |chain| - k
      {
        var p := parent.value;
        var segment := a.getLabel(p);
        SegmentsPrefixStep(a, chain, k);
        if segment.Some? && |segment.value| > 0 {
          segments := [segment.value] + segments;
        }
        ParentStep(a, o, chain, k);
        parent := a.getParent(p);
        k := k + 1;
      }
      assert chain[..k] == chain;
      if segments != [] {
        path := BuildPath(segments);
        return path;
      }
    }
    path := GetName(w, mapping);
  }

  /** The object's own label is its path when it has no parent. */
  lemma RootPathIsName<O>(w: Workbench<O>, mapping: ResourceMapping<O>)
    requires w.adapterOf(mapping.modelObject).Some?
    requires var a := w.adapterOf(mapping.modelObject).value;
      a.getParent(mapping.modelObject).None? && a.getLabel(mapping.modelObject).Some?
    ensures var a := w.adapterOf(mapping.modelObject).value;
      var segments := Segments(a, [mapping.modelObject]);
      (if segments == [] then GetName(w, mapping) else Join(segments)) == GetName(w, mapping)
  {
  }

  /*==================================================================
   * Reading a path back into its segments.
   *==================================================================*/

  /** The '/'-separated pieces of a string. */
  function Split(s: string): (pieces: seq<string>)
    ensures |pieces| >= 1
  {
    if s == [] then [[]]
    else
      var p := Split(s[..|s| - 1]);
      if s[|s| - 1] == '/' then p + [[]] else p[..|p| - 1] + [p[|p| - 1] + [s[|s| - 1]]]
  }

  lemma {:induction false} SplitPlain(s: string)
    requires forall k :: 0 <= k < |s| ==> s[k] != '/'
    ensures Split(s) == [s]
    decreases |s|
  {
    if s != [] {
      SplitPlain(s[..|s| - 1]);
      assert s[..|s| - 1] + [s[|s| - 1]] == s;
    }
  }

  /** Extending the last piece of `x + y` extends the last piece of `y`. */
  lemma ExtendLast(x: seq<string>, y: seq<string>, c: char)
    requires |y| >= 1
    ensures var xy := x + y;
      xy[..|xy| - 1] + [xy[|xy| - 1] + [c]] == x + (y[..|y| - 1] + [y[|y| - 1] + [c]])
  {
  }

  /** Split, unfolded once at a last character `c`. */
  lemma SplitSnoc(s: string, c: char)
    ensures var p := Split(s);
      Split(s + [c]) == if c == '/' then p + [[]] else p[..|p| - 1] + [p[|p| - 1] + [c]]
  {
    assert (s + [c])[..|s + [c]| - 1] == s;
  }

  lemma {:induction false} SplitAtSlash(a: string, b: string)
    ensures Split(a + "/" + b) == Split(a) + Split(b)
    decreases |b|
  {
    if b == [] {
      assert a + "/" + b == a + ['/'];
      SplitSnoc(a, '/');
    } else {
      var b', c := b[..|b| - 1], b[|b| - 1];
      var prefix := a + "/" + b';
      assert b == b' + [c];
      assert a + "/" + b == prefix + [c];
      SplitAtSlash(a, b');
      var x, y := Split(a), Split(b');
      assert Split(prefix) == x + y;
      SplitSnoc(prefix, c);
      SplitSnoc(b', c);
      if c == '/' {
        assert Split(prefix + [c]) == (x + y) + [[]];
        assert Split(b) == y + [[]];
      } else {
        ExtendLast(x, y, c);
        assert Split(b) == y[..|y| - 1] + [y[|y| - 1] + [c]];
      }
    }
  }

  /** A path made of non-empty segments without '/' splits back into those segments. */
  lemma {:induction false} SplitJoin(segments: seq<string>)
    requires |segments| >= 1
    requires forall i :: 0 <= i < |segments| ==> |segments[i]| > 0
    requires forall i, k :: 0 <= i < |segments| && 0 <= k < |segments[i]| ==> segments[i][k] != '/'
    ensures Join(segments) != []
    ensures Split(Join(segments)) == segments
    decreases |segments|
  {
    var init, last := segments[..|segments| - 1], segments[|segments| - 1];
    SplitPlain(last);
    if init == [] {
      assert Join(init) == [];
      assert segments == [last];
    } else {
      SplitJoin(init);
      SplitAtSlash(Join(init), last);
      assert segments == init + [last];
    }
  }
}
