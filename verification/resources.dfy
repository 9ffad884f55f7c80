/**
  The resource aggregate of one object descriptor: the scalar and resource bindings it
  contributes to a compiled kernel, and the single ordered name enumeration that
  downstream code uses as binding-slot numbering.
 */
module Resources {
  import opened Descriptors

  /** Ordered named bindings, grouped by kind. Each group keeps declaration order. */
  datatype GPUResources = GPUResources(
    ints: seq<string>,
    floats: seq<string>,
    buffers: seq<(string, GPUBufferDescriptor)>,
    images2d: seq<(string, GPUImage2DDescriptor)>,
    image2dArrays: seq<(string, GPUImage2DArrayDescriptor)>,
    images3d: seq<(string, GPUImage3DDescriptor)>,
    imageBuffers: seq<(string, GPUImageBufferDescriptor)>,
    customMemories: seq<(string, GPUCustomMemoryDescriptor)>)

  /** The value-initialized aggregate: every group empty. */
  const Empty := GPUResources([], [], [], [], [], [], [], [])

  /** The names of a list of (name, descriptor) bindings, in list order. */
  function Keys<D>(pairs: seq<(string, D)>): (names: seq<string>)
    ensures |names| == |pairs|
    ensures forall i :: 0 <= i < |pairs| ==> names[i] == pairs[i].0
  {
    seq(|pairs|, i requires 0 <= i < |pairs| => pairs[i].0)
  }

  /** The name enumeration of an aggregate, as the fixed-precedence concatenation:
      ints, floats, buffers, images2d, image2d_arrays, images3d, image_buffers,
      custom_memories. */
  function AllNames(r: GPUResources): (names: seq<string>)
  {
    r.ints + r.floats + Keys(r.buffers) + Keys(r.images2d) + Keys(r.image2dArrays)
    + Keys(r.images3d) + Keys(r.imageBuffers) + Keys(r.customMemories)
  }

  /** Appends the names of `pairs` to `names`, one at a time, as each of the per-kind
      loops of the enumeration does. */
  method AppendKeys<D>(names: seq<string>, pairs: seq<(string, D)>) returns (out: seq<string>)
    ensures |out| == |names| + |pairs|
    ensures out[..|names|] == names
    ensures forall i :: 0 <= i < |pairs| ==> out[|names| + i] == pairs[i].0
  {
    out := names;
    for i := 0 to |pairs|
      invariant |out| == |names| + i
      invariant out[..|names|] == names
      invariant forall j :: 0 <= j < i ==> out[|names| + j] == pairs[j].0
    {
      out := out + [pairs[i].0];
    }
  }

  /** The enumeration as the source computes it: start from the ints, append the
      floats, then push back the name of every binding of each resource kind in turn. */
  method GetNames(r: GPUResources) returns (names: seq<string>)
    ensures names == AllNames(r)
    ensures |names| == |r.ints| + |r.floats| + |r.buffers| + |r.images2d| + |r.image2dArrays|
                       + |r.images3d| + |r.imageBuffers| + |r.customMemories|
  {
    names := r.ints;
    names := names + r.floats;
    names := AppendKeysAsList(names, r.buffers);
    names := AppendKeysAsList(names, r.images2d);
    names := AppendKeysAsList(names, r.image2dArrays);
    names := AppendKeysAsList(names, r.images3d);
    names := AppendKeysAsList(names, r.imageBuffers);
    names := AppendKeysAsList(names, r.customMemories);
  }

  /** AppendKeys, restated as concatenation with Keys. */
  method AppendKeysAsList<D>(names: seq<string>, pairs: seq<(string, D)>) returns (out: seq<string>)
    ensures out == names + Keys(pairs)
  {
    out := AppendKeys(names, pairs);
    assert forall i :: 0 <= i < |out| ==> out[i] == (names + Keys(pairs))[i] by {
      forall i | 0 <= i < |out|
        ensures out[i] == (names + Keys(pairs))[i]
      {
        if i < |names| {
          assert out[i] == out[..|names|][i];
        }
      }
    }
  }

  // ---------------------------------------------------------------------------
  // Groups and binding slots

  /** The eight kinds of binding an aggregate holds. */
  datatype Group = Ints | Floats | Buffers | Images2D | Image2DArrays | Images3D | ImageBuffers | CustomMemories

  /** The groups in enumeration order. */
  const Precedence: seq<Group> := [Ints, Floats, Buffers, Images2D, Image2DArrays, Images3D, ImageBuffers, CustomMemories]

  /** Position of a group in the enumeration order. */
  function Rank(g: Group): (k: nat)
    ensures k < |Precedence| && Precedence[k] == g
  {
    match g
    case Ints => 0
    case Floats => 1
    case Buffers => 2
    case Images2D => 3
    case Image2DArrays => 4
    case Images3D => 5
    case ImageBuffers => 6
    case CustomMemories => 7
  }

  /** The names of one group of an aggregate, in group order. */
  function GroupNames(r: GPUResources, g: Group): (names: seq<string>)
  {
    match g
    case Ints => r.ints
    case Floats => r.floats
    case Buffers => Keys(r.buffers)
    case Images2D => Keys(r.images2d)
    case Image2DArrays => Keys(r.image2dArrays)
    case Images3D => Keys(r.images3d)
    case ImageBuffers => Keys(r.imageBuffers)
    case CustomMemories => Keys(r.customMemories)
  }

  /** The names of the first `k` groups in enumeration order. */
  function Layout(r: GPUResources, k: nat): (names: seq<string>)
    requires k <= |Precedence|
  {
    if k == 0 then []
    else if k == 1 then r.ints
    else if k == 2 then r.ints + r.floats
    else if k == 3 then r.ints + r.floats + Keys(r.buffers)
    else if k == 4 then r.ints + r.floats + Keys(r.buffers) + Keys(r.images2d)
    else if k == 5 then r.ints + r.floats + Keys(r.buffers) + Keys(r.images2d) + Keys(r.image2dArrays)
    else if k == 6 then r.ints + r.floats + Keys(r.buffers) + Keys(r.images2d) + Keys(r.image2dArrays)
      + Keys(r.images3d)
    else if k == 7 then r.ints + r.floats + Keys(r.buffers) + Keys(r.images2d) + Keys(r.image2dArrays)
      + Keys(r.images3d) + Keys(r.imageBuffers)
    else AllNames(r)
  }

  /** The binding slot of the first name of group `g`: the number of names of all
      groups that precede it. */
  function Offset(r: GPUResources, g: Group): (slot: nat)
  {
    |Layout(r, Rank(g))|
  }

  /** Each group's names follow those of the groups before it. */
  lemma LayoutStep(r: GPUResources, k: nat)
    requires k < |Precedence|
    ensures Layout(r, k + 1) == Layout(r, k) + GroupNames(r, Precedence[k])
  {
    if k == 0 {
      assert [] + r.ints == r.ints;
    }
  }

  lemma RankOfPrecedence(k: nat)
    requires k < |Precedence|
    ensures Rank(Precedence[k]) == k
  {
  }

  /** A shorter layout is a prefix of a longer one. */
  lemma {:induction false} LayoutPrefix(r: GPUResources, k: nat, m: nat)
    requires k <= m <= |Precedence|
    ensures |Layout(r, k)| <= |Layout(r, m)|
    ensures Layout(r, k) == Layout(r, m)[..|Layout(r, k)|]
    decreases m
  {
    if k < m {
      LayoutPrefix(r, k, m - 1);
      LayoutStep(r, m - 1);
      var p := Layout(r, m - 1);
      assert (p + GroupNames(r, Precedence[m - 1]))[..|Layout(r, k)|] == p[..|Layout(r, k)|];
    }
  }

  /** Every name of every group appears in the enumeration, at slot Offset + its
      position inside the group. */
  lemma SlotOfGroupMember(r: GPUResources, g: Group, i: nat)
    requires i < |GroupNames(r, g)|
    ensures Offset(r, g) + i < |AllNames(r)|
    ensures AllNames(r)[Offset(r, g) + i] == GroupNames(r, g)[i]
  {
    SlotInLayout(r, Rank(g), i);
  }

  lemma SlotInLayout(r: GPUResources, k: nat, i: nat)
    requires k < |Precedence| && i < |GroupNames(r, Precedence[k])|
    ensures |Layout(r, k)| + i < |AllNames(r)|
    ensures AllNames(r)[|Layout(r, k)| + i] == GroupNames(r, Precedence[k])[i]
  {
    var before, upto := Layout(r, k), Layout(r, k + 1);
    LayoutStep(r, k);
    LayoutPrefix(r, k + 1, |Precedence|);
    assert Layout(r, |Precedence|) == AllNames(r);
    IndexPastPrefix(before, GroupNames(r, Precedence[k]), i);
    IndexInPrefix(AllNames(r), upto, |before| + i);
  }

  lemma IndexPastPrefix<T>(p: seq<T>, q: seq<T>, i: nat)
    requires i < |q|
    ensures |p| + i < |p + q| && (p + q)[|p| + i] == q[i]
  {
  }

  lemma IndexInPrefix<T>(whole: seq<T>, prefix: seq<T>, j: nat)
    requires |prefix| <= |whole| && prefix == whole[..|prefix|] && j < |prefix|
    ensures whole[j] == prefix[j]
  {
  }

  /** Cross-group order is fixed: every name of an earlier group takes a lower slot
      than every name of a later group, whatever the group sizes. */
  lemma GroupPrecedence(r: GPUResources, g1: Group, g2: Group, i: nat, j: nat)
    requires Rank(g1) < Rank(g2)
    requires i < |GroupNames(r, g1)| && j < |GroupNames(r, g2)|
    ensures Offset(r, g1) + i < Offset(r, g2) + j
  {
    LayoutPrefix(r, Rank(g1) + 1, Rank(g2));
    LayoutStep(r, Rank(g1));
  }

  /** A name is enumerated exactly when some group holds it. */
  lemma NameMembership(r: GPUResources, n: string)
    ensures n in AllNames(r) <==> exists g :: n in GroupNames(r, g)
  {
    if n in AllNames(r) {
      if n in r.ints {
        assert n in GroupNames(r, Ints);
      } else if n in r.floats {
        assert n in GroupNames(r, Floats);
      } else if n in Keys(r.buffers) {
        assert n in GroupNames(r, Buffers);
      } else if n in Keys(r.images2d) {
        assert n in GroupNames(r, Images2D);
      } else if n in Keys(r.image2dArrays) {
        assert n in GroupNames(r, Image2DArrays);
      } else if n in Keys(r.images3d) {
        assert n in GroupNames(r, Images3D);
      } else if n in Keys(r.imageBuffers) {
        assert n in GroupNames(r, ImageBuffers);
      } else {
        assert n in GroupNames(r, CustomMemories);
      }
    }
  }

  /** The enumeration depends on an aggregate only through its groups' names. */
  lemma NamesDeterminedByGroups(r1: GPUResources, r2: GPUResources)
    requires forall g :: GroupNames(r1, g) == GroupNames(r2, g)
    ensures AllNames(r1) == AllNames(r2)
  {
    LayoutFromGroups(r1, r2, |Precedence|);
  }

  lemma {:induction false} LayoutFromGroups(r1: GPUResources, r2: GPUResources, k: nat)
    requires k <= |Precedence|
    requires forall g :: GroupNames(r1, g) == GroupNames(r2, g)
    ensures Layout(r1, k) == Layout(r2, k)
  {
    if k > 0 {
      LayoutFromGroups(r1, r2, k - 1);
      LayoutStep(r1, k - 1);
      LayoutStep(r2, k - 1);
      assert GroupNames(r1, Precedence[k - 1]) == GroupNames(r2, Precedence[k - 1]);
    }
  }

  // ---------------------------------------------------------------------------
  // Populating an aggregate

  /** One named binding, as a caller pushes it into the group of its kind. */
  datatype Entry =
    | IntEntry(name: string)
    | FloatEntry(name: string)
    | BufferEntry(name: string, buffer: GPUBufferDescriptor)
    | Image2DEntry(name: string, image2d: GPUImage2DDescriptor)
    | Image2DArrayEntry(name: string, image2dArray: GPUImage2DArrayDescriptor)
    | Image3DEntry(name: string, image3d: GPUImage3DDescriptor)
    | ImageBufferEntry(name: string, imageBuffer: GPUImageBufferDescriptor)
    | CustomMemoryEntry(name: string, customMemory: GPUCustomMemoryDescriptor)

  function GroupOf(e: Entry): (g: Group)
  {
    match e
    case IntEntry(_) => Ints
    case FloatEntry(_) => Floats
    case BufferEntry(_, _) => Buffers
    case Image2DEntry(_, _) => Images2D
    case Image2DArrayEntry(_, _) => Image2DArrays
    case Image3DEntry(_, _) => Images3D
    case ImageBufferEntry(_, _) => ImageBuffers
    case CustomMemoryEntry(_, _) => CustomMemories
  }

  /** Pushes a binding onto the end of the group of its kind. */
  function Add(r: GPUResources, e: Entry): (s: GPUResources)
  {
    match e
    case IntEntry(n) => r.(ints := r.ints + [n])
    case FloatEntry(n) => r.(floats := r.floats + [n])
    case BufferEntry(n, d) => r.(buffers := r.buffers + [(n, d)])
    case Image2DEntry(n, d) => r.(images2d := r.images2d + [(n, d)])
    case Image2DArrayEntry(n, d) => r.(image2dArrays := r.image2dArrays + [(n, d)])
    case Image3DEntry(n, d) => r.(images3d := r.images3d + [(n, d)])
    case ImageBufferEntry(n, d) => r.(imageBuffers := r.imageBuffers + [(n, d)])
    case CustomMemoryEntry(n, d) => r.(customMemories := r.customMemories + [(n, d)])
  }

  /** `s` is `r` with `n` appended to group `g` and every other group unchanged. */
  ghost predicate GrowsGroup(r: GPUResources, s: GPUResources, g: Group, n: string)
  {
    && GroupNames(s, g) == GroupNames(r, g) + [n]
    && forall h :: h != g ==> GroupNames(s, h) == GroupNames(r, h)
  }

  /** Pushing a binding appends its name to its own kind's group and leaves every
      other group unchanged. */
  lemma AddGrowsGroup(r: GPUResources, e: Entry)
    ensures GrowsGroup(r, Add(r, e), GroupOf(e), e.name)
  {
    OwnGroupGrows(r, e);
    forall h | h != GroupOf(e)
      ensures GroupNames(Add(r, e), h) == GroupNames(r, h)
    {
      OtherGroupsUntouched(r, e, h);
    }
  }

  lemma OwnGroupGrows(r: GPUResources, e: Entry)
    ensures GroupNames(Add(r, e), GroupOf(e)) == GroupNames(r, GroupOf(e)) + [e.name]
  {
    match e
    case IntEntry(_) =>
    case FloatEntry(_) =>
    case BufferEntry(n, d) =>
      assert GroupNames(Add(r, e), Buffers) == Keys(r.buffers + [(n, d)]);
      KeysSnoc(r.buffers, (n, d));
    case Image2DEntry(n, d) =>
      assert GroupNames(Add(r, e), Images2D) == Keys(r.images2d + [(n, d)]);
      KeysSnoc(r.images2d, (n, d));
    case Image2DArrayEntry(n, d) =>
      assert GroupNames(Add(r, e), Image2DArrays) == Keys(r.image2dArrays + [(n, d)]);
      KeysSnoc(r.image2dArrays, (n, d));
    case Image3DEntry(n, d) =>
      assert GroupNames(Add(r, e), Images3D) == Keys(r.images3d + [(n, d)]);
      KeysSnoc(r.images3d, (n, d));
    case ImageBufferEntry(n, d) =>
      assert GroupNames(Add(r, e), ImageBuffers) == Keys(r.imageBuffers + [(n, d)]);
      KeysSnoc(r.imageBuffers, (n, d));
    case CustomMemoryEntry(n, d) =>
      assert GroupNames(Add(r, e), CustomMemories) == Keys(r.customMemories + [(n, d)]);
      KeysSnoc(r.customMemories, (n, d));
  }

  lemma OtherGroupsUntouched(r: GPUResources, e: Entry, h: Group)
    requires h != GroupOf(e)
    ensures GroupNames(Add(r, e), h) == GroupNames(r, h)
  {
    match h
    case Ints =>
    case Floats =>
    case Buffers => assert Add(r, e).buffers == r.buffers;
    case Images2D => assert Add(r, e).images2d == r.images2d;
    case Image2DArrays => assert Add(r, e).image2dArrays == r.image2dArrays;
    case Images3D => assert Add(r, e).images3d == r.images3d;
    case ImageBuffers => assert Add(r, e).imageBuffers == r.imageBuffers;
    case CustomMemories => assert Add(r, e).customMemories == r.customMemories;
  }

  lemma KeysSnoc<D>(pairs: seq<(string, D)>, x: (string, D))
    ensures Keys(pairs + [x]) == Keys(pairs) + [x.0]
  {
    assert (pairs + [x])[..|pairs|] == pairs;
  }

  /** Adds the entries one after another, in list order. */
  function Populate(r: GPUResources, es: seq<Entry>): (s: GPUResources)
    decreases |es|
  {
    if |es| == 0 then r else Add(Populate(r, es[..|es| - 1]), es[|es| - 1])
  }

  /** The names of the entries of one group, in list order. */
  function NamesIn(es: seq<Entry>, g: Group): (names: seq<string>)
    decreases |es|
  {
    if |es| == 0 then []
    else NamesIn(es[..|es| - 1], g) + (if GroupOf(es[|es| - 1]) == g then [es[|es| - 1].name] else [])
  }

  /** Populating appends to each group exactly the entries of that group, in order. */
  lemma {:induction false} PopulateGroups(r: GPUResources, es: seq<Entry>, g: Group)
    ensures GroupNames(Populate(r, es), g) == GroupNames(r, g) + NamesIn(es, g)
    decreases |es|
  {
    if |es| == 0 {
      AppendEmpty(GroupNames(r, g));
    } else {
      var init, e := es[..|es| - 1], es[|es| - 1];
      var tail := if GroupOf(e) == g then [e.name] else [];
      PopulateGroups(r, init, g);
      var p := Populate(r, init);
      AddGrowsGroup(p, e);
      if GroupOf(e) != g {
        AppendEmpty(GroupNames(p, g));
      }
      assert GroupNames(Add(p, e), g) == GroupNames(p, g) + tail;
      assert NamesIn(es, g) == NamesIn(init, g) + tail;
      AppendAssoc(GroupNames(r, g), NamesIn(init, g), tail);
    }
  }

  lemma AppendEmpty<T>(a: seq<T>)
    ensures a + [] == a
  {
  }

  lemma AppendAssoc<T>(a: seq<T>, b: seq<T>, c: seq<T>)
    ensures (a + b) + c == a + (b + c)
  {
  }

  /** Adding a binding inserts its name at the end of its group's slots: slots before
      that point keep their names and every later slot moves up by one. */
  lemma AddInsertsAtGroupEnd(r: GPUResources, e: Entry)
    ensures Offset(r, GroupOf(e)) + |GroupNames(r, GroupOf(e))| <= |AllNames(r)|
    ensures AllNames(Add(r, e)) == Spliced(AllNames(r), Offset(r, GroupOf(e)) + |GroupNames(r, GroupOf(e))|, e.name)
  {
    AddGrowsGroup(r, e);
    GrowthInsertsAtGroupEnd(r, Add(r, e), GroupOf(e), e.name);
  }

  lemma GrowthInsertsAtGroupEnd(r: GPUResources, s: GPUResources, g: Group, n: string)
    requires GrowsGroup(r, s, g, n)
    ensures Offset(r, g) + |GroupNames(r, g)| <= |AllNames(r)|
    ensures AllNames(s) == Spliced(AllNames(r), Offset(r, g) + |GroupNames(r, g)|, n)
  {
    LayoutAfterGrowth(r, s, g, n, |Precedence|);
    GroupEnd(r, g);
  }

  /** The layout up to and including group `g` ends at Offset(g) plus the group's size. */
  lemma GroupEnd(r: GPUResources, g: Group)
    ensures |Layout(r, Rank(g) + 1)| == Offset(r, g) + |GroupNames(r, g)|
  {
    LayoutStep(r, Rank(g));
  }

  /** Growing a group leaves the layout of the groups before it untouched. */
  lemma {:induction false} LayoutBeforeGrowth(r: GPUResources, s: GPUResources, g: Group, n: string, k: nat)
    requires GrowsGroup(r, s, g, n)
    requires k <= Rank(g)
    ensures Layout(s, k) == Layout(r, k)
  {
    if k > 0 {
      LayoutBeforeGrowth(r, s, g, n, k - 1);
      LayoutStep(r, k - 1);
      LayoutStep(s, k - 1);
      RankOfPrecedence(k - 1);
      assert GroupNames(s, Precedence[k - 1]) == GroupNames(r, Precedence[k - 1]);
    }
  }

  /** From the grown group on, the layout has the new name spliced in at the end of
      that group. */
  lemma {:induction false} LayoutAfterGrowth(r: GPUResources, s: GPUResources, g: Group, n: string, k: nat)
    requires GrowsGroup(r, s, g, n)
    requires Rank(g) < k <= |Precedence|
    ensures |Layout(r, Rank(g) + 1)| <= |Layout(r, k)|
    ensures Layout(s, k) == Spliced(Layout(r, k), |Layout(r, Rank(g) + 1)|, n)
  {
    if k - 1 == Rank(g) {
      GrowthAtGroup(r, s, g, n);
    } else {
      LayoutAfterGrowth(r, s, g, n, k - 1);
      GrowthPastGroup(r, s, g, n, k);
    }
  }

  /** `p` with `x` inserted at position `at`. */
  function Spliced<T>(p: seq<T>, at: nat, x: T): (q: seq<T>)
    requires at <= |p|
  {
    p[..at] + [x] + p[at..]
  }

  lemma GrowthAtGroup(r: GPUResources, s: GPUResources, g: Group, n: string)
    requires GrowsGroup(r, s, g, n)
    ensures Layout(s, Rank(g) + 1) == Spliced(Layout(r, Rank(g) + 1), |Layout(r, Rank(g) + 1)|, n)
  {
    var p := Layout(r, Rank(g));
    LayoutBeforeGrowth(r, s, g, n, Rank(g));
    LayoutStep(r, Rank(g));
    LayoutStep(s, Rank(g));
    assert Layout(s, Rank(g) + 1) == p + (GroupNames(r, g) + [n]);
    SpliceAtEnd(p + GroupNames(r, g), n);
  }

  lemma GrowthPastGroup(r: GPUResources, s: GPUResources, g: Group, n: string, k: nat)
    requires GrowsGroup(r, s, g, n)
    requires Rank(g) + 1 < k <= |Precedence|
    requires |Layout(r, Rank(g) + 1)| <= |Layout(r, k - 1)|
    requires Layout(s, k - 1) == Spliced(Layout(r, k - 1), |Layout(r, Rank(g) + 1)|, n)
    ensures |Layout(r, Rank(g) + 1)| <= |Layout(r, k)|
    ensures Layout(s, k) == Spliced(Layout(r, k), |Layout(r, Rank(g) + 1)|, n)
  {
    var h := Precedence[k - 1];
    RankOfPrecedence(k - 1);
    LayoutStep(r, k - 1);
    LayoutStep(s, k - 1);
    assert GroupNames(s, h) == GroupNames(r, h);
    SpliceThenAppend(Layout(r, k - 1), GroupNames(r, h), n, |Layout(r, Rank(g) + 1)|);
  }

  lemma SpliceAtEnd<T>(p: seq<T>, x: T)
    ensures p[..|p|] + [x] + p[|p|..] == p + [x]
  {
    assert p[..|p|] == p;
    assert p[|p|..] == [];
  }

  lemma SpliceThenAppend<T>(p: seq<T>, q: seq<T>, x: T, at: nat)
    requires at <= |p|
    ensures (p + q)[..at] + [x] + (p + q)[at..] == p[..at] + [x] + p[at..] + q
  {
    assert (p + q)[..at] == p[..at];
    assert (p + q)[at..] == p[at..] + q;
  }

  /** Adding two bindings of different kinds gives the same aggregate in either order. */
  lemma AddCommutesAcrossGroups(r: GPUResources, e1: Entry, e2: Entry)
    requires GroupOf(e1) != GroupOf(e2)
    ensures Add(Add(r, e1), e2) == Add(Add(r, e2), e1)
  {
  }

  /** The enumeration of an aggregate built from a list of bindings is the list's names
      bucketed by kind, the buckets in precedence order, each in list order. */
  lemma PopulatedNames(es: seq<Entry>)
    ensures AllNames(Populate(Empty, es)) ==
      NamesIn(es, Ints) + NamesIn(es, Floats) + NamesIn(es, Buffers) + NamesIn(es, Images2D)
      + NamesIn(es, Image2DArrays) + NamesIn(es, Images3D) + NamesIn(es, ImageBuffers)
      + NamesIn(es, CustomMemories)
  {
    PopulateFromEmpty(es, Ints);
    PopulateFromEmpty(es, Floats);
    PopulateFromEmpty(es, Buffers);
    PopulateFromEmpty(es, Images2D);
    PopulateFromEmpty(es, Image2DArrays);
    PopulateFromEmpty(es, Images3D);
    PopulateFromEmpty(es, ImageBuffers);
    PopulateFromEmpty(es, CustomMemories);
    var p := Populate(Empty, es);
    ConcatCongruence(
      [p.ints, p.floats, Keys(p.buffers), Keys(p.images2d), Keys(p.image2dArrays),
       Keys(p.images3d), Keys(p.imageBuffers), Keys(p.customMemories)],
      [NamesIn(es, Ints), NamesIn(es, Floats), NamesIn(es, Buffers), NamesIn(es, Images2D),
       NamesIn(es, Image2DArrays), NamesIn(es, Images3D), NamesIn(es, ImageBuffers),
       NamesIn(es, CustomMemories)]);
  }

  lemma ConcatCongruence(a: seq<seq<string>>, b: seq<seq<string>>)
    requires |a| == |b| == 8
    requires forall i :: 0 <= i < 8 ==> a[i] == b[i]
    ensures a[0] + a[1] + a[2] + a[3] + a[4] + a[5] + a[6] + a[7]
         == b[0] + b[1] + b[2] + b[3] + b[4] + b[5] + b[6] + b[7]
  {
  }

  lemma PopulateFromEmpty(es: seq<Entry>, g: Group)
    ensures GroupNames(Populate(Empty, es), g) == NamesIn(es, g)
  {
    PopulateGroups(Empty, es, g);
    assert GroupNames(Empty, g) == [];
  }

  /** Insertion order across kinds is irrelevant: two binding lists that agree on the
      order within every kind give the same enumeration. */
  lemma InsertionOrderAcrossGroupsIrrelevant(r: GPUResources, es1: seq<Entry>, es2: seq<Entry>)
    requires forall g :: NamesIn(es1, g) == NamesIn(es2, g)
    ensures AllNames(Populate(r, es1)) == AllNames(Populate(r, es2))
  {
    forall g | true
      ensures GroupNames(Populate(r, es1), g) == GroupNames(Populate(r, es2), g)
    {
      PopulateGroups(r, es1, g);
      PopulateGroups(r, es2, g);
    }
    NamesDeterminedByGroups(Populate(r, es1), Populate(r, es2));
  }

  // ---------------------------------------------------------------------------
  // Scenarios

  /** A lone GLOBAL buffer named "weights" is the whole enumeration. */
  lemma LoneBufferScenario(dataType: DataType, access: AccessType)
    ensures var w := GPUBufferDescriptor(dataType, access, 4, Global, ["restrict"]);
      AllNames(Add(Empty, BufferEntry("weights", w))) == ["weights"]
  {
  }

  /** A custom memory "smp" added before a 2D image "tex" still enumerates after it. */
  lemma ImageBeforeCustomMemoryScenario(dataType: DataType, access: AccessType)
    ensures var es := [CustomMemoryEntry("smp", GPUCustomMemoryDescriptor("SamplerState")),
                       Image2DEntry("tex", GPUImage2DDescriptor(dataType, access))];
      AllNames(Populate(Empty, es)) == ["tex", "smp"]
  {
    var es := [CustomMemoryEntry("smp", GPUCustomMemoryDescriptor("SamplerState")),
               Image2DEntry("tex", GPUImage2DDescriptor(dataType, access))];
    assert es[..1] == [es[0]] && [es[0]][..0] == [];
    assert Populate(Empty, es[..1]) == Add(Populate(Empty, []), es[0]);
    var p := Populate(Empty, es);
    assert p == Add(Add(Empty, es[0]), es[1]);
    assert p.images2d == [("tex", GPUImage2DDescriptor(dataType, access))];
    assert p.customMemories == [("smp", GPUCustomMemoryDescriptor("SamplerState"))];
  }
}
