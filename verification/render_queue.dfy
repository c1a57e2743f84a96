/** The render queue of RenderQueue.cpp: opaque calls in a multimap keyed by
    a string, transparent calls in a multimap keyed by their distance to the
    camera, and drawing that walks the first forwards and the second
    backwards before emptying both. A multimap is a sequence kept in key
    order, a new entry going after every entry with an equal key. */
module RenderQueue {
  import opened Common

  /** `GL_SRC_ALPHA` and `GL_ONE_MINUS_SRC_ALPHA` */
  const SrcAlpha: nat := 0x0302
  const OneMinusSrcAlpha: nat := 0x0303

  /** A render call: the geometry to draw, the properties it is drawn with
      (both opaque handles here) and its blend factors. Opaque calls are
      stored without blend factors, which C++ then value-initialises to 0. */
  datatype RenderCall = RenderCall(geometry: nat, properties: nat, blendSfactor: nat, blendDfactor: nat)

  datatype OpaqueEntry = OpaqueEntry(key: string, call: RenderCall)
  datatype TransparentEntry = TransparentEntry(distance: real, call: RenderCall)

  datatype RenderQueue = RenderQueue(opaqueCalls: seq<OpaqueEntry>, transparentCalls: seq<TransparentEntry>)

  /** `std::string` ordering: lexicographic by character. */
  predicate Less(a: string, b: string) {
    if |a| == 0 then |b| > 0
    else if |b| == 0 then false
    else if a[0] != b[0] then a[0] < b[0]
    else Less(a[1..], b[1..])
  }

  /** Two strings are equal or one is less than the other. */
  lemma {:induction false} LessTotal(a: string, b: string)
    ensures a == b || Less(a, b) || Less(b, a)
  {
    if |a| > 0 && |b| > 0 && a[0] == b[0] {
      LessTotal(a[1..], b[1..]);
      if a[1..] == b[1..] {
        assert a == [a[0]] + a[1..] && b == [b[0]] + b[1..];
      }
    }
  }

  /** No two strings are each less than the other. */
  lemma {:induction false} LessAsymmetric(a: string, b: string)
    ensures !(Less(a, b) && Less(b, a))
  {
    if |a| > 0 && |b| > 0 && a[0] == b[0] {
      LessAsymmetric(a[1..], b[1..]);
    }
  }

  /** Opaque entries in ascending key order. */
  predicate OpaqueSorted(s: seq<OpaqueEntry>) {
    forall i :: 0 < i < |s| ==> !Less(s[i].key, s[i - 1].key)
  }

  /** Transparent entries in ascending distance. */
  predicate TransparentSorted(s: seq<TransparentEntry>) {
    forall i :: 0 < i < |s| ==> s[i - 1].distance <= s[i].distance
  }

  predicate Sorted(q: RenderQueue) {
    OpaqueSorted(q.opaqueCalls) && TransparentSorted(q.transparentCalls)
  }

  /** `multimap::insert` of an opaque entry: after every entry whose key is
      not greater. */
  function InsertOpaque(s: seq<OpaqueEntry>, e: OpaqueEntry): (r: seq<OpaqueEntry>)
    ensures |r| == |s| + 1
    ensures multiset(r) == multiset(s) + multiset{e}
    ensures r[0] == e || (|s| > 0 && r[0] == s[0])
  {
    if |s| == 0 then [e]
    else if Less(e.key, s[0].key) then [e] + s
    else
      assert s == [s[0]] + s[1..];
      [s[0]] + InsertOpaque(s[1..], e)
  }

  /** Putting an entry back in front of a split tail splits the whole. */
  lemma ConsSplit<T>(s: seq<T>, q: nat, e: T)
    requires |s| > 0 && q <= |s| - 1
    ensures [s[0]] + (s[1..][..q] + [e] + s[1..][q..]) == s[..q + 1] + [e] + s[q + 1..]
  {
    assert s[..q + 1] == [s[0]] + s[1..][..q];
    assert s[q + 1..] == s[1..][q..];
  }

  /** Where `InsertOpaque` puts the entry: in front of the first entry
      with a greater key, so after every entry with an equal key, as
      `multimap::insert` does. */
  lemma {:induction false} InsertOpaquePosition(s: seq<OpaqueEntry>, e: OpaqueEntry) returns (p: nat)
    ensures p <= |s| && InsertOpaque(s, e) == s[..p] + [e] + s[p..]
    ensures forall i :: 0 <= i < p ==> !Less(e.key, s[i].key)
    ensures p < |s| ==> Less(e.key, s[p].key)
  {
    if |s| == 0 || Less(e.key, s[0].key) {
      p := 0;
    } else {
      var q := InsertOpaquePosition(s[1..], e);
      p := q + 1;
      ConsSplit(s, q, e);
      forall i | 0 <= i < p ensures !Less(e.key, s[i].key) {
        if i > 0 {
          assert s[i] == s[1..][i - 1];
        }
      }
      assert p < |s| ==> s[p] == s[1..][q];
    }
  }

  /** Inserting keeps the opaque entries in key order. */
  lemma {:induction false} InsertOpaqueSorted(s: seq<OpaqueEntry>, e: OpaqueEntry)
    requires OpaqueSorted(s)
    ensures OpaqueSorted(InsertOpaque(s, e))
  {
    var r := InsertOpaque(s, e);
    if |s| > 0 && !Less(e.key, s[0].key) {
      InsertOpaqueSorted(s[1..], e);
      var tail := InsertOpaque(s[1..], e);
      assert r == [s[0]] + tail;
      assert tail[0] == e || tail[0] == s[1];
      forall i | 0 < i < |r|
        ensures !Less(r[i].key, r[i - 1].key)
      {
        if i > 1 {
          assert r[i] == tail[i - 1] && r[i - 1] == tail[i - 2];
        }
      }
    } else if |s| > 0 {
      LessAsymmetric(e.key, s[0].key);
      assert r == [e] + s;
      forall i | 0 < i < |r|
        ensures !Less(r[i].key, r[i - 1].key)
      {
        if i > 1 {
          assert r[i] == s[i - 1] && r[i - 1] == s[i - 2];
        }
      }
    }
  }

  /** `multimap::insert` of a transparent entry: after every entry whose
      distance is not greater. */
  function InsertTransparent(s: seq<TransparentEntry>, e: TransparentEntry): (r: seq<TransparentEntry>)
    ensures |r| == |s| + 1
    ensures multiset(r) == multiset(s) + multiset{e}
    ensures r[0] == e || (|s| > 0 && r[0] == s[0])
  {
    if |s| == 0 then [e]
    else if e.distance < s[0].distance then [e] + s
    else
      assert s == [s[0]] + s[1..];
      [s[0]] + InsertTransparent(s[1..], e)
  }

  /** Where `InsertTransparent` puts the entry: in front of the first
      entry farther away, so after every entry at an equal distance. */
  lemma {:induction false} InsertTransparentPosition(s: seq<TransparentEntry>, e: TransparentEntry) returns (p: nat)
    ensures p <= |s| && InsertTransparent(s, e) == s[..p] + [e] + s[p..]
    ensures forall i :: 0 <= i < p ==> s[i].distance <= e.distance
    ensures p < |s| ==> e.distance < s[p].distance
  {
    if |s| == 0 || e.distance < s[0].distance {
      p := 0;
    } else {
      var q := InsertTransparentPosition(s[1..], e);
      p := q + 1;
      ConsSplit(s, q, e);
      forall i | 0 <= i < p ensures s[i].distance <= e.distance {
        if i > 0 {
          assert s[i] == s[1..][i - 1];
        }
      }
      assert p < |s| ==> s[p] == s[1..][q];
    }
  }

  lemma {:induction false} InsertTransparentSorted(s: seq<TransparentEntry>, e: TransparentEntry)
    requires TransparentSorted(s)
    ensures TransparentSorted(InsertTransparent(s, e))
  {
    var r := InsertTransparent(s, e);
    if |s| > 0 && s[0].distance <= e.distance {
      InsertTransparentSorted(s[1..], e);
      var tail := InsertTransparent(s[1..], e);
      assert r == [s[0]] + tail;
      assert tail[0] == e || tail[0] == s[1];
      forall i | 0 < i < |r|
        ensures r[i - 1].distance <= r[i].distance
      {
        if i > 1 {
          assert r[i] == tail[i - 1] && r[i - 1] == tail[i - 2];
        }
      }
    } else if |s| > 0 {
      assert r == [e] + s;
      forall i | 0 < i < |r|
        ensures r[i - 1].distance <= r[i].distance
      {
        if i > 1 {
          assert r[i] == s[i - 1] && r[i - 1] == s[i - 2];
        }
      }
    }
  }

  /** The key of an opaque call: the decimal program id, then the material
      name, then the geometry name. */
  function OpaqueKey(programID: nat, materialName: string, geometryName: string): (key: string)
    ensures |key| > |materialName| + |geometryName|
    ensures key[|key| - |geometryName|..] == geometryName
    ensures key[..|key| - |geometryName|] == NatToString(programID) + materialName
  {
    NatToString(programID) + materialName + geometryName
  }

  /** `submitToRenderQueue`: a transparent call goes by its distance with its
      blend factors; an opaque call goes by its key, without blend factors. */
  function Submit(q: RenderQueue, programID: nat, materialName: string, geometryName: string,
                  geometry: nat, properties: nat, distanceToCamera: real, isTransparent: bool,
                  blendSfactor: nat, blendDfactor: nat): (r: RenderQueue)
    ensures isTransparent ==> (r.opaqueCalls == q.opaqueCalls
      && multiset(r.transparentCalls) == multiset(q.transparentCalls)
         + multiset{TransparentEntry(distanceToCamera, RenderCall(geometry, properties, blendSfactor, blendDfactor))})
    ensures !isTransparent ==> (r.transparentCalls == q.transparentCalls
      && multiset(r.opaqueCalls) == multiset(q.opaqueCalls)
         + multiset{OpaqueEntry(OpaqueKey(programID, materialName, geometryName), RenderCall(geometry, properties, 0, 0))})
  {
    if isTransparent then
      q.(transparentCalls := InsertTransparent(q.transparentCalls,
           TransparentEntry(distanceToCamera, RenderCall(geometry, properties, blendSfactor, blendDfactor))))
    else
      q.(opaqueCalls := InsertOpaque(q.opaqueCalls,
           OpaqueEntry(OpaqueKey(programID, materialName, geometryName), RenderCall(geometry, properties, 0, 0))))
  }

  /** Submitting keeps both multimaps in key order. */
  lemma SubmitSorted(q: RenderQueue, programID: nat, materialName: string, geometryName: string,
                     geometry: nat, properties: nat, distanceToCamera: real, isTransparent: bool,
                     blendSfactor: nat, blendDfactor: nat)
    requires Sorted(q)
    ensures Sorted(Submit(q, programID, materialName, geometryName, geometry, properties,
                          distanceToCamera, isTransparent, blendSfactor, blendDfactor))
  {
    if isTransparent {
      InsertTransparentSorted(q.transparentCalls,
        TransparentEntry(distanceToCamera, RenderCall(geometry, properties, blendSfactor, blendDfactor)));
    } else {
      InsertOpaqueSorted(q.opaqueCalls,
        OpaqueEntry(OpaqueKey(programID, materialName, geometryName), RenderCall(geometry, properties, 0, 0)));
    }
  }

  /** One GL effect of drawing. */
  datatype GlStep =
    | DrawGeometry(geometry: nat, properties: nat)
    | BlendFunc(sfactor: nat, dfactor: nat)

  /** The steps of drawing opaque entries in order. */
  function OpaqueSteps(s: seq<OpaqueEntry>): (r: seq<GlStep>)
    ensures |r| == |s|
    ensures forall i :: 0 <= i < |s| ==> r[i] == DrawGeometry(s[i].call.geometry, s[i].call.properties)
  {
    seq(|s|, i requires 0 <= i < |s| => DrawGeometry(s[i].call.geometry, s[i].call.properties))
  }

  /** The steps of drawing transparent entries from the last to the first,
      each after setting its blend function. */
  function TransparentSteps(s: seq<TransparentEntry>): (r: seq<GlStep>)
    ensures |r| == 2 * |s|
  {
    seq(2 * |s|, k requires 0 <= k < 2 * |s| =>
      var e := s[|s| - 1 - k / 2];
      if k % 2 == 0 then BlendFunc(e.call.blendSfactor, e.call.blendDfactor)
      else DrawGeometry(e.call.geometry, e.call.properties))
  }

  /** Each transparent entry, from the last, gives its blend step and then
      its draw step. */
  lemma TransparentStepsOrder(s: seq<TransparentEntry>, i: nat)
    requires i < |s|
    ensures var e := s[|s| - 1 - i];
      && TransparentSteps(s)[2 * i] == BlendFunc(e.call.blendSfactor, e.call.blendDfactor)
      && TransparentSteps(s)[2 * i + 1] == DrawGeometry(e.call.geometry, e.call.properties)
  {
    assert (2 * i) / 2 == i && (2 * i + 1) / 2 == i;
    assert (2 * i) % 2 == 0 && (2 * i + 1) % 2 == 1;
  }

  /** Drawing one more entry from below the ones already drawn. */
  lemma TransparentStepsExtend(s: seq<TransparentEntry>, k: nat)
    requires 0 < k <= |s|
    ensures TransparentSteps(s[k - 1..]) == TransparentSteps(s[k..])
      + [BlendFunc(s[k - 1].call.blendSfactor, s[k - 1].call.blendDfactor),
         DrawGeometry(s[k - 1].call.geometry, s[k - 1].call.properties)]
  {
    var a := TransparentSteps(s[k - 1..]);
    var b := TransparentSteps(s[k..]);
    forall t | 0 <= t < |b|
      ensures a[t] == b[t]
    {
      assert t / 2 < |s| - k;
    }
    var n := |s| - k;
    assert (2 * n) / 2 == n && (2 * n + 1) / 2 == n;
  }

  /** `draw`: every opaque call in key order, then every transparent call
      from the farthest to the nearest with its blend function, then the
      default blend function again; the queue is left empty. */
  method Draw(q: RenderQueue) returns (steps: seq<GlStep>, r: RenderQueue)
    ensures steps == OpaqueSteps(q.opaqueCalls) + TransparentSteps(q.transparentCalls) + [BlendFunc(SrcAlpha, OneMinusSrcAlpha)]
    ensures r == Clear(q)
  {
    steps := [];
    var i := 0;
    while i < |q.opaqueCalls|
      invariant 0 <= i <= |q.opaqueCalls|
      invariant steps == OpaqueSteps(q.opaqueCalls[..i])
    {
      assert q.opaqueCalls[..i + 1][..i] == q.opaqueCalls[..i];
      steps := steps + [DrawGeometry(q.opaqueCalls[i].call.geometry, q.opaqueCalls[i].call.properties)];
      i := i + 1;
    }
    assert q.opaqueCalls[..i] == q.opaqueCalls;
    var k := |q.transparentCalls|;
    var back: seq<GlStep> := [];
    while k > 0
      invariant 0 <= k <= |q.transparentCalls|
      invariant back == TransparentSteps(q.transparentCalls[k..])
    {
      var e := q.transparentCalls[k - 1];
      TransparentStepsExtend(q.transparentCalls, k);
      back := back + [BlendFunc(e.call.blendSfactor, e.call.blendDfactor), DrawGeometry(e.call.geometry, e.call.properties)];
      k := k - 1;
    }
    assert q.transparentCalls[0..] == q.transparentCalls;
    steps := steps + back + [BlendFunc(SrcAlpha, OneMinusSrcAlpha)];
    r := Clear(q);
  }

  /** `clear`: both multimaps emptied, nothing drawn. */
  function Clear(q: RenderQueue): (r: RenderQueue)
    ensures |r.opaqueCalls| == 0 && |r.transparentCalls| == 0
  {
    RenderQueue([], [])
  }

  /** One `submitToRenderQueue` call. */
  datatype Submission = Submission(programID: nat, materialName: string, geometryName: string,
                                   geometry: nat, properties: nat, distanceToCamera: real,
                                   isTransparent: bool, blendSfactor: nat, blendDfactor: nat)

  function SubmitOne(q: RenderQueue, s: Submission): RenderQueue {
    Submit(q, s.programID, s.materialName, s.geometryName, s.geometry, s.properties,
           s.distanceToCamera, s.isTransparent, s.blendSfactor, s.blendDfactor)
  }

  /** The queue after a series of submissions, in order. */
  function SubmitAll(q: RenderQueue, subs: seq<Submission>): RenderQueue
    decreases |subs|
  {
    if |subs| == 0 then q else SubmitAll(SubmitOne(q, subs[0]), subs[1..])
  }

  /** The opaque entries a series of submissions makes, in order. */
  function OpaqueEntriesOf(subs: seq<Submission>): seq<OpaqueEntry> {
    if |subs| == 0 then []
    else
      var s := subs[0];
      (if s.isTransparent then []
       else [OpaqueEntry(OpaqueKey(s.programID, s.materialName, s.geometryName), RenderCall(s.geometry, s.properties, 0, 0))])
      + OpaqueEntriesOf(subs[1..])
  }

  /** The transparent entries a series of submissions makes, in order. */
  function TransparentEntriesOf(subs: seq<Submission>): seq<TransparentEntry> {
    if |subs| == 0 then []
    else
      var s := subs[0];
      (if s.isTransparent
       then [TransparentEntry(s.distanceToCamera, RenderCall(s.geometry, s.properties, s.blendSfactor, s.blendDfactor))]
       else [])
      + TransparentEntriesOf(subs[1..])
  }

  /** Every submission enters the queue exactly once, in the multimap its
      transparency selects, and nothing else enters. */
  lemma {:induction false} SubmitAllEntries(q: RenderQueue, subs: seq<Submission>)
    ensures multiset(SubmitAll(q, subs).opaqueCalls) == multiset(q.opaqueCalls) + multiset(OpaqueEntriesOf(subs))
    ensures multiset(SubmitAll(q, subs).transparentCalls) == multiset(q.transparentCalls) + multiset(TransparentEntriesOf(subs))
    decreases |subs|
  {
    if |subs| > 0 {
      SubmitAllEntries(SubmitOne(q, subs[0]), subs[1..]);
    }
  }

  /** The queue stays in key order through any series of submissions. */
  lemma {:induction false} SubmitAllSorted(q: RenderQueue, subs: seq<Submission>)
    requires Sorted(q)
    ensures Sorted(SubmitAll(q, subs))
    decreases |subs|
  {
    if |subs| > 0 {
      var s := subs[0];
      SubmitSorted(q, s.programID, s.materialName, s.geometryName, s.geometry, s.properties,
                   s.distanceToCamera, s.isTransparent, s.blendSfactor, s.blendDfactor);
      SubmitAllSorted(SubmitOne(q, s), subs[1..]);
    }
  }

  /** The distances of the transparent entries in the order they are drawn. */
  function DrawnDistances(s: seq<TransparentEntry>): (d: seq<real>)
    ensures |d| == |s|
    ensures forall i :: 0 <= i < |s| ==> d[i] == s[|s| - 1 - i].distance
  {
    seq(|s|, i requires 0 <= i < |s| => s[|s| - 1 - i].distance)
  }

  /** In a queue built by submissions, drawing visits the opaque keys in
      ascending order and the transparent distances in descending order. */
  lemma DrawOrder(q: RenderQueue)
    requires Sorted(q)
    ensures forall i, j :: 0 <= i < j < |q.opaqueCalls| ==> !Less(q.opaqueCalls[j].key, q.opaqueCalls[i].key)
    ensures forall i, j :: 0 <= i < j < |q.transparentCalls| ==>
      DrawnDistances(q.transparentCalls)[j] <= DrawnDistances(q.transparentCalls)[i]
  {
    forall i, j | 0 <= i < j < |q.opaqueCalls|
      ensures !Less(q.opaqueCalls[j].key, q.opaqueCalls[i].key)
    {
      OpaqueChain(q.opaqueCalls, i, j);
    }
    var t := q.transparentCalls;
    forall i, j | 0 <= i < j < |t|
      ensures DrawnDistances(t)[j] <= DrawnDistances(t)[i]
    {
      TransparentChain(t, |t| - 1 - j, |t| - 1 - i);
    }
  }

  /** In a sorted run no later key is less than an earlier one. */
  lemma {:induction false} OpaqueChain(s: seq<OpaqueEntry>, i: nat, j: nat)
    requires OpaqueSorted(s)
    requires i < j < |s|
    ensures !Less(s[j].key, s[i].key)
    decreases j - i
  {
    if j > i + 1 {
      OpaqueChain(s, i, j - 1);
      LessTransitiveNot(s[i].key, s[j - 1].key, s[j].key);
    }
  }

  lemma {:induction false} TransparentChain(s: seq<TransparentEntry>, i: nat, j: nat)
    requires TransparentSorted(s)
    requires i < j < |s|
    ensures s[i].distance <= s[j].distance
    decreases j - i
  {
    if j > i + 1 {
      TransparentChain(s, i, j - 1);
    }
  }

  /** If `b` is not less than `a` and `c` not less than `b`, `c` is not less
      than `a`. */
  lemma {:induction false} LessTransitiveNot(a: string, b: string, c: string)
    requires !Less(b, a) && !Less(c, b)
    ensures !Less(c, a)
  {
    if |a| > 0 && |b| > 0 && |c| > 0 && a[0] == b[0] && b[0] == c[0] {
      LessTransitiveNot(a[1..], b[1..], c[1..]);
    }
  }
}
