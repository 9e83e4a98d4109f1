/**
 * The Art Lab toolkit catalogue: modes grouped into use-case buckets, a flat
 * index that tags every mode with its bucket, and lookup by mode id.
 * Only the scalar fields of a mode are kept; its tagline and its `detail`
 * prose are not part of this model.
 */
module ToolkitModes {
  import opened Wrappers

  /** `live`: wired into the analysis tool; `documented`: prompt written, not wired; `coming-soon`: planned. */
  datatype Status = Live | Documented | ComingSoon

  /** `name` holds the source's `label` field (`label` is a reserved word in Dafny). */
  datatype ToolkitMode = ToolkitMode(id: string, name: string, status: Status, phase: string, link: Option<string>)

  datatype Bucket = Bucket(id: string, name: string, modes: seq<ToolkitMode>)

  /** An entry of the flat index: every field of the mode, plus its bucket's id and label. */
  datatype IndexedMode = IndexedMode(mode: ToolkitMode, bucketId: string, bucketLabel: string)

  const AiAnalyzeLink := "/hidden-grammar/ai-analyze"

  const ToolkitBuckets: seq<Bucket> := [
      Bucket("making", "I'm making something", [
        ToolkitMode("intuition-primer", "Intuition Primer", ComingSoon, "Discovery", None),
        ToolkitMode("wip", "Work in Progress", ComingSoon, "Studio Tools", None),
        ToolkitMode("technician", "Technician Mode", ComingSoon, "Studio Tools", None),
        ToolkitMode("blueprint", "Blueprint Mode", ComingSoon, "Studio Tools", None),
        ToolkitMode("attention-engineering", "Attention Engineering", ComingSoon, "Studio Tools", None),
        ToolkitMode("chaos", "Chaos Variable", ComingSoon, "Studio Tools", None),
        ToolkitMode("novelty-check", "Novelty Check", ComingSoon, "Studio Tools", None)
      ]),
      Bucket("analyzing", "I'm analyzing a work", [
        ToolkitMode("fine-art", "Fine Art", Live, "Core Analysis", Some(AiAnalyzeLink)),
        ToolkitMode("cpg", "Consumer Packaged Goods", Live, "Core Analysis", Some(AiAnalyzeLink)),
        ToolkitMode("comic-book", "Comic Book & Sequential Art", Live, "Core Analysis", Some(AiAnalyzeLink)),
        ToolkitMode("commercial-illustration", "Commercial Illustration", Live, "Core Analysis", Some(AiAnalyzeLink)),
        ToolkitMode("physics", "Physics Mode", ComingSoon, "Core Analysis", None),
        ToolkitMode("historian", "Historian Mode", ComingSoon, "Core Analysis", None),
        ToolkitMode("friction-audit", "Friction Audit", ComingSoon, "Core Analysis", None),
        ToolkitMode("attention-engineering-analyzing", "Attention Engineering", ComingSoon, "Studio Tools", None),
        ToolkitMode("full-audit", "Full Hidden Grammar Audit", ComingSoon, "System Debug", None)
      ]),
      Bucket("talking", "I'm talking about art to other people", [
        ToolkitMode("studio-foundations", "Studio Foundations", ComingSoon, "Studio Tools", None),
        ToolkitMode("tour-guide", "Tour Guide Mode", ComingSoon, "Simulation & Context", None),
        ToolkitMode("docent-script", "Docent Script (Anchor)", ComingSoon, "Simulation & Context", None),
        ToolkitMode("curator", "Curator Mode", ComingSoon, "Simulation & Context", None),
        ToolkitMode("global", "Global Mode", ComingSoon, "Simulation & Context", None)
      ]),
      Bucket("stress-testing", "I want to stress-test an idea", [
        ToolkitMode("lens-ooo", "Object-Oriented Ontology", ComingSoon, "External Lenses", None),
        ToolkitMode("lens-phenomenology", "Phenomenological", ComingSoon, "External Lenses", None),
        ToolkitMode("lens-deconstruction", "Deconstructionist", ComingSoon, "External Lenses", None),
        ToolkitMode("lens-new-materialism", "New Materialist", ComingSoon, "External Lenses", None),
        ToolkitMode("lens-semiotics", "Semiotic", ComingSoon, "External Lenses", None),
        ToolkitMode("lens-yau", "John Yau Lens", ComingSoon, "External Lenses", None),
        ToolkitMode("lens-saltz", "Jerry Saltz Lens", ComingSoon, "External Lenses", None),
        ToolkitMode("lens-greenberg", "Clement Greenberg Lens", ComingSoon, "External Lenses", None),
        ToolkitMode("lens-institutional", "Institutional Critique", ComingSoon, "External Lenses", None),
        ToolkitMode("lens-postmodern", "Postmodern", ComingSoon, "External Lenses", None),
        ToolkitMode("lens-ngai", "Minor Emotions (Ngai)", ComingSoon, "External Lenses", None),
        ToolkitMode("lens-metamodern", "Metamodern", ComingSoon, "External Lenses", None),
        ToolkitMode("lens-uncanny", "Uncanny", ComingSoon, "External Lenses", None),
        ToolkitMode("lens-slow-art", "Slow Art", ComingSoon, "External Lenses", None),
        ToolkitMode("lens-neuro-archaeology", "Neuro-Archaeology", ComingSoon, "External Lenses", None),
        ToolkitMode("lens-hauntology", "Hauntology", ComingSoon, "External Lenses", None),
        ToolkitMode("lens-biophilic", "Biophilic", ComingSoon, "External Lenses", None)
      ])

    ]

  /** The number of modes over all buckets. */
  function ModeCount(buckets: seq<Bucket>): nat {
    if buckets == [] then 0 else |buckets[0].modes| + ModeCount(buckets[1..])
  }

  /** One bucket's modes, each tagged with the bucket (`bucket.modes.map(mode => ({...mode, bucketId, bucketLabel}))`). */
  function Tagged(b: Bucket): (r: seq<IndexedMode>)
    ensures |r| == |b.modes|
    ensures forall j | 0 <= j < |r| :: r[j] == IndexedMode(b.modes[j], b.id, b.name)
  {
    seq(|b.modes|, j requires 0 <= j < |b.modes| => IndexedMode(b.modes[j], b.id, b.name))
  }

  /** `toolkitBuckets.flatMap(...)`: the buckets' tagged modes, in bucket order and then mode order. */
  function Flatten(buckets: seq<Bucket>): (r: seq<IndexedMode>)
    ensures |r| == ModeCount(buckets)
  {
    if buckets == [] then [] else Tagged(buckets[0]) + Flatten(buckets[1..])
  }

  /** Mode `j` of bucket `i` sits at index `ModeCount(buckets[..i]) + j` of the flat index, tagged with bucket `i`. */
  lemma {:induction false} FlattenAt(buckets: seq<Bucket>, i: nat, j: nat)
    requires i < |buckets| && j < |buckets[i].modes|
    ensures ModeCount(buckets[..i]) + j < |Flatten(buckets)|
    ensures Flatten(buckets)[ModeCount(buckets[..i]) + j]
            == IndexedMode(buckets[i].modes[j], buckets[i].id, buckets[i].name)
    decreases i
  {
    if i == 0 {
      assert buckets[..0] == [];
    } else {
      var rest := buckets[1..];
      assert rest[..i - 1] == buckets[1..i];
      assert buckets[..i][1..] == buckets[1..i];
      FlattenAt(rest, i - 1, j);
      assert ModeCount(buckets[..i]) == |buckets[0].modes| + ModeCount(rest[..i - 1]);
    }
  }

  /** Every entry of the flat index is some bucket's mode, tagged with that bucket. */
  lemma {:induction false} FlattenFrom(buckets: seq<Bucket>, k: nat)
    requires k < |Flatten(buckets)|
    ensures exists i, j :: 0 <= i < |buckets| && 0 <= j < |buckets[i].modes|
                           && Flatten(buckets)[k] == IndexedMode(buckets[i].modes[j], buckets[i].id, buckets[i].name)
    decreases |buckets|
  {
    var b := buckets[0];
    if k < |b.modes| {
      assert Flatten(buckets)[k] == Tagged(b)[k];
      assert Flatten(buckets)[k] == IndexedMode(buckets[0].modes[k], buckets[0].id, buckets[0].name);
    } else {
      var rest := buckets[1..];
      assert Flatten(buckets)[k] == Flatten(rest)[k - |b.modes|];
      FlattenFrom(rest, k - |b.modes|);
      var i, j :| 0 <= i < |rest| && 0 <= j < |rest[i].modes|
                  && Flatten(rest)[k - |b.modes|] == IndexedMode(rest[i].modes[j], rest[i].id, rest[i].name);
      assert rest[i] == buckets[i + 1];
    }
  }

  /** The flat index of the catalogue (`allModes`). */
  function AllModes(): seq<IndexedMode> {
    Flatten(ToolkitBuckets)
  }

  /** The index of the first entry whose mode id is `id` (`Array.prototype.findIndex`). */
  function FindById(entries: seq<IndexedMode>, id: string): (r: Option<nat>)
    ensures r.Some? ==> r.value < |entries| && entries[r.value].mode.id == id
                        && forall k | 0 <= k < r.value :: entries[k].mode.id != id
    ensures r.None? ==> forall k | 0 <= k < |entries| :: entries[k].mode.id != id
  {
    FindIndex(entries, (e: IndexedMode) => e.mode.id == id)
  }

  /** `getModeById`: the first entry of the flat index with that id, or `null`. */
  function GetModeById(id: string): (r: Option<IndexedMode>)
    ensures r.Some? ==> r.value.mode.id == id && r.value in AllModes()
    ensures r.None? ==> forall k | 0 <= k < |AllModes()| :: AllModes()[k].mode.id != id
  {
    match FindById(AllModes(), id)
    case None => None
    case Some(k) => Some(AllModes()[k])
  }

  /** No two modes of `modes` share an id. */
  predicate DistinctIds(modes: seq<ToolkitMode>) {
    forall j1, j2 | 0 <= j1 < j2 < |modes| :: modes[j1].id != modes[j2].id
  }

  /** No mode of `a` shares an id with a mode of `b`. */
  predicate Apart(a: seq<ToolkitMode>, b: seq<ToolkitMode>) {
    forall j1, j2 | 0 <= j1 < |a| && 0 <= j2 < |b| :: a[j1].id != b[j2].id
  }

  /** Ids distinct within each bucket and across buckets give a flat index without repeated ids. */
  lemma {:induction false} FlattenDistinct(buckets: seq<Bucket>)
    requires forall i | 0 <= i < |buckets| :: DistinctIds(buckets[i].modes)
    requires forall i1, i2 | 0 <= i1 < i2 < |buckets| :: Apart(buckets[i1].modes, buckets[i2].modes)
    ensures forall k1, k2 | 0 <= k1 < k2 < |Flatten(buckets)| :: Flatten(buckets)[k1].mode.id != Flatten(buckets)[k2].mode.id
    decreases |buckets|
  {
    if buckets != [] {
      var b, rest := buckets[0], buckets[1..];
      var flat := Flatten(buckets);
      FlattenDistinct(rest);
      forall k1, k2 | 0 <= k1 < k2 < |flat| ensures flat[k1].mode.id != flat[k2].mode.id {
        if k2 < |b.modes| {
          assert flat[k1].mode == b.modes[k1] && flat[k2].mode == b.modes[k2];
        } else if k1 >= |b.modes| {
          assert flat[k1] == Flatten(rest)[k1 - |b.modes|];
          assert flat[k2] == Flatten(rest)[k2 - |b.modes|];
        } else {
          assert flat[k1].mode == b.modes[k1];
          assert flat[k2] == Flatten(rest)[k2 - |b.modes|];
          FlattenFrom(rest, k2 - |b.modes|);
          var i, j :| 0 <= i < |rest| && 0 <= j < |rest[i].modes|
                      && Flatten(rest)[k2 - |b.modes|] == IndexedMode(rest[i].modes[j], rest[i].id, rest[i].name);
          assert rest[i] == buckets[i + 1];
          assert Apart(buckets[0].modes, buckets[i + 1].modes);
        }
      }
    }
  }

  // The per-bucket facts behind CatalogueIdsDistinct, one small proof obligation each.
  lemma DistinctWithinBuckets()
    ensures forall i | 0 <= i < |ToolkitBuckets| :: DistinctIds(ToolkitBuckets[i].modes)
  {
    DistinctWithinBucket0();
    DistinctWithinBucket1();
    DistinctWithinBucket2();
    DistinctWithinBucket3();
  }
  lemma DistinctWithinBucket0() ensures DistinctIds(ToolkitBuckets[0].modes) {}
  lemma DistinctWithinBucket1() ensures DistinctIds(ToolkitBuckets[1].modes) {}
  lemma DistinctWithinBucket2() ensures DistinctIds(ToolkitBuckets[2].modes) {}
  lemma DistinctWithinBucket3() ensures DistinctIds(ToolkitBuckets[3].modes) {
    var m := ToolkitBuckets[3].modes;
    DistinctWithinBucket3Low();
    DistinctWithinBucket3High();
    DistinctWithinBucket3Apart();
    DistinctIdsConcat(m[..9], m[9..]);
    assert m == m[..9] + m[9..];
  }
  lemma DistinctWithinBucket3Low() ensures DistinctIds(ToolkitBuckets[3].modes[..9]) {}
  lemma DistinctWithinBucket3High() ensures DistinctIds(ToolkitBuckets[3].modes[9..]) {}
  lemma DistinctWithinBucket3Apart() ensures Apart(ToolkitBuckets[3].modes[..9], ToolkitBuckets[3].modes[9..]) {}

  /** Two lists without repeated ids and without shared ids concatenate to one without repeated ids. */
  lemma DistinctIdsConcat(a: seq<ToolkitMode>, b: seq<ToolkitMode>)
    requires DistinctIds(a) && DistinctIds(b) && Apart(a, b)
    ensures DistinctIds(a + b)
  {
    var c := a + b;
    forall j1, j2 | 0 <= j1 < j2 < |c| ensures c[j1].id != c[j2].id {
      if j2 < |a| {
        assert c[j1] == a[j1] && c[j2] == a[j2];
      } else if j1 >= |a| {
        assert c[j1] == b[j1 - |a|] && c[j2] == b[j2 - |a|];
      } else {
        assert c[j1] == a[j1] && c[j2] == b[j2 - |a|];
      }
    }
  }
  lemma DistinctAcrossBuckets01() ensures Apart(ToolkitBuckets[0].modes, ToolkitBuckets[1].modes) {}
  lemma DistinctAcrossBuckets02() ensures Apart(ToolkitBuckets[0].modes, ToolkitBuckets[2].modes) {}
  lemma DistinctAcrossBuckets03() ensures Apart(ToolkitBuckets[0].modes, ToolkitBuckets[3].modes) {
    var m := ToolkitBuckets[3].modes;
    DistinctAcrossBuckets03Low();
    DistinctAcrossBuckets03High();
    ApartConcat(ToolkitBuckets[0].modes, m[..9], m[9..]);
    assert m == m[..9] + m[9..];
  }
  lemma DistinctAcrossBuckets03Low() ensures Apart(ToolkitBuckets[0].modes, ToolkitBuckets[3].modes[..9]) {}
  lemma DistinctAcrossBuckets03High() ensures Apart(ToolkitBuckets[0].modes, ToolkitBuckets[3].modes[9..]) {}

  /** A list apart from two lists is apart from their concatenation. */
  lemma ApartConcat(a: seq<ToolkitMode>, b: seq<ToolkitMode>, c: seq<ToolkitMode>)
    requires Apart(a, b) && Apart(a, c)
    ensures Apart(a, b + c)
  {
    forall j1, j2 | 0 <= j1 < |a| && 0 <= j2 < |b + c| ensures a[j1].id != (b + c)[j2].id {
      if j2 < |b| {
        assert (b + c)[j2] == b[j2];
      } else {
        assert (b + c)[j2] == c[j2 - |b|];
      }
    }
  }
  lemma DistinctAcrossBuckets12() ensures Apart(ToolkitBuckets[1].modes, ToolkitBuckets[2].modes) {}
  lemma DistinctAcrossBuckets13() ensures Apart(ToolkitBuckets[1].modes, ToolkitBuckets[3].modes) {}
  lemma DistinctAcrossBuckets23() ensures Apart(ToolkitBuckets[2].modes, ToolkitBuckets[3].modes) {}

  /** The flat index holds 38 entries. */
  lemma CatalogueSize()
    ensures |AllModes()| == 38
  {
    var b := ToolkitBuckets;
    assert ModeCount(b[3..]) == 17 by { assert b[3..][1..] == []; }
    assert ModeCount(b[2..]) == 22 by { assert b[2..][1..] == b[3..]; }
    assert ModeCount(b[1..]) == 31 by { assert b[1..][1..] == b[2..]; }
  }

  /** The catalogue's 38 mode ids are pairwise distinct, so a lookup by id is unambiguous. */
  lemma CatalogueIdsDistinct()
    ensures |AllModes()| == 38
    ensures forall k1, k2 | 0 <= k1 < k2 < |AllModes()| :: AllModes()[k1].mode.id != AllModes()[k2].mode.id
  {
    var b := ToolkitBuckets;
    CatalogueSize();
    DistinctWithinBuckets();
    DistinctAcrossBuckets01();
    DistinctAcrossBuckets02();
    DistinctAcrossBuckets03();
    DistinctAcrossBuckets12();
    DistinctAcrossBuckets13();
    DistinctAcrossBuckets23();
    FlattenDistinct(b);
  }

  /** Looking up the id of any catalogue entry returns that very entry. */
  lemma GetModeByIdFindsEntry(k: nat)
    requires k < |AllModes()|
    ensures GetModeById(AllModes()[k].mode.id) == Some(AllModes()[k])
  {
    CatalogueIdsDistinct();
  }

  /** A live mode links to the analysis tool and any other mode has no link. */
  predicate LinkFollowsStatus(m: ToolkitMode) {
    && (m.status == Live ==> m.link == Some(AiAnalyzeLink))
    && (m.status != Live ==> m.link == None)
  }

  // The per-bucket facts behind LiveModesLinkToTool, one small proof obligation each.
  lemma LinksFollowStatus0() ensures forall j | 0 <= j < |ToolkitBuckets[0].modes| :: LinkFollowsStatus(ToolkitBuckets[0].modes[j]) {}
  lemma LinksFollowStatus1() ensures forall j | 0 <= j < |ToolkitBuckets[1].modes| :: LinkFollowsStatus(ToolkitBuckets[1].modes[j]) {}
  lemma LinksFollowStatus2() ensures forall j | 0 <= j < |ToolkitBuckets[2].modes| :: LinkFollowsStatus(ToolkitBuckets[2].modes[j]) {}
  lemma LinksFollowStatus3() ensures forall j | 0 <= j < |ToolkitBuckets[3].modes| :: LinkFollowsStatus(ToolkitBuckets[3].modes[j]) {}

  /** A mode links to the analysis tool exactly when it is live; no other mode carries a link. */
  lemma LiveModesLinkToTool(k: nat)
    requires k < |AllModes()|
    ensures AllModes()[k].mode.status == Live <==> AllModes()[k].mode.link == Some(AiAnalyzeLink)
    ensures AllModes()[k].mode.status != Live ==> AllModes()[k].mode.link == None
  {
    FlattenFrom(ToolkitBuckets, k);
    var i, j :| 0 <= i < |ToolkitBuckets| && 0 <= j < |ToolkitBuckets[i].modes|
                && AllModes()[k] == IndexedMode(ToolkitBuckets[i].modes[j], ToolkitBuckets[i].id, ToolkitBuckets[i].name);
    LinksFollowStatus0();
    LinksFollowStatus1();
    LinksFollowStatus2();
    LinksFollowStatus3();
    assert LinkFollowsStatus(ToolkitBuckets[i].modes[j]);
  }
}
