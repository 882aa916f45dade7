/**
 The three-way merge of the ingress Service's annotations: what the DataPlane asks for now, what it
 asked for last (kept encoded in an annotation of its own), and what others wrote.
 */
module AnnotationMerge {
  import opened Wrappers
  import opened Annotations

  const LAST_APPLIED := "gateway-operator.konghq.com/last-applied-annotations"

  /** The annotations of spec.network.services.ingress; None when the field is nil. */
  type Spec = Option<AnnotationMap>

  /** The JSON encoding of a map: decoding undoes it, and it is never the empty string. */
  ghost predicate Codec(enc: AnnotationMap -> string, dec: string -> Option<AnnotationMap>) {
    forall m :: dec(enc(m)) == Some(m) && enc(m) != ""
  }

  // ---------------------------------------------------------------- specification

  /** addAnnotationsForDataPlaneIngressService, on a Service generated without annotations. */
  function Generated(spec: Spec, enc: AnnotationMap -> string): AnnotationMap {
    if spec.None? then map[] else spec.value[LAST_APPLIED := enc(spec.value)]
  }

  /** The keys of `m` that the current spec does not ask for. */
  function NotAskedFor(m: AnnotationMap, spec: Spec): set<string> {
    m.Keys - spec.GetOr(map[]).Keys
  }

  /** extractOutdatedDataPlaneIngressServiceAnnotations; None when decoding fails. */
  function Outdated(spec: Spec, existing: AnnotationMap, dec: string -> Option<AnnotationMap>): Option<set<string>> {
    if LAST_APPLIED !in existing then Some({})
    else
      match dec(existing[LAST_APPLIED])
      case None => None
      case Some(m) => Some(NotAskedFor(m, spec))
  }

  /** The keys whose value differs, where a missing key reads as "". */
  function Differing(existing: AnnotationMap, generated: AnnotationMap): set<string> {
    set k | k in generated && Read(existing, k) != generated[k]
  }

  function Overlaid(existing: AnnotationMap, generated: AnnotationMap): AnnotationMap {
    existing + map k | k in Differing(existing, generated) :: generated[k]
  }

  datatype Outcome = Outcome(annotations: AnnotationMap, updated: bool, ok: bool)

  /** ensureDataPlaneIngressServiceAnnotationsUpdated. */
  function Synced(existing: AnnotationMap, spec: Spec, generated: AnnotationMap,
                  dec: string -> Option<AnnotationMap>): Outcome {
    match Outdated(spec, existing, dec)
    case None => Outcome(existing, true, false)
    case Some(outdated) =>
      Outcome(Overlaid(existing - outdated, generated),
              outdated * existing.Keys != {} || Differing(existing - outdated, generated) != {}, true)
  }

  /** The annotation part of the existing-Service branch of ensureIngressServiceForDataPlane. */
  function Ensured(existing: AnnotationMap, spec: Spec, enc: AnnotationMap -> string,
                   dec: string -> Option<AnnotationMap>): Outcome {
    var generated := Generated(spec, enc);
    var out := Synced(Restored(existing, generated), spec, generated, dec);
    out.(updated := out.updated || existing + generated != existing)
  }

  /** The merge of the generated metadata, with the original last-applied annotation put back. */
  function Restored(existing: AnnotationMap, generated: AnnotationMap): AnnotationMap {
    var original := Read(existing, LAST_APPLIED);
    if original != "" then (existing + generated)[LAST_APPLIED := original] else existing + generated
  }

  // ---------------------------------------------------------------- the code

  lemma {:induction false} OneTaken<K>(all: set<K>, rest: set<K>, k: K)
    requires k in rest && rest <= all
    ensures all - (rest - {k}) == (all - rest) + {k} && k !in all - rest
    ensures rest - {k} <= all && |rest - {k}| < |rest|
  {
  }

  /** The merge when only the keys in `done` were looked at. */
  function MergedOn(was: AnnotationMap, generated: AnnotationMap, done: set<string>): AnnotationMap {
    was + map k | k in generated && k in done :: generated[k]
  }

  lemma {:induction false} OneMerged(was: AnnotationMap, generated: AnnotationMap, done: set<string>, k: string)
    requires k !in done && k in generated
    ensures var before := MergedOn(was, generated, done);
      && MergedOn(was, generated, done + {k}) == before[k := generated[k]]
      && (k in before <==> k in was) && (k in before ==> before[k] == was[k])
  {
  }

  lemma {:induction false} SetChanges<K, V>(was: map<K, V>, now: map<K, V>, k: K, v: V)
    requires (k in now <==> k in was) && (k in now ==> now[k] == was[k])
    ensures now[k := v] != was <==> now != was || k !in now || now[k] != v
  {
    var after := now[k := v];
    if k in now && now[k] == v {
      assert after == now;
    } else {
      assert k in after && after[k] == v;
    }
  }

  lemma {:induction false} MergeEnds(was: AnnotationMap, generated: AnnotationMap)
    ensures MergedOn(was, generated, {}) == was && MergedOn(was, generated, generated.Keys) == was + generated
  {
  }

  /** The annotation loop of EnsureObjectMetaIsUpdated. */
  method EnsureAnnotationsOfMeta(svc: KubeObject, generated: AnnotationMap) returns (toUpdate: bool)
    modifies svc
    ensures svc.annotations == old(svc.annotations) + generated
    ensures toUpdate <==> svc.annotations != old(svc.annotations)
  {
    hide MergedOn;
    ghost var was := svc.annotations;
    MergeEnds(was, generated);
    toUpdate := false;
    var all := generated.Keys;
    var rest := all;
    assert all - rest == {};
    while rest != {}
      invariant rest <= all
      invariant svc.annotations == MergedOn(was, generated, all - rest)
      invariant toUpdate <==> svc.annotations != was
      decreases |rest|
    {
      var key :| key in rest;
      OneTaken(all, rest, key);
      OneMerged(was, generated, all - rest, key);
      SetChanges(was, svc.annotations, key, generated[key]);
      rest := rest - {key};
      if key !in svc.annotations || svc.annotations[key] != generated[key] {
        svc.annotations := svc.annotations[key := generated[key]];
        toUpdate := true;
      }
    }
    assert all - rest == all;
  }

  lemma {:induction false} OneRemoved<K, V>(was: map<K, V>, gone: set<K>, k: K)
    requires k !in gone
    ensures (was - gone) - {k} == was - (gone + {k})
    ensures k !in was - gone ==> was - gone == was - (gone + {k})
    ensures (gone + {k}) * was.Keys != {} <==> gone * was.Keys != {} || k in was - gone
  {
    if k in was {
      assert k in (gone + {k}) * was.Keys;
    } else {
      assert (gone + {k}) * was.Keys == gone * was.Keys;
    }
  }

  /** The loop that removes outdated annotations. */
  method RemoveOutdated(svc: KubeObject, outdated: set<string>) returns (removed: bool)
    modifies svc
    ensures svc.annotations == old(svc.annotations) - outdated
    ensures removed <==> outdated * old(svc.annotations).Keys != {}
  {
    ghost var was := svc.annotations;
    removed := false;
    var rest := outdated;
    ghost var gone: set<string> := {};
    NothingRemoved(was);
    while rest != {}
      invariant gone + rest == outdated && gone !! rest
      invariant svc.annotations == was - gone
      invariant removed <==> gone * was.Keys != {}
      decreases |rest|
    {
      var k :| k in rest;
      OneRemoved(was, gone, k);
      rest, gone := rest - {k}, gone + {k};
      if k in svc.annotations {
        svc.annotations := svc.annotations - {k};
        removed := true;
      }
    }
    assert gone == outdated;
  }

  lemma {:induction false} NothingRemoved<K, V>(was: map<K, V>)
    ensures was - {} == was && {} * was.Keys == {}
  {
  }

  /** The overlay when only the keys in `done` were looked at. */
  function OverlaidOn(was: AnnotationMap, generated: AnnotationMap, done: set<string>): AnnotationMap {
    was + map k | k in generated && k in done && Read(was, k) != generated[k] :: generated[k]
  }

  lemma {:induction false} OneOverlaid(was: AnnotationMap, generated: AnnotationMap, done: set<string>, k: string)
    requires k !in done && k in generated
    ensures Read(OverlaidOn(was, generated, done), k) == Read(was, k)
    ensures OverlaidOn(was, generated, done + {k}) ==
      (if Read(was, k) != generated[k] then OverlaidOn(was, generated, done)[k := generated[k]]
          else OverlaidOn(was, generated, done))
  {
  }

  lemma {:induction false} OneMoreOf<K>(done: set<K>, of: set<K>, k: K)
    requires k !in done
    ensures (done + {k}) * of != {} <==> done * of != {} || k in of
  {
    if k in of {
      assert k in (done + {k}) * of;
    } else {
      assert (done + {k}) * of == done * of;
    }
  }

  lemma {:induction false} OverlayEnds(was: AnnotationMap, generated: AnnotationMap)
    ensures OverlaidOn(was, generated, {}) == was
    ensures OverlaidOn(was, generated, generated.Keys) == Overlaid(was, generated)
    ensures generated.Keys * Differing(was, generated) == Differing(was, generated)
  {
  }

  /** The loop that sets the generated annotations. */
  method SetGenerated(svc: KubeObject, generated: AnnotationMap) returns (changed: bool)
    modifies svc
    ensures svc.annotations == Overlaid(old(svc.annotations), generated)
    ensures changed <==> Differing(old(svc.annotations), generated) != {}
  {
    hide OverlaidOn, Overlaid;
    ghost var was := svc.annotations;
    ghost var differing := Differing(was, generated);
    OverlayEnds(was, generated);
    var all := generated.Keys;
    var rest := all;
    changed := false;
    assert all - rest == {};
    while rest != {}
      invariant rest <= all
      invariant svc.annotations == OverlaidOn(was, generated, all - rest)
      invariant changed <==> (all - rest) * differing != {}
      decreases |rest|
    {
      var k :| k in rest;
      OneTaken(all, rest, k);
      OneOverlaid(was, generated, all - rest, k);
      OneMoreOf(all - rest, differing, k);
      rest := rest - {k};
      if Read(svc.annotations, k) != generated[k] {
        svc.annotations := svc.annotations[k := generated[k]];
        changed := true;
      }
    }
    assert all - rest == all;
  }

  method EnsureDataPlaneIngressServiceAnnotationsUpdated(svc: KubeObject, spec: Spec, generated: AnnotationMap,
                                                         dec: string -> Option<AnnotationMap>)
    returns (shouldUpdate: bool, ok: bool)
    modifies svc
    ensures Outcome(svc.annotations, shouldUpdate, ok) == Synced(old(svc.annotations), spec, generated, dec)
  {
    var outdated := Outdated(spec, svc.annotations, dec);
    if outdated.None? {
      return true, false;
    }
    var removed := RemoveOutdated(svc, outdated.value);
    var changed := SetGenerated(svc, generated);
    return removed || changed, true;
  }

  /** Saves the last-applied annotation around the merge of the generated metadata. */
  method EnsureIngressServiceAnnotations(svc: KubeObject, spec: Spec, enc: AnnotationMap -> string,
                                         dec: string -> Option<AnnotationMap>)
    returns (updated: bool, ok: bool)
    modifies svc
    ensures Outcome(svc.annotations, updated, ok) == Ensured(old(svc.annotations), spec, enc, dec)
  {
    var generated := Generated(spec, enc);
    var originalLastApplied := Read(svc.annotations, LAST_APPLIED);
    updated := EnsureAnnotationsOfMeta(svc, generated);
    if originalLastApplied != "" {
      svc.annotations := svc.annotations[LAST_APPLIED := originalLastApplied];
    }
    var metaToUpdate;
    metaToUpdate, ok := EnsureDataPlaneIngressServiceAnnotationsUpdated(svc, spec, generated, dec);
    updated := updated || metaToUpdate;
  }

  // ---------------------------------------------------------------- histories

  /** What everybody but the operator's own bookkeeping sees. */
  function Visible(m: AnnotationMap): AnnotationMap {
    m - {LAST_APPLIED}
  }

  /** One thing that happens to the Service: a pass with the spec as it is then, or an edit by others. */
  datatype Edit = Pass(spec: Spec) | ForeignSets(key: string, value: string) | ForeignRemoves(key: string)

  /** The DataPlane only ever asks for keys in `owned`, others only touch keys outside it. */
  predicate Allowed(e: Edit, owned: set<string>) {
    match e
    case Pass(spec) => spec.GetOr(map[]).Keys <= owned
    case ForeignSets(key, _) => key !in owned && key != LAST_APPLIED
    case ForeignRemoves(key) => key !in owned && key != LAST_APPLIED
  }

  function Apply(m: AnnotationMap, e: Edit, enc: AnnotationMap -> string,
                 dec: string -> Option<AnnotationMap>): AnnotationMap {
    match e
    case Pass(spec) => Ensured(m, spec, enc, dec).annotations
    case ForeignSets(key, value) => m[key := value]
    case ForeignRemoves(key) => m - {key}
  }

  function ApplyAll(m: AnnotationMap, es: seq<Edit>, enc: AnnotationMap -> string,
                    dec: string -> Option<AnnotationMap>): AnnotationMap {
    if es == [] then m else Apply(ApplyAll(m, es[..|es| - 1], enc, dec), es[|es| - 1], enc, dec)
  }

  /** The foreign annotations after the edits: as if the operator did not exist. */
  function Foreign(m: AnnotationMap, es: seq<Edit>): AnnotationMap {
    if es == [] then m
    else
      var f := Foreign(m, es[..|es| - 1]);
      match es[|es| - 1]
      case Pass(_) => f
      case ForeignSets(key, value) => f[key := value]
      case ForeignRemoves(key) => f - {key}
  }

  /** What the DataPlane asked for in the last pass. */
  function LastSpec(es: seq<Edit>): AnnotationMap {
    if es == [] then map[]
    else if es[|es| - 1].Pass? then es[|es| - 1].spec.GetOr(map[])
    else LastSpec(es[..|es| - 1])
  }

  /** The bookkeeping is sound: it decodes, covers what the last pass asked for, and names owned keys only. */
  predicate Booked(m: AnnotationMap, asked: AnnotationMap, owned: set<string>, dec: string -> Option<AnnotationMap>) {
    if LAST_APPLIED !in m then asked - {LAST_APPLIED} == map[]
    else
      && m[LAST_APPLIED] != "" && dec(m[LAST_APPLIED]).Some?
      && asked.Keys - {LAST_APPLIED} <= dec(m[LAST_APPLIED]).value.Keys <= owned
  }

  predicate Good(m: AnnotationMap, foreign: AnnotationMap, asked: AnnotationMap, owned: set<string>,
                 dec: string -> Option<AnnotationMap>) {
    && foreign.Keys !! owned && LAST_APPLIED !in foreign && asked.Keys <= owned
    && Visible(m) == foreign + Visible(asked)
    && Booked(m, asked, owned, dec)
  }

  /** After restoring, the outdated keys are owned, and include every key asked for before but not now. */
  lemma {:induction false} OutdatedCovers(m: AnnotationMap, foreign: AnnotationMap, asked: AnnotationMap,
                                          owned: set<string>, spec: Spec,
                                          enc: AnnotationMap -> string, dec: string -> Option<AnnotationMap>)
    requires Codec(enc, dec) && Good(m, foreign, asked, owned, dec) && spec.GetOr(map[]).Keys <= owned
    ensures var outdated := Outdated(spec, Restored(m, Generated(spec, enc)), dec);
      && outdated.Some? && outdated.value <= owned && outdated.value !! spec.GetOr(map[]).Keys
      && asked.Keys - spec.GetOr(map[]).Keys - {LAST_APPLIED} <= outdated.value
  {
    if spec.Some? {
      assert dec(enc(spec.value)) == Some(spec.value);
    }
    if LAST_APPLIED !in m {
      forall k | k in asked ensures k == LAST_APPLIED {
        assert k != LAST_APPLIED ==> k in asked - {LAST_APPLIED};
      }
    }
  }

  /** The two loops together: outdated keys go, generated keys get their value. */
  lemma {:induction false} SyncedMeans(existing: AnnotationMap, spec: Spec, generated: AnnotationMap,
                                       dec: string -> Option<AnnotationMap>)
    requires Outdated(spec, existing, dec).Some?
    requires forall k :: k in generated && generated[k] == "" ==> k in existing - Outdated(spec, existing, dec).value
    ensures Synced(existing, spec, generated, dec).annotations ==
        (existing - Outdated(spec, existing, dec).value) + generated
  {
  }

  lemma {:induction false} EnsuredMeans(m: AnnotationMap, foreign: AnnotationMap, asked: AnnotationMap,
                                        owned: set<string>, spec: Spec,
                                        enc: AnnotationMap -> string, dec: string -> Option<AnnotationMap>)
    requires Codec(enc, dec) && Good(m, foreign, asked, owned, dec) && spec.GetOr(map[]).Keys <= owned
    ensures var restored := Restored(m, Generated(spec, enc));
      && Outdated(spec, restored, dec).Some?
      && Ensured(m, spec, enc, dec).ok
      && Ensured(m, spec, enc, dec).annotations ==
           (restored - Outdated(spec, restored, dec).value) + Generated(spec, enc)
  {
    OutdatedCovers(m, foreign, asked, owned, spec, enc, dec);
    hide Good, Booked;
    var generated := Generated(spec, enc);
    if spec.Some? {
      assert dec(enc(spec.value)) == Some(spec.value);
      assert generated[LAST_APPLIED] != "";
    }
    SyncedMeans(Restored(m, generated), spec, generated, dec);
  }

  /** What the parts say about one key. */
  lemma {:induction false} KeyAfterPass(m: AnnotationMap, foreign: AnnotationMap, asked: AnnotationMap, spec: Spec,
                                        outdated: set<string>,
                                        owned: set<string>, enc: AnnotationMap -> string, k: string)
    requires k != LAST_APPLIED && Visible(m) == foreign + Visible(asked)
    requires foreign.Keys !! owned && asked.Keys <= owned && spec.GetOr(map[]).Keys <= owned
    requires outdated <= owned && outdated !! spec.GetOr(map[]).Keys
    requires asked.Keys - spec.GetOr(map[]).Keys - {LAST_APPLIED} <= outdated
    ensures var now := spec.GetOr(map[]);
      var out := (Restored(m, Generated(spec, enc)) - outdated) + Generated(spec, enc);
      (k in out <==> k in foreign + now) && (k in out ==> out[k] == (foreign + now)[k])
  {
    assert k in m <==> k in Visible(m);
    assert k in m ==> m[k] == Visible(m)[k];
    assert k in Visible(m) <==> k in foreign || k in asked;
    if k in foreign {
      assert k !in owned && m[k] == foreign[k];
    }
  }

  /** One pass: whatever was asked for before is replaced by what is asked for now. */
  lemma {:induction false} PassReplaces(m: AnnotationMap, foreign: AnnotationMap, asked: AnnotationMap,
                                        owned: set<string>, spec: Spec,
                                        enc: AnnotationMap -> string, dec: string -> Option<AnnotationMap>)
    requires Codec(enc, dec) && Good(m, foreign, asked, owned, dec) && spec.GetOr(map[]).Keys <= owned
    ensures Ensured(m, spec, enc, dec).ok
    ensures Visible(Ensured(m, spec, enc, dec).annotations) == foreign + Visible(spec.GetOr(map[]))
  {
    EnsuredMeans(m, foreign, asked, owned, spec, enc, dec);
    OutdatedCovers(m, foreign, asked, owned, spec, enc, dec);
    hide Ensured, Outdated, Booked, Restored, Generated;
    var now := spec.GetOr(map[]);
    var out := Ensured(m, spec, enc, dec).annotations;
    var outdated := Outdated(spec, Restored(m, Generated(spec, enc)), dec).value;
    forall k | k != LAST_APPLIED
      ensures k in out <==> k in foreign + now
      ensures k in out ==> out[k] == (foreign + now)[k]
    {
      KeyAfterPass(m, foreign, asked, spec, outdated, owned, enc, k);
    }
    SameButOne(out, foreign, now, LAST_APPLIED);
  }

  lemma {:induction false} SameButOne<K, V>(out: map<K, V>, foreign: map<K, V>, now: map<K, V>, special: K)
    requires special !in foreign
    requires forall k :: k != special ==> (k in out <==> k in foreign + now)
    requires forall k :: k != special && k in out ==> out[k] == (foreign + now)[k]
    ensures out - {special} == foreign + (now - {special})
  {
  }

  lemma {:induction false} PassBooks(m: AnnotationMap, foreign: AnnotationMap, asked: AnnotationMap,
                                     owned: set<string>, spec: Spec,
                                     enc: AnnotationMap -> string, dec: string -> Option<AnnotationMap>)
    requires Codec(enc, dec) && Good(m, foreign, asked, owned, dec) && spec.GetOr(map[]).Keys <= owned
    ensures Booked(Ensured(m, spec, enc, dec).annotations, spec.GetOr(map[]), owned, dec)
  {
    EnsuredMeans(m, foreign, asked, owned, spec, enc, dec);
    if spec.Some? {
      assert dec(enc(spec.value)) == Some(spec.value);
    }
  }

  lemma {:induction false} ForeignEdit(m: AnnotationMap, foreign: AnnotationMap, asked: AnnotationMap,
                                       owned: set<string>, e: Edit,
                                       enc: AnnotationMap -> string, dec: string -> Option<AnnotationMap>)
    requires Good(m, foreign, asked, owned, dec) && Allowed(e, owned) && !e.Pass?
    ensures Good(Apply(m, e, enc, dec), if e.ForeignSets? then foreign[e.key := e.value] else foreign - {e.key},
                 asked, owned, dec)
  {
    var next := if e.ForeignSets? then foreign[e.key := e.value] else foreign - {e.key};
    var out := Apply(m, e, enc, dec);
    assert e.key !in asked;
    assert Visible(out) == next + Visible(asked) by {
      assert Visible(out) == if e.ForeignSets? then Visible(m)[e.key := e.value] else Visible(m) - {e.key};
    }
  }

  lemma {:induction false} HistoryGood(m: AnnotationMap, es: seq<Edit>, owned: set<string>,
                                       enc: AnnotationMap -> string, dec: string -> Option<AnnotationMap>)
    requires Codec(enc, dec) && LAST_APPLIED !in m && m.Keys !! owned
    requires forall k :: 0 <= k < |es| ==> Allowed(es[k], owned)
    ensures Good(ApplyAll(m, es, enc, dec), Foreign(m, es), LastSpec(es), owned, dec)
  {
    if es == [] {
      assert Visible(m) == m + Visible(map[]);
    } else {
      var before, e := es[..|es| - 1], es[|es| - 1];
      HistoryGood(m, before, owned, enc, dec);
      var n, f, asked := ApplyAll(m, before, enc, dec), Foreign(m, before), LastSpec(before);
      if e.Pass? {
        PassReplaces(n, f, asked, owned, e.spec, enc, dec);
        PassBooks(n, f, asked, owned, e.spec, enc, dec);
      } else {
        ForeignEdit(n, f, asked, owned, e, enc, dec);
      }
    }
  }

  // ---------------------------------------------------------------- main results

  /** After any history of passes (with any spec, nil included) and foreign edits, the Service shows
      exactly the foreign annotations and what the last pass asked for: nothing else of the past. */
  lemma {:induction false} HistoryIndependence(m: AnnotationMap, es: seq<Edit>, owned: set<string>,
                                               enc: AnnotationMap -> string, dec: string -> Option<AnnotationMap>)
    requires Codec(enc, dec) && LAST_APPLIED !in m && m.Keys !! owned
    requires forall k :: 0 <= k < |es| ==> Allowed(es[k], owned)
    ensures Visible(ApplyAll(m, es, enc, dec)) == Foreign(m, es) + Visible(LastSpec(es))
  {
    HistoryGood(m, es, owned, enc, dec);
  }

  /** After any such history that ends with a pass, the same pass again reports no update. */
  lemma {:induction false} ReapplyIsQuiet(m: AnnotationMap, es: seq<Edit>, spec: Spec, owned: set<string>,
                                          enc: AnnotationMap -> string, dec: string -> Option<AnnotationMap>)
    requires Codec(enc, dec) && LAST_APPLIED !in m && m.Keys !! owned
    requires (forall k :: 0 <= k < |es| ==> Allowed(es[k], owned)) && Allowed(Pass(spec), owned)
    ensures var now := ApplyAll(m, es + [Pass(spec)], enc, dec);
      Ensured(now, spec, enc, dec) == Outcome(now, false, true)
  {
    HistoryGood(m, es, owned, enc, dec);
    assert (es + [Pass(spec)])[..|es|] == es;
    var before := ApplyAll(m, es, enc, dec);
    PassIsIdempotent(before, Foreign(m, es), LastSpec(es), owned, spec, enc, dec);
  }

  /** A pass over a Service that already has every generated annotation and nothing outdated. */
  lemma {:induction false} NothingToDo(m: AnnotationMap, spec: Spec, enc: AnnotationMap -> string,
                                       dec: string -> Option<AnnotationMap>)
    requires m + Generated(spec, enc) == m
    requires Outdated(spec, m, dec).Some? && Outdated(spec, m, dec).value !! m.Keys
    ensures Ensured(m, spec, enc, dec) == Outcome(m, false, true)
  {
    var generated := Generated(spec, enc);
    assert Restored(m, generated) == m;
    var outdated := Outdated(spec, m, dec).value;
    assert outdated * m.Keys == {} && m - outdated == m;
    assert forall k :: k in generated ==> k in m + generated && (m + generated)[k] == generated[k];
    assert Differing(m, generated) == {};
  }

  lemma {:induction false} PassIsIdempotent(m: AnnotationMap, foreign: AnnotationMap, asked: AnnotationMap,
                                            owned: set<string>, spec: Spec,
                                            enc: AnnotationMap -> string, dec: string -> Option<AnnotationMap>)
    requires Codec(enc, dec) && Good(m, foreign, asked, owned, dec) && spec.GetOr(map[]).Keys <= owned
    ensures var once := Ensured(m, spec, enc, dec).annotations;
      Ensured(once, spec, enc, dec) == Outcome(once, false, true)
  {
    EnsuredMeans(m, foreign, asked, owned, spec, enc, dec);
    OutdatedGone(m, foreign, asked, owned, spec, enc, dec);
    NothingToDo(Ensured(m, spec, enc, dec).annotations, spec, enc, dec);
  }

  lemma {:induction false} OutdatedGone(m: AnnotationMap, foreign: AnnotationMap, asked: AnnotationMap,
                                        owned: set<string>, spec: Spec,
                                        enc: AnnotationMap -> string, dec: string -> Option<AnnotationMap>)
    requires Codec(enc, dec) && Good(m, foreign, asked, owned, dec) && spec.GetOr(map[]).Keys <= owned
    ensures var once := Ensured(m, spec, enc, dec).annotations;
      Outdated(spec, once, dec).Some? && Outdated(spec, once, dec).value !! once.Keys
  {
    EnsuredMeans(m, foreign, asked, owned, spec, enc, dec);
    if spec.Some? {
      assert dec(enc(spec.value)) == Some(spec.value);
    }
  }

  /** The one input the merge does not recover from: a last-applied annotation that is not empty and
      does not decode makes every pass fail and report an update, and it stays in place; a Service
      is affected if and only if its annotation is one of these, or is empty under a nil spec. */
  lemma {:induction false} FailsIffUndecodable(m: AnnotationMap, spec: Spec, enc: AnnotationMap -> string,
                                               dec: string -> Option<AnnotationMap>)
    requires Codec(enc, dec)
    ensures !Ensured(m, spec, enc, dec).ok <==>
      LAST_APPLIED in m && dec(m[LAST_APPLIED]).None? && (m[LAST_APPLIED] != "" || spec.None?)
    ensures !Ensured(m, spec, enc, dec).ok ==>
      Ensured(m, spec, enc, dec).updated && Ensured(m, spec, enc, dec).annotations == Restored(m, Generated(spec, enc))
  {
    if spec.Some? {
      assert dec(enc(spec.value)) == Some(spec.value);
    }
  }

  /** What a history keeps about a last-applied annotation that is not empty: a value that does not
      decode stays for good, any other state stays one that decodes. */
  predicate Kept(m: AnnotationMap, now: AnnotationMap, dec: string -> Option<AnnotationMap>) {
    if LAST_APPLIED in m && dec(m[LAST_APPLIED]).None? then LAST_APPLIED in now && now[LAST_APPLIED] == m[LAST_APPLIED]
    else LAST_APPLIED in now ==> now[LAST_APPLIED] != "" && dec(now[LAST_APPLIED]).Some?
  }

  lemma {:induction false} PassKeeps(now: AnnotationMap, spec: Spec, enc: AnnotationMap -> string,
                                     dec: string -> Option<AnnotationMap>)
    requires Codec(enc, dec) && (LAST_APPLIED in now ==> now[LAST_APPLIED] != "")
    ensures Kept(now, Ensured(now, spec, enc, dec).annotations, dec)
  {
    var generated := Generated(spec, enc);
    if spec.Some? {
      assert dec(enc(spec.value)) == Some(spec.value) && enc(spec.value) != "";
    }
    assert LAST_APPLIED in now ==> Restored(now, generated)[LAST_APPLIED] == now[LAST_APPLIED];
  }

  lemma {:induction false} HistoryKeeps(m: AnnotationMap, es: seq<Edit>, owned: set<string>,
                                        enc: AnnotationMap -> string, dec: string -> Option<AnnotationMap>)
    requires Codec(enc, dec) && (LAST_APPLIED in m ==> m[LAST_APPLIED] != "")
    requires forall k :: 0 <= k < |es| ==> Allowed(es[k], owned)
    ensures Kept(m, ApplyAll(m, es, enc, dec), dec)
  {
    if es != [] {
      var before, e := es[..|es| - 1], es[|es| - 1];
      HistoryKeeps(m, before, owned, enc, dec);
      if e.Pass? {
        PassKeeps(ApplyAll(m, before, enc, dec), e.spec, enc, dec);
      }
    }
  }

  /** Whatever is asked for and edited in between, a pass fails if and only if the Service started out with
      a last-applied annotation that does not decode; it then reports an update and leaves that value where
      it is, so nothing the operator does ever repairs it. */
  lemma {:induction false} NothingRepairsIff(m: AnnotationMap, es: seq<Edit>, spec: Spec, owned: set<string>,
                                             enc: AnnotationMap -> string, dec: string -> Option<AnnotationMap>)
    requires Codec(enc, dec) && (LAST_APPLIED in m ==> m[LAST_APPLIED] != "")
    requires forall k :: 0 <= k < |es| ==> Allowed(es[k], owned)
    ensures var out := Ensured(ApplyAll(m, es, enc, dec), spec, enc, dec);
      && (!out.ok <==> LAST_APPLIED in m && dec(m[LAST_APPLIED]).None?)
      && (!out.ok ==>
            && out.updated && LAST_APPLIED in out.annotations
            && out.annotations[LAST_APPLIED] == m[LAST_APPLIED])
  {
    HistoryKeeps(m, es, owned, enc, dec);
    var now := ApplyAll(m, es, enc, dec);
    FailsIffUndecodable(now, spec, enc, dec);
    hide Ensured, ApplyAll;
    if LAST_APPLIED in m && dec(m[LAST_APPLIED]).None? {
      assert Restored(now, Generated(spec, enc))[LAST_APPLIED] == m[LAST_APPLIED];
    }
  }
}
