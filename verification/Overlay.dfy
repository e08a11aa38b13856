/** The team definition and its overlay (infra/personas/he_team.py, merge_patch and apply_overlay).
    JSON objects are maps; where the order of keys matters they are lists of pairs. */
module Overlay {
  import opened Options

  datatype Json =
    | Null | Bool(b: bool) | Num(n: real) | Str(s: string) | Arr(items: seq<Json>) | Obj(m: map<string, Json>)

  // ---------------------------------------------------------------- merge patch

  function Members(j: Json): map<string, Json> { if j.Obj? then j.m else map[] }

  /** out.get(k) */
  function Member(m: map<string, Json>, k: string): Json { if k in m then m[k] else Null }

  /** Section 2 of RFC 7396: objects merge member by member, null removes, anything else replaces. */
  function Merge(target: Json, patch: Json): Json
    decreases patch
  {
    if !patch.Obj? then patch
    else
      var t := Members(target);
      Obj(map k | k in t.Keys + patch.m.Keys && !(k in patch.m && patch.m[k].Null?) ::
            if k in patch.m then Merge(Member(t, k), patch.m[k]) else t[k])
  }

  /** The copy after the members `done` of the patch have been applied. */
  ghost function Applied(t: map<string, Json>, patch: map<string, Json>, done: set<string>): map<string, Json> {
    map k | k in t.Keys + (patch.Keys * done) && !(k in patch && k in done && patch[k].Null?) ::
      if k in patch && k in done then Merge(Member(t, k), patch[k]) else t[k]
  }

  lemma ApplyOne(t: map<string, Json>, patch: map<string, Json>, done: set<string>, k: string)
    requires k in patch && k !in done
    ensures var out := Applied(t, patch, done);
            && Member(out, k) == Member(t, k)
            && Applied(t, patch, done + {k})
               == if patch[k].Null? then out - {k} else out[k := Merge(Member(t, k), patch[k])]
  {
  }

  /** merge_patch: a copy of the target is changed member by member. */
  method MergePatch(target: Json, patch: Json) returns (r: Json)
    ensures r == Merge(target, patch)
    decreases patch, 2
  {
    if !patch.Obj? {
      return patch;
    }
    AppliedEnds(Members(target), patch.m, target, patch);
    var out := ApplyAll(Members(target), patch);
    r := Obj(out);
  }

  /** The loop over the patch, in any order. */
  method ApplyAll(t: map<string, Json>, patch: Json) returns (out: map<string, Json>)
    requires patch.Obj? && Applied(t, patch.m, {}) == t
    ensures out == Applied(t, patch.m, patch.m.Keys)
    decreases patch, 1
  {
    out := t;
    var todo := patch.m.Keys;
    ghost var done := {};
    while todo != {}
      invariant done !! todo && done + todo == patch.m.Keys
      invariant out == Applied(t, patch.m, done)
      decreases |todo|
    {
      var k :| k in todo;
      out := ApplyMember(t, patch, done, out, k);
      todo, done := todo - {k}, done + {k};
    }
    assert done == patch.m.Keys;
  }

  /** One turn of the loop over the patch. */
  method ApplyMember(ghost t: map<string, Json>, patch: Json, ghost done: set<string>, out: map<string, Json>,
                     k: string)
    returns (r: map<string, Json>)
    requires patch.Obj? && k in patch.m && k !in done && out == Applied(t, patch.m, done)
    ensures r == Applied(t, patch.m, done + {k})
    decreases patch, 0
  {
    ApplyOne(t, patch.m, done, k);
    if patch.m[k].Null? {
      r := out - {k};
    } else {
      var v := MergePatch(Member(out, k), patch.m[k]);
      r := out[k := v];
    }
  }

  lemma AppliedEnds(t: map<string, Json>, p: map<string, Json>, target: Json, patch: Json)
    requires patch == Obj(p) && t == Members(target)
    ensures Applied(t, p, {}) == t
    ensures Obj(Applied(t, p, p.Keys)) == Merge(target, patch)
  {
    assert Applied(t, p, p.Keys) == Merge(target, patch).m;
  }

  /** Applying a patch twice is applying it once. */
  lemma {:induction false} MergeIdempotent(target: Json, patch: Json)
    ensures Merge(Merge(target, patch), patch) == Merge(target, patch)
    decreases patch
  {
    if patch.Obj? {
      var once := Merge(target, patch).m;
      var twice := Merge(Obj(once), patch).m;
      assert once.Keys == twice.Keys;
      forall k | k in once
        ensures twice[k] == once[k]
      {
        if k in patch.m {
          MergeIdempotent(Member(Members(target), k), patch.m[k]);
        }
      }
      assert once == twice;
    }
  }

  /** No object in j, at any depth outside arrays, has a null member. */
  ghost predicate NullFree(j: Json) {
    j.Obj? ==> forall k :: k in j.m ==> !j.m[k].Null? && NullFree(j.m[k])
  }

  /** A patch never leaves a null behind: nulls in it only remove. */
  lemma {:induction false} MergeNullFree(target: Json, patch: Json)
    requires NullFree(target)
    ensures NullFree(Merge(target, patch))
    ensures patch.Obj? ==> Merge(target, patch).Obj?
    decreases patch
  {
    if patch.Obj? {
      var t, out := Members(target), Merge(target, patch).m;
      forall k | k in out
        ensures !out[k].Null? && NullFree(out[k])
      {
        if k in patch.m {
          MergeNullFree(Member(t, k), patch.m[k]);
        }
      }
    }
  }

  /** What the members on a path lead to. */
  function At(j: Json, path: seq<string>): Option<Json> {
    if path == [] then Some(j)
    else if j.Obj? && path[0] in j.m then At(j.m[path[0]], path[1..])
    else None
  }

  /** The first members of a path are objects of the patch and the next one is not in it. */
  ghost predicate LeavesAlone(patch: Json, path: seq<string>) {
    patch.Obj? && path != [] && (path[0] !in patch.m || LeavesAlone(patch.m[path[0]], path[1..]))
  }

  /** What the patch does not name stays as it was. */
  lemma {:induction false} MergeLeavesAlone(target: Json, patch: Json, path: seq<string>)
    requires LeavesAlone(patch, path)
    ensures At(Merge(target, patch), path) == At(target, path)
    decreases |path|
  {
    var k, t := path[0], Members(target);
    if k in patch.m {
      MergeLeavesAlone(Member(t, k), patch.m[k], path[1..]);
    }
  }

  /** What the patch names is gone if it names it with null, and is the patch's value if that is not an object. */
  lemma {:induction false} MergeAtNamed(target: Json, patch: Json, path: seq<string>)
    requires path != [] && At(patch, path).Some? && !At(patch, path).value.Obj?
    ensures At(Merge(target, patch), path) == if At(patch, path).value.Null? then None else At(patch, path)
    decreases |path|
  {
    var k := path[0];
    if |path| > 1 {
      assert path[1..] != [];
      MergeAtNamed(Member(Members(target), k), patch.m[k], path[1..]);
    } else {
      assert path[1..] == [];
    }
  }

  // ---------------------------------------------------------------- the overlay

  const KEY := "key"

  /** A persona is an object. */
  type Persona = map<string, Json>

  /** An overlay as read: the unknown names at its top, `groups` and `personas`. */
  datatype Raw = NotAnObject | Raw(extra: set<string>, groups: Json, personas: RawPersonas)

  datatype RawPersonas = NoPersonas | BadPersonas | Entries(pats: seq<(string, Json)>)

  datatype Spec = Spec(personas: seq<Persona>, groups: Option<Json>, rest: map<string, Json>)

  datatype Report = Report(changed: seq<string>, added: seq<string>, removed: seq<string>, missing: seq<string>)

  datatype Error = NotObject | UnknownNames | BadGroups | PersonasNotObject | BlankKey | BadPatch | KeyChanged

  datatype Outcome = Ok(spec: Spec, report: Report) | Fail(error: Error)

  type Pats = seq<(string, Json)>

  /** An object has each key once. */
  ghost predicate DistinctKeys(pats: Pats) {
    forall i, j :: 0 <= i < j < |pats| ==> pats[i].0 != pats[j].0
  }

  function Find(pats: Pats, k: string): Option<Json> {
    if pats == [] then None
    else if pats[|pats| - 1].0 == k then Some(pats[|pats| - 1].1)
    else Find(pats[..|pats| - 1], k)
  }

  /** The key of a persona; none when it has no key that a patch could name. */
  function KeyOf(p: Persona): Option<string> {
    if KEY in p && p[KEY].Str? then Some(p[KEY].s) else None
  }

  function Named(personas: seq<Persona>, k: string): bool {
    personas != [] && (KeyOf(personas[|personas| - 1]) == Some(k) || Named(personas[..|personas| - 1], k))
  }

  function PatchError(blank: string -> bool, k: string, v: Json): Option<Error> {
    if blank(k) then Some(BlankKey)
    else if !v.Null? && !v.Obj? then Some(BadPatch)
    else if v.Obj? && !Member(v.m, KEY).Null? && Member(v.m, KEY) != Str(k) then Some(KeyChanged)
    else None
  }

  function FirstError(blank: string -> bool, pats: Pats): Option<Error> {
    if pats == [] then None
    else
      var before := FirstError(blank, pats[..|pats| - 1]);
      if before.Some? then before else PatchError(blank, pats[|pats| - 1].0, pats[|pats| - 1].1)
  }

  /** {**merge_patch(p, patch), "key": k} */
  function Patched(p: Json, patch: Json, k: string): Persona
  {
    Members(Merge(p, patch))[KEY := Str(k)]
  }

  /** What becomes of one base persona: itself, nothing, or its patched form. */
  function Kept(p: Persona, pats: Pats): Option<Persona> {
    if KeyOf(p).None? || Find(pats, KeyOf(p).value).None? then Some(p)
    else
      var patch := Find(pats, KeyOf(p).value).value;
      if patch.Null? then None else Some(Patched(Obj(p), patch, KeyOf(p).value))
  }

  function MergeBase(base: seq<Persona>, pats: Pats): seq<Persona> {
    if base == [] then []
    else
      var kept := Kept(base[|base| - 1], pats);
      MergeBase(base[..|base| - 1], pats) + (if kept.None? then [] else [kept.value])
  }

  /** The keys of base personas that the overlay patches (nulls = false) or removes (nulls = true). */
  function BaseKeys(base: seq<Persona>, pats: Pats, nulls: bool): seq<string> {
    if base == [] then []
    else
      var rest, k := BaseKeys(base[..|base| - 1], pats, nulls), KeyOf(base[|base| - 1]);
      var patch := if k.Some? then Find(pats, k.value) else None;
      if patch.Some? && patch.value.Null? == nulls then rest + [k.value] else rest
  }

  /** The overlay's keys that name no base persona, with or without null. */
  function NewKeys(base: seq<Persona>, pats: Pats, nulls: bool): seq<string> {
    if pats == [] then []
    else
      var rest, e := NewKeys(base, pats[..|pats| - 1], nulls), pats[|pats| - 1];
      if !Named(base, e.0) && e.1.Null? == nulls then rest + [e.0] else rest
  }

  function NewPersonas(base: seq<Persona>, pats: Pats): seq<Persona> {
    if pats == [] then []
    else
      var rest, e := NewPersonas(base, pats[..|pats| - 1]), pats[|pats| - 1];
      if !Named(base, e.0) && !e.1.Null? then rest + [Patched(Null, e.1, e.0)] else rest
  }

  function Overlaid(spec: Spec, groups: Json, pats: Pats): Spec {
    spec.(personas := MergeBase(spec.personas, pats) + NewPersonas(spec.personas, pats),
          groups := if groups.Obj? && groups.m != map[]
                    then Some(Merge(if spec.groups.Some? then spec.groups.value else Null, groups))
                    else spec.groups)
  }

  function ReportOf(base: seq<Persona>, pats: Pats): Report {
    Report(BaseKeys(base, pats, false), NewKeys(base, pats, false),
           BaseKeys(base, pats, true), NewKeys(base, pats, true))
  }

  function Entries0(p: RawPersonas): Pats { if p.Entries? then p.pats else [] }

  /** The first reason to reject an overlay, in the order the source looks. */
  function Reject(blank: string -> bool, overlay: Raw): Option<Error> {
    if overlay.NotAnObject? then Some(NotObject)
    else if overlay.extra != {} then Some(UnknownNames)
    else if !overlay.groups.Null? && !overlay.groups.Obj? then Some(BadGroups)
    else if overlay.personas.BadPersonas? then Some(PersonasNotObject)
    else FirstError(blank, Entries0(overlay.personas))
  }

  function Apply(blank: string -> bool, spec: Spec, overlay: Raw): Outcome {
    var e := Reject(blank, overlay);
    var pats := Entries0(if e.Some? then NoPersonas else overlay.personas);
    if e.Some? then Fail(e.value) else Ok(Overlaid(spec, overlay.groups, pats), ReportOf(spec.personas, pats))
  }

  /** The checks of apply_overlay on the patches. */
  method CheckPatches(blank: string -> bool, pats: Pats) returns (e: Option<Error>)
    ensures e == FirstError(blank, pats)
  {
    for i := 0 to |pats|
      invariant FirstError(blank, pats[..i]) == None
    {
      assert pats[..i + 1][..i] == pats[..i];
      e := PatchError(blank, pats[i].0, pats[i].1);
      if e.Some? {
        FirstErrorStays(blank, pats, i + 1);
        return;
      }
    }
    assert pats[..|pats|] == pats;
    e := None;
  }

  /** The loop over the base personas. */
  method OverBase(base: seq<Persona>, pats: Pats)
    returns (merged: seq<Persona>, changed: seq<string>, removed: seq<string>)
    ensures merged == MergeBase(base, pats)
    ensures changed == BaseKeys(base, pats, false) && removed == BaseKeys(base, pats, true)
  {
    merged, changed, removed := [], [], [];
    for i := 0 to |base|
      invariant merged == MergeBase(base[..i], pats)
      invariant changed == BaseKeys(base[..i], pats, false) && removed == BaseKeys(base[..i], pats, true)
    {
      assert base[..i + 1][..i] == base[..i];
      var p := base[i];
      var k := KeyOf(p);
      if k.None? || Find(pats, k.value).None? {
        merged := merged + [p];
      } else if Find(pats, k.value).value.Null? {
        removed := removed + [k.value];
      } else {
        var m := MergePatch(Obj(p), Find(pats, k.value).value);
        merged := merged + [Members(m)[KEY := Str(k.value)]];
        changed := changed + [k.value];
      }
    }
    assert base[..|base|] == base;
  }

  /** The comprehensions over the overlay's keys. */
  method OverNew(base: seq<Persona>, pats: Pats)
    returns (newcomers: seq<Persona>, added: seq<string>, missing: seq<string>)
    ensures newcomers == NewPersonas(base, pats)
    ensures added == NewKeys(base, pats, false) && missing == NewKeys(base, pats, true)
  {
    newcomers, added, missing := [], [], [];
    for i := 0 to |pats|
      invariant newcomers == NewPersonas(base, pats[..i])
      invariant added == NewKeys(base, pats[..i], false) && missing == NewKeys(base, pats[..i], true)
    {
      assert pats[..i + 1][..i] == pats[..i];
      if Named(base, pats[i].0) {
        continue;
      }
      if pats[i].1.Null? {
        missing := missing + [pats[i].0];
      } else {
        var m := MergePatch(Null, pats[i].1);
        added := added + [pats[i].0];
        newcomers := newcomers + [Members(m)[KEY := Str(pats[i].0)]];
      }
    }
    assert pats[..|pats|] == pats;
  }

  /** apply_overlay. */
  method ApplyOverlay(blank: string -> bool, spec: Spec, overlay: Raw) returns (r: Outcome)
    ensures r == Apply(blank, spec, overlay)
  {
    if overlay.NotAnObject? {
      return Fail(NotObject);
    }
    if overlay.extra != {} {
      return Fail(UnknownNames);
    }
    if !overlay.groups.Null? && !overlay.groups.Obj? {
      return Fail(BadGroups);
    }
    if overlay.personas.BadPersonas? {
      return Fail(PersonasNotObject);
    }
    var pats := Entries0(overlay.personas);
    var e := CheckPatches(blank, pats);
    if e.Some? {
      return Fail(e.value);
    }
    var merged, changed, removed := OverBase(spec.personas, pats);
    var newcomers, added, missing := OverNew(spec.personas, pats);
    var groups := spec.groups;
    if overlay.groups.Obj? && overlay.groups.m != map[] {
      var g := MergePatch(if spec.groups.Some? then spec.groups.value else Null, overlay.groups);
      groups := Some(g);
    }
    r := Ok(spec.(personas := merged + newcomers, groups := groups), Report(changed, added, removed, missing));
  }

  lemma {:induction false} FirstErrorStays(blank: string -> bool, pats: Pats, n: nat)
    requires n <= |pats| && FirstError(blank, pats[..n]).Some?
    ensures FirstError(blank, pats) == FirstError(blank, pats[..n])
  {
    if n < |pats| {
      assert pats[..|pats| - 1][..n] == pats[..n];
      FirstErrorStays(blank, pats[..|pats| - 1], n);
    } else {
      assert pats[..n] == pats;
    }
  }

  // ---------------------------------------------------------------- order

  function KeysOf(personas: seq<Persona>): seq<Option<string>> {
    if personas == [] then [] else KeysOf(personas[..|personas| - 1]) + [KeyOf(personas[|personas| - 1])]
  }

  /** The keys of the base personas that stay, in base order. */
  function Staying(base: seq<Persona>, pats: Pats): seq<Option<string>> {
    if base == [] then []
    else
      var p := base[|base| - 1];
      Staying(base[..|base| - 1], pats) + (if Kept(p, pats).None? then [] else [KeyOf(p)])
  }

  function Wrapped(keys: seq<string>): seq<Option<string>> {
    if keys == [] then [] else Wrapped(keys[..|keys| - 1]) + [Some(keys[|keys| - 1])]
  }

  lemma {:induction false} KeysSnoc(a: seq<Persona>, b: seq<Persona>)
    ensures KeysOf(a + b) == KeysOf(a) + KeysOf(b)
  {
    if b == [] {
      assert a + b == a;
    } else {
      var n := |b| - 1;
      assert (a + b)[..|a| + n] == a + b[..n];
      KeysSnoc(a, b[..n]);
    }
  }

  lemma {:induction false} MergeBaseKeys(base: seq<Persona>, pats: Pats)
    ensures KeysOf(MergeBase(base, pats)) == Staying(base, pats)
  {
    if base != [] {
      var n := |base| - 1;
      MergeBaseKeys(base[..n], pats);
      var rest, kept := MergeBase(base[..n], pats), Kept(base[n], pats);
      if kept.Some? {
        KeptKeepsKey(base[n], pats);
        assert (rest + [kept.value])[..|rest|] == rest;
      } else {
        assert rest + [] == rest;
      }
    }
  }

  lemma KeptKeepsKey(p: Persona, pats: Pats)
    ensures Kept(p, pats).Some? ==> KeyOf(Kept(p, pats).value) == KeyOf(p)
    ensures Kept(p, pats).None? ==> KeyOf(p).Some? && Has(pats, KeyOf(p).value, true)
  {
  }

  lemma {:induction false} NewPersonaKeys(base: seq<Persona>, pats: Pats)
    ensures KeysOf(NewPersonas(base, pats)) == Wrapped(NewKeys(base, pats, false))
  {
    if pats != [] {
      var n := |pats| - 1;
      var rest, keys := NewPersonas(base, pats[..n]), NewKeys(base, pats[..n], false);
      NewPersonaKeys(base, pats[..n]);
      if !Named(base, pats[n].0) && !pats[n].1.Null? {
        var x := Patched(Null, pats[n].1, pats[n].0);
        assert (rest + [x])[..|rest|] == rest;
        assert (keys + [pats[n].0])[..|keys|] == keys;
      }
    }
  }

  /** The personas keep the base's order and keys, without the removed ones, and the new ones follow
      in the overlay's order under the overlay's keys. */
  lemma OrderIsKept(spec: Spec, groups: Json, pats: Pats)
    ensures KeysOf(Overlaid(spec, groups, pats).personas)
         == Staying(spec.personas, pats) + Wrapped(NewKeys(spec.personas, pats, false))
  {
    KeysSnoc(MergeBase(spec.personas, pats), NewPersonas(spec.personas, pats));
    MergeBaseKeys(spec.personas, pats);
    NewPersonaKeys(spec.personas, pats);
  }

  // ---------------------------------------------------------------- the report

  /** How many base personas have key k. */
  function Times(base: seq<Persona>, k: string): nat {
    if base == [] then 0
    else Times(base[..|base| - 1], k) + (if KeyOf(base[|base| - 1]) == Some(k) then 1 else 0)
  }

  function Keys(pats: Pats): seq<string> {
    if pats == [] then [] else Keys(pats[..|pats| - 1]) + [pats[|pats| - 1].0]
  }

  ghost predicate Has(pats: Pats, k: string, nulls: bool) {
    Find(pats, k).Some? && Find(pats, k).value.Null? == nulls
  }

  lemma {:induction false} BaseKeysCount(base: seq<Persona>, pats: Pats, nulls: bool, k: string)
    ensures multiset(BaseKeys(base, pats, nulls))[k] == if Has(pats, k, nulls) then Times(base, k) else 0
  {
    if base != [] {
      BaseKeysCount(base[..|base| - 1], pats, nulls, k);
    }
  }

  lemma {:induction false} TimesNamed(base: seq<Persona>, k: string)
    ensures Named(base, k) <==> Times(base, k) > 0
  {
    if base != [] {
      TimesNamed(base[..|base| - 1], k);
    }
  }

  lemma {:induction false} FindIsMember(pats: Pats, k: string)
    ensures Find(pats, k).Some? <==> exists i :: 0 <= i < |pats| && pats[i].0 == k
    ensures Find(pats, k).Some? ==> exists i :: 0 <= i < |pats| && pats[i] == (k, Find(pats, k).value)
  {
    if pats != [] {
      var n := |pats| - 1;
      FindIsMember(pats[..n], k);
      if pats[n].0 == k {
        assert pats[n] == (k, Find(pats, k).value);
      } else if Find(pats, k).Some? {
        var i :| 0 <= i < n && pats[..n][i] == (k, Find(pats, k).value);
        assert pats[i] == (k, Find(pats, k).value);
      }
    }
  }

  lemma LastIsNew(pats: Pats)
    requires DistinctKeys(pats) && pats != []
    ensures Find(pats[..|pats| - 1], pats[|pats| - 1].0) == None && DistinctKeys(pats[..|pats| - 1])
  {
    var n := |pats| - 1;
    FindIsMember(pats[..n], pats[n].0);
  }

  lemma {:induction false} KeysCount(pats: Pats, k: string)
    requires DistinctKeys(pats)
    ensures multiset(Keys(pats))[k] == if Find(pats, k).Some? then 1 else 0
  {
    if pats != [] {
      LastIsNew(pats);
      KeysCount(pats[..|pats| - 1], k);
    }
  }

  lemma {:induction false} NewKeysCount(base: seq<Persona>, pats: Pats, nulls: bool, k: string)
    requires DistinctKeys(pats)
    ensures multiset(NewKeys(base, pats, nulls))[k] == if Has(pats, k, nulls) && !Named(base, k) then 1 else 0
  {
    if pats != [] {
      LastIsNew(pats);
      NewKeysCount(base, pats[..|pats| - 1], nulls, k);
    }
  }

  function Reported(r: Report): multiset<string> {
    multiset(r.changed) + multiset(r.added) + multiset(r.removed) + multiset(r.missing)
  }

  /** Every overlay key is reported, once for each base persona it names and once if it names none. */
  lemma ReportCounts(base: seq<Persona>, pats: Pats, k: string)
    requires DistinctKeys(pats)
    ensures Reported(ReportOf(base, pats))[k]
         == if k !in multiset(Keys(pats)) then 0 else if Times(base, k) > 1 then Times(base, k) else 1
  {
    BaseKeysCount(base, pats, false, k);
    BaseKeysCount(base, pats, true, k);
    NewKeysCount(base, pats, false, k);
    NewKeysCount(base, pats, true, k);
    KeysCount(pats, k);
    TimesNamed(base, k);
  }

  /** changed, added, removed and missing partition the overlay's keys exactly when no overlay key
      names two base personas. */
  lemma ReportPartitionsIff(base: seq<Persona>, pats: Pats)
    requires DistinctKeys(pats)
    ensures Reported(ReportOf(base, pats)) == multiset(Keys(pats))
       <==> forall i :: 0 <= i < |pats| ==> Times(base, pats[i].0) <= 1
  {
    var all, keys := Reported(ReportOf(base, pats)), multiset(Keys(pats));
    forall k
      ensures keys[k] <= 1 && all[k] == if k !in keys then 0 else if Times(base, k) > 1 then Times(base, k) else 1
      ensures k in keys <==> exists i :: 0 <= i < |pats| && pats[i].0 == k
    {
      ReportCounts(base, pats, k);
      KeysCount(pats, k);
      FindIsMember(pats, k);
    }
    if forall i :: 0 <= i < |pats| ==> Times(base, pats[i].0) <= 1 {
      forall k
        ensures all[k] == keys[k]
      {
        if k in keys {
          var i :| 0 <= i < |pats| && pats[i].0 == k;
        }
      }
    } else {
      var i :| 0 <= i < |pats| && Times(base, pats[i].0) > 1;
      assert pats[i].0 in keys;
      assert all[pats[i].0] != keys[pats[i].0];
    }
  }

  lemma OneMoreBase(base: seq<Persona>, p: Persona, pats: Pats, nulls: bool, k: string, patch: Json)
    requires KeyOf(p) == Some(k) && Find(pats, k) == Some(patch)
    ensures BaseKeys(base + [p], pats, nulls) == BaseKeys(base, pats, nulls) + if patch.Null? == nulls then [k] else []
  {
    assert (base + [p])[..|base|] == base;
  }

  lemma NoNewKey(base: seq<Persona>, k: string, patch: Json, nulls: bool)
    requires Named(base, k)
    ensures NewKeys(base, [(k, patch)], nulls) == []
  {
    assert [(k, patch)][..0] == [];
  }

  lemma SharedKeyReport(p: Persona, key: string, patch: Json)
    requires KeyOf(p) == Some(key) && patch.Obj?
    ensures ReportOf([p] + [p], [(key, patch)]) == Report([key, key], [], [], [])
  {
    var base, pats := [p] + [p], [(key, patch)];
    assert pats[..0] == [] && [] + [p] == [p];
    assert Find(pats, key) == Some(patch) && Named(base, key);
    OneMoreBase([], p, pats, false, key, patch);
    OneMoreBase([], p, pats, true, key, patch);
    OneMoreBase([p], p, pats, false, key, patch);
    OneMoreBase([p], p, pats, true, key, patch);
    NoNewKey(base, key, patch, false);
    NoNewKey(base, key, patch, true);
  }

  /** With a key that two base personas share, it does not: the key is reported twice. */
  lemma ASharedKeyIsReportedTwice(key: string, patch: Json)
    requires patch.Obj?
    ensures var base, pats := [map[KEY := Str(key)]] + [map[KEY := Str(key)]], [(key, patch)];
            && ReportOf(base, pats) == Report([key, key], [], [], [])
            && Reported(ReportOf(base, pats)) != multiset(Keys(pats))
  {
    SharedKeyReport(map[KEY := Str(key)], key, patch);
    assert [(key, patch)][..0] == [];
    assert multiset([key, key])[key] == 2 && multiset(Keys([(key, patch)]))[key] == 1;
  }

  // ---------------------------------------------------------------- twice is once

  /** A persona that was patched stays as it is when patched again. */
  lemma PatchedTwice(p: Json, patch: Json, k: string)
    requires patch.Obj?
    ensures Patched(Obj(Patched(p, patch, k)), patch, k) == Patched(p, patch, k)
  {
    var once := Members(Merge(p, patch));
    var again := Members(Merge(Obj(once[KEY := Str(k)]), patch));
    MergeIdempotent(p, patch);
    assert Merge(Obj(once), patch).m == once;
    forall j | j != KEY
      ensures (j in again <==> j in once) && (j in once ==> again[j] == once[j])
    {
      assert j in Merge(Obj(once), patch).m <==> j in once;
    }
    assert again[KEY := Str(k)] == once[KEY := Str(k)];
  }

  lemma {:induction false} PatchesAreObjects(blank: string -> bool, pats: Pats, i: nat)
    requires FirstError(blank, pats) == None && i < |pats|
    ensures pats[i].1.Null? || pats[i].1.Obj?
  {
    if i < |pats| - 1 {
      PatchesAreObjects(blank, pats[..|pats| - 1], i);
    }
  }

  lemma FoundIsObject(blank: string -> bool, pats: Pats, k: string)
    requires FirstError(blank, pats) == None && Find(pats, k).Some?
    ensures Find(pats, k).value.Null? || Find(pats, k).value.Obj?
  {
    FindIsMember(pats, k);
    var i :| 0 <= i < |pats| && pats[i] == (k, Find(pats, k).value);
    PatchesAreObjects(blank, pats, i);
  }

  /** A persona that the overlay keeps is kept unchanged the second time. */
  ghost predicate Settled(x: Persona, pats: Pats) { Kept(x, pats) == Some(x) }

  lemma KeptIsSettled(blank: string -> bool, p: Persona, pats: Pats)
    requires FirstError(blank, pats) == None && Kept(p, pats).Some?
    ensures Settled(Kept(p, pats).value, pats) && KeyOf(Kept(p, pats).value) == KeyOf(p)
  {
    if KeyOf(p).Some? && Find(pats, KeyOf(p).value).Some? {
      FoundIsObject(blank, pats, KeyOf(p).value);
      PatchedTwice(Obj(p), Find(pats, KeyOf(p).value).value, KeyOf(p).value);
    }
  }

  lemma {:induction false} FindDistinct(pats: Pats, i: nat)
    requires DistinctKeys(pats) && i < |pats|
    ensures Find(pats, pats[i].0) == Some(pats[i].1)
  {
    if i < |pats| - 1 {
      FindDistinct(pats[..|pats| - 1], i);
    }
  }

  lemma NewcomerIsSettled(blank: string -> bool, pats: Pats, i: nat)
    requires FirstError(blank, pats) == None && DistinctKeys(pats) && i < |pats| && !pats[i].1.Null?
    ensures Settled(Patched(Null, pats[i].1, pats[i].0), pats)
  {
    FindDistinct(pats, i);
    PatchesAreObjects(blank, pats, i);
    PatchedTwice(Null, pats[i].1, pats[i].0);
  }

  ghost predicate AllSettled(xs: seq<Persona>, pats: Pats) { forall i :: 0 <= i < |xs| ==> Settled(xs[i], pats) }

  lemma SettledConcat(a: seq<Persona>, b: seq<Persona>, pats: Pats)
    requires AllSettled(a, pats) && AllSettled(b, pats)
    ensures AllSettled(a + b, pats)
  {
  }

  lemma {:induction false} SettledStay(xs: seq<Persona>, pats: Pats)
    requires AllSettled(xs, pats)
    ensures MergeBase(xs, pats) == xs && BaseKeys(xs, pats, true) == []
  {
    if xs != [] {
      var n := |xs| - 1;
      SettledStay(xs[..n], pats);
      assert Settled(xs[n], pats);
      assert xs == xs[..n] + [xs[n]];
    }
  }

  lemma {:induction false} BaseSettles(blank: string -> bool, base: seq<Persona>, pats: Pats)
    requires FirstError(blank, pats) == None
    ensures AllSettled(MergeBase(base, pats), pats)
    ensures forall k :: Named(base, k) && !Has(pats, k, true) ==> Named(MergeBase(base, pats), k)
  {
    if base != [] {
      var n := |base| - 1;
      var rest, kept := MergeBase(base[..n], pats), Kept(base[n], pats);
      BaseSettles(blank, base[..n], pats);
      KeptKeepsKey(base[n], pats);
      if kept.Some? {
        KeptIsSettled(blank, base[n], pats);
        SettledConcat(rest, [kept.value], pats);
        assert (rest + [kept.value])[..|rest|] == rest;
      } else {
        assert rest + [] == rest;
      }
    }
  }

  lemma {:induction false} NamedInConcat(a: seq<Persona>, b: seq<Persona>, k: string)
    ensures Named(a + b, k) <==> Named(a, k) || Named(b, k)
  {
    if b == [] {
      assert a + b == a;
    } else {
      assert (a + b)[..|a| + |b| - 1] == a + b[..|b| - 1];
      NamedInConcat(a, b[..|b| - 1], k);
    }
  }

  lemma {:induction false} NewcomersSettle(blank: string -> bool, base: seq<Persona>, pats: Pats, n: nat)
    requires FirstError(blank, pats) == None && DistinctKeys(pats) && n <= |pats|
    ensures AllSettled(NewPersonas(base, pats[..n]), pats)
  {
    if n > 0 {
      NewcomersSettle(blank, base, pats, n - 1);
      assert pats[..n][..n - 1] == pats[..n - 1];
      if !Named(base, pats[n - 1].0) && !pats[n - 1].1.Null? {
        NewcomerIsSettled(blank, pats, n - 1);
        SettledConcat(NewPersonas(base, pats[..n - 1]), [Patched(Null, pats[n - 1].1, pats[n - 1].0)], pats);
      }
    }
  }

  lemma {:induction false} NewcomersAreNamed(base: seq<Persona>, pats: Pats, n: nat, i: nat)
    requires i < n <= |pats| && !pats[i].1.Null? && !Named(base, pats[i].0)
    ensures Named(NewPersonas(base, pats[..n]), pats[i].0)
  {
    assert pats[..n][..n - 1] == pats[..n - 1];
    var rest := NewPersonas(base, pats[..n - 1]);
    if i < n - 1 {
      NewcomersAreNamed(base, pats, n - 1, i);
      NamedInConcat(rest, [Patched(Null, pats[n - 1].1, pats[n - 1].0)], pats[i].0);
    } else {
      var x := Patched(Null, pats[i].1, pats[i].0);
      assert (rest + [x])[..|rest|] == rest;
    }
  }

  lemma {:induction false} NothingNew(xs: seq<Persona>, pats: Pats)
    requires forall i :: 0 <= i < |pats| && !pats[i].1.Null? ==> Named(xs, pats[i].0)
    ensures NewPersonas(xs, pats) == [] && NewKeys(xs, pats, false) == []
  {
    if pats != [] {
      NothingNew(xs, pats[..|pats| - 1]);
    }
  }

  // ---------------------------------------------------------------- what is applied

  /** `out` is the persona p under key k as the patch says: what it does not name is as in p, what it names is as it
      says, and the key is k. */
  ghost predicate IsPatched(p: Json, patch: Json, k: string, out: Persona) {
    && KEY in out && out[KEY] == Str(k)
    && forall path :: path != [] && path[0] != KEY ==> AsPatched(p, patch, Obj(out), path)
  }

  ghost predicate AsPatched(p: Json, patch: Json, out: Json, path: seq<string>) {
    && (LeavesAlone(patch, path) ==> At(out, path) == At(p, path))
    && (At(patch, path).Some? && !At(patch, path).value.Obj? ==>
          At(out, path) == if At(patch, path).value.Null? then None else At(patch, path))
  }

  lemma PatchedIs(p: Json, patch: Json, k: string)
    requires patch.Obj?
    ensures IsPatched(p, patch, k, Patched(p, patch, k))
  {
    var out := Patched(p, patch, k);
    forall path | path != [] && path[0] != KEY
      ensures AsPatched(p, patch, Obj(out), path)
    {
      assert At(Obj(out), path) == At(Merge(p, patch), path);
      if LeavesAlone(patch, path) {
        MergeLeavesAlone(p, patch, path);
      }
      if At(patch, path).Some? && !At(patch, path).value.Obj? {
        MergeAtNamed(p, patch, path);
      }
    }
  }

  /** The overlay has this entry. */
  ghost predicate HasEntry(pats: Pats, k: string, patch: Json) { exists i :: 0 <= i < |pats| && pats[i] == (k, patch) }

  ghost predicate HasNoEntry(pats: Pats, p: Persona) {
    forall i :: 0 <= i < |pats| ==> !(KEY in p && p[KEY] == Str(pats[i].0))
  }

  /** The personas that come from the base: those without an entry as they are, those with a patch patched, those with
      null left out, in their order. */
  ghost predicate FromBase(base: seq<Persona>, pats: Pats, merged: seq<Persona>) {
    if base == [] then merged == []
    else
      var pre, p := base[..|base| - 1], base[|base| - 1];
      || (HasNoEntry(pats, p) && EndsIn(merged, p) && FromBase(pre, pats, merged[..|merged| - 1]))
      || (exists k :: IsKeyOf(p, k) && HasEntry(pats, k, Null) && FromBase(pre, pats, merged))
      || (exists k, patch :: IsKeyOf(p, k) && HasEntry(pats, k, patch) && patch.Obj? && merged != []
                             && IsPatched(Obj(p), patch, k, merged[|merged| - 1])
                             && FromBase(pre, pats, merged[..|merged| - 1]))
  }

  ghost predicate EndsIn(s: seq<Persona>, p: Persona) { s != [] && s[|s| - 1] == p }

  ghost predicate IsKeyOf(p: Persona, k: string) { KEY in p && p[KEY] == Str(k) }

  /** The personas that come from the overlay alone: for each entry with a patch whose key no base persona has, in their
      order. */
  ghost predicate FromOverlay(base: seq<Persona>, pats: Pats, added: seq<Persona>) {
    if pats == [] then added == []
    else
      var pre, k, patch := pats[..|pats| - 1], pats[|pats| - 1].0, pats[|pats| - 1].1;
      if patch.Null? || exists i :: 0 <= i < |base| && IsKeyOf(base[i], k) then FromOverlay(base, pre, added)
      else
        && added != [] && IsPatched(Null, patch, k, added[|added| - 1])
        && FromOverlay(base, pre, added[..|added| - 1])
  }

  lemma {:induction false} NamedIs(base: seq<Persona>, k: string)
    ensures Named(base, k) <==> exists i :: 0 <= i < |base| && IsKeyOf(base[i], k)
  {
    if base != [] {
      var n := |base| - 1;
      NamedIs(base[..n], k);
      assert forall i :: 0 <= i < n ==> base[..n][i] == base[i];
      assert IsKeyOf(base[n], k) <==> KeyOf(base[n]) == Some(k);
    }
  }

  lemma FoundIsEntry(pats: Pats, p: Persona)
    requires DistinctKeys(pats)
    ensures (KeyOf(p).None? || Find(pats, KeyOf(p).value).None?) <==> HasNoEntry(pats, p)
    ensures KeyOf(p).Some? && Find(pats, KeyOf(p).value).Some? ==>
              IsKeyOf(p, KeyOf(p).value) && HasEntry(pats, KeyOf(p).value, Find(pats, KeyOf(p).value).value)
  {
    if KeyOf(p).Some? {
      FindIsMember(pats, KeyOf(p).value);
    }
  }

  lemma {:induction false} MergeBaseIs(blank: string -> bool, base: seq<Persona>, pats: Pats)
    requires FirstError(blank, pats) == None && DistinctKeys(pats)
    ensures FromBase(base, pats, MergeBase(base, pats))
  {
    if base != [] {
      var n := |base| - 1;
      var p, rest := base[n], MergeBase(base[..n], pats);
      MergeBaseIs(blank, base[..n], pats);
      FoundIsEntry(pats, p);
      var kept := Kept(p, pats);
      if kept.Some? {
        assert (rest + [kept.value])[..|rest|] == rest;
        if !HasNoEntry(pats, p) {
          FoundIsObject(blank, pats, KeyOf(p).value);
          PatchedIs(Obj(p), Find(pats, KeyOf(p).value).value, KeyOf(p).value);
        }
      } else {
        assert rest + [] == rest;
      }
    }
  }

  lemma {:induction false} NewPersonasAre(blank: string -> bool, base: seq<Persona>, pats: Pats)
    requires FirstError(blank, pats) == None
    ensures FromOverlay(base, pats, NewPersonas(base, pats))
  {
    if pats != [] {
      var n := |pats| - 1;
      var k, patch, rest := pats[n].0, pats[n].1, NewPersonas(base, pats[..n]);
      NewPersonasAre(blank, base, pats[..n]);
      NamedIs(base, k);
      if !patch.Null? && !Named(base, k) {
        assert PatchError(blank, k, patch) == None;
        PatchedIs(Null, patch, k);
        assert (rest + [Patched(Null, patch, k)])[..|rest|] == rest;
      }
    }
  }

  /** What an accepted overlay makes of a definition, said of the personas and members themselves. */
  lemma AppliedIs(blank: string -> bool, spec: Spec, overlay: Raw)
    requires Apply(blank, spec, overlay).Ok? && DistinctKeys(Entries0(overlay.personas))
    ensures var out, pats := Apply(blank, spec, overlay).spec, Entries0(overlay.personas);
            && out.rest == spec.rest
            && exists kept, added :: out.personas == kept + added
                 && FromBase(spec.personas, pats, kept) && FromOverlay(spec.personas, pats, added)
  {
    var pats := Entries0(overlay.personas);
    MergeBaseIs(blank, spec.personas, pats);
    NewPersonasAre(blank, spec.personas, pats);
    var out := Apply(blank, spec, overlay).spec;
    assert out.personas == MergeBase(spec.personas, pats) + NewPersonas(spec.personas, pats);
  }

  /** And its groups: patched if the overlay has any, and else as they were. */
  lemma AppliedGroups(blank: string -> bool, spec: Spec, overlay: Raw, path: seq<string>)
    requires Apply(blank, spec, overlay).Ok? && path != []
    ensures var out, groups := Apply(blank, spec, overlay).spec.groups, overlay.groups;
            if groups.Obj? && groups.m != map[]
            then out.Some? && AsPatched(if spec.groups.Some? then spec.groups.value else Null, groups, out.value, path)
            else out == spec.groups
  {
    var base, groups := if spec.groups.Some? then spec.groups.value else Null, overlay.groups;
    if groups.Obj? {
      if LeavesAlone(groups, path) {
        MergeLeavesAlone(base, groups, path);
      }
      if At(groups, path).Some? && !At(groups, path).value.Obj? {
        MergeAtNamed(base, groups, path);
      }
    }
  }

  /** Which list of the report a key is in. */
  lemma ReportIs(base: seq<Persona>, pats: Pats, k: string)
    requires DistinctKeys(pats)
    ensures var r, inBase := ReportOf(base, pats), exists i :: 0 <= i < |base| && IsKeyOf(base[i], k);
            && (k in r.changed <==> inBase && exists patch :: HasEntry(pats, k, patch) && !patch.Null?)
            && (k in r.removed <==> inBase && HasEntry(pats, k, Null))
            && (k in r.added <==> !inBase && exists patch :: HasEntry(pats, k, patch) && !patch.Null?)
            && (k in r.missing <==> !inBase && HasEntry(pats, k, Null))
  {
    NamedIs(base, k);
    BaseKeysAre(base, pats, k, false);
    BaseKeysAre(base, pats, k, true);
    NewKeysAre(base, pats, k, false);
    NewKeysAre(base, pats, k, true);
    EntryIsFound(pats, k);
  }

  lemma EntryIsFound(pats: Pats, k: string)
    requires DistinctKeys(pats)
    ensures Has(pats, k, true) <==> HasEntry(pats, k, Null)
    ensures Has(pats, k, false) <==> exists patch :: HasEntry(pats, k, patch) && !patch.Null?
  {
    FindIsMember(pats, k);
    forall i | 0 <= i < |pats|
      ensures Find(pats, pats[i].0) == Some(pats[i].1)
    {
      FindDistinct(pats, i);
    }
    if Find(pats, k).Some? {
      assert HasEntry(pats, k, Find(pats, k).value);
    }
  }

  lemma {:induction false} BaseKeysAre(base: seq<Persona>, pats: Pats, k: string, nulls: bool)
    ensures k in BaseKeys(base, pats, nulls) <==> Named(base, k) && Has(pats, k, nulls)
  {
    if base != [] {
      BaseKeysAre(base[..|base| - 1], pats, k, nulls);
    }
  }

  lemma {:induction false} NewKeysAre(base: seq<Persona>, pats: Pats, k: string, nulls: bool)
    requires DistinctKeys(pats)
    ensures k in NewKeys(base, pats, nulls) <==> !Named(base, k) && Has(pats, k, nulls)
  {
    if pats != [] {
      var n := |pats| - 1;
      NewKeysAre(base, pats[..n], k, nulls);
      if pats[n].0 == k && Find(pats[..n], k).Some? {
        FindIsMember(pats[..n], k);
      }
    }
  }

  /** Why an entry is refused: its key is blank, it is neither null nor an object, or it gives another key. */
  ghost predicate Offends(blank: string -> bool, k: string, patch: Json, e: Error) {
    match e
    case BlankKey => blank(k)
    case BadPatch => !blank(k) && patch != Null && !patch.Obj?
    case KeyChanged => !blank(k) && patch.Obj? && KEY in patch.m && patch.m[KEY] != Null && patch.m[KEY] != Str(k)
    case _ => false
  }

  ghost predicate IsFine(blank: string -> bool, k: string, patch: Json) {
    !blank(k) && (patch == Null || (patch.Obj? && (KEY in patch.m ==> patch.m[KEY] == Null || patch.m[KEY] == Str(k))))
  }

  lemma PatchErrorIs(blank: string -> bool, k: string, patch: Json)
    ensures match PatchError(blank, k, patch)
            case None => IsFine(blank, k, patch)
            case Some(e) => Offends(blank, k, patch, e)
  {
  }

  /** The first entry that is refused decides. */
  lemma {:induction false} FirstErrorIs(blank: string -> bool, pats: Pats)
    ensures match FirstError(blank, pats)
            case None => forall i :: 0 <= i < |pats| ==> IsFine(blank, pats[i].0, pats[i].1)
            case Some(e) => exists i :: 0 <= i < |pats| && Offends(blank, pats[i].0, pats[i].1, e)
                                        && forall j :: 0 <= j < i ==> IsFine(blank, pats[j].0, pats[j].1)
  {
    if pats != [] {
      var n := |pats| - 1;
      FirstErrorIs(blank, pats[..n]);
      PatchErrorIs(blank, pats[n].0, pats[n].1);
      assert forall j :: 0 <= j < n ==> pats[..n][j] == pats[j];
    }
  }

  /** What is refused before the entries are read, and in which order: no object, unknown names, groups that are no
      object, personas that are none. */
  lemma RefusedIs(blank: string -> bool, spec: Spec, overlay: Raw)
    ensures var r := Apply(blank, spec, overlay);
            if overlay.NotAnObject? then r == Fail(NotObject)
            else if exists name :: name in overlay.extra then r == Fail(UnknownNames)
            else if overlay.groups != Null && !overlay.groups.Obj? then r == Fail(BadGroups)
            else if overlay.personas.BadPersonas? then r == Fail(PersonasNotObject)
            else match FirstError(blank, if overlay.personas.Entries? then overlay.personas.pats else [])
              case None => r.Ok?
              case Some(e) => r == Fail(e)
  {
  }

  /** Whom the overlay adds is in its result. */
  lemma AllAreNamed(blank: string -> bool, base: seq<Persona>, pats: Pats)
    requires FirstError(blank, pats) == None && DistinctKeys(pats)
    ensures forall i :: 0 <= i < |pats| && !pats[i].1.Null? ==>
              Named(MergeBase(base, pats) + NewPersonas(base, pats), pats[i].0)
  {
    BaseSettles(blank, base, pats);
    assert pats[..|pats|] == pats;
    forall i | 0 <= i < |pats| && !pats[i].1.Null?
      ensures Named(MergeBase(base, pats) + NewPersonas(base, pats), pats[i].0)
    {
      FindDistinct(pats, i);
      if !Named(base, pats[i].0) {
        NewcomersAreNamed(base, pats, |pats|, i);
      }
      NamedInConcat(MergeBase(base, pats), NewPersonas(base, pats), pats[i].0);
    }
  }

  lemma PersonasSettle(blank: string -> bool, base: seq<Persona>, pats: Pats)
    requires FirstError(blank, pats) == None && DistinctKeys(pats)
    ensures var once := MergeBase(base, pats) + NewPersonas(base, pats);
            && MergeBase(once, pats) == once && NewPersonas(once, pats) == []
            && BaseKeys(once, pats, true) == [] && NewKeys(once, pats, false) == []
  {
    BaseSettles(blank, base, pats);
    NewcomersSettle(blank, base, pats, |pats|);
    assert pats[..|pats|] == pats;
    var once := MergeBase(base, pats) + NewPersonas(base, pats);
    SettledConcat(MergeBase(base, pats), NewPersonas(base, pats), pats);
    SettledStay(once, pats);
    AllAreNamed(blank, base, pats);
    NothingNew(once, pats);
  }

  /** Applying an accepted overlay to its own result changes nothing: the same definition, and a
      report that adds and removes nobody. */
  lemma OverlayTwiceIsOnce(blank: string -> bool, spec: Spec, overlay: Raw)
    requires Apply(blank, spec, overlay).Ok? && DistinctKeys(Entries0(overlay.personas))
    ensures var once := Apply(blank, spec, overlay).spec;
            var twice := Apply(blank, once, overlay);
            twice.Ok? && twice.spec == once && twice.report.added == [] && twice.report.removed == []
  {
    PersonasSettle(blank, spec.personas, Entries0(overlay.personas));
    if overlay.groups.Obj? {
      MergeIdempotent(if spec.groups.Some? then spec.groups.value else Null, overlay.groups);
    }
  }
}
