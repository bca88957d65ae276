/** JSON Merge Patch: the service's recursive merge against section 2 of RFC 7396. */
module MergePatch {
  import opened Json

  // ---- What the service computes -------------------------------------------

  function Merged(target: Value, patch: Value): (r: Value)
    requires target.Dict? && patch.Dict?
    ensures r.Dict?
    decreases patch
  {
    var t, p := target.entries, patch.entries;
    Dict(map k | k in t.Keys + p.Keys && !(k in p && p[k].Null?) :: MergedMember(target, patch, k))
  }

  function MergedMember(target: Value, patch: Value, k: string): Value
    requires target.Dict? && patch.Dict?
    requires k in target.entries || k in patch.entries
    decreases patch, 0
  {
    var t, p := target.entries, patch.entries;
    if k !in p then t[k]
    else if p[k].Dict? && k in t && t[k].Dict? then Merged(t[k], p[k])
    else p[k]
  }

  /** Member by member: null removes, an object is merged into an object, anything else
      replaces, and what the patch does not name stays. */
  lemma MergedMembers(target: Value, patch: Value, k: string)
    requires target.Dict? && patch.Dict?
    ensures var t, p, r := target.entries, patch.entries, Merged(target, patch).entries;
      && (k !in p ==> (k in r <==> k in t) && (k in t ==> r[k] == t[k]))
      && (k in p && p[k].Null? ==> k !in r)
      && (k in p && !p[k].Null? ==> k in r)
      && (k in p && p[k].Dict? && k in t && t[k].Dict? ==> r[k] == Merged(t[k], p[k]))
      && (k in p && !p[k].Null? && !(p[k].Dict? && k in t && t[k].Dict?) ==> r[k] == p[k])
  {
    var r := Merged(target, patch).entries;
    if k in r {
      assert r[k] == MergedMember(target, patch, k);
    }
  }

  /** The service's loop: it edits a copy of the target one patch member at a
      time, in whatever order the members come. */
  method JsonMergePatch(target: Value, patch: Value) returns (result: Value)
    requires target.Dict? && patch.Dict?
    ensures result == Merged(target, patch)
    decreases patch
  {
    var t, p := target.entries, patch.entries;
    var entries := t;
    var remaining := p.Keys;
    while remaining != {}
      invariant remaining <= p.Keys
      invariant forall k :: k !in p || k in remaining ==> (k in entries <==> k in t) && (k in t ==> entries[k] == t[k])
      invariant forall k :: k in p && k !in remaining ==>
        (k in entries <==> !p[k].Null?) && (k in entries ==> entries[k] == MergedMember(target, patch, k))
      decreases remaining
    {
      var key :| key in remaining;
      var value := p[key];
      if value.Null? {
        entries := entries - {key};
      } else if value.Dict? && key in entries && entries[key].Dict? {
        var merged := JsonMergePatch(entries[key], value);
        entries := entries[key := merged];
      } else {
        entries := entries[key := value];
      }
      remaining := remaining - {key};
    }
    assert entries == Merged(target, patch).entries;
    result := Dict(entries);
  }

  // ---- RFC 7396, section 2 -------------------------------------------------

  /** The MergePatch function of the RFC. An undefined target is passed as
      `Null`, which like it is not an object. */
  function RfcMergePatch(target: Value, patch: Value): Value
    decreases patch
  {
    if !patch.Dict? then patch
    else
      var t := if target.Dict? then target.entries else map[];
      var p := patch.entries;
      Dict(map k | k in t.Keys + p.Keys && !(k in p && p[k].Null?) ::
        if k in p then RfcMergePatch(if k in t then t[k] else Null, p[k]) else t[k])
  }

  /** No null member at any object depth. Arrays are opaque to a merge patch. */
  predicate NullFree(v: Value) {
    v.Dict? ==> forall k | k in v.entries :: !v.entries[k].Null? && NullFree(v.entries[k])
  }

  /** Every patch sub-object that lands where the target has no object is `NullFree`. */
  predicate Agreeable(target: Value, patch: Value)
    requires target.Dict? && patch.Dict?
    decreases patch
  {
    forall k | k in patch.entries :: MemberAgrees(target, patch, k)
  }

  predicate MemberAgrees(target: Value, patch: Value, k: string)
    requires target.Dict? && patch.Dict?
    decreases patch, 0
  {
    k in patch.entries && patch.entries[k].Dict? ==>
      if k in target.entries && target.entries[k].Dict?
      then Agreeable(target.entries[k], patch.entries[k])
      else NullFree(patch.entries[k])
  }

  lemma {:induction false} RfcOnNonObject(target: Value, patch: Value)
    requires !target.Dict?
    ensures RfcMergePatch(target, patch) == patch <==> NullFree(patch)
    decreases patch
  {
    if patch.Dict? {
      var p, r := patch.entries, RfcMergePatch(target, patch).entries;
      forall k | k in p && !p[k].Null?
        ensures k in r && (r[k] == p[k] <==> NullFree(p[k]))
      {
        RfcOnNonObject(Null, p[k]);
      }
      if NullFree(patch) {
        assert r == p;
      } else {
        var k :| k in p && (p[k].Null? || !NullFree(p[k]));
        assert k !in r || r[k] != p[k];
      }
    }
  }

  /** The service's merge is the RFC's exactly on agreeable patches. */
  lemma {:induction false} MergeIsRfcIffAgreeable(target: Value, patch: Value)
    requires target.Dict? && patch.Dict?
    ensures Merged(target, patch) == RfcMergePatch(target, patch) <==> Agreeable(target, patch)
    decreases patch
  {
    var t, p := target.entries, patch.entries;
    var m, r := Merged(target, patch).entries, RfcMergePatch(target, patch).entries;
    assert m.Keys == r.Keys;
    forall k | k in m
      ensures m[k] == r[k] <==> MemberAgrees(target, patch, k)
    {
      assert m[k] == MergedMember(target, patch, k);
      if k in p {
        if p[k].Dict? && k in t && t[k].Dict? {
          MergeIsRfcIffAgreeable(t[k], p[k]);
        } else {
          RfcOnMember(if k in t then t[k] else Null, p[k]);
        }
      }
    }
    if Agreeable(target, patch) {
      assert m == r;
    } else {
      var k :| k in p && !MemberAgrees(target, patch, k);
      assert p[k].Dict?;
      assert k in m.Keys;
      assert m[k] != r[k];
    }
  }

  /** Merging a non-null member where not both sides are objects. */
  lemma RfcOnMember(previous: Value, v: Value)
    requires !(previous.Dict? && v.Dict?)
    ensures RfcMergePatch(previous, v) == v <==> NullFree(v)
  {
    if !previous.Dict? {
      RfcOnNonObject(previous, v);
    }
  }

  /** Where the two part: a null member of an object that lands on nothing. */
  lemma MergeKeepsNullMember()
    ensures var target, patch := Dict(map[]), Dict(map["a" := Dict(map["b" := Null])]);
      && Merged(target, patch) == patch
      && RfcMergePatch(target, patch) == Dict(map["a" := Dict(map[])])
      && Merged(target, patch) != RfcMergePatch(target, patch)
  {
    var target, inner := Dict(map[]), Dict(map["b" := Null]);
    var patch := Dict(map["a" := inner]);
    assert Merged(target, patch).entries["a"] == MergedMember(target, patch, "a") == inner;
    assert Merged(target, patch).entries == patch.entries;
    var rfcInner := RfcMergePatch(Null, inner);
    assert rfcInner.entries == map[];
    assert RfcMergePatch(target, patch).entries["a"] == rfcInner;
    assert RfcMergePatch(target, patch).entries == map["a" := Dict(map[])];
    assert "b" in inner.entries;
  }

  // ---- Idempotence -----------------------------------------------------------

  lemma {:induction false} SelfMerge(v: Value)
    requires v.Dict?
    ensures Merged(v, v) == v <==> NullFree(v)
    decreases v
  {
    var e, m := v.entries, Merged(v, v).entries;
    forall k | k in e && e[k].Dict?
      ensures k in m && (m[k] == e[k] <==> NullFree(e[k]))
    {
      SelfMerge(e[k]);
      assert m[k] == MergedMember(v, v, k);
    }
    if NullFree(v) {
      assert m.Keys == e.Keys;
      forall k | k in e ensures m[k] == e[k] {
        assert m[k] == MergedMember(v, v, k);
      }
    } else {
      var k :| k in e && (e[k].Null? || !NullFree(e[k]));
      assert k !in m || m[k] != e[k];
    }
  }

  /** Applying the same patch twice changes nothing more, again exactly on
      agreeable patches. */
  lemma {:induction false} MergeIdempotentIffAgreeable(target: Value, patch: Value)
    requires target.Dict? && patch.Dict?
    ensures Merged(Merged(target, patch), patch) == Merged(target, patch) <==> Agreeable(target, patch)
    decreases patch
  {
    var t, p := target.entries, patch.entries;
    var once := Merged(target, patch);
    var m, mm := once.entries, Merged(once, patch).entries;
    assert m.Keys == mm.Keys;
    forall k | k in m
      ensures mm[k] == m[k] <==> MemberAgrees(target, patch, k)
    {
      assert m[k] == MergedMember(target, patch, k);
      assert mm[k] == MergedMember(once, patch, k);
      if k in p && p[k].Dict? {
        if k in t && t[k].Dict? {
          MergeIdempotentIffAgreeable(t[k], p[k]);
        } else {
          SelfMerge(p[k]);
        }
      }
    }
    if Agreeable(target, patch) {
      assert mm == m;
    } else {
      var k :| k in p && !MemberAgrees(target, patch, k);
      assert p[k].Dict?;
      assert k in m.Keys;
      assert mm[k] != m[k];
    }
  }

  // ---- Untouched paths ---------------------------------------------------------

  /** The value at a path of object members, if the path exists. */
  function Lookup(v: Value, path: seq<string>): Option<Value>
    decreases |path|
  {
    if path == [] then Some(v)
    else if v.Dict? && path[0] in v.entries then Lookup(v.entries[path[0]], path[1..])
    else None
  }

  /** The patch names a member at every step it is an object, up to a step
      where it has an object without the next name. */
  predicate Untouched(patch: Value, path: seq<string>)
    decreases |path|
  {
    patch.Dict? && path != [] &&
    (path[0] in patch.entries ==> Untouched(patch.entries[path[0]], path[1..]))
  }

  lemma {:induction false} UntouchedHasNoValue(patch: Value, path: seq<string>)
    requires Untouched(patch, path)
    ensures Lookup(patch, path) == None
    decreases |path|
  {
    if path[0] in patch.entries {
      UntouchedHasNoValue(patch.entries[path[0]], path[1..]);
    }
  }

  /** A path the patch does not touch keeps its value, or its absence. No
      condition on nulls is needed here. */
  lemma {:induction false} MergeKeepsUntouched(target: Value, patch: Value, path: seq<string>)
    requires target.Dict? && patch.Dict?
    requires Untouched(patch, path)
    ensures Lookup(Merged(target, patch), path) == Lookup(target, path)
    decreases |path|
  {
    var k, rest := path[0], path[1..];
    var t, p, m := target.entries, patch.entries, Merged(target, patch).entries;
    if k in p {
      if k in t && t[k].Dict? {
        MergeKeepsUntouched(t[k], p[k], rest);
      } else {
        UntouchedHasNoValue(p[k], rest);
        assert m[k] == MergedMember(target, patch, k) == p[k];
        assert Lookup(target, path) == None;
      }
    }
  }

  // ---- Cases of Appendix A of RFC 7396 -------------------------------------------

  function Single(k: string, v: Value): Value {
    Dict(map[k := v])
  }

  lemma RfcSingle(k: string, v: Value, w: Value)
    requires !w.Null?
    ensures RfcMergePatch(Single(k, v), Single(k, w)) == Single(k, RfcMergePatch(v, w))
  {
    var r := RfcMergePatch(Single(k, v), Single(k, w)).entries;
    assert r == map[k := RfcMergePatch(v, w)];
  }

  /** Replacing, adding and removing one member, and the last one of two. */
  lemma RfcMembers(a: string, b: string, v: Value, w: Value)
    requires a != b && !w.Null? && !w.Dict?
    ensures RfcMergePatch(Single(a, v), Single(a, w)) == Single(a, w)
    ensures RfcMergePatch(Single(a, v), Single(b, w)) == Dict(map[a := v, b := w])
    ensures RfcMergePatch(Single(a, v), Single(a, Null)) == Dict(map[])
    ensures RfcMergePatch(Dict(map[a := v, b := w]), Single(a, Null)) == Single(b, w)
  {
    RfcSingle(a, v, w);
    assert RfcMergePatch(Single(a, v), Single(b, w)).entries == map[a := v, b := w];
    assert RfcMergePatch(Single(a, v), Single(a, Null)).entries == map[];
    assert RfcMergePatch(Dict(map[a := v, b := w]), Single(a, Null)).entries == map[b := w];
  }

  /** A target or a patch that is not an object, and arrays, are replaced as a whole. */
  lemma RfcReplaces(target: Value, patch: Value, a: string, w: Value)
    requires !target.Dict? && !patch.Dict? && !w.Null? && !w.Dict?
    ensures RfcMergePatch(target, patch) == RfcMergePatch(Dict(map[]), patch) == patch
    ensures RfcMergePatch(target, Single(a, w)) == Single(a, w)
  {
    assert RfcMergePatch(target, Single(a, w)).entries == map[a := w];
  }

  /** Inside a nested object. */
  lemma RfcNests(a: string, b: string, c: string, v: Value, w: Value)
    requires b != c && !w.Null? && !w.Dict?
    ensures RfcMergePatch(Single(a, Single(b, v)), Single(a, Dict(map[b := w, c := Null]))) == Single(a, Single(b, w))
  {
    var inner := Dict(map[b := w, c := Null]);
    assert RfcMergePatch(Single(b, v), inner).entries == map[b := w];
    RfcSingle(a, Single(b, v), inner);
  }

  /** The null of a nested patch that lands on nothing. */
  lemma RfcNestedNull(a: string, b: string, c: string)
    ensures RfcMergePatch(Dict(map[]), Single(a, Single(b, Single(c, Null)))) == Single(a, Single(b, Dict(map[])))
  {
    var empty: map<string, Value> := map[];
    assert RfcMergePatch(Null, Single(c, Null)).entries == empty;
    RfcOnNothing(Null, b, Single(c, Null));
    RfcOnNothing(Dict(empty), a, Single(b, Single(c, Null)));
  }

  lemma RfcOnNothing(target: Value, k: string, w: Value)
    requires !w.Null? && (!target.Dict? || target.entries == map[])
    ensures RfcMergePatch(target, Single(k, w)) == Single(k, RfcMergePatch(Null, w))
  {
    assert RfcMergePatch(target, Single(k, w)).entries == map[k := RfcMergePatch(Null, w)];
  }
}
