/**
 * JSON values as the server's session memory holds them, and `deepMerge`
 * (server/src/sessionStore.ts), the recursive merge that reconciles a
 * client's memory delta with the memory already stored.
 */
module Json {
  import opened Strings

  /** A parsed JSON value. Numbers are integers here. */
  datatype Json =
    | JNull
    | JBool(b: bool)
    | JNum(n: int)
    | JStr(s: string)
    | JArr(items: seq<Json>)
    | JObj(fields: map<string, Json>)

  /** A JSON object: the `Record<string, unknown>` that `deepMerge` takes and returns. */
  type Object = map<string, Json>

  /** JavaScript truthiness of a JSON value. */
  predicate Truthy(v: Json) {
    match v
    case JNull => false
    case JBool(b) => b
    case JNum(n) => n != 0
    case JStr(s) => s != ""
    case _ => true
  }

  /**
   * The target an object-valued source key is merged into: the target's value
   * when it is an object, `{}` when it is missing or not an object
   * (`targetValue && typeof targetValue === 'object' ? targetValue : {}`).
   * An array target is also `typeof 'object'`; `Mergeable` rules it out.
   */
  function SubTarget(t: Object, k: string): Object {
    if k in t && t[k].JObj? then t[k].fields else map[]
  }

  /**
   * The inputs on which `deepMerge` stays within JSON objects: nowhere is an
   * object-valued source key merged into an array-valued target key (the
   * source would then copy the array and set properties on it).
   */
  predicate Mergeable(t: Object, s: Object)
    decreases JObj(s)
  {
    forall k :: k in s && s[k].JObj? ==>
      (k in t ==> !t[k].JArr?) && Mergeable(SubTarget(t, k), s[k].fields)
  }

  /**
   * `deepMerge(target, source)`: arrays in the source replace, objects in the
   * source recurse, every other source value (scalars and `null`) overwrites,
   * and keys absent from the source keep the target's value.
   */
  function DeepMerge(t: Object, s: Object): (r: Object)
    requires Mergeable(t, s)
    decreases JObj(s)
    ensures r.Keys == t.Keys + s.Keys
    ensures forall k :: k in t && k !in s ==> r[k] == t[k]
    ensures forall k :: k in s && s[k].JArr? ==> r[k] == s[k]
    ensures forall k :: k in s && !s[k].JArr? && !s[k].JObj? ==> r[k] == s[k]
    ensures forall k :: k in s && s[k].JObj? ==>
      r[k].JObj? && r[k].fields.Keys == SubTarget(t, k).Keys + s[k].fields.Keys
    ensures forall k :: k in s && s[k].JObj? ==>
      Mergeable(SubTarget(t, k), s[k].fields) && r[k] == JObj(DeepMerge(SubTarget(t, k), s[k].fields))
  {
    map k | k in t.Keys + s.Keys ::
      if k !in s then t[k]
      else if s[k].JObj? then JObj(DeepMerge(SubTarget(t, k), s[k].fields))
      else s[k]
  }

  /** Every source merges into the empty object (a fresh session's memory). */
  lemma {:induction false} MergeableIntoEmpty(s: Object)
    decreases JObj(s)
    ensures Mergeable(map[], s)
  {
    forall k | k in s && s[k].JObj? ensures Mergeable(SubTarget(map[], k), s[k].fields) {
      MergeableIntoEmpty(s[k].fields);
    }
  }

  /** Merging into the empty object yields the source itself. */
  lemma {:induction false} MergeIntoEmpty(s: Object)
    decreases JObj(s)
    ensures Mergeable(map[], s) && DeepMerge(map[], s) == s
  {
    MergeableIntoEmpty(s);
    var r := DeepMerge(map[], s);
    forall k | k in s ensures r[k] == s[k] {
      if s[k].JObj? {
        MergeIntoEmpty(s[k].fields);
      }
    }
  }

  /** The merged object can take the same source again. */
  lemma {:induction false} MergeResultMergeable(t: Object, s: Object)
    requires Mergeable(t, s)
    decreases JObj(s)
    ensures Mergeable(DeepMerge(t, s), s)
  {
    var r := DeepMerge(t, s);
    forall k | k in s && s[k].JObj? ensures Mergeable(SubTarget(r, k), s[k].fields) {
      MergeResultMergeable(SubTarget(t, k), s[k].fields);
    }
  }

  /** Merging the same delta twice yields the same memory as merging it once. */
  lemma {:induction false} MergeIdempotent(t: Object, s: Object)
    requires Mergeable(t, s)
    decreases JObj(s)
    ensures Mergeable(DeepMerge(t, s), s)
    ensures DeepMerge(DeepMerge(t, s), s) == DeepMerge(t, s)
  {
    MergeResultMergeable(t, s);
    var r := DeepMerge(t, s);
    var r2 := DeepMerge(r, s);
    forall k | k in r ensures r2[k] == r[k] {
      if k in s && s[k].JObj? {
        MergeIdempotent(SubTarget(t, k), s[k].fields);
      }
    }
  }

  /** Merging the empty source changes nothing. */
  lemma MergeEmptySource(t: Object)
    ensures Mergeable(t, map[]) && DeepMerge(t, map[]) == t
  {
  }

  /** `{a: {b: 1}}` merged with `{a: {c: 2}}` is `{a: {b: 1, c: 2}}`. */
  lemma NestedMergeExample()
    ensures Mergeable(map["a" := JObj(map["b" := JNum(1)])], map["a" := JObj(map["c" := JNum(2)])])
    ensures DeepMerge(map["a" := JObj(map["b" := JNum(1)])], map["a" := JObj(map["c" := JNum(2)])])
         == map["a" := JObj(map["b" := JNum(1), "c" := JNum(2)])]
  {
    var t := map["a" := JObj(map["b" := JNum(1)])];
    var s := map["a" := JObj(map["c" := JNum(2)])];
    var inner := DeepMerge(map["b" := JNum(1)], map["c" := JNum(2)]);
    assert inner == map["b" := JNum(1), "c" := JNum(2)];
    assert DeepMerge(t, s)["a"] == JObj(inner);
  }

  /**
   * The keys `Object.keys` gives a merge source that is not a plain object,
   * with the values indexing then reads: the indices of an array or a string,
   * none for `true` or a number.
   */
  function SourceView(v: Json): (r: Object)
    ensures v.JObj? ==> r == v.fields
    ensures v.JArr? ==> r.Keys == IndexKeys(|v.items|)
    ensures v.JArr? ==> forall k :: 0 <= k < |v.items| ==> r[DecimalString(k)] == v.items[k]
    ensures v.JStr? ==> r.Keys == IndexKeys(|v.s|)
    ensures v.JStr? ==> forall k :: 0 <= k < |v.s| ==> r[DecimalString(k)] == JStr([v.s[k]])
    ensures v.JBool? || v.JNum? || v.JNull? ==> r == map[]
  {
    match v
    case JObj(m) => m
    case JArr(items) => IndexMap(items)
    case JStr(s) => IndexMap(seq(|s|, k requires 0 <= k < |s| => JStr([s[k]])))
    case _ => map[]
  }

  /** The index keys `"0"`, ..., the decimal form of `n - 1`. */
  function IndexKeys(n: nat): set<string> {
    set k | 0 <= k < n :: DecimalString(k)
  }

  /** `{"0": xs[0], "1": xs[1], ...}`. */
  function IndexMap(xs: seq<Json>): (r: Object)
    ensures r.Keys == IndexKeys(|xs|)
    ensures forall k :: 0 <= k < |xs| ==> r[DecimalString(k)] == xs[k]
  {
    DecimalStringsDistinct();
    map k | 0 <= k < |xs| :: DecimalString(k) := xs[k]
  }

  /** Different numbers have different decimal forms. */
  lemma DecimalStringsDistinct()
    ensures forall a: nat, b: nat :: DecimalString(a) == DecimalString(b) ==> a == b
  {
    forall a: nat, b: nat | DecimalString(a) == DecimalString(b) ensures a == b {
      if a != b {
        DecimalStringDistinct(a, b);
      }
    }
  }

  lemma {:induction false} DecimalStringDistinct(a: nat, b: nat)
    requires a != b
    ensures DecimalString(a) != DecimalString(b)
  {
    var da, db := DecimalString(a), DecimalString(b);
    if a < 10 && b < 10 {
      assert da[0] != db[0];
    } else if a < 10 || b < 10 {
      assert |da| != |db|;
    } else if a % 10 != b % 10 {
      assert da[|da| - 1] != db[|db| - 1];
    } else {
      DecimalStringDistinct(a / 10, b / 10);
      assert da[..|da| - 1] == DecimalString(a / 10);
      assert db[..|db| - 1] == DecimalString(b / 10);
    }
  }
}
