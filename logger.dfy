/** `mask_sensitive_data` (src/utils/logger.py): hides the values of dict keys
    that look secret before a payload is logged. */
module Logger {
  import opened Strings
  import opened Values

  const Masked: string := "***MASKED***"

  /** The substrings that make a key sensitive. */
  const SensitiveWords: seq<string> := ["password", "secret", "key", "token", "credential"]

  /** `any(s in k.lower() for s in sensitive_keys)` */
  predicate Sensitive(k: string) {
    exists w | w in SensitiveWords :: Contains(Lower(k), w)
  }

  /** The recursive masking function. */
  function Mask(v: Value): (r: Value)
    decreases v
  {
    match v
    case Dict(es) =>
      Dict(seq(|es|, i requires 0 <= i < |es| =>
        Entry(es[i].key, if Sensitive(es[i].key) then Str(Masked) else Mask(es[i].val))))
    case List(items) =>
      List(seq(|items|, i requires 0 <= i < |items| => Mask(items[i])))
    case _ => v
  }

  /** A dict keeps its keys, in order, and each sensitive key's value becomes
      the mask string while every other value is masked recursively. */
  lemma MaskDict(es: seq<Entry>)
    ensures Mask(Dict(es)).Dict?
    ensures Keys(Mask(Dict(es)).entries) == Keys(es)
    ensures forall i :: 0 <= i < |es| ==>
      Mask(Dict(es)).entries[i].val == (if Sensitive(es[i].key) then Str(Masked) else Mask(es[i].val))
  {
  }

  /** A list is masked element by element and keeps its length. */
  lemma MaskList(items: seq<Value>)
    ensures Mask(List(items)).List?
    ensures |Mask(List(items)).items| == |items|
    ensures forall i :: 0 <= i < |items| ==> Mask(List(items)).items[i] == Mask(items[i])
  {
  }

  /** Values that are neither dicts nor lists come back unchanged. */
  lemma MaskScalar(v: Value)
    requires !v.Dict? && !v.List?
    ensures Mask(v) == v
  {
  }

  /** Keys containing "key" in any letter case are masked: an example of
      the case-insensitive match. */
  lemma MaskAccessKey()
    ensures Mask(Dict([Entry("AWS_Access_KEY", Str("AKIA"))])) == Dict([Entry("AWS_Access_KEY", Str(Masked))])
  {
    var k := "AWS_Access_KEY";
    assert Lower(k) == "aws_access_key";
    assert OccursAt(Lower(k), "key", 11);
    assert Contains(Lower(k), SensitiveWords[2]);
    assert Sensitive(k);
  }

  /** Masking an already masked payload changes nothing. */
  lemma {:induction false} MaskIdempotent(v: Value)
    ensures Mask(Mask(v)) == Mask(v)
    decreases v
  {
    match v
    case Dict(es) =>
      var m := Mask(v).entries;
      forall i | 0 <= i < |es| && !Sensitive(es[i].key)
        ensures Mask(m[i].val) == m[i].val
      {
        assert es[i] in es;
        assert es[i].val < v;
        MaskIdempotent(es[i].val);
      }
      assert Mask(Mask(v)).entries == m;
    case List(items) =>
      var m := Mask(v).items;
      forall i | 0 <= i < |items|
        ensures Mask(m[i]) == m[i]
      {
        MaskIdempotent(items[i]);
      }
      assert Mask(Mask(v)).items == m;
    case _ =>
  }
}
