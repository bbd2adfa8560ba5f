/** MongoDB object ids as the application sees them: 24 hexadecimal digits. */
module ObjectIds {
  import opened Wrappers

  predicate IsLowerHex(c: char) { '0' <= c <= '9' || 'a' <= c <= 'f' }

  predicate IsHex(c: char) { IsLowerHex(c) || 'A' <= c <= 'F' }

  /** `str(ObjectId(...))`: always 24 lower-case hexadecimal digits. */
  type ObjectId = s: string | |s| == 24 && forall i :: 0 <= i < |s| ==> IsLowerHex(s[i])
    witness "000000000000000000000000"

  function ToLower(c: char): (r: char)
    ensures IsHex(c) ==> IsLowerHex(r)
    ensures IsLowerHex(c) ==> r == c
  {
    if 'A' <= c <= 'F' then ((c as int) - ('A' as int) + ('a' as int)) as char else c
  }

  /**
   * `ObjectId(text)` / `PydanticObjectId(text)`: text of 24 hexadecimal digits
   * of either case is read as bytes and printed back in lower case; anything
   * else raises `InvalidId`, here `None`.
   */
  function Parse(text: string): (r: Option<ObjectId>)
    ensures r.Some? <==> |text| == 24 && forall i :: 0 <= i < |text| ==> IsHex(text[i])
    ensures r.Some? ==> forall i :: 0 <= i < 24 ==> r.value[i] == ToLower(text[i])
  {
    if |text| == 24 && forall i :: 0 <= i < |text| ==> IsHex(text[i]) then
      Some(seq(24, i requires 0 <= i < 24 => ToLower(text[i])))
    else None
  }

  /** The printed form of an id reads back as the same id. */
  lemma ParsePrinted(oid: ObjectId)
    ensures Parse(oid) == Some(oid)
  {
    assert forall i :: 0 <= i < 24 ==> IsHex(oid[i]);
    var r := Parse(oid);
    assert r.value == oid;
  }

  /** Two texts that differ only in the case of their letters name the same id. */
  lemma {:induction false} ParseIgnoresCase(a: string, b: string)
    requires |a| == |b| && forall i :: 0 <= i < |a| ==> ToLower(a[i]) == ToLower(b[i])
    requires Parse(a).Some?
    ensures Parse(b) == Parse(a)
  {
    forall i | 0 <= i < |b| ensures IsHex(b[i]) {
      assert IsHex(a[i]);
      assert ToLower(a[i]) == ToLower(b[i]);
    }
    assert Parse(b).value == Parse(a).value;
  }

  /** The id an entity ends up with after a trip through the store format: a non-empty id in lower case, an empty one dropped. */
  function CanonicalId(id: Option<string>): Option<string>
    requires id.None? || id.value == [] || Parse(id.value).Some?
  {
    if id.Some? && id.value != [] then Some(Parse(id.value).value) else None
  }
}
