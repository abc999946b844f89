/** The directory-name parser of cdprocessor.go: a rip directory is named `<id>` or
    `<id>_<suffix>`, and `convert` recovers the id as a 32-bit integer. */
module DirNames {
  import opened Text

  const TwoTo31: int := 0x8000_0000
  const TwoTo32: int := 0x1_0000_0000

  /** Go's `int32(v)` conversion: keep the low 32 bits, read them as two's complement. */
  function ToInt32(v: int): (r: int)
    ensures -TwoTo31 <= r < TwoTo31
    ensures (r - v) % TwoTo32 == 0
    ensures -TwoTo31 <= v < TwoTo31 ==> r == v
  {
    (v + TwoTo31) % TwoTo32 - TwoTo31
  }

  /** The part of a directory name that carries the id: the text before the first `_`,
      or the whole name when it has none. */
  function IdPart(name: string): (p: string)
    ensures '_' !in p && HasPrefix(name, p)
    ensures '_' !in name ==> p == name
    ensures '_' in name ==> name[|p|] == '_'
  {
    BeforeFirst(name, '_')
  }

  /** `prodIo.convert`: a parse failure gives (-1, error); a success gives the parsed
      value truncated to 32 bits. */
  function Convert(name: string): (r: Parsed)
    ensures r.ok <==> Atoi(IdPart(name)).ok
    ensures !r.ok ==> r.value == -1
    ensures r.ok ==> -TwoTo31 <= r.value < TwoTo31 && (r.value - Atoi(IdPart(name)).value) % TwoTo32 == 0
  {
    if '_' in name then
      var parsed := Atoi(name[..IndexOf(name, '_')]);
      if !parsed.ok then Parsed(-1, false) else Parsed(ToInt32(parsed.value), true)
    else
      var parsed := Atoi(name);
      if !parsed.ok then Parsed(-1, false) else Parsed(ToInt32(parsed.value), true)
  }

  /** Everything after the first `_` is ignored. */
  lemma ConvertIgnoresSuffix(id: string, suffix: string)
    requires '_' !in id
    ensures Convert(id + "_" + suffix) == Convert(id)
  {
    var name := id + "_" + suffix;
    assert name[..|id|] == id && name[|id|] == '_';
    var i := IndexOf(name, '_');
    assert i == |id|;
  }

  /** Round trip: the decimal rendering of any id in the int32 range, bare or followed by
      `_` and any suffix, converts back to that id. */
  lemma ConvertRoundTrip(n: nat, suffix: string)
    requires n < TwoTo31
    ensures Convert(NatToString(n)) == Parsed(n, true)
    ensures Convert(NatToString(n) + "_" + suffix) == Parsed(n, true)
  {
    var s := NatToString(n);
    AtoiOfNatToString(n);
    assert forall i :: 0 <= i < |s| ==> s[i] != '_';
    ConvertIgnoresSuffix(s, suffix);
  }
}
