/** The directory key builder: createdirname (sortdate.py:74-78). */
module DirName {
  import opened Results

  /** Python's s[i:j] for non-negative bounds: both bounds are clamped to |s|. */
  function Slice(s: string, i: nat, j: nat): (r: string)
    ensures i <= j <= |s| ==> r == s[i..j]
    ensures |s| <= i || j <= i ==> r == ""
    ensures i < |s| < j ==> r == s[i..]
  {
    var lo := if i < |s| then i else |s|;
    var hi := if j < |s| then j else |s|;
    if lo <= hi then s[lo..hi] else ""
  }

  /** The eight-character date part: stringdate[:4] + stringdate[5:7] + stringdate[8:10]. */
  function DateKey(date: string): (r: string)
    ensures |date| >= 10 ==> r == date[..4] + date[5..7] + date[8..10]
    ensures |r| <= 8
    ensures |r| == 8 <==> |date| >= 10
  {
    Slice(date, 0, 4) + Slice(date, 5, 7) + Slice(date, 8, 10)
  }

  /**
   * createdirname(stringdate, stringgps, separator, destdir): no key for an
   * empty date; otherwise destdir, '/', the date part, the separator and the
   * place, the separator being kept when the place is empty.
   */
  function CreateDirName(date: string, place: string, separator: string, destDir: string): (r: Option<string>)
    ensures r.None? <==> date == ""
    ensures r.Some? ==> |r.value| == |destDir| + 1 + |DateKey(date)| + |separator| + |place|
    ensures r.Some? ==> r.value[..|destDir| + 1] == destDir + "/"
    ensures r.Some? ==> r.value[|r.value| - |separator| - |place|..] == separator + place
    ensures r.Some? ==> r.value[|destDir| + 1..|r.value| - |separator| - |place|] == DateKey(date)
    ensures r.Some? && |date| >= 10 ==>
      r.value == destDir + "/" + date[..4] + date[5..7] + date[8..10] + separator + place
  {
    if date != "" then Some(destDir + "/" + DateKey(date) + separator + place) else None
  }

  /** For one date, root and separator, different places give different keys. */
  lemma {:induction false} CreateDirNameInjective(date: string, place1: string, place2: string,
                                                  separator: string, destDir: string)
    requires date != ""
    requires CreateDirName(date, place1, separator, destDir) == CreateDirName(date, place2, separator, destDir)
    ensures place1 == place2
  {
    var prefix := destDir + "/" + DateKey(date) + separator;
    var k1 := CreateDirName(date, place1, separator, destDir).value;
    var k2 := CreateDirName(date, place2, separator, destDir).value;
    assert k1 == prefix + place1;
    assert k2 == prefix + place2;
    assert place1 == k1[|prefix|..];
    assert place2 == k2[|prefix|..];
  }
}
