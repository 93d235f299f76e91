/**
 * The two overlay names a load uses: the "common" configuration set and the
 * active profile (`common()` and `confSetName()`). Each takes an override
 * looked up in the system properties when it is not blank, and otherwise a
 * default. The lookups and the runtime mode are inputs here.
 */
module ProfileResolver {
  import opened ConfMaps

  /** Java's `String.trim()` removes every character up to and including the space. */
  predicate IsTrimmed(c: char) {
    c <= ' '
  }

  /** `S.blank`: null, empty, or nothing but characters that `trim()` removes. */
  predicate IsBlank(s: Option<string>) {
    s.None? || forall i :: 0 <= i < |s.value| ==> IsTrimmed(s.value[i])
  }

  /** The default name of the common configuration set. */
  const DefaultCommon: string := "common"

  /** `common()`: the override when it is not blank, `"common"` otherwise. */
  function Common(commonTag: Option<string>): (r: string)
    ensures !IsBlank(Some(r))
    ensures !IsBlank(commonTag) ==> r == commonTag.value
    ensures IsBlank(commonTag) ==> r == DefaultCommon
  {
    if IsBlank(commonTag) then
      assert !IsTrimmed(DefaultCommon[0]);
      DefaultCommon
    else commonTag.value
  }

  /** Lower-case one character; only the ASCII letters are mapped. */
  function LowerChar(c: char): (d: char)
    ensures 'A' <= c <= 'Z' ==> 'a' <= d <= 'z'
    ensures 'A' <= c <= 'Z' ==> d as int == c as int - 'A' as int + 'a' as int
    ensures !('A' <= c <= 'Z') ==> d == c
  {
    if 'A' <= c <= 'Z' then (c as int - 'A' as int + 'a' as int) as char else c
  }

  /** `String.toLowerCase()`, for ASCII text. */
  function ToLower(s: string): (r: string)
    ensures |r| == |s|
    ensures forall i :: 0 <= i < |s| ==> r[i] == LowerChar(s[i])
  {
    seq(|s|, i requires 0 <= i < |s| => LowerChar(s[i]))
  }

  predicate HasNoUpperCase(s: string) {
    forall i :: 0 <= i < |s| ==> !('A' <= s[i] <= 'Z')
  }

  /** Lower-casing leaves no upper-case letter and changes nothing a second time. */
  lemma ToLowerIdempotent(s: string)
    ensures HasNoUpperCase(ToLower(s))
    ensures ToLower(ToLower(s)) == ToLower(s)
  {
    var t := ToLower(s);
    forall i | 0 <= i < |s| ensures !('A' <= t[i] <= 'Z') && LowerChar(t[i]) == t[i] {
      var c := s[i];
      if 'A' <= c <= 'Z' {
        assert 'a' <= t[i] <= 'z';
      }
    }
  }

  /**
   * `confSetName()`: the profile override when it is not blank, otherwise
   * the lower-cased name of the runtime mode.
   */
  function ConfSetName(profileTag: Option<string>, modeName: string): (r: string)
    ensures !IsBlank(profileTag) ==> r == profileTag.value
    ensures IsBlank(profileTag) ==> |r| == |modeName| && HasNoUpperCase(r)
    ensures IsBlank(profileTag) ==> forall i :: 0 <= i < |r| ==> r[i] == LowerChar(modeName[i])
  {
    if IsBlank(profileTag) then
      ToLowerIdempotent(modeName);
      ToLower(modeName)
    else profileTag.value
  }
}
