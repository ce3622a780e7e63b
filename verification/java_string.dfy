/** Java's `String.trim()` and the "blank" test built on it
    (`s.trim().isEmpty()`).

    `trim()` scans forward from the start past every char whose code is at
    most U+0020, then backward from the end the same way, and keeps what lies
    between. A string is blank exactly when nothing is kept. */
module JavaString {

  /** The chars `trim()` removes: every code point up to and including the space. */
  predicate IsTrimmable(c: char) {
    c <= ' '
  }

  /** The first loop of `trim()`: advance `st` past trimmable chars. */
  function SkipLeading(s: string, st: nat): (r: nat)
    requires st <= |s|
    ensures st <= r <= |s|
    ensures forall i | st <= i < r :: IsTrimmable(s[i])
    ensures r < |s| ==> !IsTrimmable(s[r])
    decreases |s| - st
  {
    if st < |s| && IsTrimmable(s[st]) then SkipLeading(s, st + 1) else st
  }

  /** The second loop of `trim()`: pull `len` back past trimmable chars,
      never below `st`. */
  function SkipTrailing(s: string, st: nat, len: nat): (r: nat)
    requires st <= len <= |s|
    ensures st <= r <= len
    ensures forall i | r <= i < len :: IsTrimmable(s[i])
    ensures st < r ==> !IsTrimmable(s[r - 1])
    decreases len
  {
    if st < len && IsTrimmable(s[len - 1]) then SkipTrailing(s, st, len - 1) else len
  }

  /** `String.trim()`: the part of `s` between its leading and trailing
      trimmable chars. */
  function Trim(s: string): (r: string)
    ensures |r| <= |s|
    ensures |r| > 0 ==> !IsTrimmable(r[0]) && !IsTrimmable(r[|r| - 1])
    ensures |r| == 0 <==> forall i | 0 <= i < |s| :: IsTrimmable(s[i])
    ensures exists st, len | 0 <= st <= len <= |s| ::
              && r == s[st..len]
              && (forall i | 0 <= i < st :: IsTrimmable(s[i]))
              && (forall i | len <= i < |s| :: IsTrimmable(s[i]))
  {
    var st := SkipLeading(s, 0);
    var len := SkipTrailing(s, st, |s|);
    s[st..len]
  }

  /** `s.trim().isEmpty()`. */
  function IsBlank(s: string): (blank: bool)
    ensures blank <==> forall i | 0 <= i < |s| :: IsTrimmable(s[i])
  {
    |Trim(s)| == 0
  }

  /** Trimming an already trimmed string changes nothing. */
  lemma TrimIdempotent(s: string)
    ensures Trim(Trim(s)) == Trim(s)
  {
    var t := Trim(s);
    if |t| > 0 {
      assert SkipLeading(t, 0) == 0;
      assert SkipTrailing(t, 0, |t|) == |t|;
      assert t[0..|t|] == t;
    }
  }
}
