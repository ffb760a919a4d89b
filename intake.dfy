/**
 * The intake screen's start gate and the user-agent device heuristic.
 */
module Intake {

  /** The three answers of the intake form; "" means not chosen yet. */
  datatype Demographics = Demographics(location: string, age: string, frequency: string)

  /** An anonymous respondent identity (the `uid` of the signed-in user). */
  type UserId = string

  datatype Option<T> = None | Some(value: T)

  /** `isComplete`: every field holds a non-empty (truthy) string. */
  predicate IsComplete(form: Demographics) {
    form.location != "" && form.age != "" && form.frequency != ""
  }

  /** `isAuthReady`: a user is signed in. */
  predicate IsAuthReady(user: Option<UserId>) {
    user.Some?
  }

  /** The start button is enabled, and its click handler calls `onStart`,
      exactly when the form is complete and authentication is ready. */
  predicate CanStart(form: Demographics, user: Option<UserId>) {
    IsComplete(form) && IsAuthReady(user)
  }

  /** The `disabled` attribute of the start button. */
  predicate StartDisabled(form: Demographics, user: Option<UserId>) {
    !IsComplete(form) || !IsAuthReady(user)
  }

  /** The click handler's guard and the `disabled` attribute agree: a click
      starts the survey exactly when the button is enabled, which is exactly
      when all three answers are chosen and a user is signed in. */
  lemma StartGate(form: Demographics, user: Option<UserId>)
    ensures CanStart(form, user) <==> !StartDisabled(form, user)
    ensures CanStart(form, user) <==>
      form.location != "" && form.age != "" && form.frequency != "" && user.Some?
  {
  }

  /** The choices offered by the intake form. */
  const Locations: seq<string> := ["Montclair", "Livingston", "Short Hills"]
  const AgeRanges: seq<string> := ["18-25", "26-35", "36-45", "46-55", "55+"]
  const Frequencies: seq<string> := ["Never", "1-2x Month", "1-2x Week", "3+ Week"]

  /** Picking one offered option for each field completes the form, and the
      gate then opens exactly when a user is signed in. */
  lemma OfferedChoicesComplete(l: nat, a: nat, f: nat, user: Option<UserId>)
    requires l < |Locations| && a < |AgeRanges| && f < |Frequencies|
    ensures IsComplete(Demographics(Locations[l], AgeRanges[a], Frequencies[f]))
    ensures CanStart(Demographics(Locations[l], AgeRanges[a], Frequencies[f]), user) <==> user.Some?
  {
    assert forall k :: 0 <= k < |Locations| ==> |Locations[k]| > 0;
    assert forall k :: 0 <= k < |AgeRanges| ==> |AgeRanges[k]| > 0;
    assert forall k :: 0 <= k < |Frequencies| ==> |Frequencies[k]| > 0;
  }

  datatype Device = Mobile | Desktop

  /** The pattern of the `/Mobi/i` test. */
  const MobilePattern: string := "Mobi"

  /** Case folding of an ignore-case regular expression without the unicode
      flag, restricted to what can matter here: ASCII letters fold to upper
      case, and no other character folds onto an ASCII letter. */
  function Fold(c: char): (r: char)
    ensures !('a' <= r <= 'z')
  {
    if 'a' <= c <= 'z' then (c as int - 32) as char else c
  }

  /** `a` and `b` are equal up to the case of ASCII letters. */
  predicate SameIgnoringCase(a: string, b: string) {
    |a| == |b| && forall k :: 0 <= k < |a| ==> Fold(a[k]) == Fold(b[k])
  }

  /** The pattern matches `ua` at position `i`, ignoring case. */
  ghost predicate MatchesAt(ua: string, i: int) {
    0 <= i && i + |MobilePattern| <= |ua| && SameIgnoringCase(ua[i..i + |MobilePattern|], MobilePattern)
  }

  /** `/Mobi/i.test(ua)`: tries the positions from left to right. */
  function ContainsMobi(ua: string): (r: bool)
    ensures r <==> exists i :: MatchesAt(ua, i)
    decreases |ua|
  {
    var n := |MobilePattern|;
    if |ua| < n then
      false
    else if SameIgnoringCase(ua[..n], MobilePattern) then
      assert MatchesAt(ua, 0);
      true
    else
      var r := ContainsMobi(ua[1..]);
      assert r <==> exists i :: MatchesAt(ua, i) by {
        if r {
          var i :| MatchesAt(ua[1..], i);
          assert ua[1..][i..i + n] == ua[i + 1..i + 1 + n];
          assert MatchesAt(ua, i + 1);
        }
        if exists i :: MatchesAt(ua, i) {
          var i :| MatchesAt(ua, i);
          assert i != 0;
          assert ua[1..][i - 1..i - 1 + n] == ua[i..i + n];
          assert MatchesAt(ua[1..], i - 1);
        }
      }
      r
  }

  /** The `deviceType` field of a submission: "Mobile" exactly when the user
      agent contains "Mobi" in any mixture of case. */
  function DeviceType(userAgent: string): (d: Device)
    ensures d == Mobile <==> exists i :: MatchesAt(userAgent, i)
  {
    if ContainsMobi(userAgent) then Mobile else Desktop
  }

  /** Upper-casing every ASCII letter of the user agent. */
  function FoldAll(ua: string): (r: string)
    ensures |r| == |ua|
    ensures forall k :: 0 <= k < |ua| ==> r[k] == Fold(ua[k])
  {
    if ua == [] then [] else [Fold(ua[0])] + FoldAll(ua[1..])
  }

  /** The classification ignores the case of ASCII letters. */
  lemma DeviceTypeIgnoresCase(userAgent: string)
    ensures DeviceType(FoldAll(userAgent)) == DeviceType(userAgent)
  {
    var up := FoldAll(userAgent);
    var n := |MobilePattern|;
    forall i | 0 <= i && i + n <= |userAgent|
      ensures MatchesAt(up, i) <==> MatchesAt(userAgent, i)
    {
      var a, b := up[i..i + n], userAgent[i..i + n];
      forall k | 0 <= k < n
        ensures Fold(a[k]) == Fold(b[k])
      {
        assert a[k] == up[i + k] == Fold(userAgent[i + k]);
      }
    }
    if DeviceType(up) == Mobile {
      var i :| MatchesAt(up, i);
      assert MatchesAt(userAgent, i);
    }
    if DeviceType(userAgent) == Mobile {
      var i :| MatchesAt(userAgent, i);
      assert MatchesAt(up, i);
    }
  }
}
