/**
 The few JavaScript value rules the service worker relies on: an optional
 (possibly `undefined`) string field, the `||` fallback operator on strings,
 and `String.prototype.includes`.
 */
module JsValues {

  /** A field that may be absent (`undefined`) in a loosely shaped object. */
  datatype Option<+T> = None | Some(value: T)

  /** A string-valued field is truthy when it is present and not the empty string. */
  predicate Truthy(o: Option<string>) {
    o.Some? && o.value != ""
  }

  /**
   `o || d` for a string-valued `o`: an absent field and the empty string are
   both falsy, so both fall back to `d`.
   */
  function Or(o: Option<string>, d: string): (r: string)
    ensures Truthy(o) ==> r == o.value
    ensures !Truthy(o) ==> r == d
    ensures r == "" <==> !Truthy(o) && d == ""
  {
    if Truthy(o) then o.value else d
  }

  /** `t` occurs in `s` starting at index `i`. */
  predicate OccursAt(s: string, t: string, i: nat) {
    i + |t| <= |s| && s[i..i + |t|] == t
  }

  /** `s.includes(t)`: scan `s` from the left for an occurrence of `t`. */
  function Includes(s: string, t: string): bool
    decreases |s|
  {
    if |t| > |s| then false
    else s[..|t|] == t || Includes(s[1..], t)
  }

  /** `Includes` holds exactly when `t` occurs somewhere in `s`. */
  lemma {:induction false} IncludesIffOccurs(s: string, t: string)
    ensures Includes(s, t) <==> exists i: nat :: OccursAt(s, t, i)
    decreases |s|
  {
    if |t| > |s| {
      forall i: nat ensures !OccursAt(s, t, i) { }
    } else if s[..|t|] == t {
      assert OccursAt(s, t, 0);
    } else {
      IncludesIffOccurs(s[1..], t);
      if Includes(s[1..], t) {
        var i: nat :| OccursAt(s[1..], t, i);
        assert s[1..][i..i + |t|] == s[i + 1..i + 1 + |t|];
        assert OccursAt(s, t, i + 1);
      } else {
        forall i: nat | OccursAt(s, t, i) ensures false {
          if i != 0 {
            assert s[1..][i - 1..i - 1 + |t|] == s[i..i + |t|];
            assert OccursAt(s[1..], t, i - 1);
          }
        }
      }
    }
  }
}
