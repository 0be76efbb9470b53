/** The JavaScript value semantics the event service relies on: properties that may be
    `undefined`, truthiness of strings, string coercion by `+`, `String.prototype.indexOf`
    and `Number.prototype.toString` on run numbers. */
module Js {

  /** A property that may be `undefined`. Equality of two values of this type mirrors `===`:
      `undefined === undefined` holds, `undefined === 'x'` does not. */
  datatype Option<+T> = None | Some(value: T)

  /** Truthiness of a possibly undefined string: `undefined` and `''` are falsy. */
  predicate Truthy(o: Option<string>)
  {
    o.Some? && o.value != ""
  }

  /** String coercion performed by `+`: `undefined` becomes the text "undefined". */
  function ToStr(o: Option<string>): string
  {
    match o
    case None => "undefined"
    case Some(s) => s
  }

  /** `s.indexOf(p) === 0`: `p` is a prefix of `s` (the empty string is a prefix of everything). */
  predicate StartsWith(s: string, p: string)
  {
    p <= s
  }

  /** `sub` occurs in `s` starting at position `i`. */
  ghost predicate OccursAt(s: string, sub: string, i: nat)
  {
    i + |sub| <= |s| && s[i..i + |sub|] == sub
  }

  /** `s.indexOf(sub) !== -1`, computed by scanning `s` from the left. */
  function Contains(s: string, sub: string): bool
    decreases |s|
  {
    if sub <= s then true
    else if s == [] then false
    else Contains(s[1..], sub)
  }

  /** An occurrence past the first position of `s` is an occurrence in its tail. */
  lemma OccursInTail(s: string, sub: string, i: nat)
    requires s != [] && i > 0
    ensures OccursAt(s, sub, i) <==> OccursAt(s[1..], sub, i - 1)
  {
    if i + |sub| <= |s| {
      assert s[1..][i - 1..i - 1 + |sub|] == s[i..i + |sub|];
    }
  }

  /** The scan agrees with the definition of an occurrence: `indexOf` finds `sub` exactly
      when some position of `s` starts a copy of it. */
  lemma {:induction false} ContainsIff(s: string, sub: string)
    ensures Contains(s, sub) <==> exists i: nat :: OccursAt(s, sub, i)
    decreases |s|
  {
    if sub <= s {
      assert OccursAt(s, sub, 0);
    } else if s != [] {
      ContainsIff(s[1..], sub);
      if Contains(s[1..], sub) {
        var i: nat :| OccursAt(s[1..], sub, i);
        OccursInTail(s, sub, i + 1);
      } else {
        forall i: nat | i > 0 ensures !OccursAt(s, sub, i) {
          OccursInTail(s, sub, i);
        }
        assert !OccursAt(s, sub, 0);
      }
    }
  }

  /** A word found in a prefix of `s` is found in `s`: if a taxonomy prefix mentions
      'Variable', so does every type string it is a prefix of. */
  lemma ContainsFromPrefix(p: string, s: string, sub: string)
    requires StartsWith(s, p) && Contains(p, sub)
    ensures Contains(s, sub)
  {
    ContainsIff(p, sub);
    ContainsIff(s, sub);
    var i: nat :| OccursAt(p, sub, i);
    assert s[i..i + |sub|] == p[i..i + |sub|];
    assert OccursAt(s, sub, i);
  }

  /** The character of a decimal digit. */
  function DigitChar(d: nat): char
    requires d < 10
  {
    (48 + d) as char
  }

  /** `n.toString()` for a non-negative integer: its decimal digits, most significant first,
      without leading zeros. */
  function NatToString(n: nat): (s: string)
    ensures |s| >= 1
    decreases n
  {
    if n < 10 then [DigitChar(n)] else NatToString(n / 10) + [DigitChar(n % 10)]
  }

  /** Two run numbers print the same exactly when they are equal, so comparing the route's
      `number` with `workflow_run_num.toString()` compares run numbers. */
  lemma {:induction false} NatToStringInjective(a: nat, b: nat)
    ensures NatToString(a) == NatToString(b) <==> a == b
    decreases a
  {
    if NatToString(a) == NatToString(b) {
      var sa, sb := NatToString(a), NatToString(b);
      if a < 10 && b < 10 {
        assert DigitChar(a) == sa[0] == sb[0] == DigitChar(b);
      } else if a >= 10 && b >= 10 {
        assert DigitChar(a % 10) == sa[|sa| - 1] == sb[|sb| - 1] == DigitChar(b % 10);
        assert NatToString(a / 10) == sa[..|sa| - 1] == sb[..|sb| - 1] == NatToString(b / 10);
        NatToStringInjective(a / 10, b / 10);
      }
    }
  }
}
