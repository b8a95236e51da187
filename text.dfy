/** Values shared by every component: Python's `None`, the exceptions the core can
    raise, and the two string operations the core relies on (`str.lower()` and the
    substring test `x in s`). */
module Text {

  /** Python's `None` or a value. */
  datatype Option<+T> = None | Some(value: T) {
    function GetOr(default: T): T
    {
      match this
      case Some(v) => v
      case None => default
    }
  }

  /** The Python exceptions that escape from the modelled code. */
  datatype PyError =
    | IndexError         // list index out of range
    | KeyError           // missing dictionary key
    | TypeError          // subscripting or iterating `None`, `open(None)`
    | AttributeError     // attribute access on `None`
    | FileNotFoundError  // a knowledge-base CSV that does not exist

  /** The result of a Python call: a returned value, or an exception that propagates. */
  datatype Outcome<+T> = Ok(value: T) | Raised(error: PyError)

  predicate IsUpper(c: char)
  {
    'A' <= c <= 'Z'
  }

  /** `c.lower()` on ASCII letters. */
  function LowerChar(c: char): char
  {
    if IsUpper(c) then (c as int + 32) as char else c
  }

  /** `s.lower()`, restricted to ASCII case mapping. */
  function Lower(s: string): (r: string)
    ensures |r| == |s|
  {
    seq(|s|, i requires 0 <= i < |s| => LowerChar(s[i]))
  }

  /** Lowering leaves a string unchanged exactly when it has no upper-case letter. */
  lemma LowerFixedIff(s: string)
    ensures Lower(s) == s <==> forall i :: 0 <= i < |s| ==> !IsUpper(s[i])
  {
    if Lower(s) == s {
      forall i | 0 <= i < |s| ensures !IsUpper(s[i]) {
        assert Lower(s)[i] == LowerChar(s[i]);
      }
    }
  }

  /** Python's `sub in s` on strings. */
  predicate IsSubstring(sub: string, s: string)
    decreases |s|
  {
    |sub| <= |s| && (s[..|sub|] == sub || IsSubstring(sub, s[1..]))
  }

  /** `sub` occurs in `s` starting at position `i`. */
  predicate OccursAt(sub: string, s: string, i: int)
  {
    0 <= i && i + |sub| <= |s| && s[i..i + |sub|] == sub
  }

  /** `sub in s` holds exactly when `sub` occurs at some position of `s`. */
  lemma {:induction false} IsSubstringIff(sub: string, s: string)
    ensures IsSubstring(sub, s) <==> exists i :: OccursAt(sub, s, i)
    decreases |s|
  {
    if IsSubstring(sub, s) {
      if s[..|sub|] == sub {
        assert OccursAt(sub, s, 0);
      } else {
        IsSubstringIff(sub, s[1..]);
        var i :| OccursAt(sub, s[1..], i);
        assert s[i + 1..i + 1 + |sub|] == s[1..][i..i + |sub|];
        assert OccursAt(sub, s, i + 1);
      }
    }
    if exists i :: OccursAt(sub, s, i) {
      var i :| OccursAt(sub, s, i);
      SubstringAt(sub, s, i);
    }
  }

  /** An occurrence at a known position makes `sub in s` true. */
  lemma {:induction false} SubstringAt(sub: string, s: string, i: nat)
    requires OccursAt(sub, s, i)
    ensures IsSubstring(sub, s)
    decreases i
  {
    if i > 0 {
      assert s[1..][i - 1..i - 1 + |sub|] == s[i..i + |sub|];
      SubstringAt(sub, s[1..], i - 1);
    }
  }
}
