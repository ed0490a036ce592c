/**
 * The two string operations the application relies on:
 * `String.prototype.toLowerCase` (restricted to ASCII letters) and
 * `String.prototype.includes` (substring test).
 */
module Text {

  /** Lower-cases an ASCII capital; every other character is left alone. */
  function LowerChar(c: char): (r: char)
    ensures 'A' <= c <= 'Z' ==> 'a' <= r <= 'z' && r as int == c as int + 32
    ensures !('A' <= c <= 'Z') ==> r == c
    ensures !('A' <= r <= 'Z')
  {
    if 'A' <= c <= 'Z' then (c as int - 'A' as int + 'a' as int) as char else c
  }

  /** `s.toLowerCase()`, character by character. */
  function ToLower(s: string): (r: string)
    ensures |r| == |s|
    ensures forall i :: 0 <= i < |s| ==> r[i] == LowerChar(s[i])
  {
    if s == [] then [] else [LowerChar(s[0])] + ToLower(s[1..])
  }

  /** Lower-casing twice is lower-casing once. */
  lemma ToLowerIdempotent(s: string)
    ensures ToLower(ToLower(s)) == ToLower(s)
  {
    var once := ToLower(s);
    var twice := ToLower(once);
    assert |twice| == |once|;
    forall i | 0 <= i < |once|
      ensures twice[i] == once[i]
    {
      assert once[i] == LowerChar(s[i]);
    }
  }

  /** Lower-casing works character by character, so it distributes over concatenation. */
  lemma ToLowerAppend(s: string, t: string)
    ensures ToLower(s + t) == ToLower(s) + ToLower(t)
  {
    var st := s + t;
    assert forall i :: 0 <= i < |st| ==> ToLower(st)[i] == (ToLower(s) + ToLower(t))[i] by {
      forall i | 0 <= i < |st|
        ensures ToLower(st)[i] == (ToLower(s) + ToLower(t))[i]
      {
        if i < |s| { assert st[i] == s[i]; } else { assert st[i] == t[i - |s|]; }
      }
    }
  }

  /** `sub` occurs in `s` starting at position `i`. */
  ghost predicate OccursAt(s: string, sub: string, i: int)
  {
    0 <= i && i + |sub| <= |s| && s[i..i + |sub|] == sub
  }

  /** `s.includes(sub)`: whether `sub` occurs at some position of `s`, tried from the left. */
  function Contains(s: string, sub: string): bool
  {
    if |sub| > |s| then false
    else if s[..|sub|] == sub then true
    else Contains(s[1..], sub)
  }

  /** `Contains` holds exactly when the text occurs at some position; the empty string occurs everywhere. */
  lemma {:induction false} ContainsMeansOccurs(s: string, sub: string)
    ensures Contains(s, sub) <==> exists i :: OccursAt(s, sub, i)
  {
    if |sub| > |s| {
    } else if s[..|sub|] == sub {
      assert OccursAt(s, sub, 0);
    } else {
      ContainsMeansOccurs(s[1..], sub);
      if Contains(s[1..], sub) {
        var j :| OccursAt(s[1..], sub, j);
        assert s[1..][j..j + |sub|] == s[j + 1..j + 1 + |sub|];
        assert OccursAt(s, sub, j + 1);
      }
      if exists i :: OccursAt(s, sub, i) {
        var i :| OccursAt(s, sub, i);
        assert i != 0;
        assert s[1..][i - 1..i - 1 + |sub|] == s[i..i + |sub|];
        assert OccursAt(s[1..], sub, i - 1);
      }
    }
  }

  /** Text that occurs in a string still occurs once more text is added on either side. */
  lemma ContainsInLonger(s: string, sub: string, before: string, after: string)
    requires Contains(s, sub)
    ensures Contains(before + s + after, sub)
  {
    ContainsMeansOccurs(s, sub);
    var i :| OccursAt(s, sub, i);
    var t := before + s + after;
    assert t[|before| + i..|before| + i + |sub|] == s[i..i + |sub|];
    assert OccursAt(t, sub, |before| + i);
    ContainsMeansOccurs(t, sub);
  }
}
