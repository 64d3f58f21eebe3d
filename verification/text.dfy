/** The few string operations the controllers use, on ASCII text. */
module Text {

  predicate IsUpperAscii(c: char) {
    'A' <= c <= 'Z'
  }

  /** Lower-cases one ASCII letter and leaves every other character alone. */
  function LowerChar(c: char): char {
    if IsUpperAscii(c) then (c as int + 32) as char else c
  }

  /** Python's `str.lower()`, restricted to ASCII letters. */
  function Lower(s: string): (r: string)
    ensures |r| == |s|
    ensures forall i :: 0 <= i < |s| ==> r[i] == LowerChar(s[i])
    ensures forall i :: 0 <= i < |r| ==> !IsUpperAscii(r[i])
  {
    if s == [] then [] else [LowerChar(s[0])] + Lower(s[1..])
  }

  /** Lowering distributes over concatenation. */
  lemma LowerAppend(a: string, b: string)
    ensures Lower(a + b) == Lower(a) + Lower(b)
  {
    assert |Lower(a + b)| == |Lower(a) + Lower(b)|;
    forall i | 0 <= i < |a + b|
      ensures Lower(a + b)[i] == (Lower(a) + Lower(b))[i]
    {
      if i < |a| {
        assert (a + b)[i] == a[i];
      } else {
        assert (a + b)[i] == b[i - |a|];
      }
    }
  }

  /** Python's `pat in text`: `pat` occurs somewhere in `text` (the empty string occurs everywhere). */
  predicate Contains(text: string, pat: string) {
    pat <= text || (text != [] && Contains(text[1..], pat))
  }

  /** `Contains` holds exactly when `pat` is found at some position of `text`. */
  lemma {:induction false} ContainsAt(text: string, pat: string)
    ensures Contains(text, pat) <==> exists i :: 0 <= i <= |text| && pat <= text[i..]
  {
    if text != [] {
      ContainsAt(text[1..], pat);
      if !(pat <= text) && Contains(text[1..], pat) {
        var i :| 0 <= i <= |text[1..]| && pat <= text[1..][i..];
        assert text[1..][i..] == text[i + 1..];
      }
      if exists i :: 0 <= i <= |text| && pat <= text[i..] {
        var i :| 0 <= i <= |text| && pat <= text[i..];
        if i > 0 {
          assert text[i..] == text[1..][i - 1..];
        }
      }
    }
  }

  /** A string occurs in any text built around it. */
  lemma ContainsInfix(a: string, pat: string, b: string)
    ensures Contains(a + pat + b, pat)
  {
    var t := a + pat + b;
    assert t[|a|..][..|pat|] == pat;
    assert pat <= t[|a|..];
    ContainsAt(t, pat);
  }
}
