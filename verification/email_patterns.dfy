/** The two e-mail address patterns of the code base, each written as the
    set of strings its regular expression accepts: the contact endpoint's
    anchored `^[^\s@]+@[^\s@]+\.[^\s@]+$` and the personal-data form's
    unanchored `\S+@\S+\.\S+`. */
module EmailPatterns {
  import opened JsStrings

  /** Every character matches `[^\s@]`. */
  predicate Plain(t: string) {
    forall i | 0 <= i < |t| :: !IsSpace(t[i]) && t[i] != '@'
  }

  /** Every character matches `\S`. */
  predicate NoSpace(t: string) {
    forall j | 0 <= j < |t| :: !IsSpace(t[j])
  }

  /** `^[^\s@]+@[^\s@]+\.[^\s@]+$`: a non-empty plain local part, '@', a
      non-empty plain run, '.', and a non-empty plain run to the end. The
      positions of the '@' and of the '.' are the witnesses. */
  predicate ContactEmailMatches(s: string) {
    exists i, k | 0 <= i < |s| && 0 <= k < |s| :: ContactMatchAt(s, i, k)
  }

  /** The contact pattern matches `s` with its '@' at `i` and its '.' at `k`. */
  predicate ContactMatchAt(s: string, i: int, k: int) {
    0 < i && i + 1 < k && k + 1 < |s| &&
    s[i] == '@' && s[k] == '.' && Plain(s[..i]) && Plain(s[i + 1..k]) && Plain(s[k + 1..])
  }

  /** `\S+@\S+\.\S+` found anywhere in the string: some '@' has a
      non-whitespace character before it, then at least one non-whitespace
      character, a '.', and a non-whitespace character after the '.'. Longer
      `\S+` runs add nothing to whether a match exists. */
  predicate LooseEmailMatches(s: string) {
    exists i, k | 0 <= i < |s| && 0 <= k < |s| :: LooseMatchAt(s, i, k)
  }

  /** The form's pattern matches around the '@' at `i` and the '.' at `k`. */
  predicate LooseMatchAt(s: string, i: int, k: int) {
    0 < i && i + 1 < k && k + 1 < |s| &&
    s[i] == '@' && s[k] == '.' && !IsSpace(s[i - 1]) && !IsSpace(s[k + 1]) &&
    NoSpace(s[i + 1..k])
  }

  /** The only '@' of `s` stands at position `i`. */
  predicate OnlyAtSignAt(s: string, i: int) {
    0 <= i < |s| && s[i] == '@' && forall j | 0 <= j < |s| && j != i :: s[j] != '@'
  }

  /** Some '.' stands after position `i + 1` and before the last position. */
  predicate DotInsideAfter(s: string, i: int) {
    0 <= i && exists k | i + 1 < k < |s| - 1 :: s[k] == '.'
  }

  /** No whitespace, exactly one '@', not first, and a '.' strictly inside
      the part after the '@'. */
  predicate ContactEmailShape(s: string) {
    NoSpace(s) && exists i | 0 < i < |s| :: OnlyAtSignAt(s, i) && DotInsideAfter(s, i)
  }

  /** The contact pattern accepts exactly the strings of ContactEmailShape. */
  lemma ContactEmailMatchesShape(s: string)
    ensures ContactEmailMatches(s) <==> ContactEmailShape(s)
  {
    if ContactEmailMatches(s) {
      var i, k :| ContactMatchAt(s, i, k);
      assert ContactMatchAt(s, i, k);
      forall j | 0 <= j < |s| && j != i ensures !IsSpace(s[j]) && s[j] != '@' {
        if j < i {
          assert s[j] == s[..i][j];
        } else if j < k {
          assert s[j] == s[i + 1..k][j - i - 1];
        } else if j > k {
          assert s[j] == s[k + 1..][j - k - 1];
        }
      }
      assert !IsSpace(s[i]);
      assert OnlyAtSignAt(s, i) && DotInsideAfter(s, i);
    }
    if ContactEmailShape(s) {
      var i :| 0 < i < |s| && OnlyAtSignAt(s, i) && DotInsideAfter(s, i);
      var k :| i + 1 < k < |s| - 1 && s[k] == '.';
      assert Plain(s[..i]);
      assert Plain(s[i + 1..k]);
      assert Plain(s[k + 1..]);
      assert ContactMatchAt(s, i, k);
    }
  }

  /** Whatever the contact endpoint accepts, the personal-data form accepts
      too. */
  lemma ContactImpliesLoose(s: string)
    requires ContactEmailMatches(s)
    ensures LooseEmailMatches(s)
  {
    var i, k :| ContactMatchAt(s, i, k);
    assert ContactMatchAt(s, i, k);
    var local, middle, top := s[..i], s[i + 1..k], s[k + 1..];
    assert s[i - 1] == local[i - 1] && s[k + 1] == top[0];
    assert forall j | 0 <= j < |middle| :: !IsSpace(middle[j]);
    assert LooseMatchAt(s, i, k);
  }

  /** The converse fails: a second '@' passes the form's pattern and is
      refused by the contact endpoint. */
  lemma LooseAcceptsTwoAts()
    ensures LooseEmailMatches("a@b@c.d") && !ContactEmailMatches("a@b@c.d")
  {
    var s := "a@b@c.d";
    assert s[1] == '@' && s[5] == '.' && !IsSpace(s[0]) && !IsSpace(s[6]);
    assert s[2..5] == "b@c";
    assert LooseMatchAt(s, 1, 5);
    ContactEmailMatchesShape(s);
    assert s[3] == '@';
  }
}
