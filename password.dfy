/** The desktop app's temporary-password generator: one character from each of the
    four classes, four more from their union, then a swap shuffle of the eight
    positions. Every draw of the random generator is an arbitrary in-range index. */
module Password {
  const Upper := "ABCDEFGHIJKLMNOPQRSTUVWXYZ"
  const Lower := "abcdefghijklmnopqrstuvwxyz"
  const Digits := "0123456789"
  const Specials := "!@#$%^&*()_+-=[]{}|;:,.<>?"
  const AllChars := Upper + Lower + Digits + Specials

  /** The length of every generated password: four class picks and four extras. */
  const Length: nat := 8

  /** Every character comes from the union of the four classes. */
  predicate FromAlphabet(p: string)
  {
    forall i :: 0 <= i < |p| ==> p[i] in AllChars
  }

  /** Each of the four classes occurs somewhere in `p`. */
  predicate CoversClasses(p: string)
  {
    (exists i :: 0 <= i < |p| && p[i] in Upper) &&
    (exists i :: 0 <= i < |p| && p[i] in Lower) &&
    (exists i :: 0 <= i < |p| && p[i] in Digits) &&
    (exists i :: 0 <= i < |p| && p[i] in Specials)
  }

  /** A password as the generator promises it. */
  predicate Acceptable(p: string)
  {
    |p| == Length && FromAlphabet(p) && CoversClasses(p)
  }

  /** `chars[generator.bounded(chars.length())]`: any character of `chars`. */
  method Pick(chars: string) returns (c: char)
    requires |chars| > 0
    ensures c in chars
  {
    var k :| 0 <= k < |chars|;
    c := chars[k];
  }

  /** The password before the shuffle: upper, lower, digit and special at positions
      0 to 3, then four characters of the whole alphabet. */
  method Draft() returns (password: string)
    ensures |password| == Length && FromAlphabet(password)
    ensures password[0] in Upper && password[1] in Lower
    ensures password[2] in Digits && password[3] in Specials
  {
    var c := Pick(Upper);
    password := [c];
    c := Pick(Lower);
    password := password + [c];
    c := Pick(Digits);
    password := password + [c];
    c := Pick(Specials);
    password := password + [c];
    for i := 0 to 4
      invariant |password| == 4 + i
      invariant password[0] in Upper && password[1] in Lower
      invariant password[2] in Digits && password[3] in Specials
      invariant forall k :: 4 <= k < |password| ==> password[k] in AllChars
    {
      c := Pick(AllChars);
      password := password + [c];
    }
    ClassesInAlphabet(password);
  }

  /** The four classes are parts of the alphabet. */
  lemma ClassesInAlphabet(p: string)
    requires |p| >= 4
    requires p[0] in Upper && p[1] in Lower && p[2] in Digits && p[3] in Specials
    requires forall k :: 4 <= k < |p| ==> p[k] in AllChars
    ensures FromAlphabet(p)
  {
    forall i | 0 <= i < |p|
      ensures p[i] in AllChars
    {
      if i < 4 {
        InAlphabet(p[i]);
      }
    }
  }

  /** A character of any class is a character of the alphabet. */
  lemma InAlphabet(c: char)
    requires c in Upper || c in Lower || c in Digits || c in Specials
    ensures c in AllChars
  {
  }

  /** The shuffle, in place: position `i` is swapped with an arbitrary position `j`
      of the password, for each `i` in turn. */
  method Shuffle(a: array<char>)
    modifies a
    ensures multiset(a[..]) == multiset(old(a[..]))
  {
    for i := 0 to a.Length
      invariant multiset(a[..]) == multiset(old(a[..]))
    {
      var j :| 0 <= j < a.Length;
      a[i], a[j] := a[j], a[i];
    }
  }

  /** A reordering keeps the alphabet and the class coverage. */
  lemma {:induction false} ReorderKeepsAcceptable(p: string, q: string)
    requires Acceptable(p) && multiset(q) == multiset(p)
    ensures Acceptable(q)
  {
    assert |q| == |multiset(q)| == |multiset(p)| == |p|;
    forall i | 0 <= i < |q|
      ensures q[i] in AllChars
    {
      assert q[i] in multiset(q);
      var k :| 0 <= k < |p| && p[k] == q[i];
    }
    ClassSurvives(p, q, Upper);
    ClassSurvives(p, q, Lower);
    ClassSurvives(p, q, Digits);
    ClassSurvives(p, q, Specials);
  }

  /** A character class present in `p` is present in any reordering of `p`. */
  lemma ClassSurvives(p: string, q: string, chars: string)
    requires multiset(q) == multiset(p)
    requires exists i :: 0 <= i < |p| && p[i] in chars
    ensures exists i :: 0 <= i < |q| && q[i] in chars
  {
    var i :| 0 <= i < |p| && p[i] in chars;
    assert p[i] in multiset(p);
    var j :| 0 <= j < |q| && q[j] == p[i];
  }

  /** `generateRandomPassword`: the draft, shuffled. */
  method GenerateRandomPassword() returns (password: string)
    ensures Acceptable(password)
  {
    var draft := Draft();
    assert draft[0] in Upper && draft[1] in Lower && draft[2] in Digits && draft[3] in Specials;
    assert CoversClasses(draft);
    var a := new char[|draft|](i requires 0 <= i < |draft| => draft[i]);
    assert a[..] == draft;
    Shuffle(a);
    password := a[..];
    ReorderKeepsAcceptable(draft, password);
  }
}
