/** `is_strong_password`: a password is accepted when it has at least eight characters and
    contains an ASCII capital, an ASCII small letter and a decimal digit. The checks run in that
    order and the first that fails names the answer. */
module Auth {
  const MinLength := 8
  const TooShort := "A senha deve ter pelo menos 8 caracteres."
  const NoUpper := "A senha deve conter pelo menos uma letra maiúscula."
  const NoLower := "A senha deve conter pelo menos uma letra minúscula."
  const NoDigit := "A senha deve conter pelo menos um número."
  const Accepted := "Senha válida."

  /** Some character of `s` lies in the range `lo`..`hi`. */
  ghost predicate HasCharIn(s: string, lo: char, hi: char)
  {
    exists i :: 0 <= i < |s| && lo <= s[i] <= hi
  }

  /** `re.search(r"[lo-hi]", s) is not None`: scans the text from the end. */
  function Search(s: string, lo: char, hi: char): (found: bool)
    ensures found <==> HasCharIn(s, lo, hi)
  {
    if |s| == 0 then false
    else
      var last := s[|s| - 1];
      var rest := Search(s[..|s| - 1], lo, hi);
      assert HasCharIn(s, lo, hi) ==> HasCharIn(s[..|s| - 1], lo, hi) || lo <= last <= hi;
      rest || (lo <= last && last <= hi)
  }

  /** All four requirements hold. */
  ghost predicate Strong(password: string)
  {
    |password| >= MinLength && HasCharIn(password, 'A', 'Z') &&
    HasCharIn(password, 'a', 'z') && HasCharIn(password, '0', '9')
  }

  function IsStrongPassword(password: string): (r: (bool, string))
    ensures r.0 <==> Strong(password)
    ensures r.0 ==> r.1 == Accepted
    ensures |password| < MinLength ==> r == (false, TooShort)
    ensures |password| >= MinLength && !HasCharIn(password, 'A', 'Z') ==> r == (false, NoUpper)
    ensures (|password| >= MinLength && HasCharIn(password, 'A', 'Z') && !HasCharIn(password, 'a', 'z')) ==>
      r == (false, NoLower)
    ensures (|password| >= MinLength && HasCharIn(password, 'A', 'Z') && HasCharIn(password, 'a', 'z') &&
      !HasCharIn(password, '0', '9')) ==> r == (false, NoDigit)
  {
    if |password| < MinLength then (false, TooShort)
    else if !Search(password, 'A', 'Z') then (false, NoUpper)
    else if !Search(password, 'a', 'z') then (false, NoLower)
    else if !Search(password, '0', '9') then (false, NoDigit)
    else (true, Accepted)
  }

  /** Appending characters never makes an accepted password rejected. */
  lemma StrongExtends(password: string, more: string)
    requires IsStrongPassword(password).0
    ensures IsStrongPassword(password + more).0
  {
    var p := password + more;
    forall lo: char, hi: char | HasCharIn(password, lo, hi)
      ensures HasCharIn(p, lo, hi)
    {
      var i :| 0 <= i < |password| && lo <= password[i] <= hi;
      assert p[i] == password[i];
    }
  }

  /** Only ASCII letters count: capitals with accents do not satisfy the capital-letter rule. */
  lemma AccentedCapitalsDoNotCount()
    ensures IsStrongPassword("ÁÉÍÓÚabc1") == (false, NoUpper)
  {
    var s := "ÁÉÍÓÚabc1";
    assert forall i :: 0 <= i < |s| ==> !('A' <= s[i] <= 'Z');
  }
}
