/**
 * The C string comparisons the daemon relies on: `strcmp(a, b) == 0` to match
 * an orientation name and `strncmp(a, b, n) == 0` to check the light unit.
 *
 * A Dafny `string` stands for the bytes a C `char *` points at; C reads them
 * up to the first NUL, and every position past the end of the sequence reads
 * as the terminating NUL.
 */
module CStrings {

  const NUL: char := '\0'

  /** The character C reads first: the terminator once the string is used up. */
  function Head(s: string): char {
    if s == [] then NUL else s[0]
  }

  function Tail(s: string): string {
    if s == [] then [] else s[1..]
  }

  /** The string as C sees it: everything before the first NUL. */
  function CView(s: string): (v: string)
    ensures |v| <= |s|
    ensures NUL !in v
    decreases |s|
  {
    if Head(s) == NUL then [] else [s[0]] + CView(s[1..])
  }

  /** `strcmp(a, b) == 0`: compare character by character until a difference or a terminator. */
  predicate StrCmpZero(a: string, b: string): (r: bool)
    ensures a == b ==> r
    decreases |a|
  {
    Head(a) == Head(b) && (Head(a) == NUL || StrCmpZero(Tail(a), Tail(b)))
  }

  /** `strncmp(a, b, n) == 0`: the same comparison, stopping after `n` characters. */
  predicate StrNCmpZero(a: string, b: string, n: nat): (r: bool)
    ensures a == b ==> r
    decreases n
  {
    n == 0 || (Head(a) == Head(b) && (Head(a) == NUL || StrNCmpZero(Tail(a), Tail(b), n - 1)))
  }

  /** `strcmp` reports equality exactly when the two C strings are equal. */
  lemma {:induction false} StrCmpMeaning(a: string, b: string)
    ensures StrCmpZero(a, b) <==> CView(a) == CView(b)
    decreases |a|
  {
    if Head(a) != NUL && Head(a) == Head(b) {
      StrCmpMeaning(Tail(a), Tail(b));
      assert CView(a) == [a[0]] + CView(Tail(a));
      assert CView(b) == [b[0]] + CView(Tail(b));
      assert CView(a) == CView(b) ==> CView(a)[1..] == CView(b)[1..];
    } else if Head(a) != Head(b) {
      if Head(a) != NUL {
        assert CView(a)[0] == Head(a);
      } else {
        assert CView(b)[0] == Head(b);
      }
    }
  }

  /**
   * `strncmp` with a bound longer than `b`'s C string also compares the
   * terminator, so it reports equality exactly when the C strings are equal:
   * a longer `a` with `b` as a prefix is rejected.
   */
  lemma {:induction false} StrNCmpMeaning(a: string, b: string, n: nat)
    requires n > |CView(b)|
    ensures StrNCmpZero(a, b, n) <==> CView(a) == CView(b)
    decreases n
  {
    if Head(a) != NUL && Head(a) == Head(b) {
      StrNCmpMeaning(Tail(a), Tail(b), n - 1);
      assert CView(a) == [a[0]] + CView(Tail(a));
      assert CView(b) == [b[0]] + CView(Tail(b));
      assert CView(a) == CView(b) ==> CView(a)[1..] == CView(b)[1..];
    } else if Head(a) != Head(b) {
      if Head(a) != NUL {
        assert CView(a)[0] == Head(a);
      } else {
        assert CView(b)[0] == Head(b);
      }
    }
  }

  /** A string without embedded NUL (every D-Bus string) is its own C view. */
  lemma {:induction false} CViewOfPlain(s: string)
    requires NUL !in s
    ensures CView(s) == s
    decreases |s|
  {
    if s != [] {
      assert NUL !in s[1..];
      CViewOfPlain(s[1..]);
    }
  }
}
