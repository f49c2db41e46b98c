/**
 * Key validation and normalisation shared by the container and the
 * repository: a key is checked against the key pattern, then lowercased.
 */
module KeyProcessing {
  import opened Wrappers
  import opened Errors
  import opened Patterns

  /** `DependencyInjectionContainer::ProcessKey(op, s)` */
  function ProcessKey(op: KeyOp, s: string): (r: Result<string, Error>)
    ensures r.Success? <==> IsKey(s)
    ensures r.Failure? ==> r.error == InvalidKey(op)
    ensures r.Success? ==> |r.value| == |s| && forall i :: 0 <= i < |s| ==> r.value[i] == LowerChar(s[i])
  {
    if IsKey(s) then Success(ToLower(s)) else Failure(InvalidKey(op))
  }

  /** A key as it is stored: it passes validation and is already lower case. */
  predicate IsNormalKey(k: string) {
    IsKey(k) && ToLower(k) == k
  }

  /** Two strings that differ at most in the case of their letters. */
  predicate SameUpToCase(s: string, t: string) {
    |s| == |t| && forall i :: 0 <= i < |s| ==> LowerChar(s[i]) == LowerChar(t[i])
  }

  lemma LowerCharProperties(c: char)
    ensures LowerChar(LowerChar(c)) == LowerChar(c)
    ensures KeyChar(LowerChar(c)) <==> KeyChar(c)
    ensures LowerChar(c) == '\n' <==> c == '\n'
  {
  }

  /** Lowercasing commutes with dropping the newline PCRE's `$` tolerates. */
  lemma SubjectOfLower(s: string)
    ensures Subject(ToLower(s)) == ToLower(Subject(s))
  {
    if |s| > 0 {
      LowerCharProperties(s[|s| - 1]);
      assert ToLower(s)[|s| - 1] == LowerChar(s[|s| - 1]);
    }
  }

  /** Lowercasing neither makes a key valid nor invalid. */
  lemma IsKeyOfLower(s: string)
    ensures IsKey(ToLower(s)) <==> IsKey(s)
  {
    SubjectOfLower(s);
    var b := Subject(s);
    forall i | 0 <= i < |b|
      ensures KeyChar(ToLower(b)[i]) <==> KeyChar(b[i])
    {
      LowerCharProperties(b[i]);
    }
  }

  lemma ToLowerIdempotent(s: string)
    ensures ToLower(ToLower(s)) == ToLower(s)
  {
    forall i | 0 <= i < |s|
      ensures ToLower(ToLower(s))[i] == ToLower(s)[i]
    {
      LowerCharProperties(s[i]);
    }
  }

  /** The result of `ProcessKey` is a normal key, and processing it again returns it unchanged. */
  lemma ProcessKeyIdempotent(op: KeyOp, op': KeyOp, s: string)
    requires ProcessKey(op, s).Success?
    ensures IsNormalKey(ProcessKey(op, s).value)
    ensures ProcessKey(op', ProcessKey(op, s).value) == ProcessKey(op, s)
  {
    IsKeyOfLower(s);
    ToLowerIdempotent(s);
  }

  /** Normal keys are exactly the keys `ProcessKey` maps to themselves. */
  lemma NormalKeyIsFixedPoint(op: KeyOp, k: string)
    ensures IsNormalKey(k) <==> ProcessKey(op, k) == Success(k)
  {
  }

  /** Keys that differ only in case are processed to the same key, or both refused. */
  lemma ProcessKeyCaseInsensitive(op: KeyOp, s: string, t: string)
    requires SameUpToCase(s, t)
    ensures ProcessKey(op, s) == ProcessKey(op, t)
  {
    assert ToLower(s) == ToLower(t);
    IsKeyOfLower(s);
    IsKeyOfLower(t);
  }
}
