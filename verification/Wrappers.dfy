/** Small shared vocabulary: optional values and the ends of sequences. */
module Wrappers {
  datatype Option<+T> = None | Some(value: T)

  function Last<T>(s: seq<T>): T
    requires s != []
  {
    s[|s| - 1]
  }

  function DropLast<T>(s: seq<T>): seq<T>
    requires s != []
  {
    s[..|s| - 1]
  }

  /** The characters with Unicode's White_Space property. */
  predicate IsSpace(c: char) {
    || c in {' ', '\t', '\n', '\r', '\U{0B}', '\U{0C}', '\U{85}', '\U{A0}', '\U{1680}'}
    || c in {'\U{2028}', '\U{2029}', '\U{202F}', '\U{205F}', '\U{3000}'}
    || '\U{2000}' <= c <= '\U{200A}'
  }

  /** What the elements contribute, in order. */
  function Spread<A, B>(part: A -> seq<B>, s: seq<A>): seq<B> {
    if s == [] then [] else Spread(part, DropLast(s)) + part(Last(s))
  }

  lemma {:induction false} SpreadInParts<A, B>(part: A -> seq<B>, a: seq<A>, b: seq<A>)
    ensures Spread(part, a + b) == Spread(part, a) + Spread(part, b)
  {
    if b == [] {
      assert a + b == a;
    } else {
      SpreadInParts(part, a, DropLast(b));
      assert DropLast(a + b) == a + DropLast(b);
    }
  }

  lemma SpreadOne<A, B>(part: A -> seq<B>, s: seq<A>, x: A)
    ensures Spread(part, s + [x]) == Spread(part, s) + part(x)
    ensures Spread(part, [x]) == part(x)
  {
    assert DropLast(s + [x]) == s && DropLast([x]) == [];
  }

  /** At most two elements of which only the last contributes. */
  lemma {:induction false} SpreadFew<A, B>(part: A -> seq<B>, s: seq<A>)
    requires |s| <= 2 && (|s| == 2 ==> part(s[0]) == [])
    ensures Spread(part, s) == if s == [] then [] else part(Last(s))
  {
    if s != [] {
      SpreadFew(part, DropLast(s));
      assert [] + part(Last(s)) == part(Last(s));
    }
  }

  /** Takes a state through a sequence of inputs. */
  function Fold<S, I>(step: (S, I) -> S, start: S, inputs: seq<I>): S {
    if inputs == [] then start else step(Fold(step, start, DropLast(inputs)), Last(inputs))
  }

  lemma {:induction false} FoldInParts<S, I>(step: (S, I) -> S, start: S, a: seq<I>, b: seq<I>)
    ensures Fold(step, start, a + b) == Fold(step, Fold(step, start, a), b)
  {
    if b == [] {
      assert a + b == a;
    } else {
      FoldInParts(step, start, a, DropLast(b));
      assert DropLast(a + b) == a + DropLast(b);
    }
  }
}
