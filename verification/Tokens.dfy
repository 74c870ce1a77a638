/** Tokens: identifiers drawn at random until one is not in use. The draws are taken not to repeat. */
module Tokens {
  import opened Core

  ghost predicate Injective(f: nat -> KeyID) { forall i, j :: f(i) == f(j) ==> i == j }

  ghost function Drawn(draw: nat -> KeyID, n: nat): set<KeyID> { set i | 0 <= i < n :: draw(i) }

  lemma DrawnGrows(used: set<KeyID>, draw: nat -> KeyID, i: nat)
    requires Injective(draw) && draw(i) in used
    ensures used - Drawn(draw, i + 1) < used - Drawn(draw, i)
  {
    assert draw(i) in Drawn(draw, i + 1);
    assert draw(i) !in Drawn(draw, i);
  }

  /** Draws until an identifier is not in use. */
  function FirstFree(used: set<KeyID>, draw: nat -> KeyID, i: nat): (token: KeyID)
    requires Injective(draw)
    ensures token !in used
    decreases used - Drawn(draw, i)
  {
    if draw(i) !in used then draw(i)
    else
      DrawnGrows(used, draw, i);
      FirstFree(used, draw, i + 1)
  }
}
