/** The XML token stream the feed decoders read, and folding a token machine over it. */
module Xml {
  import opened Collections
  import opened Domain

  /** What the lexer delivers: local element and attribute names, unescaped text. */
  datatype Token = Start(name: string, attrs: map<string, string>) | Text(text: string) | End(name: string)

  /** Text parsing, as opaque functions. */
  datatype Reader = Reader(
    trim: string -> string,
    i32: string -> Option<I32>,
    f64: string -> Option<Num>,
    speed: string -> Option<real>,
    instant: string -> Option<Instant>)

  /** A leaf element: a name, attributes and text. */
  datatype Leaf = Leaf(name: string, attrs: map<string, string>, text: string)

  function LeafTokens(l: Leaf): seq<Token> {
    [Start(l.name, l.attrs), Text(l.text), Token.End(l.name)]
  }

  function LeavesTokens(ls: seq<Leaf>): seq<Token> {
    if ls == [] then [] else LeavesTokens(ls[..|ls| - 1]) + LeafTokens(ls[|ls| - 1])
  }

  /** Run a token machine over a stream. */
  function Fold<S>(step: (S, Token) -> S, s: S, ts: seq<Token>): S {
    if ts == [] then s else step(Fold(step, s, ts[..|ts| - 1]), ts[|ts| - 1])
  }

  lemma {:induction false} FoldAppend<S>(step: (S, Token) -> S, s: S, a: seq<Token>, b: seq<Token>)
    ensures Fold(step, s, a + b) == Fold(step, Fold(step, s, a), b)
  {
    if b == [] {
      assert a + b == a;
    } else {
      assert (a + b)[..|a + b| - 1] == a + b[..|b| - 1];
      FoldAppend(step, s, a, b[..|b| - 1]);
    }
  }

  lemma FoldOne<S>(step: (S, Token) -> S, s: S, t: Token)
    ensures Fold(step, s, [t]) == step(s, t)
  {
    assert [t][..0] == [];
  }

  lemma FoldLeaf<S>(step: (S, Token) -> S, s: S, l: Leaf)
    ensures Fold(step, s, LeafTokens(l)) == step(step(step(s, Start(l.name, l.attrs)), Text(l.text)), Token.End(l.name))
  {
    var a, b, c := Start(l.name, l.attrs), Text(l.text), Token.End(l.name);
    assert [a, b, c][..2] == [a, b] && [a, b][..1] == [a];
    FoldOne(step, s, a);
    assert Fold(step, s, [a, b]) == step(Fold(step, s, [a]), b);
  }
}
