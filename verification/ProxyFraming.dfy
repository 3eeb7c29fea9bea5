/** Cutting a chunked text stream into lines. */
module ProxyFraming {

  /** The complete lines of a text, without their line feeds. */
  function Lines(s: string): seq<string> {
    if s == "" then []
    else if s[0] == '\n' then [""] + Lines(s[1..])
    else
      var rest := Lines(s[1..]);
      if rest == [] then [] else [[s[0]] + rest[0]] + rest[1..]
  }

  /** What follows the last line feed. */
  function Rest(s: string): string {
    if s == "" then ""
    else if '\n' in s[1..] then Rest(s[1..])
    else if s[0] == '\n' then s[1..]
    else s
  }

  lemma {:induction false} LinesEmpty(s: string)
    ensures Lines(s) == [] <==> '\n' !in s
  {
    if s != "" { LinesEmpty(s[1..]); }
  }

  lemma {:induction false} RestPlain(s: string)
    ensures '\n' !in Rest(s)
    ensures '\n' !in s ==> Rest(s) == s
  {
    if s != "" { RestPlain(s[1..]); }
  }

  lemma {:induction false} LinesPlain(s: string, t: string)
    requires '\n' !in s
    ensures Lines(s + ['\n'] + t) == [s] + Lines(t)
  {
    if s == "" {
      assert (s + ['\n'] + t)[1..] == t;
    } else {
      assert (s + ['\n'] + t)[1..] == s[1..] + ['\n'] + t;
      LinesPlain(s[1..], t);
      assert [s[0]] + s[1..] == s;
    }
  }

  /** The complete lines of a nonempty text, from those of its tail. */
  function Prepended(c: char, rest: seq<string>): seq<string> {
    if c == '\n' then [""] + rest
    else if rest == [] then []
    else [[c] + rest[0]] + rest[1..]
  }

  lemma PrependedConcat(c: char, xs: seq<string>, ys: seq<string>)
    requires xs != []
    ensures Prepended(c, xs + ys) == Prepended(c, xs) + ys
  {
    assert (xs + ys)[1..] == xs[1..] + ys;
  }

  lemma LinesUnfold(s: string)
    requires s != ""
    ensures Lines(s) == Prepended(s[0], Lines(s[1..]))
  {}

  lemma {:induction false} LinesConcatFeed(s: string, t: string)
    requires '\n' in s
    ensures Lines(s + t) == Lines(s) + Lines(Rest(s) + t)
    ensures Rest(s + t) == Rest(Rest(s) + t)
  {
    assert (s + t)[1..] == s[1..] + t;
    LinesUnfold(s);
    LinesUnfold(s + t);
    LinesEmpty(s[1..]);
    if '\n' in s[1..] {
      LinesConcatFeed(s[1..], t);
      PrependedConcat(s[0], Lines(s[1..]), Lines(Rest(s) + t));
    } else {
      RestPlain(s[1..]);
      LineFeedFirst(s[1..], t);
      assert s + t == ['\n'] + s[1..] + t;
    }
  }

  /** Text that arrives later completes the line left open and adds further ones. */
  lemma LinesConcat(s: string, t: string)
    ensures Lines(s + t) == Lines(s) + Lines(Rest(s) + t)
    ensures Rest(s + t) == Rest(Rest(s) + t)
  {
    if '\n' in s {
      LinesConcatFeed(s, t);
    } else {
      LinesEmpty(s);
      RestPlain(s);
    }
  }

  lemma LineFeedFirst(s: string, t: string)
    requires '\n' !in s
    ensures Rest(['\n'] + s + t) == Rest(s + t)
  {
    var u := ['\n'] + s + t;
    assert u[1..] == s + t;
    if '\n' !in s + t { RestPlain(s + t); }
  }

  /** The pieces of `todo`, the first of them continuing `piece`. */
  function Pieces(piece: string, todo: string): seq<string>
    decreases todo
  {
    if todo == "" then [piece]
    else if todo[0] == '\n' then [piece] + Pieces("", todo[1..])
    else Pieces(piece + [todo[0]], todo[1..])
  }

  lemma {:induction false} PiecesAreLines(piece: string, todo: string)
    requires '\n' !in piece
    ensures Pieces(piece, todo) == Lines(piece + todo) + [Rest(piece + todo)]
    decreases todo
  {
    if todo == "" {
      assert piece + todo == piece;
      LinesEmpty(piece);
      RestPlain(piece);
    } else if todo[0] == '\n' {
      assert piece + todo == piece + ['\n'] + todo[1..];
      LinesPlain(piece, todo[1..]);
      LineFeedEnds(piece, todo[1..]);
      PiecesAreLines("", todo[1..]);
      assert "" + todo[1..] == todo[1..];
    } else {
      assert piece + todo == piece + [todo[0]] + todo[1..];
      PiecesAreLines(piece + [todo[0]], todo[1..]);
    }
  }

  /** `split` of the source: the pieces between line feeds. */
  method Split(s: string) returns (parts: seq<string>)
    ensures parts == Lines(s) + [Rest(s)]
  {
    parts := [];
    var piece, todo := "", s;
    while todo != ""
      invariant parts + Pieces(piece, todo) == Pieces("", s)
      decreases todo
    {
      if todo[0] == '\n' {
        parts, piece := parts + [piece], "";
      } else {
        piece := piece + [todo[0]];
      }
      todo := todo[1..];
    }
    parts := parts + [piece];
    PiecesAreLines("", s);
    assert "" + s == s;
  }

  lemma {:induction false} LineFeedEnds(s: string, t: string)
    requires '\n' !in s
    ensures Rest(s + ['\n'] + t) == Rest(t)
  {
    if s == "" {
      LineFeedFirst("", t);
      assert ['\n'] + "" + t == s + ['\n'] + t;
      assert "" + t == t;
    } else {
      var u := s + ['\n'] + t;
      assert u[1..] == s[1..] + ['\n'] + t;
      assert '\n' in u[1..] by { assert u[1..][|s| - 1] == '\n'; }
      LineFeedEnds(s[1..], t);
    }
  }

  function Joined(chunks: seq<string>): string {
    if chunks == [] then "" else Joined(chunks[..|chunks| - 1]) + chunks[|chunks| - 1]
  }
}
