/** Query strings built the way the account client builds them: each supplied filter
    becomes `key=value` with the value copied verbatim (no percent-encoding), the pieces
    are joined with `&`, and the query is appended after a `?` only when there is at least
    one piece. `ParsePath` reads such a path back and is the partner of `WithQuery`. */
module Queries {
  import opened Common
  import opened Text

  /** One query parameter: its wire key and its raw value. */
  type Param = (string, string)

  /** An optional filter: the wire key it is sent under and its value, if supplied. */
  type Filter = (string, Option<string>)

  /** `format!("{}={}", key, value)`. */
  function Pair(p: Param): string
  {
    p.0 + "=" + p.1
  }

  /** The rendered pieces, one per parameter, in order. */
  function Render(ps: seq<Param>): seq<string>
  {
    seq(|ps|, i requires 0 <= i < |ps| => Pair(ps[i]))
  }

  function Keys(ps: seq<Param>): seq<string>
  {
    seq(|ps|, i requires 0 <= i < |ps| => ps[i].0)
  }

  function FilterKeys(fs: seq<Filter>): seq<string>
  {
    seq(|fs|, i requires 0 <= i < |fs| => fs[i].0)
  }

  /** One filter as parameters: a single one if supplied, none otherwise. */
  function Optional(f: Filter): seq<Param>
  {
    if f.1.Some? then [(f.0, f.1.value)] else []
  }

  /** The supplied filters as parameters, in the order the filters are considered. */
  function Supplied(fs: seq<Filter>): seq<Param>
    decreases |fs|
  {
    if fs == [] then [] else Supplied(fs[..|fs| - 1]) + Optional(fs[|fs| - 1])
  }

  /** The rendered piece of one filter: `key=value` if supplied, nothing otherwise. */
  function Piece(f: Filter): seq<string>
  {
    if f.1.Some? then [Pair((f.0, f.1.value))] else []
  }

  /** Considering one more filter appends its rendered piece, if it was supplied. */
  lemma RenderSuppliedSnoc(fs: seq<Filter>, f: Filter)
    ensures Render(Supplied(fs + [f])) == Render(Supplied(fs)) + Piece(f)
  {
    assert (fs + [f])[..|fs|] == fs;
    assert Render(Supplied(fs) + Optional(f)) == Render(Supplied(fs)) + Render(Optional(f));
  }

  /** Three filters considered in turn render to their pieces in that order. */
  lemma RenderSuppliedThree(f1: Filter, f2: Filter, f3: Filter)
    ensures Render(Supplied([f1, f2, f3])) == Piece(f1) + Piece(f2) + Piece(f3)
  {
    RenderSuppliedSnoc([], f1);
    RenderSuppliedSnoc([f1], f2);
    RenderSuppliedSnoc([f1, f2], f3);
    assert [] + [f1] == [f1];
    assert [f1] + [f2] == [f1, f2];
    assert [f1, f2] + [f3] == [f1, f2, f3];
  }

  /** Four filters considered in turn render to their pieces in that order. */
  lemma RenderSuppliedFour(f1: Filter, f2: Filter, f3: Filter, f4: Filter)
    ensures Render(Supplied([f1, f2, f3, f4])) == Piece(f1) + Piece(f2) + Piece(f3) + Piece(f4)
  {
    RenderSuppliedThree(f1, f2, f3);
    RenderSuppliedSnoc([f1, f2, f3], f4);
    assert [f1, f2, f3] + [f4] == [f1, f2, f3, f4];
  }

  /** `&key=value` for a supplied filter, nothing otherwise. */
  function AmpPiece(f: Filter): string
  {
    if f.1.Some? then "&" + Pair((f.0, f.1.value)) else ""
  }

  /** Joining a non-empty list extended by a filter's piece appends `&key=value`, or
      nothing when the filter was not supplied. */
  lemma JoinPiece(parts: seq<string>, f: Filter)
    requires |parts| >= 1
    ensures Join(parts + Piece(f), '&') == Join(parts, '&') + AmpPiece(f)
  {
    if f.1.Some? {
      JoinSnoc(parts, Pair((f.0, f.1.value)), '&');
    } else {
      assert parts + Piece(f) == parts;
    }
  }

  /** `query_params.join("&")`. */
  function QueryString(ps: seq<Param>): string
  {
    Join(Render(ps), '&')
  }

  /** The path with its query: `base` alone when there are no parameters, otherwise
      `base?k1=v1&k2=v2...`. */
  function WithQuery(base: string, ps: seq<Param>): (r: string)
    ensures base <= r
    ensures r == base <==> ps == []
    ensures ps != [] ==> r[|base|] == '?'
  {
    if ps == [] then base else base + "?" + QueryString(ps)
  }

  /** The path with its query, given the rendered pieces of its parameters. */
  lemma WithRenderedQuery(base: string, ps: seq<Param>, pieces: seq<string>)
    requires pieces == Render(ps)
    ensures WithQuery(base, ps) == if pieces == [] then base else base + "?" + Join(pieces, '&')
  {
    assert |pieces| == |ps|;
  }

  /** Reads a query back: pieces between `&`, each cut at its first `=`. */
  function ParseQuery(q: string): seq<Param>
  {
    var pieces := Split(q, '&');
    seq(|pieces|, i requires 0 <= i < |pieces| => CutAt(pieces[i], '='))
  }

  /** Reads a path back: the part before the first `?` and the parameters after it. */
  function ParsePath(path: string): (string, seq<Param>)
  {
    if '?' !in path then (path, [])
    else
      var (base, query) := CutAt(path, '?');
      (base, ParseQuery(query))
  }

  /** `xs` occurs in `ys` in order, possibly with gaps (matched from the end). */
  predicate IsSubsequence(xs: seq<string>, ys: seq<string>)
    decreases |ys|
  {
    if xs == [] then true
    else if ys == [] then false
    else if xs[|xs| - 1] == ys[|ys| - 1] then IsSubsequence(xs[..|xs| - 1], ys[..|ys| - 1])
    else IsSubsequence(xs, ys[..|ys| - 1])
  }

  /** Keys that can be read back: they hold neither separator. */
  predicate PlainKeys(ps: seq<Param>)
  {
    forall i :: 0 <= i < |ps| ==> '&' !in ps[i].0 && '=' !in ps[i].0
  }

  /** No value holds the character `c`. */
  predicate ValuesWithout(ps: seq<Param>, c: char)
  {
    forall i :: 0 <= i < |ps| ==> c !in ps[i].1
  }

  lemma {:induction false} ParseRendered(ps: seq<Param>)
    requires |ps| >= 1
    requires PlainKeys(ps) && ValuesWithout(ps, '&')
    ensures ParseQuery(QueryString(ps)) == ps
  {
    var pieces := Render(ps);
    forall i | 0 <= i < |pieces| ensures '&' !in pieces[i] {
      assert pieces[i] == ps[i].0 + "=" + ps[i].1;
    }
    SplitJoin(pieces, '&');
    var parsed := ParseQuery(QueryString(ps));
    assert |parsed| == |ps|;
    forall i | 0 <= i < |ps| ensures parsed[i] == ps[i] {
      assert pieces[i] == ps[i].0 + ['='] + ps[i].1;
      CutAtFirst(ps[i].0, ps[i].1, '=');
    }
  }

  /** Reading back a built path yields its base and exactly its parameters, in order. */
  lemma {:induction false} ParseWithQuery(base: string, ps: seq<Param>)
    requires '?' !in base
    requires PlainKeys(ps) && ValuesWithout(ps, '&')
    ensures ParsePath(WithQuery(base, ps)) == (base, ps)
  {
    if ps != [] {
      var q := QueryString(ps);
      var path := WithQuery(base, ps);
      assert path == base + ['?'] + q;
      assert path[|base|] == '?';
      CutAtFirst(base, q, '?');
      ParseRendered(ps);
    }
  }

  /** A path with k parameters holds k - 1 `&` separators when neither the base nor any
      parameter holds one. */
  lemma {:induction false} SeparatorCount(base: string, ps: seq<Param>)
    requires |ps| >= 1
    requires '&' !in base
    requires forall i :: 0 <= i < |ps| ==> '&' !in ps[i].0
    requires ValuesWithout(ps, '&')
    ensures Count('&', WithQuery(base, ps)) == |ps| - 1
  {
    var pieces := Render(ps);
    forall i | 0 <= i < |pieces| ensures '&' !in pieces[i] {
      assert pieces[i] == ps[i].0 + "=" + ps[i].1;
    }
    JoinSeparators(pieces, '&');
    CountAbsent('&', base + "?");
    CountAppend('&', base + "?", QueryString(ps));
  }

  /** A path holds a `?` exactly when it has parameters, and then exactly one, when
      neither the base nor any parameter holds one. */
  lemma {:induction false} QuestionMarkCount(base: string, ps: seq<Param>)
    requires '?' !in base
    requires forall i :: 0 <= i < |ps| ==> '?' !in ps[i].0
    requires ValuesWithout(ps, '?')
    ensures Count('?', WithQuery(base, ps)) == if ps == [] then 0 else 1
  {
    CountAbsent('?', base);
    if ps != [] {
      var pieces := Render(ps);
      forall i | 0 <= i < |pieces| ensures '?' !in pieces[i] {
        assert pieces[i] == ps[i].0 + "=" + ps[i].1;
      }
      JoinChars(pieces, '&', '?');
      CountAbsent('?', QueryString(ps));
      CountAppend('?', base, "?");
      CountAppend('?', base + "?", QueryString(ps));
      assert Count('?', "?") == 1 by {
        assert "?"[1..] == [];
      }
    }
  }

  /** A key is sent with a value exactly when a filter under that key was supplied with it. */
  lemma {:induction false} SuppliedMember(fs: seq<Filter>, k: string, v: string)
    ensures (k, v) in Supplied(fs) <==> (k, Some(v)) in fs
    decreases |fs|
  {
    if fs != [] {
      var init := fs[..|fs| - 1];
      SuppliedMember(init, k, v);
      assert fs == init + [fs[|fs| - 1]];
    }
  }

  lemma {:induction false} SubsequenceInit(xs: seq<string>, ys: seq<string>)
    requires xs != [] && IsSubsequence(xs, ys)
    ensures IsSubsequence(xs[..|xs| - 1], ys)
    decreases |ys|
  {
    var init := xs[..|xs| - 1];
    var ys' := ys[..|ys| - 1];
    if xs[|xs| - 1] != ys[|ys| - 1] {
      SubsequenceInit(xs, ys');
    }
    // Either way the front is a subsequence of ys'; if its last element matches the
    // last of ys, what precedes that element is too.
    if init != [] && init[|init| - 1] == ys[|ys| - 1] {
      SubsequenceInit(init, ys');
    }
  }

  /** The sent keys keep the order in which the filters are considered. */
  lemma {:induction false} SuppliedOrder(fs: seq<Filter>)
    ensures IsSubsequence(Keys(Supplied(fs)), FilterKeys(fs))
    decreases |fs|
  {
    if fs != [] {
      var n := |fs| - 1;
      SuppliedOrder(fs[..n]);
      var front := Keys(Supplied(fs[..n]));
      var all := FilterKeys(fs);
      assert all[..|all| - 1] == FilterKeys(fs[..n]);
      if fs[n].1.Some? {
        assert Keys(Supplied(fs)) == front + [fs[n].0];
        assert (front + [fs[n].0])[..|front|] == front;
      } else {
        assert Keys(Supplied(fs)) == front;
        if front != [] && front[|front| - 1] == fs[n].0 {
          SubsequenceInit(front, FilterKeys(fs[..n]));
        }
      }
    }
  }
}
