/**
 * Literal placeholder templating as the handlers do it: an HTML skeleton
 * holding ${name} placeholders, filled by a chain of String.replace calls.
 *
 * A template is described as a list of pieces, literal text and
 * placeholders. The reference meaning of filling it is simultaneous
 * substitution (Render): every placeholder with a field becomes that
 * field's value, every other one stays verbatim, and inserted values are
 * never looked at again. The source instead applies one replace per field,
 * in a fixed order (ReplaceChain); ChainRenders states when the two agree.
 */
module Template {
  import opened JavaString

  datatype Piece = Text(text: string) | Hole(name: string)

  /** The placeholder ${name}. */
  function Key(name: string): string
  {
    "${" + name + "}"
  }

  function Tok(p: Piece): string
  {
    match p
    case Text(s) => s
    case Hole(n) => Key(n)
  }

  /** The template text that a list of pieces spells out. */
  function Flatten(ps: seq<Piece>): string
    decreases |ps|
  {
    if ps == [] then "" else Tok(ps[0]) + Flatten(ps[1..])
  }

  /** Text without a '{'. */
  predicate NoBrace(s: string)
  {
    forall i :: 0 <= i < |s| ==> s[i] != '{'
  }

  /** Placeholder names hold no brace. */
  predicate ValidName(n: string)
  {
    forall i :: 0 <= i < |n| ==> n[i] != '{' && n[i] != '}'
  }

  predicate PieceOk(p: Piece)
  {
    match p
    case Text(s) => NoBrace(s)
    case Hole(n) => ValidName(n)
  }

  /** The only '{' in the text is the one that opens a placeholder. */
  predicate WellFormed(ps: seq<Piece>)
  {
    forall i :: 0 <= i < |ps| ==> PieceOk(ps[i])
  }

  /** Every placeholder name (the first component) is valid and no value holds a '{'. */
  predicate PlainFields(fields: seq<(string, string)>)
  {
    forall i :: 0 <= i < |fields| ==> ValidName(fields[i].0) && NoBrace(fields[i].1)
  }

  /** Each occurrence of the placeholder name is replaced by the pieces vs. */
  function Expand(ps: seq<Piece>, name: string, vs: seq<Piece>): seq<Piece>
    decreases |ps|
  {
    if ps == [] then []
    else (if ps[0] == Hole(name) then vs else [ps[0]]) + Expand(ps[1..], name, vs)
  }

  function SubstPiece(p: Piece, fields: map<string, string>): Piece
  {
    match p
    case Text(_) => p
    case Hole(n) => if n in fields then Text(fields[n]) else p
  }

  function Subst(ps: seq<Piece>, fields: map<string, string>): seq<Piece>
    decreases |ps|
  {
    if ps == [] then [] else [SubstPiece(ps[0], fields)] + Subst(ps[1..], fields)
  }

  /** Reference rendering: literal, simultaneous, non-recursive substitution. */
  function Render(ps: seq<Piece>, fields: map<string, string>): string
  {
    Flatten(Subst(ps, fields))
  }

  /** The fields of an ordered list of (placeholder, value) pairs; the first pair for a name wins. */
  function FieldMap(fields: seq<(string, string)>): map<string, string>
    decreases |fields|
  {
    if fields == [] then map[] else FieldMap(fields[1..])[fields[0].0 := fields[0].1]
  }

  /** template.replace(Key(n0), v0).replace(Key(n1), v1)... in the order given. */
  function ReplaceChain(s: string, fields: seq<(string, string)>): string
    decreases |fields|
  {
    if fields == [] then s
    else ReplaceChain(Replace(s, Key(fields[0].0), fields[0].1), fields[1..])
  }

  lemma NoBraceAppend(a: string, b: string)
    requires NoBrace(a) && NoBrace(b)
    ensures NoBrace(a + b)
  {
    forall i | 0 <= i < |a + b|
      ensures (a + b)[i] != '{'
    {
      if i < |a| {
        assert (a + b)[i] == a[i];
      } else {
        assert (a + b)[i] == b[i - |a|];
      }
    }
  }

  lemma NoBraceNotIn(s: string)
    ensures NoBrace(s) <==> '{' !in s
  {
    if '{' in s {
      var i :| 0 <= i < |s| && s[i] == '{';
    }
  }

  /** Rendering goes piece by piece. */
  lemma RenderStep(ps: seq<Piece>, fields: map<string, string>)
    requires ps != []
    ensures Render(ps, fields) == Tok(SubstPiece(ps[0], fields)) + Render(ps[1..], fields)
  {
    assert Subst(ps, fields)[1..] == Subst(ps[1..], fields);
  }

  /** Literal text is rendered as itself. */
  lemma RenderTextThen(s: string, rest: seq<Piece>, fields: map<string, string>)
    ensures Render([Text(s)] + rest, fields) == s + Render(rest, fields)
  {
    RenderStep([Text(s)] + rest, fields);
    assert ([Text(s)] + rest)[1..] == rest;
  }

  /** A placeholder with a field is rendered as the field's value. */
  lemma RenderHoleThen(name: string, rest: seq<Piece>, fields: map<string, string>)
    requires name in fields
    ensures Render([Hole(name)] + rest, fields) == fields[name] + Render(rest, fields)
  {
    RenderStep([Hole(name)] + rest, fields);
    assert ([Hole(name)] + rest)[1..] == rest;
  }

  lemma RenderLast(s: string, fields: map<string, string>)
    ensures Render([Text(s)], fields) == s
  {
    RenderStep([Text(s)], fields);
  }

  /** A name gets the value of its first pair in the list. */
  lemma {:induction false} FieldMapLookup(fields: seq<(string, string)>, i: int)
    requires 0 <= i < |fields|
    requires forall j :: 0 <= j < i ==> fields[j].0 != fields[i].0
    ensures fields[i].0 in FieldMap(fields) && FieldMap(fields)[fields[i].0] == fields[i].1
    decreases i
  {
    if i > 0 {
      FieldMapLookup(fields[1..], i - 1);
    }
  }

  lemma {:induction false} FlattenAppend(a: seq<Piece>, b: seq<Piece>)
    ensures Flatten(a + b) == Flatten(a) + Flatten(b)
    decreases |a|
  {
    if a == [] {
      assert a + b == b;
    } else {
      assert (a + b)[1..] == a[1..] + b;
      FlattenAppend(a[1..], b);
    }
  }

  /** The text of a well-formed template never starts with '{'. */
  lemma {:induction false} FlattenFront(ps: seq<Piece>)
    requires WellFormed(ps)
    ensures Flatten(ps) == "" || Flatten(ps)[0] != '{'
    decreases |ps|
  {
    if ps != [] {
      assert PieceOk(ps[0]);
      FlattenFront(ps[1..]);
      if Tok(ps[0]) != "" {
        assert Flatten(ps)[0] == Tok(ps[0])[0];
      }
    }
  }

  /** Two distinct valid names: ${name} does not occur at the start of ${m} followed by anything. */
  lemma OtherKeyMisses(m: string, name: string, rest: string)
    requires ValidName(m) && ValidName(name) && m != name
    ensures !OccursAt(Key(m) + rest, 0, Key(name))
  {
    var s, t := Key(m) + rest, Key(name);
    if |t| <= |s| {
      var j: int;
      if |m| == |name| {
        var k :| 0 <= k < |m| && m[k] != name[k];
        j := k + 2;
      } else if |name| < |m| {
        j := |name| + 2;
        assert t[j] == '}' && s[j] == m[|name|];
      } else {
        j := |m| + 2;
        assert s[j] == '}' && t[j] == name[|m|];
      }
      assert s[..|t|][j] != t[j];
    }
  }

  /** A piece other than the placeholder being filled is copied through by the replace. */
  lemma TokSkip(p: Piece, rest: string, name: string, replacement: string)
    requires PieceOk(p) && p != Hole(name) && ValidName(name)
    requires rest == "" || rest[0] != '{'
    ensures Replace(Tok(p) + rest, Key(name), replacement) == Tok(p) + Replace(rest, Key(name), replacement)
  {
    var a, t := Tok(p), Key(name);
    var s := a + rest;
    forall i | 0 <= i < |a|
      ensures !OccursAt(s, i, t)
    {
      if i + |t| <= |s| {
        if p.Hole? && i == 0 {
          OtherKeyMisses(p.name, name, rest);
        } else {
          assert s[i + 1] != '{' by {
            match p
            case Text(x) =>
              if i + 1 < |x| {
                assert s[i + 1] == x[i + 1];
              }
            case Hole(m) =>
              if i + 1 < |m| + 2 {
                assert s[i + 1] == m[i - 1];
              }
          }
          assert s[i..i + |t|][1] != t[1];
        }
      }
    }
    ReplaceSkip(a, rest, t, replacement);
  }

  /**
   * One replace of ${name} over a well-formed template expands exactly the
   * placeholders named name; the value is inserted verbatim.
   */
  lemma {:induction false} ReplaceExpandsHole(ps: seq<Piece>, name: string, vs: seq<Piece>)
    requires WellFormed(ps) && ValidName(name)
    ensures Replace(Flatten(ps), Key(name), Flatten(vs)) == Flatten(Expand(ps, name, vs))
    decreases |ps|
  {
    if ps != [] {
      var rest := Flatten(ps[1..]);
      assert WellFormed(ps[1..]) by {
        forall i | 0 <= i < |ps[1..]| ensures PieceOk(ps[1..][i]) { assert ps[1..][i] == ps[i + 1]; }
      }
      ReplaceExpandsHole(ps[1..], name, vs);
      if ps[0] == Hole(name) {
        ReplaceHit(Key(name), rest, Flatten(vs));
        FlattenAppend(vs, Expand(ps[1..], name, vs));
      } else {
        assert PieceOk(ps[0]);
        FlattenFront(ps[1..]);
        TokSkip(ps[0], rest, name, Flatten(vs));
        FlattenAppend([ps[0]], Expand(ps[1..], name, vs));
      }
    }
  }

  lemma {:induction false} ExpandWellFormed(ps: seq<Piece>, name: string, vs: seq<Piece>)
    requires WellFormed(ps) && WellFormed(vs)
    ensures WellFormed(Expand(ps, name, vs))
    decreases |ps|
  {
    if ps != [] {
      assert WellFormed(ps[1..]) by {
        forall i | 0 <= i < |ps[1..]| ensures PieceOk(ps[1..][i]) { assert ps[1..][i] == ps[i + 1]; }
      }
      ExpandWellFormed(ps[1..], name, vs);
      assert PieceOk(ps[0]);
    }
  }

  /**
   * Filling the placeholder name with a piece q that the remaining fields
   * turn into the text v is the same as supplying v for name directly.
   */
  lemma {:induction false} SubstExpand(ps: seq<Piece>, name: string, q: Piece, fields: map<string, string>, v: string)
    requires SubstPiece(q, fields) == Text(v)
    ensures Subst(Expand(ps, name, [q]), fields) == Subst(ps, fields[name := v])
    decreases |ps|
  {
    if ps != [] {
      SubstExpand(ps[1..], name, q, fields, v);
      var e := Expand(ps[1..], name, [q]);
      var h := if ps[0] == Hole(name) then [q] else [ps[0]];
      assert Expand(ps, name, [q]) == h + e;
      assert (h + e)[1..] == e;
      assert SubstPiece(h[0], fields) == SubstPiece(ps[0], fields[name := v]);
    }
  }

  /** Placeholders for which no field is supplied are left verbatim. */
  lemma {:induction false} RenderUnsupplied(ps: seq<Piece>, fields: map<string, string>)
    requires forall i :: 0 <= i < |ps| && ps[i].Hole? ==> ps[i].name !in fields
    ensures Render(ps, fields) == Flatten(ps)
    decreases |ps|
  {
    if ps != [] {
      assert forall i :: 0 <= i < |ps[1..]| ==> ps[1..][i] == ps[i + 1];
      RenderUnsupplied(ps[1..], fields);
      assert SubstPiece(ps[0], fields) == ps[0];
    }
  }

  /**
   * A placeholder without a field stays verbatim wherever it stands, also
   * among placeholders that are filled.
   */
  lemma RenderKeepsUnsupplied(a: seq<Piece>, name: string, b: seq<Piece>, fields: map<string, string>)
    requires name !in fields
    ensures Render(a + [Hole(name)] + b, fields) == Render(a, fields) + Key(name) + Render(b, fields)
  {
    RenderAppend(a + [Hole(name)], b, fields);
    RenderAppend(a, [Hole(name)], fields);
    RenderStep([Hole(name)], fields);
  }

  /**
   * The replace chain over a well-formed template renders it: when no value
   * holds a '{', filling one placeholder after another is the same as
   * simultaneous substitution of every field.
   */
  lemma {:induction false} ChainRenders(ps: seq<Piece>, fields: seq<(string, string)>)
    requires WellFormed(ps) && PlainFields(fields)
    ensures ReplaceChain(Flatten(ps), fields) == Render(ps, FieldMap(fields))
    decreases |fields|
  {
    if fields == [] {
      RenderUnsupplied(ps, map[]);
    } else {
      var n, v := fields[0].0, fields[0].1;
      var inserted := Expand(ps, n, [Text(v)]);
      assert Flatten([Text(v)]) == v;
      ReplaceExpandsHole(ps, n, [Text(v)]);
      assert WellFormed([Text(v)]);
      ExpandWellFormed(ps, n, [Text(v)]);
      assert PlainFields(fields[1..]) by {
        forall i | 0 <= i < |fields[1..]| ensures ValidName(fields[1..][i].0) && NoBrace(fields[1..][i].1) {
          assert fields[1..][i] == fields[i + 1];
        }
      }
      ChainRenders(inserted, fields[1..]);
      SubstExpand(ps, n, Text(v), FieldMap(fields[1..]), v);
    }
  }

  /** Filling a placeholder with plain text, as the first replace of a chain. */
  lemma ChainFillsText(ps: seq<Piece>, name: string, v: string, rest: seq<(string, string)>)
    requires WellFormed(ps) && ValidName(name) && NoBrace(v)
    ensures WellFormed(Expand(ps, name, [Text(v)]))
    ensures ReplaceChain(Flatten(ps), [(name, v)] + rest) == ReplaceChain(Flatten(Expand(ps, name, [Text(v)])), rest)
  {
    assert ([(name, v)] + rest)[1..] == rest;
    assert Flatten([Text(v)]) == v;
    ReplaceExpandsHole(ps, name, [Text(v)]);
    assert WellFormed([Text(v)]);
    ExpandWellFormed(ps, name, [Text(v)]);
  }

  /** Substitution goes piece by piece, so it distributes over concatenation. */
  lemma {:induction false} SubstAppend(a: seq<Piece>, b: seq<Piece>, fields: map<string, string>)
    ensures Subst(a + b, fields) == Subst(a, fields) + Subst(b, fields)
    decreases |a|
  {
    if a == [] {
      assert a + b == b;
    } else {
      assert (a + b)[1..] == a[1..] + b;
      SubstAppend(a[1..], b, fields);
    }
  }

  lemma RenderAppend(a: seq<Piece>, b: seq<Piece>, fields: map<string, string>)
    ensures Render(a + b, fields) == Render(a, fields) + Render(b, fields)
  {
    SubstAppend(a, b, fields);
    FlattenAppend(Subst(a, fields), Subst(b, fields));
  }

  /** A value holding one placeholder between two runs of text, as written and as rendered. */
  lemma TextAround(before: string, name: string, after: string, fields: map<string, string>)
    requires name in fields
    ensures Flatten([Text(before), Hole(name), Text(after)]) == before + Key(name) + after
    ensures Render([Text(before), Hole(name), Text(after)], fields) == before + fields[name] + after
  {
    var vs := [Text(before), Hole(name), Text(after)];
    assert vs[1..] == [Hole(name), Text(after)] && vs[1..][1..] == [Text(after)];
    assert Flatten([Text(after)]) == after + Flatten([]);
    assert Flatten(vs[1..]) == Key(name) + after;
    RenderTextThen(before, [Hole(name), Text(after)], fields);
    RenderHoleThen(name, [Text(after)], fields);
    RenderLast(after, fields);
    assert vs == [Text(before)] + [Hole(name), Text(after)];
    assert [Hole(name), Text(after)] == [Hole(name)] + [Text(after)];
  }

  /**
   * Rendering a template in which the placeholder name was expanded to the
   * pieces vs is rendering the template with name bound to vs as rendered.
   */
  lemma {:induction false} RenderExpand(ps: seq<Piece>, name: string, vs: seq<Piece>, fields: map<string, string>)
    ensures Render(Expand(ps, name, vs), fields) == Render(ps, fields[name := Render(vs, fields)])
    decreases |ps|
  {
    var g := fields[name := Render(vs, fields)];
    if ps != [] {
      RenderExpand(ps[1..], name, vs, fields);
      var e := Expand(ps[1..], name, vs);
      var h := if ps[0] == Hole(name) then vs else [ps[0]];
      assert Expand(ps, name, vs) == h + e;
      RenderAppend(h, e, fields);
      RenderStep(ps, g);
      if ps[0] != Hole(name) {
        RenderStep(h, fields);
        assert SubstPiece(ps[0], fields) == SubstPiece(ps[0], g);
      }
    }
  }

  /**
   * A value that holds placeholders of later fields is filled again by the
   * later replaces: the chain gives name the value vs rendered with the
   * remaining fields, not vs as written.
   */
  lemma ChainPlaceholderValue(ps: seq<Piece>, name: string, vs: seq<Piece>, rest: seq<(string, string)>)
    requires WellFormed(ps) && WellFormed(vs) && ValidName(name) && PlainFields(rest)
    ensures ReplaceChain(Flatten(ps), [(name, Flatten(vs))] + rest)
      == Render(ps, FieldMap(rest)[name := Render(vs, FieldMap(rest))])
  {
    assert ([(name, Flatten(vs))] + rest)[1..] == rest;
    ReplaceExpandsHole(ps, name, vs);
    ExpandWellFormed(ps, name, vs);
    ChainRenders(Expand(ps, name, vs), rest);
    RenderExpand(ps, name, vs, FieldMap(rest));
  }
}
