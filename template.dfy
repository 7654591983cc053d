/**
 * A text template as data. An f-string is a sequence of literal text and
 * replacement fields; rendering it concatenates the literal text with the
 * value bound to each field, in order, and adds nothing else.
 */
module Template {

  datatype Piece<S> = Text(text: string) | Hole(slot: S)

  function PieceText<S>(p: Piece<S>, fill: S -> string): (text: string)
  {
    match p
    case Text(t) => t
    case Hole(s) => fill(s)
  }

  function Render<S>(layout: seq<Piece<S>>, fill: S -> string): (text: string)
  {
    if layout == [] then "" else PieceText(layout[0], fill) + Render(layout[1..], fill)
  }

  /** `part` occurs in `text` starting at index `i`. */
  predicate OccursAt(text: string, part: string, i: int)
  {
    0 <= i <= |text| - |part| && text[i..i + |part|] == part
  }

  /** `part` occurs somewhere in `text`. */
  predicate Contains(text: string, part: string)
  {
    exists i | 0 <= i <= |text| - |part| :: OccursAt(text, part, i)
  }

  /** Two fillings that give every hole of `layout` the same text. */
  predicate AgreeOn<S>(layout: seq<Piece<S>>, f: S -> string, g: S -> string)
  {
    forall i | 0 <= i < |layout| :: layout[i].Hole? ==> f(layout[i].slot) == g(layout[i].slot)
  }

  /** Rendering is a homomorphism from layout concatenation to text concatenation. */
  lemma {:induction false} RenderAppend<S>(a: seq<Piece<S>>, b: seq<Piece<S>>, fill: S -> string)
    ensures Render(a + b, fill) == Render(a, fill) + Render(b, fill)
  {
    if a == [] {
      assert a + b == b;
    } else {
      assert (a + b)[1..] == a[1..] + b;
      RenderAppend(a[1..], b, fill);
    }
  }

  /** The rendered text depends on the filling only through the holes the layout has. */
  lemma {:induction false} RenderAgree<S>(layout: seq<Piece<S>>, f: S -> string, g: S -> string)
    requires AgreeOn(layout, f, g)
    ensures Render(layout, f) == Render(layout, g)
  {
    if layout != [] {
      RenderAgree(layout[1..], f, g);
    }
  }

  /** Unfolds `Render` piece by piece over every suffix of a layout. */
  lemma RenderSuffixes<S>(layout: seq<Piece<S>>, fill: S -> string)
    ensures Render(layout, fill) == Render(layout[0..], fill)
    ensures Render(layout[|layout|..], fill) == ""
    ensures forall k | 0 <= k < |layout| ::
      Render(layout[k..], fill) == PieceText(layout[k], fill) + Render(layout[k + 1..], fill)
  {
    assert layout[0..] == layout;
    forall k | 0 <= k < |layout|
      ensures Render(layout[k..], fill) == PieceText(layout[k], fill) + Render(layout[k + 1..], fill)
    {
      assert layout[k..][1..] == layout[k + 1..];
    }
  }

  /** A layout is the concatenation of its pieces before `i`, from `i` to `j`, and from `j`. */
  lemma SplitThree<S>(layout: seq<Piece<S>>, i: nat, j: nat)
    requires i <= j <= |layout|
    ensures layout == layout[..i] + layout[i..j] + layout[j..]
  {
    var parts := layout[..i] + layout[i..j] + layout[j..];
    assert |parts| == |layout|;
    forall k | 0 <= k < |layout|
      ensures parts[k] == layout[k]
    {
      if k < i {
      } else if k < j {
        assert parts[k] == layout[i..j][k - i];
      } else {
        assert parts[k] == layout[j..][k - j];
      }
    }
  }

  /** Any contiguous run of pieces renders to a contiguous part of the whole text. */
  lemma RenderSlice<S>(layout: seq<Piece<S>>, i: nat, j: nat, fill: S -> string)
    requires i <= j <= |layout|
    ensures Render(layout, fill) == Render(layout[..i], fill) + Render(layout[i..j], fill) + Render(layout[j..], fill)
    ensures Contains(Render(layout, fill), Render(layout[i..j], fill))
  {
    var front, middle, back := layout[..i], layout[i..j], layout[j..];
    SplitThree(layout, i, j);
    RenderAppend(front + middle, back, fill);
    RenderAppend(front, middle, fill);
    ContainsMiddle(Render(front, fill), Render(middle, fill), Render(back, fill));
  }

  /** The first `j` pieces render to a prefix of the whole text. */
  lemma RenderPrefix<S>(layout: seq<Piece<S>>, j: nat, fill: S -> string)
    requires j <= |layout|
    ensures Render(layout[..j], fill) <= Render(layout, fill)
  {
    SplitThree(layout, j, j);
    assert layout[..j] + layout[j..j] == layout[..j];
    RenderAppend(layout[..j], layout[j..], fill);
  }

  lemma ContainsMiddle(a: string, b: string, c: string)
    ensures Contains(a + b + c, b)
  {
    assert (a + b + c)[|a|..|a| + |b|] == b;
    assert OccursAt(a + b + c, b, |a|);
  }

  /** A text contains each of its prefixes. */
  lemma PrefixContains(text: string, pre: string)
    requires pre <= text
    ensures Contains(text, pre)
  {
    assert text[0..|pre|] == pre;
    assert OccursAt(text, pre, 0);
  }

  /** Containment is transitive. */
  lemma ContainsTrans(text: string, mid: string, part: string)
    requires Contains(text, mid) && Contains(mid, part)
    ensures Contains(text, part)
  {
    var i :| 0 <= i <= |text| - |mid| && OccursAt(text, mid, i);
    var j :| 0 <= j <= |mid| - |part| && OccursAt(mid, part, j);
    forall k | 0 <= k < |part|
      ensures text[i + j + k] == part[k]
    {
      assert text[i..i + |mid|][j + k] == mid[j + k];
      assert mid[j..j + |part|][k] == mid[j + k];
    }
    assert text[i + j..i + j + |part|] == part;
    assert OccursAt(text, part, i + j);
  }

  /** Whatever contains `a + b + c` contains `b`. */
  lemma ContainsPart(text: string, a: string, b: string, c: string)
    requires Contains(text, a + b + c)
    ensures Contains(text, b)
  {
    var whole := a + b + c;
    var i :| 0 <= i <= |text| - |whole| && OccursAt(text, whole, i);
    var t := text[i..i + |whole|];
    assert t == whole;
    forall k | 0 <= k < |b|
      ensures text[i + |a| + k] == b[k]
    {
      assert t[|a| + k] == whole[|a| + k];
    }
    assert text[i + |a|..i + |a| + |b|] == b;
    assert OccursAt(text, b, i + |a|);
  }

  /** Three texts, each followed by a field. */
  lemma RenderAlternating<S>(a: string, x: S, b: string, y: S, c: string, z: S, fill: S -> string)
    ensures Render([Text(a), Hole(x), Text(b), Hole(y), Text(c), Hole(z)], fill)
         == a + fill(x) + b + fill(y) + c + fill(z)
  {
    var fx, fy, fz := fill(x), fill(y), fill(z);
    var l5: seq<Piece<S>> := [Hole(z)];
    var l4 := [Text(c)] + l5;
    var l3 := [Hole(y)] + l4;
    var l2 := [Text(b)] + l3;
    var l1 := [Hole(x)] + l2;
    var l0 := [Text(a)] + l1;
    assert l0 == [Text(a), Hole(x), Text(b), Hole(y), Text(c), Hole(z)];
    assert Render(l5, fill) == fz by {
      assert l5[1..] == [];
      assert fz + "" == fz;
    }
    assert l4[0] == Text(c) && l4[1..] == l5;
    assert Render(l4, fill) == c + fz;
    assert l3[0] == Hole(y) && l3[1..] == l4;
    assert Render(l3, fill) == fy + (c + fz);
    assert l2[0] == Text(b) && l2[1..] == l3;
    assert Render(l2, fill) == b + (fy + (c + fz));
    assert l1[0] == Hole(x) && l1[1..] == l2;
    assert Render(l1, fill) == fx + (b + (fy + (c + fz)));
    assert l0[0] == Text(a) && l0[1..] == l1;
    assert Render(l0, fill) == a + (fx + (b + (fy + (c + fz))));
    assert a + (fx + (b + (fy + (c + fz)))) == a + fx + b + fy + c + fz;
  }

  /** A layout followed by one field and one text renders as the layout's text, the field, then the text. */
  lemma RenderFieldThenText<S>(layout: seq<Piece<S>>, x: S, t: string, fill: S -> string)
    ensures Render(layout + [Hole(x), Text(t)], fill) == Render(layout, fill) + fill(x) + t
  {
    var tail: seq<Piece<S>> := [Hole(x), Text(t)];
    RenderAppend(layout, tail, fill);
    var last: seq<Piece<S>> := [Text(t)];
    assert tail[0] == Hole(x) && tail[1..] == last;
    assert last[0] == Text(t) && last[1..] == [];
    assert Render(last, fill) == t + "";
    assert Render(tail, fill) == fill(x) + (t + "");
    assert t + "" == t;
  }
}
