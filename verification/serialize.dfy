/**
  The caption serialiser (src/utils/serialize.js): the rich-text editor's
  node tree is folded into an HTML string. A text leaf becomes its escaped
  text; an element becomes the concatenation of its children, and a
  `paragraph` element is closed by a `<br>` line break.

  The HTML escaping library is not part of this model: it is the parameter
  `escape`, about which nothing is assumed unless a lemma says so.
 */
module Serialize {
  import opened Prelude

  /** A node of the editor's document tree. `kind` is the element's `type`
      property; the untyped root wrapper has `kind == None`. */
  datatype Node =
    | TextLeaf(text: string)
    | Element(kind: Option<string>, children: seq<Node>)

  const Paragraph: string := "paragraph"
  const LineBreak: string := "<br>"

  predicate IsParagraph(n: Node)
  {
    n.Element? && n.kind == Some(Paragraph)
  }

  /** `serialize(node)`. */
  function Serialize(n: Node, escape: string -> string): string
    decreases n, 1
  {
    match n
    case TextLeaf(t) => escape(t)
    case Element(_, cs) =>
      var inner := SerializeAll(cs, escape);
      if IsParagraph(n) then inner + LineBreak else inner
  }

  /** `children.map(n => serialize(n)).join('')`. */
  function SerializeAll(cs: seq<Node>, escape: string -> string): string
    decreases cs, 0
  {
    if |cs| == 0 then "" else Serialize(cs[0], escape) + SerializeAll(cs[1..], escape)
  }

  /** A text leaf serialises to its escaped text and nothing else. */
  lemma SerializeLeaf(t: string, escape: string -> string)
    ensures Serialize(TextLeaf(t), escape) == escape(t)
  {
  }

  /** Concatenation of a list of strings, `join('')`. */
  function Concat(parts: seq<string>): string
  {
    if |parts| == 0 then "" else parts[0] + Concat(parts[1..])
  }

  lemma {:induction false} ConcatAppend(a: seq<string>, b: seq<string>)
    ensures Concat(a + b) == Concat(a) + Concat(b)
  {
    if |a| == 0 {
      assert a + b == b;
    } else {
      assert (a + b)[1..] == a[1..] + b;
      ConcatAppend(a[1..], b);
    }
  }

  /** The serialisation of each child, in child order. */
  function ChildStrings(cs: seq<Node>, escape: string -> string): (r: seq<string>)
    ensures |r| == |cs|
    ensures forall i :: 0 <= i < |cs| ==> r[i] == Serialize(cs[i], escape)
  {
    seq(|cs|, i requires 0 <= i < |cs| => Serialize(cs[i], escape))
  }

  /** Children are serialised in order and joined with nothing between them. */
  lemma {:induction false} SerializeAllIsJoin(cs: seq<Node>, escape: string -> string)
    ensures SerializeAll(cs, escape) == Concat(ChildStrings(cs, escape))
  {
    if |cs| > 0 {
      SerializeAllIsJoin(cs[1..], escape);
      assert ChildStrings(cs, escape)[1..] == ChildStrings(cs[1..], escape);
    }
  }

  /** An element serialises to the in-order concatenation of its children's
      serialisations, followed by `<br>` exactly when it is a paragraph. */
  lemma SerializeElement(kind: Option<string>, cs: seq<Node>, escape: string -> string)
    ensures kind == Some(Paragraph) ==>
      Serialize(Element(kind, cs), escape) == Concat(ChildStrings(cs, escape)) + LineBreak
    ensures kind != Some(Paragraph) ==>
      Serialize(Element(kind, cs), escape) == Concat(ChildStrings(cs, escape))
  {
    SerializeAllIsJoin(cs, escape);
  }

  /** Appending a child appends its serialisation (before a paragraph's `<br>`). */
  lemma {:induction false} SerializeAllSnoc(cs: seq<Node>, c: Node, escape: string -> string)
    ensures SerializeAll(cs + [c], escape) == SerializeAll(cs, escape) + Serialize(c, escape)
  {
    if |cs| == 0 {
      assert cs + [c] == [c];
    } else {
      assert (cs + [c])[1..] == cs[1..] + [c];
      SerializeAllSnoc(cs[1..], c, escape);
    }
  }

  /** Empty elements: a paragraph yields just `<br>`, anything else the empty string. */
  lemma EmptyElements(kind: Option<string>, escape: string -> string)
    ensures Serialize(Element(Some(Paragraph), []), escape) == LineBreak
    ensures kind != Some(Paragraph) ==> Serialize(Element(kind, []), escape) == ""
  {
  }

  // ---------------------------------------------------------------------------
  // Counting line breaks

  /** Number of paragraph elements in a tree. */
  function Paragraphs(n: Node): nat
    decreases n, 1
  {
    match n
    case TextLeaf(_) => 0
    case Element(_, cs) => (if IsParagraph(n) then 1 else 0) + ParagraphsAll(cs)
  }

  function ParagraphsAll(cs: seq<Node>): nat
    decreases cs, 0
  {
    if |cs| == 0 then 0 else Paragraphs(cs[0]) + ParagraphsAll(cs[1..])
  }

  /** Number of positions at which `<br>` starts in `s`. */
  function CountBreaks(s: string): nat
  {
    if |s| < |LineBreak| then 0
    else (if s[..|LineBreak|] == LineBreak then 1 else 0) + CountBreaks(s[1..])
  }

  /** Every `<` in `s` opens a complete `<br>`. */
  predicate OnlyBreakTags(s: string)
  {
    forall i :: 0 <= i < |s| && s[i] == '<' ==> i + |LineBreak| <= |s| && s[i..i + |LineBreak|] == LineBreak
  }

  /** No `<br>` can straddle the seam after a string whose every `<` opens a `<br>`. */
  lemma {:induction false} CountBreaksAppend(a: string, b: string)
    requires OnlyBreakTags(a)
    ensures CountBreaks(a + b) == CountBreaks(a) + CountBreaks(b)
  {
    if |a| == 0 {
      assert a + b == b;
    } else {
      assert (a + b)[1..] == a[1..] + b;
      assert OnlyBreakTags(a[1..]) by {
        forall i | 0 <= i < |a[1..]| && a[1..][i] == '<'
          ensures i + |LineBreak| <= |a[1..]| && a[1..][i..i + |LineBreak|] == LineBreak
        {
          assert a[i + 1] == '<';
          assert a[1..][i..i + |LineBreak|] == a[i + 1..i + 1 + |LineBreak|];
        }
      }
      CountBreaksAppend(a[1..], b);
      if |a| >= |LineBreak| {
        assert (a + b)[..|LineBreak|] == a[..|LineBreak|];
      } else {
        assert a[0] != '<';
        assert |a + b| >= |LineBreak| ==> (a + b)[..|LineBreak|][0] == a[0] != LineBreak[0];
      }
    }
  }

  lemma OnlyBreakTagsAppend(a: string, b: string)
    requires OnlyBreakTags(a) && OnlyBreakTags(b)
    ensures OnlyBreakTags(a + b)
  {
    forall i | 0 <= i < |a + b| && (a + b)[i] == '<'
      ensures i + |LineBreak| <= |a + b| && (a + b)[i..i + |LineBreak|] == LineBreak
    {
      if i < |a| {
        assert a[i] == '<';
        assert (a + b)[i..i + |LineBreak|] == a[i..i + |LineBreak|];
      } else {
        assert b[i - |a|] == '<';
        assert (a + b)[i..i + |LineBreak|] == b[i - |a|..i - |a| + |LineBreak|];
      }
    }
  }

  /** When the escaper never produces `<`, each paragraph contributes exactly one
      `<br>` and nothing else does. */
  lemma {:induction false} BreaksCountParagraphs(n: Node, escape: string -> string)
    requires forall t :: '<' !in escape(t)
    ensures OnlyBreakTags(Serialize(n, escape))
    ensures CountBreaks(Serialize(n, escape)) == Paragraphs(n)
    decreases n, 1
  {
    match n
    case TextLeaf(t) =>
      EscapedTextHasNoBreaks(escape(t));
    case Element(k, cs) =>
      BreaksCountParagraphsAll(cs, escape);
      var inner := SerializeAll(cs, escape);
      if IsParagraph(n) {
        OnlyBreakTagsAppend(inner, LineBreak);
        CountBreaksAppend(inner, LineBreak);
      }
  }

  lemma {:induction false} BreaksCountParagraphsAll(cs: seq<Node>, escape: string -> string)
    requires forall t :: '<' !in escape(t)
    ensures OnlyBreakTags(SerializeAll(cs, escape))
    ensures CountBreaks(SerializeAll(cs, escape)) == ParagraphsAll(cs)
    decreases cs, 0
  {
    if |cs| > 0 {
      BreaksCountParagraphs(cs[0], escape);
      BreaksCountParagraphsAll(cs[1..], escape);
      var head := Serialize(cs[0], escape);
      var tail := SerializeAll(cs[1..], escape);
      OnlyBreakTagsAppend(head, tail);
      CountBreaksAppend(head, tail);
    }
  }

  /** A string without `<` contains no `<br>`. */
  lemma {:induction false} EscapedTextHasNoBreaks(s: string)
    requires '<' !in s
    ensures OnlyBreakTags(s) && CountBreaks(s) == 0
  {
    if |s| >= |LineBreak| {
      assert s[0] in s;
      EscapedTextHasNoBreaks(s[1..]);
    }
  }
}
